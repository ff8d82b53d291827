/** Option descriptors and the single-value validator of the ixgbe
    module-parameter code: a candidate value is either kept or replaced by
    the descriptor's default, and a status code of 0 or -1 is returned. */
module Validator {

  /** The C `unsigned int` the validator works on. */
  type uint32 = x: int | 0 <= x < 0x1_0000_0000

  datatype Option<+T> = None | Some(value: T)

  /** OPTION_UNSET is the int -1, seen as an unsigned int. */
  const OptionUnset: uint32 := 0xFFFF_FFFF
  const OptionDisabled: uint32 := 0
  const OptionEnabled: uint32 := 1

  /** The kind-specific part of `struct ixgbe_option`. A list option keeps
      only the integer `i` of each entry; its text is diagnostic output. */
  datatype OptionKind =
    | EnableOption
    | RangeOption(min: uint32, max: uint32)
    | ListOption(nr: nat, entries: seq<uint32>)

  datatype OptionDesc = OptionDesc(kind: OptionKind, def: uint32) {
    /** A list option names no more entries than it has. */
    predicate WellFormed() {
      kind.ListOption? ==> kind.nr <= |kind.entries|
    }
  }

  /** What the validator leaves in `*value` and what it returns. */
  datatype Validated = Validated(value: uint32, rc: int)

  /** The acceptance test of each option kind, for a value that is not
      OPTION_UNSET. */
  predicate Accepts(value: uint32, opt: OptionDesc)
    requires opt.WellFormed()
  {
    match opt.kind
    case EnableOption => value == OptionEnabled || value == OptionDisabled
    case RangeOption(min, max) => (min <= value && value <= max) || value == opt.def
    case ListOption(nr, entries) => value in entries[..nr]
  }

  /** The outcome of `ixgbe_validate_option`. An unset value takes the
      default with status 0; an accepted value is kept with status 0; any
      other value takes the default with status -1. */
  function Validate(value: uint32, opt: OptionDesc): (r: Validated)
    requires opt.WellFormed()
    ensures r.value == value || r.value == opt.def
    ensures r.rc == 0 || r.rc == -1
    ensures r.rc == -1 ==> r.value == opt.def
    ensures r.value != value ==> r.value == opt.def && (r.rc == -1 || value == OptionUnset)
  {
    if value == OptionUnset then Validated(opt.def, 0)
    else if Accepts(value, opt) then Validated(value, 0)
    else Validated(opt.def, -1)
  }

  /** `ixgbe_validate_option`, with the list search as a loop over the
      first `nr` entries. */
  method ValidateOption(value: uint32, opt: OptionDesc) returns (v: uint32, rc: int)
    requires opt.WellFormed()
    ensures Validated(v, rc) == Validate(value, opt)
  {
    if value == OptionUnset {
      return opt.def, 0;
    }
    match opt.kind {
      case EnableOption =>
        if value == OptionEnabled || value == OptionDisabled {
          return value, 0;
        }
      case RangeOption(min, max) =>
        if (value >= min && value <= max) || value == opt.def {
          return value, 0;
        }
      case ListOption(nr, entries) =>
        var i := 0;
        while i < nr
          invariant 0 <= i <= nr
          invariant value !in entries[..i]
        {
          if value == entries[i] {
            assert entries[..nr][i] == value;
            return value, 0;
          }
          assert entries[..i + 1] == entries[..i] + [entries[i]];
          i := i + 1;
        }
        assert entries[..nr] == entries[..i];
    }
    return opt.def, -1;
  }

  /** Whatever the kind, OPTION_UNSET resolves to the default with status 0
      before the kind is looked at. */
  lemma UnsetTakesDefault(opt: OptionDesc)
    requires opt.WellFormed()
    ensures Validate(OptionUnset, opt) == Validated(opt.def, 0)
  {
  }

  /** An enable option keeps exactly 0 and 1; anything else set becomes the
      default with status -1. */
  lemma EnableOptionOutcome(value: uint32, def: uint32)
    requires value != OptionUnset
    ensures var r := Validate(value, OptionDesc(EnableOption, def));
      (value == 0 || value == 1) <==> r == Validated(value, 0)
    ensures var r := Validate(value, OptionDesc(EnableOption, def));
      !(value == 0 || value == 1) ==> r == Validated(def, -1)
  {
  }

  /** A range option keeps a value inside [min, max] and the default even
      when it lies outside; every other value is replaced with status -1. */
  lemma RangeOptionOutcome(value: uint32, min: uint32, max: uint32, def: uint32)
    requires value != OptionUnset
    ensures var r := Validate(value, OptionDesc(RangeOption(min, max), def));
      ((min <= value <= max) || value == def) <==> r == Validated(value, 0)
    ensures var r := Validate(value, OptionDesc(RangeOption(min, max), def));
      !((min <= value <= max) || value == def) ==> r == Validated(def, -1)
  {
  }

  /** A list option keeps a value exactly when one of its first `nr`
      entries carries it. */
  lemma ListOptionOutcome(value: uint32, nr: nat, entries: seq<uint32>, def: uint32)
    requires value != OptionUnset && nr <= |entries|
    ensures var r := Validate(value, OptionDesc(ListOption(nr, entries), def));
      (exists k :: 0 <= k < nr && entries[k] == value) <==> r == Validated(value, 0)
    ensures var r := Validate(value, OptionDesc(ListOption(nr, entries), def));
      (forall k :: 0 <= k < nr ==> entries[k] != value) ==> r == Validated(def, -1)
  {
    if exists k :: 0 <= k < nr && entries[k] == value {
      var k :| 0 <= k < nr && entries[k] == value;
      assert entries[..nr][k] == value;
    }
  }

  /** Validating twice changes nothing more, provided the descriptor's own
      default passes its acceptance test (every range option's does). */
  lemma ValidateIdempotent(value: uint32, opt: OptionDesc)
    requires opt.WellFormed() && opt.def != OptionUnset && Accepts(opt.def, opt)
    ensures Validate(Validate(value, opt).value, opt) == Validated(Validate(value, opt).value, 0)
  {
  }
}
