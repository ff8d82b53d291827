/** Two places where `ixgbe_check_options` as written does not do what its
    own descriptors say it means to do. For each, the code as written is
    modelled beside the corrected definition the rest of the model uses,
    with an input on which the two differ. */
module Findings {
  import opened Validator
  import opened ParamInputs
  import opened Policy

  // ----- Interrupt throttle rate: the default is encoded as a rate -----

  /** IXGBE_MIN_INT_RATE and IXGBE_MAX_INT_RATE as the driver documents
      them (956 to 488281), with 64 VMDQ pools and one CPU. */
  const ExampleHost := HostLimits(956, 488281, 64, 1)

  /** The throttle setting as written: every value other than 0 and 1 is
      validated and then encoded as a rate, the default 1 included. */
  function ItrSettingAsWritten(raw: uint32, host: HostLimits): (r: nat)
    ensures raw == 0 ==> r == 0
    ensures raw == 1 ==> r == 1
    ensures raw != 0 && raw != 1 && Validate(raw, ItrOption(host)).value == DefaultItr ==> r == 4000000
  {
    if raw == 0 then 0
    else if raw == 1 then 1
    else EncodeRate(Validate(raw, ItrOption(host)).value)
  }

  /** No rate of 2 or more encodes to more than 2000000. */
  lemma EncodeRateAtMostHalf(rate: uint32)
    requires rate >= 2
    ensures EncodeRate(rate) <= 2000000
  {
    var q := 1000000 / rate;
    assert q * rate <= 1000000;
    assert q * 2 <= q * rate;
  }

  /** When the slowest allowed rate is at least 2, 4000000 is neither off,
      nor dynamic, nor the encoding of any allowed rate. */
  lemma NotASetting(host: HostLimits)
    requires host.minItr >= 2
    ensures !IsRateSetting(4000000, host)
  {
    if IsRateSetting(4000000, host) {
      var rate: uint32 :| 0 < rate && host.minItr <= rate <= host.maxItr && 4000000 == EncodeRate(rate);
      EncodeRateAtMostHalf(rate);
    }
  }

  /** An InterruptThrottleRate entry of 500, below the driver's minimum of
      956, is replaced by the default 1, and the code as written then stores
      4000000, a value outside every meaning the setting has; the corrected
      setting is dynamic throttling, which the default stands for. */
  lemma ItrBelowMinimum()
    ensures Validate(500, ItrOption(ExampleHost)) == Validated(DefaultItr, -1)
    ensures ItrSettingAsWritten(500, ExampleHost) == 4000000
    ensures 4000000 != 0 && 4000000 != 1 && !IsRateSetting(4000000, ExampleHost)
    ensures ItrSetting(500, ExampleHost) == DefaultItr
  {
    NotASetting(ExampleHost);
  }

  /** The same happens to an entry of -1 (OPTION_UNSET), which validates to
      the default with status 0. */
  lemma ItrUnsetEntry(host: HostLimits)
    requires host.minItr >= 2
    ensures ItrSettingAsWritten(OptionUnset, host) == 4000000
    ensures !IsRateSetting(ItrSettingAsWritten(OptionUnset, host), host)
    ensures ItrSetting(OptionUnset, host) == DefaultItr
  {
    NotASetting(host);
  }

  /** Away from the default the two settings agree. */
  lemma ItrSettingsAgreeOffDefault(raw: uint32, host: HostLimits)
    requires Validate(raw, ItrOption(host)).value != DefaultItr
    ensures ItrSetting(raw, host) == ItrSettingAsWritten(raw, host)
  {
  }

  // ----- VMDQ: the 82598 limit sticks to the static descriptor -----

  /** The maximum of the static VMDQ descriptor after the boards of MAC
      types `probed` have been checked in order, starting from `initial`:
      every 82598 board lowers it to 16 and nothing raises it again. */
  function VmdqMaxAsWritten(initial: uint32, probed: seq<MacType>): (m: uint32)
    ensures m == initial || m == 16
    ensures |probed| > 0 && probed[|probed| - 1] == Mac82598EB ==> m == 16
  {
    if |probed| == 0 then initial
    else if probed[|probed| - 1] == Mac82598EB then 16
    else VmdqMaxAsWritten(initial, probed[..|probed| - 1])
  }

  /** Once any 82598 board has been checked, every later board sees a
      maximum of 16, whatever its own MAC type. */
  lemma {:induction false} VmdqMaxAsWrittenSticks(initial: uint32, probed: seq<MacType>)
    ensures VmdqMaxAsWritten(initial, probed) == if Mac82598EB in probed then 16 else initial
  {
    if |probed| > 0 && probed[|probed| - 1] != Mac82598EB {
      var prefix := probed[..|probed| - 1];
      VmdqMaxAsWrittenSticks(initial, prefix);
      assert probed == prefix + [probed[|probed| - 1]];
      assert Mac82598EB in probed <==> Mac82598EB in prefix;
    }
  }

  /** An 82598 board followed by an 82599 board, each asking for 32 pools:
      as written the 82599 board's request is refused and VMDQ stays off;
      with the range computed for each board it gets its 32 pools. */
  lemma VmdqSecondBoardRefused()
    ensures VmdqMaxAsWritten(ExampleHost.maxVmdqIndices, [Mac82598EB, Mac82599EB]) == 16
    ensures Validate(32, OptionDesc(RangeOption(OptionDisabled,
                       VmdqMaxAsWritten(ExampleHost.maxVmdqIndices, [Mac82598EB, Mac82599EB])),
                       OptionDisabled)) == Validated(OptionDisabled, -1)
    ensures VmdqMax(Mac82599EB, ExampleHost) == 64
    ensures Validate(32, VmdqOption(Mac82599EB, ExampleHost)) == Validated(32, 0)
  {
    VmdqMaxAsWrittenSticks(ExampleHost.maxVmdqIndices, [Mac82598EB, Mac82599EB]);
  }
}
