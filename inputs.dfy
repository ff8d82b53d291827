/** What `ixgbe_check_options` reads: the module-parameter arrays, the
    board's fixed properties, the build configuration and the values that
    come from code outside the parameter file; and what it writes: the
    adapter's flags and configuration fields, as one value. */
module ParamInputs {
  import opened Validator

  /** IXGBE_MAX_NIC: every parameter array has IXGBE_MAX_NIC + 1 slots. */
  const MaxNic: nat := 32

  /** A C `int` that the driver only ever sets to a non-negative value. */
  type NonNegInt = x: int | 0 <= x <= 0x7FFF_FFFF

  /** The int stored in a parameter slot, read back as a signed value. */
  function AsSigned(v: uint32): (r: int)
    ensures -0x8000_0000 <= r < 0x8000_0000
    ensures r > 0 <==> 0 < v < 0x8000_0000
    ensures r == v || r == v - 0x1_0000_0000
  {
    if v < 0x8000_0000 then v else v - 0x1_0000_0000
  }

  datatype MacType =
    | Mac82598EB | Mac82599EB | MacX540 | MacX550 | MacX550EMx | MacX550EMa | MacE610
    | MacOther  // every other MAC type the driver knows

  /** The MAC types that get DMA coalescing and malicious-driver detection. */
  predicate IsX550Family(mac: MacType) {
    mac == MacX550 || mac == MacX550EMx || mac == MacX550EMa || mac == MacE610
  }

  /** The MAC types whose FCoE option is consulted. */
  predicate IsFcoeMac(mac: MacType) {
    mac == MacX540 || mac == MacX550 || mac == MacE610 || mac == Mac82599EB
  }

  /** The IXGBE_FLAG_* bits of `adapter->flags` this code reads or writes. */
  datatype Flag =
    | MsiCapable | MsixCapable | MqCapable
    | DcaCapable | DcaEnabled | DcaEnabledData
    | VmdqEnabled | SriovCapable | SriovEnabled | SriovVepaBridgeMode
    | LliPush | FcoeCapable
    | VxlanOffloadCapable | VxlanOffloadEnable
    | MddEnabled

  /** One module-parameter array and the count of values the user gave.
      The kernel writes only the first `num` slots; the rest keep the
      initial OPTION_UNSET. */
  datatype ParamArray = ParamArray(values: seq<uint32>, num: nat) {
    ghost predicate Valid() {
      |values| == MaxNic + 1 && num <= |values|
      && forall i :: num <= i < |values| ==> values[i] == OptionUnset
    }

    /** The board's entry when `num_X > bd`, nothing otherwise. */
    function Slot(bd: nat): (r: Option<uint32>)
      requires Valid()
      ensures r.Some? <==> bd < num
      ensures r.Some? ==> bd < |values| && r.value == values[bd]
    {
      if num > bd then Some(values[bd]) else None
    }
  }

  /** Every array `ixgbe_param.c` declares with IXGBE_PARAM. */
  datatype ModuleParams = ModuleParams(
    intMode: ParamArray, interruptType: ParamArray, mq: ParamArray, dca: ParamArray,
    rss: ParamArray, vmdq: ParamArray, maxVfs: ParamArray, vepa: ParamArray,
    interruptThrottleRate: ParamArray,
    lliPort: ParamArray, lliPush: ParamArray, lliSize: ParamArray, lliEType: ParamArray,
    lliVlanP: ParamArray,
    fdirPballoc: ParamArray, atrSampleRate: ParamArray, fcoe: ParamArray,
    mdd: ParamArray, lro: ParamArray, allowUnsupportedSfp: ParamArray,
    dmacWatchdog: ParamArray, vxlanRx: ParamArray)
  {
    ghost predicate Valid() {
      && intMode.Valid() && interruptType.Valid() && mq.Valid() && dca.Valid()
      && rss.Valid() && vmdq.Valid() && maxVfs.Valid() && vepa.Valid()
      && interruptThrottleRate.Valid()
      && lliPort.Valid() && lliPush.Valid() && lliSize.Valid() && lliEType.Valid()
      && lliVlanP.Valid()
      && fdirPballoc.Valid() && atrSampleRate.Valid() && fcoe.Valid()
      && mdd.Valid() && lro.Valid() && allowUnsupportedSfp.Valid()
      && dmacWatchdog.Valid() && vxlanRx.Valid()
    }
  }

  /** The conditional-compilation switches: CONFIG_DCA, CONFIG_PCI_IOV,
      the absence of IXGBE_NO_LLI, HAVE_TX_MQ and CONFIG_FCOE. */
  datatype BuildConfig = BuildConfig(dca: bool, pciIov: bool, lli: bool, txMq: bool, fcoe: bool)

  /** Values defined outside the parameter file: IXGBE_MIN_INT_RATE,
      IXGBE_MAX_INT_RATE, IXGBE_MAX_VMDQ_INDICES and num_online_cpus(). */
  datatype HostLimits = HostLimits(minItr: NonNegInt, maxItr: NonNegInt,
                                   maxVmdqIndices: NonNegInt, numOnlineCpus: NonNegInt)

  /** The parts of the adapter this code reads but never writes:
      `bd_number`, `hw.mac.type`, IXGBE_FLAG2_RSC_CAPABLE of `flags2`, and
      what `ixgbe_max_rss_indices(adapter)` returns for it. */
  datatype Board = Board(bd: nat, mac: MacType, rscCapable: bool, maxRssIndices: NonNegInt)

  /** Indices into `adapter->ring_feature[]` (RING_F_VMDQ, RING_F_RSS,
      RING_F_FDIR); only their being distinct matters here. */
  const RingVmdq: nat := 0
  const RingRss: nat := 1
  const RingFdir: nat := 2
  const RingFeatureCount: nat := 3

  /** The adapter fields the code writes. `lro` is NETIF_F_LRO of
      `netdev->features`; `allowUnsupportedSfp` and `dmacWatchdog` live in
      `adapter->hw`; `ringLimit[k]` is `ring_feature[k].limit`. */
  datatype AdapterState = AdapterState(
    flags: set<Flag>, lro: bool, ringLimit: seq<nat>,
    rxItrSetting: nat, txItrSetting: nat, maxVfs: uint32,
    lliPort: uint32, lliSize: uint32, lliEType: uint32, lliVlanPri: uint32,
    fdirPballoc: uint32, atrSampleRate: uint32,
    allowUnsupportedSfp: bool, dmacWatchdog: uint32)
  {
    ghost predicate Valid() { |ringLimit| == RingFeatureCount }
  }

  // Interrupt modes
  const IntLegacy: uint32 := 0
  const IntMsi: uint32 := 1
  const IntMsix: uint32 := 2

  const MaxDca: uint32 := 2
  const MaxSriovVfs: uint32 := 63
  const DefaultItr: uint32 := 1

  const MaxLliPort: uint32 := 0xFFFF
  const MaxLliSize: uint32 := 1500
  const MaxLliEType: uint32 := 0x8fff
  const MaxLliVlanP: uint32 := 7

  /** IXGBE_FDIR_PBALLOC_NONE/64K/128K/256K, numbered as the levels 1-3 of
      the FdirPballoc parameter. */
  const FdirPballocNone: uint32 := 0
  const FdirPballoc64K: uint32 := 1
  const FdirPballoc128K: uint32 := 2
  const FdirPballoc256K: uint32 := 3

  const AtrSampleRateOff: uint32 := 0
  const MaxAtrSampleRate: uint32 := 255
  const DefaultAtrSampleRate: uint32 := 20

  const MinDmacWatchdog: uint32 := 41
  const MaxDmacWatchdog: uint32 := 10000

  // The option descriptors, one per block of ixgbe_check_options.
  const IntModeOption := OptionDesc(RangeOption(IntLegacy, IntMsix), IntMsix)
  const MqOption := OptionDesc(EnableOption, OptionEnabled)
  const DcaOption := OptionDesc(RangeOption(OptionDisabled, MaxDca), MaxDca)
  const SriovOption := OptionDesc(RangeOption(OptionDisabled, MaxSriovVfs), OptionDisabled)
  const VepaOption := OptionDesc(RangeOption(OptionDisabled, OptionEnabled), OptionDisabled)
  const LliPushOption := OptionDesc(EnableOption, OptionDisabled)
  const FdirPballocOption := OptionDesc(RangeOption(FdirPballoc64K, FdirPballoc256K), FdirPballoc64K)
  const AtrSampleRateOption := OptionDesc(RangeOption(AtrSampleRateOff, MaxAtrSampleRate), DefaultAtrSampleRate)
  const FcoeOption := OptionDesc(EnableOption, OptionEnabled)
  const LroOption := OptionDesc(EnableOption, OptionDisabled)
  const AllowUnsupportedSfpOption := OptionDesc(EnableOption, OptionDisabled)
  const MddOption := OptionDesc(EnableOption, OptionEnabled)

  /** LLIPort, LLISize, LLIEType and LLIVLANP: [0, max] with default 0. */
  function LliRangeOption(max: uint32): OptionDesc {
    OptionDesc(RangeOption(0, max), 0)
  }

  /** The RSS descriptor, its maximum replaced by the board's RSS limit. */
  function RssOption(b: Board): OptionDesc {
    OptionDesc(RangeOption(0, b.maxRssIndices), 0)
  }

  /** The VMDQ range for a board: 16 pools on 82598, IXGBE_MAX_VMDQ_INDICES
      otherwise. */
  function VmdqMax(mac: MacType, host: HostLimits): (m: uint32)
    ensures mac == Mac82598EB ==> m == 16
    ensures mac != Mac82598EB ==> m == host.maxVmdqIndices
  {
    if mac == Mac82598EB then 16 else host.maxVmdqIndices
  }

  /** The VMDQ descriptor for one board: disabled by default, which its own
      range accepts, and at most the board's pool count. */
  function VmdqOption(mac: MacType, host: HostLimits): (opt: OptionDesc)
    ensures opt.WellFormed() && opt.def == OptionDisabled && Accepts(opt.def, opt)
    ensures opt.kind == RangeOption(OptionDisabled, VmdqMax(mac, host))
  {
    OptionDesc(RangeOption(OptionDisabled, VmdqMax(mac, host)), OptionDisabled)
  }

  function ItrOption(host: HostLimits): OptionDesc {
    OptionDesc(RangeOption(host.minItr, host.maxItr), DefaultItr)
  }

  /** DMA coalescing: [41, 10000] on the X550 family while interrupt
      throttling is on, the empty-but-default range [0, 0] otherwise. */
  function DmacOption(mac: MacType, rxItr: nat, txItr: nat): (opt: OptionDesc)
    ensures opt.def == 0 && opt.kind.RangeOption?
    ensures !(IsX550Family(mac) && (rxItr != 0 || txItr != 0)) ==> opt.kind == RangeOption(0, 0)
    ensures IsX550Family(mac) && (rxItr != 0 || txItr != 0) ==>
      opt.kind == RangeOption(MinDmacWatchdog, MaxDmacWatchdog)
  {
    if IsX550Family(mac) && (rxItr != 0 || txItr != 0)
    then OptionDesc(RangeOption(MinDmacWatchdog, MaxDmacWatchdog), 0)
    else OptionDesc(RangeOption(0, 0), 0)
  }

  /** vxlan_rx: [0, 1] with default 1 when the hardware can offload,
      [0, 0] with default 0 when it cannot. */
  function VxlanRxOption(capable: bool): (opt: OptionDesc)
    ensures opt.kind.RangeOption? && opt.kind.min == 0 && Accepts(opt.def, opt)
    ensures capable ==> opt.def == 1 && opt.kind.max == 1
    ensures !capable ==> opt.def == 0 && opt.kind.max == 0
  {
    if capable then OptionDesc(RangeOption(0, 1), 1) else OptionDesc(RangeOption(0, 0), 0)
  }

  /** `ixgbe_lli_supported`: low-latency interrupts exist on X540, and on
      82599 only while the board's LLIPush slot, read as a signed int, is
      not positive. */
  function LliSupported(b: Board, lliPush: ParamArray): (r: bool)
    requires lliPush.Valid() && b.bd < |lliPush.values|
    ensures r ==> b.mac == Mac82599EB || b.mac == MacX540
    ensures b.mac == MacX540 ==> r
    ensures b.mac == Mac82599EB ==> (r <==> !(0 < lliPush.values[b.bd] < 0x8000_0000))
  {
    if b.mac == Mac82599EB then !(AsSigned(lliPush.values[b.bd]) > 0)
    else b.mac == MacX540
  }

  /** The value an option resolves to for a board: its validated entry
      when the board has one, the descriptor's default when it has none. */
  function Requested(slot: Option<uint32>, opt: OptionDesc): (r: uint32)
    requires opt.WellFormed()
    ensures slot.None? ==> r == opt.def
    ensures r == opt.def || (slot.Some? && r == slot.value && Accepts(r, opt))
    ensures slot.Some? && slot.value != OptionUnset && Accepts(slot.value, opt) ==> r == slot.value
    ensures slot.Some? && (slot.value == OptionUnset || !Accepts(slot.value, opt)) ==> r == opt.def
  {
    if slot.Some? then Validate(slot.value, opt).value else opt.def
  }
}
