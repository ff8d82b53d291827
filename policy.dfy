/** The per-option policy of `ixgbe_check_options`, one function per option
    block: each maps the adapter state before the block to the state after
    it. `CheckOptionsSpec` runs them in the source's order, so that each
    interoperability check sees what the earlier blocks decided. */
module Policy {
  import opened Validator
  import opened ParamInputs

  function Min(a: int, b: int): int { if a < b then a else b }

  // ----- Interrupt mode -----

  /** The validated interrupt mode, when the board has an IntMode or an
      InterruptType entry; an unset IntMode slot falls back to the
      deprecated InterruptType slot. */
  function IntModeRequest(b: Board, p: ModuleParams): (r: Option<uint32>)
    requires p.Valid()
    ensures r.Some? <==> (b.bd < p.intMode.num || b.bd < p.interruptType.num)
    ensures r.Some? ==> r.value <= IntMsix
    ensures r.Some? && p.intMode.values[b.bd] <= IntMsix ==> r.value == p.intMode.values[b.bd]
    ensures r.Some? && IntMsix < p.intMode.values[b.bd] < OptionUnset ==> r.value == IntMsix
    ensures r.Some? && p.intMode.values[b.bd] == OptionUnset ==>
      r.value == if p.interruptType.values[b.bd] <= IntMsix then p.interruptType.values[b.bd] else IntMsix
  {
    if p.intMode.num > b.bd || p.interruptType.num > b.bd then
      var raw := if p.intMode.values[b.bd] == OptionUnset then p.interruptType.values[b.bd]
                 else p.intMode.values[b.bd];
      Some(Validate(raw, IntModeOption).value)
    else None
  }

  /** MSI-X survives only a request for MSI-X (or for MSI on hardware
      without MSI); MSI survives any request but legacy; with no entry, MSI
      follows MSI-X. No other state changes. */
  function IntModeStep(s: AdapterState, b: Board, p: ModuleParams): (t: AdapterState)
    requires p.Valid()
    ensures t == s.(flags := t.flags)
    ensures t.flags - {MsiCapable, MsixCapable} == s.flags - {MsiCapable, MsixCapable}
    ensures MsixCapable in t.flags <==>
      MsixCapable in s.flags &&
      match IntModeRequest(b, p)
      case None => true
      case Some(m) => m == IntMsix || (m == IntMsi && MsiCapable !in s.flags)
    ensures MsiCapable in t.flags <==>
      match IntModeRequest(b, p)
      case None => MsixCapable in s.flags
      case Some(m) => MsiCapable in s.flags && m != IntLegacy
  {
    match IntModeRequest(b, p)
    case None =>
      if MsixCapable in s.flags then s.(flags := s.flags + {MsiCapable})
      else s.(flags := s.flags - {MsixCapable, MsiCapable})
    case Some(mode) =>
      if mode == IntMsix then s
      else if mode == IntMsi then
        (if MsiCapable in s.flags then s.(flags := s.flags - {MsixCapable}) else s)
      else s.(flags := s.flags - {MsixCapable, MsiCapable})
  }

  // ----- Multiple queues -----

  /** Multiple queues end on exactly when MSI-X is available and MQ is not
      turned off for the board. */
  function MqStep(s: AdapterState, b: Board, p: ModuleParams): (t: AdapterState)
    requires p.Valid()
    ensures t == s.(flags := t.flags)
    ensures t.flags - {MqCapable} == s.flags - {MqCapable}
    ensures MqCapable in t.flags ==> MsixCapable in t.flags
    ensures MqCapable in t.flags <==> MsixCapable in s.flags && p.mq.Slot(b.bd) != Some(OptionDisabled)
  {
    var mq := Requested(p.mq.Slot(b.bd), MqOption) != OptionDisabled;
    var f := if mq then s.flags + {MqCapable} else s.flags - {MqCapable};
    s.(flags := if MqCapable in f && MsixCapable !in f then f - {MqCapable} else f)
  }

  // ----- Direct cache access -----

  /** DCA capability is dropped by a DCA entry of 0; with an entry, DCA
      stays enabled only while capable; rx-data DCA is turned on when the
      resolved level is 2, which the default is. */
  function DcaStep(s: AdapterState, b: Board, p: ModuleParams): (t: AdapterState)
    requires p.Valid()
    ensures t == s.(flags := t.flags)
    ensures t.flags - {DcaCapable, DcaEnabled, DcaEnabledData} == s.flags - {DcaCapable, DcaEnabled, DcaEnabledData}
    ensures DcaCapable in t.flags <==> DcaCapable in s.flags && p.dca.Slot(b.bd) != Some(OptionDisabled)
    ensures p.dca.Slot(b.bd).Some? ==> (DcaEnabled in t.flags <==> DcaEnabled in s.flags && DcaCapable in t.flags)
    ensures p.dca.Slot(b.bd).None? ==> (DcaEnabled in t.flags <==> DcaEnabled in s.flags)
    ensures DcaEnabledData in t.flags <==>
      DcaEnabledData in s.flags ||
      (p.dca.Slot(b.bd) != Some(OptionDisabled) && p.dca.Slot(b.bd) != Some(OptionEnabled))
  {
    var slot := p.dca.Slot(b.bd);
    var dca := Requested(slot, DcaOption);
    var f1 := if slot.Some? && dca == OptionDisabled then s.flags - {DcaCapable} else s.flags;
    var f2 := if slot.Some? && DcaCapable !in f1 then f1 - {DcaEnabled} else f1;
    s.(flags := if dca == MaxDca then f2 + {DcaEnabledData} else f2)
  }

  // ----- Receive-side scaling -----

  /** The RSS queue count before the multiqueue check: the validated entry,
      with 0 (also the default) meaning min(RSS limit, online CPUs). */
  function RssQueues(b: Board, p: ModuleParams, host: HostLimits): (n: nat)
    requires p.Valid()
    ensures n <= b.maxRssIndices
    ensures Requested(p.rss.Slot(b.bd), RssOption(b)) == 0 ==> n == Min(b.maxRssIndices, host.numOnlineCpus)
    ensures p.rss.Slot(b.bd).Some? && 0 < p.rss.values[b.bd] <= b.maxRssIndices ==> n == p.rss.values[b.bd]
  {
    var rss := Requested(p.rss.Slot(b.bd), RssOption(b));
    if rss == 0 then Min(b.maxRssIndices, host.numOnlineCpus) else rss
  }

  /** The RSS ring limit is the resolved queue count, cut to 1 without
      multiple queues; a non-zero entry also sets the Flow Director limit. */
  function RssStep(s: AdapterState, b: Board, p: ModuleParams, host: HostLimits): (t: AdapterState)
    requires p.Valid() && s.Valid()
    ensures t.Valid() && t == s.(ringLimit := t.ringLimit)
    ensures t.ringLimit[RingVmdq] == s.ringLimit[RingVmdq]
    ensures t.ringLimit[RingRss] <= b.maxRssIndices
    ensures MqCapable in s.flags ==> t.ringLimit[RingRss] == RssQueues(b, p, host)
    ensures MqCapable !in s.flags ==> t.ringLimit[RingRss] == Min(RssQueues(b, p, host), 1)
    ensures t.ringLimit[RingFdir] != s.ringLimit[RingFdir] ==>
      p.rss.Slot(b.bd).Some? && 0 < p.rss.values[b.bd] <= b.maxRssIndices &&
      t.ringLimit[RingFdir] == p.rss.values[b.bd]
    ensures p.rss.Slot(b.bd).Some? && 0 < p.rss.values[b.bd] <= b.maxRssIndices ==>
      t.ringLimit[RingFdir] == p.rss.values[b.bd]
  {
    var rss := Requested(p.rss.Slot(b.bd), RssOption(b));
    var n := RssQueues(b, p, host);
    var limits := if rss != 0 then s.ringLimit[RingFdir := rss] else s.ringLimit;
    s.(ringLimit := limits[RingRss := if n > 1 && MqCapable !in s.flags then 1 else n])
  }

  // ----- Virtual machine device queues -----

  /** VMDQ is enabled with more than one pool and only with multiple
      queues; its ring limit is the resolved pool count, or 0 after a
      conflict. */
  function VmdqStep(s: AdapterState, b: Board, p: ModuleParams, host: HostLimits): (t: AdapterState)
    requires p.Valid() && s.Valid()
    ensures t.Valid() && t == s.(flags := t.flags, ringLimit := t.ringLimit)
    ensures t.flags - {VmdqEnabled} == s.flags - {VmdqEnabled}
    ensures t.ringLimit == s.ringLimit[RingVmdq := t.ringLimit[RingVmdq]]
    ensures VmdqEnabled in t.flags ==> MqCapable in t.flags
    ensures VmdqEnabled in t.flags <==> t.ringLimit[RingVmdq] > 1
    ensures t.ringLimit[RingVmdq] <= VmdqMax(b.mac, host)
    ensures MqCapable in s.flags ==> t.ringLimit[RingVmdq] == Requested(p.vmdq.Slot(b.bd), VmdqOption(b.mac, host))
    ensures MqCapable !in s.flags && Requested(p.vmdq.Slot(b.bd), VmdqOption(b.mac, host)) > 1 ==>
      t.ringLimit[RingVmdq] == 0
    ensures MqCapable !in s.flags && Requested(p.vmdq.Slot(b.bd), VmdqOption(b.mac, host)) <= 1 ==>
      t.ringLimit[RingVmdq] == Requested(p.vmdq.Slot(b.bd), VmdqOption(b.mac, host))
  {
    var vmdq := Requested(p.vmdq.Slot(b.bd), VmdqOption(b.mac, host));
    var conflict := vmdq > 1 && MqCapable !in s.flags;
    s.(flags := if vmdq > 1 && !conflict then s.flags + {VmdqEnabled} else s.flags - {VmdqEnabled},
       ringLimit := s.ringLimit[RingVmdq := if conflict then 0 else vmdq])
  }

  // ----- SR-IOV and VEPA -----

  /** SR-IOV ends enabled exactly when the VF count is non-zero, and only on
      SR-IOV-capable hardware with multiple queues; a failed validation
      disables it. */
  function SriovStep(s: AdapterState, b: Board, p: ModuleParams): (t: AdapterState)
    requires p.Valid()
    ensures t == s.(flags := t.flags, maxVfs := t.maxVfs)
    ensures t.flags - {SriovEnabled} == s.flags - {SriovEnabled}
    ensures SriovEnabled in t.flags ==> SriovCapable in t.flags && MqCapable in t.flags
    ensures SriovEnabled in t.flags <==> t.maxVfs != 0
    ensures t.maxVfs <= MaxSriovVfs
    ensures p.maxVfs.Slot(b.bd).Some? && Validate(p.maxVfs.values[b.bd], SriovOption).rc != 0 ==> t.maxVfs == 0
    ensures SriovCapable in s.flags && MqCapable in s.flags ==>
      t.maxVfs == Requested(p.maxVfs.Slot(b.bd), SriovOption)
  {
    var slot := p.maxVfs.Slot(b.bd);
    var vfs := if slot.Some? then
                 (var r := Validate(slot.value, SriovOption); if r.rc != 0 then 0 else r.value)
               else OptionDisabled;
    var enabled := vfs != 0 && SriovCapable in s.flags && MqCapable in s.flags;
    s.(flags := if enabled then s.flags + {SriovEnabled} else s.flags - {SriovEnabled},
       maxVfs := if enabled then vfs else 0)
  }

  /** VEPA bridge mode is turned on by an entry of 1 and never turned off. */
  function VepaStep(s: AdapterState, b: Board, p: ModuleParams): (t: AdapterState)
    requires p.Valid()
    ensures t == s.(flags := t.flags)
    ensures t.flags - {SriovVepaBridgeMode} == s.flags - {SriovVepaBridgeMode}
    ensures SriovVepaBridgeMode in t.flags <==>
      SriovVepaBridgeMode in s.flags || p.vepa.Slot(b.bd) == Some(OptionEnabled)
  {
    if Requested(p.vepa.Slot(b.bd), VepaOption) != OptionDisabled
    then s.(flags := s.flags + {SriovVepaBridgeMode})
    else s
  }

  // ----- Interrupt throttle rate -----

  /** The throttle setting for a rate: 10^6 / rate interrupts-apart, shifted
      left by two because bit 0 is a control bit (at most 4000000, so the
      shift never wraps). */
  function EncodeRate(rate: uint32): (r: nat)
    requires rate > 0
    ensures r % 4 == 0 && r <= 4000000
  {
    (1000000 / rate) * 4
  }

  /** A setting that encodes some rate inside [IXGBE_MIN_INT_RATE,
      IXGBE_MAX_INT_RATE]. */
  ghost predicate IsRateSetting(r: nat, host: HostLimits) {
    exists rate: uint32 :: 0 < rate && host.minItr <= rate <= host.maxItr && r == EncodeRate(rate)
  }

  /** The rx/tx throttle setting for an entry: 0 is off, 1 is dynamic, a
      valid rate is encoded, and an invalid one falls back to the default
      (dynamic). */
  function ItrSetting(raw: uint32, host: HostLimits): (r: nat)
    ensures raw == 0 ==> r == 0
    ensures raw == 1 ==> r == 1
    ensures raw != 0 && raw != 1 && 0 < host.minItr <= raw <= host.maxItr ==> r == EncodeRate(raw)
    ensures raw != 0 && raw != 1 && Validate(raw, ItrOption(host)).value == DefaultItr ==> r == DefaultItr
    ensures r == 0 || r == 1 || IsRateSetting(r, host)
  {
    if raw == 0 then 0
    else if raw == 1 then 1
    else
      var itr := Validate(raw, ItrOption(host)).value;
      if itr == DefaultItr then DefaultItr else EncodeRate(itr)
  }

  /** Transmit and receive throttle settings are always equal; with no
      entry both are the default, dynamic. */
  function ItrStep(s: AdapterState, b: Board, p: ModuleParams, host: HostLimits): (t: AdapterState)
    requires p.Valid()
    ensures t == s.(rxItrSetting := t.rxItrSetting, txItrSetting := t.txItrSetting)
    ensures t.rxItrSetting == t.txItrSetting
    ensures p.interruptThrottleRate.Slot(b.bd).None? ==> t.rxItrSetting == DefaultItr
    ensures p.interruptThrottleRate.Slot(b.bd) == Some(0) ==> t.rxItrSetting == 0
    ensures p.interruptThrottleRate.Slot(b.bd) == Some(1) ==> t.rxItrSetting == 1
    ensures (p.interruptThrottleRate.Slot(b.bd).Some? && p.interruptThrottleRate.values[b.bd] != 0 &&
             p.interruptThrottleRate.values[b.bd] != 1 &&
             0 < host.minItr <= p.interruptThrottleRate.values[b.bd] <= host.maxItr) ==>
      t.rxItrSetting == EncodeRate(p.interruptThrottleRate.values[b.bd])
    ensures (p.interruptThrottleRate.Slot(b.bd).Some? && p.interruptThrottleRate.values[b.bd] != 0 &&
             Validate(p.interruptThrottleRate.values[b.bd], ItrOption(host)).value == DefaultItr) ==>
      t.rxItrSetting == DefaultItr
    ensures t.rxItrSetting == 0 || t.rxItrSetting == 1 || IsRateSetting(t.rxItrSetting, host)
  {
    var slot := p.interruptThrottleRate.Slot(b.bd);
    var r := if slot.Some? then ItrSetting(slot.value, host) else DefaultItr;
    s.(rxItrSetting := r, txItrSetting := r)
  }

  // ----- Low-latency interrupts -----

  /** One of LLIPort, LLISize, LLIEType, LLIVLANP: the validated entry when
      the board has one and supports LLI, else 0. */
  function LliValue(b: Board, p: ModuleParams, arr: ParamArray, max: uint32): (r: uint32)
    requires p.Valid() && arr.Valid()
    ensures r <= max
    ensures b.mac != Mac82599EB && b.mac != MacX540 ==> r == 0
    ensures arr.Slot(b.bd).None? ==> r == 0
    ensures arr.Slot(b.bd).Some? && !LliSupported(b, p.lliPush) ==> r == 0
    ensures arr.Slot(b.bd).Some? && LliSupported(b, p.lliPush) && arr.values[b.bd] <= max < OptionUnset ==>
      r == arr.values[b.bd]
    ensures arr.Slot(b.bd).Some? && max < arr.values[b.bd] ==> r == 0
  {
    var slot := arr.Slot(b.bd);
    if slot.Some? && LliSupported(b, p.lliPush) then Validate(slot.value, LliRangeOption(max)).value else 0
  }

  /** Whether LLI on TCP push ends on: only for an entry of 1 on hardware
      that supports it. */
  function LliPushOn(b: Board, p: ModuleParams): (on: bool)
    requires p.Valid()
    ensures on ==> b.mac == MacX540
    ensures b.mac == MacX540 ==> (on <==> p.lliPush.Slot(b.bd) == Some(OptionEnabled))
  {
    var slot := p.lliPush.Slot(b.bd);
    slot.Some? && LliSupported(b, p.lliPush) && Validate(slot.value, LliPushOption).value != OptionDisabled
  }

  /** The five LLI blocks. LLI push is never left on for 82599 (whose
      support check fails for a positive push entry), and every LLI field
      stays within its range. */
  function LliStep(s: AdapterState, b: Board, p: ModuleParams): (t: AdapterState)
    requires p.Valid()
    ensures t == s.(flags := t.flags, lliPort := t.lliPort, lliSize := t.lliSize,
                    lliEType := t.lliEType, lliVlanPri := t.lliVlanPri)
    ensures t.flags - {LliPush} == s.flags - {LliPush}
    ensures LliPush in t.flags ==> b.mac == MacX540
    ensures t.lliPort <= MaxLliPort && t.lliSize <= MaxLliSize
    ensures t.lliEType <= MaxLliEType && t.lliVlanPri <= MaxLliVlanP
  {
    s.(lliPort := LliValue(b, p, p.lliPort, MaxLliPort),
       lliSize := LliValue(b, p, p.lliSize, MaxLliSize),
       flags := if LliPushOn(b, p) then s.flags + {LliPush} else s.flags - {LliPush},
       lliEType := LliValue(b, p, p.lliEType, MaxLliEType),
       lliVlanPri := LliValue(b, p, p.lliVlanP, MaxLliVlanP))
  }

  // ----- Flow Director -----

  /** Flow Director gets no packet buffer on 82598 and one of the three
      levels elsewhere, a valid entry picking its own level. */
  function FdirPballocStep(s: AdapterState, b: Board, p: ModuleParams): (t: AdapterState)
    requires p.Valid()
    ensures t == s.(fdirPballoc := t.fdirPballoc)
    ensures b.mac == Mac82598EB <==> t.fdirPballoc == FdirPballocNone
    ensures t.fdirPballoc <= FdirPballoc256K
    ensures (b.mac != Mac82598EB && p.fdirPballoc.Slot(b.bd).Some? &&
             FdirPballoc64K <= p.fdirPballoc.values[b.bd] <= FdirPballoc256K) ==>
      t.fdirPballoc == p.fdirPballoc.values[b.bd]
    ensures (b.mac != Mac82598EB &&
             (p.fdirPballoc.Slot(b.bd).None? ||
              !(FdirPballoc64K <= p.fdirPballoc.values[b.bd] <= FdirPballoc256K))) ==>
      t.fdirPballoc == FdirPballoc64K
  {
    if b.mac == Mac82598EB then s.(fdirPballoc := FdirPballocNone)
    else
      var mode := Requested(p.fdirPballoc.Slot(b.bd), FdirPballocOption);
      s.(fdirPballoc := if mode == FdirPballoc256K then FdirPballoc256K
                        else if mode == FdirPballoc128K then FdirPballoc128K
                        else FdirPballoc64K)
  }

  /** The ATR sample rate is off on 82598 and otherwise within [0, 255],
      20 without an entry. */
  function AtrSampleRateStep(s: AdapterState, b: Board, p: ModuleParams): (t: AdapterState)
    requires p.Valid()
    ensures t == s.(atrSampleRate := t.atrSampleRate)
    ensures b.mac == Mac82598EB ==> t.atrSampleRate == AtrSampleRateOff
    ensures t.atrSampleRate <= MaxAtrSampleRate
    ensures b.mac != Mac82598EB && p.atrSampleRate.Slot(b.bd).None? ==> t.atrSampleRate == DefaultAtrSampleRate
    ensures (b.mac != Mac82598EB && p.atrSampleRate.Slot(b.bd).Some? &&
             p.atrSampleRate.values[b.bd] <= MaxAtrSampleRate) ==>
      t.atrSampleRate == p.atrSampleRate.values[b.bd]
    ensures (b.mac != Mac82598EB && p.atrSampleRate.Slot(b.bd).Some? &&
             MaxAtrSampleRate < p.atrSampleRate.values[b.bd]) ==>
      t.atrSampleRate == DefaultAtrSampleRate
  {
    s.(atrSampleRate := if b.mac == Mac82598EB then AtrSampleRateOff
                        else Requested(p.atrSampleRate.Slot(b.bd), AtrSampleRateOption))
  }

  // ----- FCoE -----

  /** FCoE capability is recomputed: on only for the FCoE MAC types, and
      there unless the entry is 0. */
  function FcoeStep(s: AdapterState, b: Board, p: ModuleParams): (t: AdapterState)
    requires p.Valid()
    ensures t == s.(flags := t.flags)
    ensures t.flags - {FcoeCapable} == s.flags - {FcoeCapable}
    ensures FcoeCapable in t.flags <==> IsFcoeMac(b.mac) && p.fcoe.Slot(b.bd) != Some(OptionDisabled)
  {
    var cleared := s.flags - {FcoeCapable};
    if IsFcoeMac(b.mac) && Requested(p.fcoe.Slot(b.bd), FcoeOption) != OptionDisabled
    then s.(flags := cleared + {FcoeCapable})
    else s.(flags := cleared)
  }

  // ----- LRO, unsupported SFP+ modules -----

  /** LRO ends on only for an entry of 1 on RSC-capable hardware. */
  function LroStep(s: AdapterState, b: Board, p: ModuleParams): (t: AdapterState)
    requires p.Valid()
    ensures t == s.(lro := t.lro)
    ensures t.lro <==> b.rscCapable && p.lro.Slot(b.bd) == Some(OptionEnabled)
  {
    var lro := Requested(p.lro.Slot(b.bd), LroOption) != OptionDisabled;
    s.(lro := lro && b.rscCapable)
  }

  /** Untested SFP+ modules are allowed only for an entry of 1. */
  function AllowUnsupportedSfpStep(s: AdapterState, b: Board, p: ModuleParams): (t: AdapterState)
    requires p.Valid()
    ensures t == s.(allowUnsupportedSfp := t.allowUnsupportedSfp)
    ensures t.allowUnsupportedSfp <==> p.allowUnsupportedSfp.Slot(b.bd) == Some(OptionEnabled)
  {
    s.(allowUnsupportedSfp :=
         Requested(p.allowUnsupportedSfp.Slot(b.bd), AllowUnsupportedSfpOption) != OptionDisabled)
  }

  // ----- DMA coalescing -----

  /** The DMA-coalescing watchdog is 0 or within [41, 10000], and non-zero
      only on the X550 family with interrupt throttling on. */
  function DmacWatchdogStep(s: AdapterState, b: Board, p: ModuleParams): (t: AdapterState)
    requires p.Valid()
    ensures t == s.(dmacWatchdog := t.dmacWatchdog)
    ensures t.dmacWatchdog != 0 ==>
      IsX550Family(b.mac) && (s.rxItrSetting != 0 || s.txItrSetting != 0) &&
      MinDmacWatchdog <= t.dmacWatchdog <= MaxDmacWatchdog
    ensures (IsX550Family(b.mac) && (s.rxItrSetting != 0 || s.txItrSetting != 0) &&
             p.dmacWatchdog.Slot(b.bd).Some? &&
             MinDmacWatchdog <= p.dmacWatchdog.values[b.bd] <= MaxDmacWatchdog) ==>
      t.dmacWatchdog == p.dmacWatchdog.values[b.bd]
    ensures !(p.dmacWatchdog.Slot(b.bd).Some? &&
              MinDmacWatchdog <= p.dmacWatchdog.values[b.bd] <= MaxDmacWatchdog) ==>
      t.dmacWatchdog == 0
  {
    s.(dmacWatchdog := Requested(p.dmacWatchdog.Slot(b.bd),
                                 DmacOption(b.mac, s.rxItrSetting, s.txItrSetting)))
  }

  // ----- VXLAN rx offload, malicious-driver detection -----

  /** VXLAN rx offload ends enabled exactly on capable hardware whose entry
      is not 0. */
  function VxlanRxStep(s: AdapterState, b: Board, p: ModuleParams): (t: AdapterState)
    requires p.Valid()
    ensures t == s.(flags := t.flags)
    ensures t.flags - {VxlanOffloadEnable} == s.flags - {VxlanOffloadEnable}
    ensures VxlanOffloadEnable in t.flags <==>
      VxlanOffloadCapable in s.flags && p.vxlanRx.Slot(b.bd) != Some(0)
  {
    var v := Requested(p.vxlanRx.Slot(b.bd), VxlanRxOption(VxlanOffloadCapable in s.flags));
    s.(flags := if v != 0 then s.flags + {VxlanOffloadEnable} else s.flags - {VxlanOffloadEnable})
  }

  /** Malicious-driver detection ends enabled exactly on the X550 family
      when the entry is not 0. */
  function MddStep(s: AdapterState, b: Board, p: ModuleParams): (t: AdapterState)
    requires p.Valid()
    ensures t == s.(flags := t.flags)
    ensures t.flags - {MddEnabled} == s.flags - {MddEnabled}
    ensures MddEnabled in t.flags <==> IsX550Family(b.mac) && p.mdd.Slot(b.bd) != Some(OptionDisabled)
  {
    if IsX550Family(b.mac) && Requested(p.mdd.Slot(b.bd), MddOption) != OptionDisabled
    then s.(flags := s.flags + {MddEnabled})
    else s.(flags := s.flags - {MddEnabled})
  }

  // ----- The whole routine -----

  /** The rules the queue and interrupt-mode blocks establish. */
  ghost predicate QueueRules(t: AdapterState, b: Board, build: BuildConfig, host: HostLimits)
    requires t.Valid()
  {
    && (MqCapable in t.flags ==> MsixCapable in t.flags)
    && (VmdqEnabled in t.flags ==> MqCapable in t.flags)
    && (VmdqEnabled in t.flags <==> t.ringLimit[RingVmdq] > 1)
    && t.ringLimit[RingVmdq] <= VmdqMax(b.mac, host)
    && t.ringLimit[RingRss] <= b.maxRssIndices
    && (MqCapable !in t.flags ==> t.ringLimit[RingRss] <= 1)
    && (build.pciIov ==>
          (SriovEnabled in t.flags ==> SriovCapable in t.flags && MqCapable in t.flags)
          && (SriovEnabled in t.flags <==> t.maxVfs != 0)
          && t.maxVfs <= MaxSriovVfs)
  }

  /** The rules the throttling, LLI and Flow Director blocks establish. */
  ghost predicate LatencyRules(t: AdapterState, b: Board, build: BuildConfig) {
    && t.rxItrSetting == t.txItrSetting
    && (build.lli ==>
          (LliPush in t.flags ==> b.mac == MacX540)
          && t.lliPort <= MaxLliPort && t.lliSize <= MaxLliSize
          && t.lliEType <= MaxLliEType && t.lliVlanPri <= MaxLliVlanP)
    && (build.txMq ==>
          (b.mac == Mac82598EB <==> t.fdirPballoc == FdirPballocNone)
          && t.fdirPballoc <= FdirPballoc256K
          && t.atrSampleRate <= MaxAtrSampleRate)
  }

  /** The hardware gates of the offload blocks. */
  ghost predicate OffloadRules(t: AdapterState, b: Board, build: BuildConfig) {
    && (build.fcoe ==> (FcoeCapable in t.flags ==> IsFcoeMac(b.mac)))
    && (t.lro ==> b.rscCapable)
    && (t.dmacWatchdog != 0 ==>
          IsX550Family(b.mac) && (t.rxItrSetting != 0 || t.txItrSetting != 0)
          && MinDmacWatchdog <= t.dmacWatchdog <= MaxDmacWatchdog)
    && (VxlanOffloadEnable in t.flags ==> VxlanOffloadCapable in t.flags)
    && (MddEnabled in t.flags ==> IsX550Family(b.mac))
  }

  /** Interrupt mode, MQ, DCA, RSS, VMDQ, SR-IOV and VEPA, in that order. */
  function QueueBlocks(s: AdapterState, b: Board, p: ModuleParams, build: BuildConfig,
                       host: HostLimits): (t: AdapterState)
    requires p.Valid() && s.Valid()
    ensures t.Valid()
  {
    var s1 := MqStep(IntModeStep(s, b, p), b, p);
    var s2 := if build.dca then DcaStep(s1, b, p) else s1;
    var s3 := VmdqStep(RssStep(s2, b, p, host), b, p, host);
    if build.pciIov then VepaStep(SriovStep(s3, b, p), b, p) else s3
  }

  /** MQ needs MSI-X once the MQ block has run, whatever DCA does next. */
  lemma MqNeedsMsix(s: AdapterState, b: Board, p: ModuleParams, build: BuildConfig)
    requires p.Valid()
    ensures var s1 := MqStep(IntModeStep(s, b, p), b, p);
            var s2 := if build.dca then DcaStep(s1, b, p) else s1;
            MqCapable in s2.flags ==> MsixCapable in s2.flags
  {
  }

  /** The RSS and VMDQ blocks establish the queue rules other than SR-IOV's. */
  lemma RssVmdqRules(s: AdapterState, b: Board, p: ModuleParams, build: BuildConfig, host: HostLimits)
    requires p.Valid() && s.Valid()
    requires MqCapable in s.flags ==> MsixCapable in s.flags
    ensures QueueRules(VmdqStep(RssStep(s, b, p, host), b, p, host), b, build.(pciIov := false), host)
  {
  }

  /** The SR-IOV and VEPA blocks add SR-IOV's rules and keep the others. */
  lemma SriovRules(s: AdapterState, b: Board, p: ModuleParams, build: BuildConfig, host: HostLimits)
    requires p.Valid() && s.Valid()
    requires QueueRules(s, b, build.(pciIov := false), host)
    ensures QueueRules(VepaStep(SriovStep(s, b, p), b, p), b, build, host)
  {
  }

  lemma QueueBlocksRules(s: AdapterState, b: Board, p: ModuleParams, build: BuildConfig,
                         host: HostLimits)
    requires p.Valid() && s.Valid()
    ensures QueueRules(QueueBlocks(s, b, p, build, host), b, build, host)
  {
    var s1 := MqStep(IntModeStep(s, b, p), b, p);
    var s2 := if build.dca then DcaStep(s1, b, p) else s1;
    MqNeedsMsix(s, b, p, build);
    var s4 := VmdqStep(RssStep(s2, b, p, host), b, p, host);
    RssVmdqRules(s2, b, p, build, host);
    if build.pciIov {
      SriovRules(s4, b, p, build, host);
    }
  }

  /** Interrupt throttling, the LLI blocks, Flow Director buffer and ATR
      sample rate, in that order. */
  function LatencyBlocks(s: AdapterState, b: Board, p: ModuleParams, build: BuildConfig,
                         host: HostLimits): (t: AdapterState)
    requires p.Valid()
    ensures t == s.(flags := t.flags, rxItrSetting := t.rxItrSetting, txItrSetting := t.txItrSetting,
                    lliPort := t.lliPort, lliSize := t.lliSize, lliEType := t.lliEType,
                    lliVlanPri := t.lliVlanPri, fdirPballoc := t.fdirPballoc,
                    atrSampleRate := t.atrSampleRate)
    ensures t.flags - {LliPush} == s.flags - {LliPush}
    ensures LatencyRules(t, b, build)
  {
    var s5 := ItrStep(s, b, p, host);
    var s6 := if build.lli then LliStep(s5, b, p) else s5;
    if build.txMq then AtrSampleRateStep(FdirPballocStep(s6, b, p), b, p) else s6
  }

  /** FCoE, LRO, unsupported SFP+, DMA coalescing, VXLAN rx and MDD, in
      that order. */
  function OffloadBlocks(s: AdapterState, b: Board, p: ModuleParams, build: BuildConfig): (t: AdapterState)
    requires p.Valid()
    ensures t == s.(flags := t.flags, lro := t.lro, allowUnsupportedSfp := t.allowUnsupportedSfp,
                    dmacWatchdog := t.dmacWatchdog)
    ensures t.flags - {FcoeCapable, VxlanOffloadEnable, MddEnabled} ==
            s.flags - {FcoeCapable, VxlanOffloadEnable, MddEnabled}
    ensures OffloadRules(t, b, build)
  {
    var s8 := if build.fcoe then FcoeStep(s, b, p) else s;
    var s9 := DmacWatchdogStep(AllowUnsupportedSfpStep(LroStep(s8, b, p), b, p), b, p);
    MddStep(VxlanRxStep(s9, b, p), b, p)
  }

  /** `ixgbe_check_options` for one board: the blocks in source order, the
      compiled-out ones skipped. */
  function CheckOptionsSpec(s: AdapterState, b: Board, p: ModuleParams, build: BuildConfig,
                            host: HostLimits): (t: AdapterState)
    requires p.Valid() && s.Valid()
    ensures t.Valid()
  {
    OffloadBlocks(LatencyBlocks(QueueBlocks(s, b, p, build, host), b, p, build, host), b, p, build)
  }

  /** The cross-option rules the finished configuration obeys. */
  ghost predicate Consistent(t: AdapterState, b: Board, build: BuildConfig, host: HostLimits)
    requires t.Valid()
  {
    QueueRules(t, b, build, host) && LatencyRules(t, b, build) && OffloadRules(t, b, build)
  }

  /** The later blocks touch none of the flags and fields the queue rules
      speak of. */
  lemma LatencyKeepsQueueRules(q: AdapterState, b: Board, p: ModuleParams, build: BuildConfig,
                               host: HostLimits)
    requires p.Valid() && q.Valid() && QueueRules(q, b, build, host)
    ensures LatencyBlocks(q, b, p, build, host).Valid()
    ensures QueueRules(LatencyBlocks(q, b, p, build, host), b, build, host)
  {
    var l := LatencyBlocks(q, b, p, build, host);
    assert l.flags - {LliPush} == q.flags - {LliPush};
    assert forall f :: f != LliPush ==> (f in l.flags <==> f in q.flags) by {
      forall f | f != LliPush ensures f in l.flags <==> f in q.flags {
        assert f in l.flags <==> f in l.flags - {LliPush};
        assert f in q.flags <==> f in q.flags - {LliPush};
      }
    }
  }

  lemma OffloadKeepsRules(l: AdapterState, b: Board, p: ModuleParams, build: BuildConfig,
                          host: HostLimits)
    requires p.Valid() && l.Valid() && QueueRules(l, b, build, host) && LatencyRules(l, b, build)
    ensures OffloadBlocks(l, b, p, build).Valid()
    ensures Consistent(OffloadBlocks(l, b, p, build), b, build, host)
  {
    var t := OffloadBlocks(l, b, p, build);
    var touched := {FcoeCapable, VxlanOffloadEnable, MddEnabled};
    assert forall f :: f !in touched ==> (f in t.flags <==> f in l.flags) by {
      forall f | f !in touched ensures f in t.flags <==> f in l.flags {
        assert f in t.flags <==> f in t.flags - touched;
        assert f in l.flags <==> f in l.flags - touched;
      }
    }
  }

  /** Whatever the parameters and the starting flags, the configuration
      `ixgbe_check_options` leaves behind obeys every cross-option rule:
      later blocks never undo what an earlier interoperability check
      enforced. */
  lemma CheckOptionsConsistent(s: AdapterState, b: Board, p: ModuleParams, build: BuildConfig,
                               host: HostLimits)
    requires p.Valid() && s.Valid()
    ensures Consistent(CheckOptionsSpec(s, b, p, build, host), b, build, host)
  {
    var q := QueueBlocks(s, b, p, build, host);
    QueueBlocksRules(s, b, p, build, host);
    var l := LatencyBlocks(q, b, p, build, host);
    LatencyKeepsQueueRules(q, b, p, build, host);
    OffloadKeepsRules(l, b, p, build, host);
  }
}
