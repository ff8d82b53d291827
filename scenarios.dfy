/** The documented behaviours of single option blocks, stated for every
    adapter state and every parameter set that contains the entry. */
module Scenarios {
  import opened Validator
  import opened ParamInputs
  import opened Policy

  /** Four VMDQ pools requested while multiple queues are off: whether the
      board's range accepts them or not, VMDQ ends disabled with its ring
      limit 0. */
  lemma VmdqWithoutMq(s: AdapterState, b: Board, p: ModuleParams, host: HostLimits)
    requires p.Valid() && s.Valid()
    requires p.vmdq.Slot(b.bd) == Some(4)
    requires MqCapable !in s.flags
    ensures VmdqEnabled !in VmdqStep(s, b, p, host).flags
    ensures VmdqStep(s, b, p, host).ringLimit[RingVmdq] == 0
  {
  }

  /** Seventy virtual functions, above the maximum of 63: the validation
      fails and SR-IOV ends disabled with no virtual functions. */
  lemma SriovAboveMaximum(s: AdapterState, b: Board, p: ModuleParams)
    requires p.Valid()
    requires p.maxVfs.Slot(b.bd) == Some(70)
    ensures Validate(70, SriovOption) == Validated(OptionDisabled, -1)
    ensures SriovStep(s, b, p).maxVfs == 0
    ensures SriovEnabled !in SriovStep(s, b, p).flags
  {
  }

  /** A DMA-coalescing watchdog of 100 on a MAC type without DMA
      coalescing: the timer is 0 whatever the entry. */
  lemma DmacUnsupported(s: AdapterState, b: Board, p: ModuleParams)
    requires p.Valid()
    requires p.dmacWatchdog.Slot(b.bd) == Some(100) && !IsX550Family(b.mac)
    ensures Validate(100, DmacOption(b.mac, s.rxItrSetting, s.txItrSetting)) == Validated(0, -1)
    ensures DmacWatchdogStep(s, b, p).dmacWatchdog == 0
  {
  }

  /** Interrupt throttle rates 0 and 1 mean off and dynamic; a rate inside
      the driver's range is stored as 10^6 / rate shifted left by two. */
  lemma ItrEntries(s: AdapterState, b: Board, p: ModuleParams, host: HostLimits)
    requires p.Valid()
    ensures p.interruptThrottleRate.Slot(b.bd) == Some(0) ==> ItrStep(s, b, p, host).rxItrSetting == 0
    ensures p.interruptThrottleRate.Slot(b.bd) == Some(1) ==> ItrStep(s, b, p, host).rxItrSetting == 1
    ensures p.interruptThrottleRate.Slot(b.bd) == Some(2000) && 2 <= host.minItr <= 2000 <= host.maxItr ==>
      ItrStep(s, b, p, host).rxItrSetting == ItrStep(s, b, p, host).txItrSetting == 2000
  {
  }
}
