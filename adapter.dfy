/** `ixgbe_check_options` as the driver runs it: an adapter object whose
    flags, ring limits and configuration fields each option block updates
    in place. Every block is proved to leave exactly the state that its
    step function in `Policy` describes, so the properties proved there
    hold of the object. */
module AdapterModel {
  import opened Validator
  import opened ParamInputs
  import opened Policy

  class Adapter {
    /** What the code reads of the board and never writes. */
    const board: Board
    /** `adapter->flags`, as the set of IXGBE_FLAG_* bits that are on. */
    var flags: set<Flag>
    /** NETIF_F_LRO of `netdev->features`. */
    var lro: bool
    /** The `limit` of each entry of `adapter->ring_feature[]`. */
    const ringFeature: array<nat>
    var rxItrSetting: nat
    var txItrSetting: nat
    var maxVfs: uint32
    var lliPort: uint32
    var lliSize: uint32
    var lliEType: uint32
    var lliVlanPri: uint32
    var fdirPballoc: uint32
    var atrSampleRate: uint32
    /** `hw.allow_unsupported_sfp`. */
    var allowUnsupportedSfp: bool
    /** `hw.mac.dmac_config.watchdog_timer`. */
    var dmacWatchdog: uint32

    ghost predicate Valid()
      reads this
    {
      ringFeature.Length == RingFeatureCount
    }

    /** The adapter's fields as one value. */
    function State(): (s: AdapterState)
      reads this, ringFeature
      ensures Valid() ==> s.Valid()
    {
      AdapterState(flags, lro, ringFeature[..], rxItrSetting, txItrSetting, maxVfs,
                   lliPort, lliSize, lliEType, lliVlanPri, fdirPballoc, atrSampleRate,
                   allowUnsupportedSfp, dmacWatchdog)
    }

    /** An adapter of board `b` in the state the probe code leaves it in
        before the options are checked. */
    constructor (b: Board, s: AdapterState)
      requires s.Valid()
      ensures Valid() && board == b && State() == s && fresh(ringFeature)
    {
      board := b;
      flags := s.flags;
      lro := s.lro;
      ringFeature := new nat[RingFeatureCount][s.ringLimit[RingVmdq], s.ringLimit[RingRss], s.ringLimit[RingFdir]];
      rxItrSetting := s.rxItrSetting;
      txItrSetting := s.txItrSetting;
      maxVfs := s.maxVfs;
      lliPort := s.lliPort;
      lliSize := s.lliSize;
      lliEType := s.lliEType;
      lliVlanPri := s.lliVlanPri;
      fdirPballoc := s.fdirPballoc;
      atrSampleRate := s.atrSampleRate;
      allowUnsupportedSfp := s.allowUnsupportedSfp;
      dmacWatchdog := s.dmacWatchdog;
      new;
      assert ringFeature[..] == s.ringLimit;
    }

    /** The interrupt-mode block. */
    method CheckIntMode(p: ModuleParams)
      requires Valid() && p.Valid()
      modifies this
      ensures Valid() && State() == IntModeStep(old(State()), board, p)
    {
      var bd := board.bd;
      if p.intMode.num > bd || p.interruptType.num > bd {
        var intMode := p.intMode.values[bd];
        if intMode == OptionUnset {
          intMode := p.interruptType.values[bd];
        }
        var rc;
        intMode, rc := ValidateOption(intMode, IntModeOption);
        if intMode == IntMsix {
        } else if intMode == IntMsi {
          if MsiCapable in flags {
            flags := flags - {MsixCapable};
          }
        } else {
          flags := flags - {MsixCapable};
          flags := flags - {MsiCapable};
        }
      } else {
        if MsixCapable in flags {
          flags := flags + {MsiCapable};
        } else {
          flags := flags - {MsixCapable};
          flags := flags - {MsiCapable};
        }
      }
    }

    /** The multiple-queue block and its MSI-X check. */
    method CheckMq(p: ModuleParams)
      requires Valid() && p.Valid()
      modifies this
      ensures Valid() && State() == MqStep(old(State()), board, p)
    {
      var bd := board.bd;
      if p.mq.num > bd {
        var mq, rc := ValidateOption(p.mq.values[bd], MqOption);
        if mq != 0 {
          flags := flags + {MqCapable};
        } else {
          flags := flags - {MqCapable};
        }
      } else {
        flags := flags + {MqCapable};
      }
      if MqCapable in flags && MsixCapable !in flags {
        flags := flags - {MqCapable};
      }
    }

    /** The direct-cache-access block. */
    method CheckDca(p: ModuleParams)
      requires Valid() && p.Valid()
      modifies this
      ensures Valid() && State() == DcaStep(old(State()), board, p)
    {
      var bd := board.bd;
      var dca := DcaOption.def;
      if p.dca.num > bd {
        var rc;
        dca, rc := ValidateOption(p.dca.values[bd], DcaOption);
        if dca == 0 {
          flags := flags - {DcaCapable};
        }
        if DcaCapable !in flags {
          flags := flags - {DcaEnabled};
        }
        if dca == MaxDca {
          flags := flags + {DcaEnabledData};
        }
      }
      if dca == MaxDca {
        flags := flags + {DcaEnabledData};
      }
    }

    /** The receive-side-scaling block and its multiple-queue check. */
    method CheckRss(p: ModuleParams, host: HostLimits)
      requires Valid() && p.Valid()
      modifies this, ringFeature
      ensures Valid() && State() == RssStep(old(State()), board, p, host)
    {
      var bd := board.bd;
      var rss: nat := 0;
      if p.rss.num > bd {
        var v, rc := ValidateOption(p.rss.values[bd], RssOption(board));
        if v == 0 {
          rss := Min(board.maxRssIndices, host.numOnlineCpus);
        } else {
          rss := v;
          ringFeature[RingFdir] := rss;
        }
        ringFeature[RingRss] := rss;
      } else {
        rss := Min(board.maxRssIndices, host.numOnlineCpus);
        ringFeature[RingRss] := rss;
      }
      if rss > 1 && MqCapable !in flags {
        ringFeature[RingRss] := 1;
      }
    }

    /** The VMDQ block, its range taken from this board's MAC type, and its
        multiple-queue check. */
    method CheckVmdq(p: ModuleParams, host: HostLimits)
      requires Valid() && p.Valid()
      modifies this, ringFeature
      ensures Valid() && State() == VmdqStep(old(State()), board, p, host)
    {
      var bd := board.bd;
      var opt := VmdqOption(board.mac, host);
      if p.vmdq.num > bd {
        var vmdq, rc := ValidateOption(p.vmdq.values[bd], opt);
        if vmdq > 1 {
          flags := flags + {VmdqEnabled};
        } else {
          flags := flags - {VmdqEnabled};
        }
        ringFeature[RingVmdq] := vmdq;
      } else {
        flags := flags - {VmdqEnabled};
        ringFeature[RingVmdq] := opt.def;
      }
      if VmdqEnabled in flags && MqCapable !in flags {
        flags := flags - {VmdqEnabled};
        ringFeature[RingVmdq] := 0;
      }
    }

    /** The SR-IOV block and its capability and multiple-queue checks. */
    method CheckSriov(p: ModuleParams)
      requires Valid() && p.Valid()
      modifies this
      ensures Valid() && State() == SriovStep(old(State()), board, p)
    {
      var bd := board.bd;
      if p.maxVfs.num > bd {
        var vfs, rc := ValidateOption(p.maxVfs.values[bd], SriovOption);
        if rc != 0 {
          vfs := 0;
        }
        maxVfs := vfs;
        if vfs != 0 {
          flags := flags + {SriovEnabled};
        } else {
          flags := flags - {SriovEnabled};
        }
      } else {
        maxVfs := 0;
        flags := flags - {SriovEnabled};
      }
      if SriovEnabled in flags {
        if SriovCapable !in flags {
          flags := flags - {SriovEnabled};
          maxVfs := 0;
        } else if MqCapable !in flags {
          flags := flags - {SriovEnabled};
          maxVfs := 0;
        }
      }
    }

    /** The VEPA bridge-mode block. */
    method CheckVepa(p: ModuleParams)
      requires Valid() && p.Valid()
      modifies this
      ensures Valid() && State() == VepaStep(old(State()), board, p)
    {
      var bd := board.bd;
      if p.vepa.num > bd {
        var vepa, rc := ValidateOption(p.vepa.values[bd], VepaOption);
        if vepa != 0 {
          flags := flags + {SriovVepaBridgeMode};
        }
      }
    }

    /** The interrupt-throttle-rate block, with a rate that falls back to
        the default kept as the dynamic setting. */
    method CheckItr(p: ModuleParams, host: HostLimits)
      requires Valid() && p.Valid()
      modifies this
      ensures Valid() && State() == ItrStep(old(State()), board, p, host)
    {
      var bd := board.bd;
      if p.interruptThrottleRate.num > bd {
        var itr := p.interruptThrottleRate.values[bd];
        if itr == 0 {
          rxItrSetting := 0;
        } else if itr == 1 {
          rxItrSetting := 1;
        } else {
          var rc;
          itr, rc := ValidateOption(itr, ItrOption(host));
          if itr == DefaultItr {
            rxItrSetting := DefaultItr;
          } else {
            rxItrSetting := (1000000 / itr) * 4;
          }
        }
        txItrSetting := rxItrSetting;
      } else {
        rxItrSetting := DefaultItr;
        txItrSetting := DefaultItr;
      }
    }

    /** One of the LLIPort, LLISize, LLIEType and LLIVLANP blocks: a non-zero
        entry is validated, a zero one kept, and without an entry or LLI
        support the field is 0. */
    method LliField(arr: ParamArray, max: uint32, p: ModuleParams) returns (v: uint32)
      requires p.Valid() && arr.Valid()
      ensures v == LliValue(board, p, arr, max)
    {
      var bd := board.bd;
      if arr.num > bd && LliSupported(board, p.lliPush) {
        v := arr.values[bd];
        if v != 0 {
          var rc;
          v, rc := ValidateOption(v, LliRangeOption(max));
        }
      } else {
        v := 0;
      }
    }

    /** The LLIPush block. */
    method LliPushBlock(p: ModuleParams)
      requires Valid() && p.Valid()
      modifies this
      ensures Valid() && State() == old(State()).(flags := if LliPushOn(board, p)
                                                            then old(flags) + {LliPush}
                                                            else old(flags) - {LliPush})
    {
      var bd := board.bd;
      if p.lliPush.num > bd && LliSupported(board, p.lliPush) {
        var push, rc := ValidateOption(p.lliPush.values[bd], LliPushOption);
        if push != 0 {
          flags := flags + {LliPush};
        } else {
          flags := flags - {LliPush};
        }
      } else {
        flags := flags - {LliPush};
      }
    }

    /** The five low-latency-interrupt blocks: port, size, push flag,
        EtherType and VLAN priority. */
    method CheckLli(p: ModuleParams)
      requires Valid() && p.Valid()
      modifies this
      ensures Valid() && State() == LliStep(old(State()), board, p)
    {
      lliPort := LliField(p.lliPort, MaxLliPort, p);
      lliSize := LliField(p.lliSize, MaxLliSize, p);
      LliPushBlock(p);
      lliEType := LliField(p.lliEType, MaxLliEType, p);
      lliVlanPri := LliField(p.lliVlanP, MaxLliVlanP, p);
    }

    /** The Flow Director packet-buffer block. */
    method CheckFdirPballoc(p: ModuleParams)
      requires Valid() && p.Valid()
      modifies this
      ensures Valid() && State() == FdirPballocStep(old(State()), board, p)
    {
      var bd := board.bd;
      if board.mac == Mac82598EB {
        fdirPballoc := FdirPballocNone;
      } else if p.fdirPballoc.num > bd {
        var mode, rc := ValidateOption(p.fdirPballoc.values[bd], FdirPballocOption);
        if mode == FdirPballoc256K {
          fdirPballoc := FdirPballoc256K;
        } else if mode == FdirPballoc128K {
          fdirPballoc := FdirPballoc128K;
        } else {
          fdirPballoc := FdirPballoc64K;
        }
      } else {
        fdirPballoc := FdirPballocOption.def;
      }
    }

    /** The ATR sample-rate block. */
    method CheckAtrSampleRate(p: ModuleParams)
      requires Valid() && p.Valid()
      modifies this
      ensures Valid() && State() == AtrSampleRateStep(old(State()), board, p)
    {
      var bd := board.bd;
      if board.mac == Mac82598EB {
        atrSampleRate := AtrSampleRateOff;
      } else if p.atrSampleRate.num > bd {
        atrSampleRate := p.atrSampleRate.values[bd];
        if atrSampleRate != 0 {
          var rc;
          atrSampleRate, rc := ValidateOption(atrSampleRate, AtrSampleRateOption);
        }
      } else {
        atrSampleRate := AtrSampleRateOption.def;
      }
    }

    /** The FCoE block: the capability is cleared, then set again on the
        FCoE MAC types unless the entry turns it off. */
    method CheckFcoe(p: ModuleParams)
      requires Valid() && p.Valid()
      modifies this
      ensures Valid() && State() == FcoeStep(old(State()), board, p)
    {
      var bd := board.bd;
      flags := flags - {FcoeCapable};
      if IsFcoeMac(board.mac) {
        if p.fcoe.num > bd {
          var fcoe, rc := ValidateOption(p.fcoe.values[bd], FcoeOption);
          if fcoe != 0 {
            flags := flags + {FcoeCapable};
          }
        } else {
          flags := flags + {FcoeCapable};
        }
      }
    }

    /** The large-receive-offload block and its RSC check. */
    method CheckLro(p: ModuleParams)
      requires Valid() && p.Valid()
      modifies this
      ensures Valid() && State() == LroStep(old(State()), board, p)
    {
      var bd := board.bd;
      if p.lro.num > bd {
        var v, rc := ValidateOption(p.lro.values[bd], LroOption);
        lro := v != 0;
      } else {
        lro := false;
      }
      if lro && !board.rscCapable {
        lro := false;
      }
    }

    /** The allow_unsupported_sfp block. */
    method CheckAllowUnsupportedSfp(p: ModuleParams)
      requires Valid() && p.Valid()
      modifies this
      ensures Valid() && State() == AllowUnsupportedSfpStep(old(State()), board, p)
    {
      var bd := board.bd;
      if p.allowUnsupportedSfp.num > bd {
        var v, rc := ValidateOption(p.allowUnsupportedSfp.values[bd], AllowUnsupportedSfpOption);
        allowUnsupportedSfp := v != 0;
      } else {
        allowUnsupportedSfp := false;
      }
    }

    /** The DMA-coalescing block, its range depending on the MAC type and
        on the throttle settings chosen above. */
    method CheckDmacWatchdog(p: ModuleParams)
      requires Valid() && p.Valid()
      modifies this
      ensures Valid() && State() == DmacWatchdogStep(old(State()), board, p)
    {
      var bd := board.bd;
      var opt := DmacOption(board.mac, rxItrSetting, txItrSetting);
      if p.dmacWatchdog.num > bd {
        var v, rc := ValidateOption(p.dmacWatchdog.values[bd], opt);
        dmacWatchdog := v;
      } else {
        dmacWatchdog := opt.def;
      }
    }

    /** The VXLAN rx-offload block. */
    method CheckVxlanRx(p: ModuleParams)
      requires Valid() && p.Valid()
      modifies this
      ensures Valid() && State() == VxlanRxStep(old(State()), board, p)
    {
      var bd := board.bd;
      var opt := VxlanRxOption(VxlanOffloadCapable in flags);
      if p.vxlanRx.num > bd {
        var v, rc := ValidateOption(p.vxlanRx.values[bd], opt);
        if v != 0 {
          flags := flags + {VxlanOffloadEnable};
        } else {
          flags := flags - {VxlanOffloadEnable};
        }
      } else if opt.def != 0 {
        flags := flags + {VxlanOffloadEnable};
      } else {
        flags := flags - {VxlanOffloadEnable};
      }
    }

    /** The malicious-driver-detection block. */
    method CheckMdd(p: ModuleParams)
      requires Valid() && p.Valid()
      modifies this
      ensures Valid() && State() == MddStep(old(State()), board, p)
    {
      var bd := board.bd;
      if IsX550Family(board.mac) {
        if p.mdd.num > bd {
          var mdd, rc := ValidateOption(p.mdd.values[bd], MddOption);
          if mdd != 0 {
            flags := flags + {MddEnabled};
          } else {
            flags := flags - {MddEnabled};
          }
        } else {
          flags := flags + {MddEnabled};
        }
      } else {
        flags := flags - {MddEnabled};
      }
    }

    /** The interrupt-mode, MQ, DCA, RSS, VMDQ, SR-IOV and VEPA blocks. */
    method QueueOptions(p: ModuleParams, build: BuildConfig, host: HostLimits)
      requires Valid() && p.Valid()
      modifies this, ringFeature
      ensures Valid() && State() == QueueBlocks(old(State()), board, p, build, host)
    {
      ghost var s0 := State();
      CheckIntMode(p);
      CheckMq(p);
      ghost var s1 := State();
      assert s1 == MqStep(IntModeStep(s0, board, p), board, p);
      if build.dca {
        CheckDca(p);
      }
      ghost var s2 := State();
      assert s2 == if build.dca then DcaStep(s1, board, p) else s1;
      CheckRss(p, host);
      CheckVmdq(p, host);
      ghost var s3 := State();
      assert s3 == VmdqStep(RssStep(s2, board, p, host), board, p, host);
      if build.pciIov {
        CheckSriov(p);
        CheckVepa(p);
      }
    }

    /** The interrupt-throttling, LLI, Flow Director and ATR blocks. */
    method LatencyOptions(p: ModuleParams, build: BuildConfig, host: HostLimits)
      requires Valid() && p.Valid()
      modifies this
      ensures Valid() && State() == LatencyBlocks(old(State()), board, p, build, host)
    {
      CheckItr(p, host);
      if build.lli {
        CheckLli(p);
      }
      if build.txMq {
        CheckFdirPballoc(p);
        CheckAtrSampleRate(p);
      }
    }

    /** The FCoE, LRO, unsupported-SFP+, DMA-coalescing, VXLAN and MDD
        blocks. */
    method OffloadOptions(p: ModuleParams, build: BuildConfig)
      requires Valid() && p.Valid()
      modifies this
      ensures Valid() && State() == OffloadBlocks(old(State()), board, p, build)
    {
      if build.fcoe {
        CheckFcoe(p);
      }
      ghost var s0 := State();
      CheckLro(p);
      CheckAllowUnsupportedSfp(p);
      CheckDmacWatchdog(p);
      ghost var s1 := State();
      assert s1 == DmacWatchdogStep(AllowUnsupportedSfpStep(LroStep(s0, board, p), board, p), board, p);
      CheckVxlanRx(p);
      CheckMdd(p);
    }

    /** `ixgbe_check_options`: every block in source order, the compiled-out
        ones skipped. The adapter ends in the state `CheckOptionsSpec`
        describes, and so obeys every cross-option rule. */
    method CheckOptions(p: ModuleParams, build: BuildConfig, host: HostLimits)
      requires Valid() && p.Valid()
      modifies this, ringFeature
      ensures Valid() && State() == CheckOptionsSpec(old(State()), board, p, build, host)
      ensures Consistent(State(), board, build, host)
    {
      ghost var s0 := State();
      QueueOptions(p, build, host);
      LatencyOptions(p, build, host);
      OffloadOptions(p, build);
      CheckOptionsConsistent(s0, board, p, build, host);
    }
  }
}
