# ixgbe module-parameter checking, modelled in Dafny

The ixgbe driver takes its per-board tunables as module-parameter arrays.
There is one array per option, with one slot per board and IXGBE_MAX_NIC + 1
slots in all. Every slot starts as OPTION_UNSET (-1). Each array has a count,
`num_X`, of the entries the user gave. When a board is probed,
`ixgbe_check_options` reads that board's slot of every array. It passes each
value through `ixgbe_validate_option`, which keeps the value or replaces it
with the option's default. The resulting interrupt mode, queue counts,
virtualisation settings, interrupt throttling, low-latency interrupts, Flow
Director, FCoE, LRO, SFP+, DMA-coalescing, VXLAN and malicious-driver-detection
settings are written into the adapter. Each block then applies its
interoperability checks: MQ needs MSI-X, VMDQ and SR-IOV need MQ, LRO needs
RSC, and DMA coalescing and MDD exist only on the X550 family.

The project has these modules:

- `Validator` (validator.dfy) holds the option descriptor (enable, range or
  list option) and the validator. `Validate` is the specification function.
  `ValidateOption` is the routine with its list search written as a loop and
  proved equal to it. Lemmas state the outcome for each kind of option.
- `ParamInputs` (inputs.dfy) holds what the routine reads:
  - the parameter arrays and their counts;
  - the board (`bd_number`, MAC type, RSC capability and RSS limit);
  - the build switches;
  - the values defined outside the file.

  It also holds what the routine writes, as one `AdapterState` value. It
  defines every descriptor constant, `ixgbe_lli_supported` as
  `LliSupported`, and the validate-or-default step shared by all blocks
  (`Requested`).
- `Policy` (policy.dfy) has one step function per option block, giving the
  state after the block as a function of the state before it. Each step
  function's contract states the block's outcome. `CheckOptionsSpec`
  composes the steps in source order, with the compiled-out blocks skipped.
  `CheckOptionsConsistent` proves that the final state obeys every
  cross-option rule, whatever the parameters and the starting flags.
- `AdapterModel` (adapter.dfy) holds the `Adapter` class, whose fields are
  the adapter fields the routine updates in place. `ring_feature[].limit` is
  an array. Each option block is a method that updates the fields step by
  step as the C does, except for the two corrected behaviours (see
  "## Findings"): `CheckItr` stores the dynamic setting 1 where the code
  encodes the default as a rate, and `CheckVmdq` validates against the
  board's own range where the code uses a shared static descriptor. Each
  method is proved to leave exactly the state its step function describes.
  `CheckOptions` runs them all and inherits the consistency theorem.
- `Findings` (findings.dfy) holds two behaviours of the code as written,
  each with a counterexample, beside the corrected definitions the rest of
  the model uses (see "## Findings").
- `Scenarios` (scenarios.dfy) holds the documented single-option
  behaviours, for all states that contain the entry.

Facts about the code that the model follows:

- A value equal to OPTION_UNSET is replaced by the default with status 0,
  not -1, and before the option kind is examined.
- A range option accepts its default even when the default lies outside
  [min, max].
- The DCA block's last two lines (`src/ixgbe_param.c:612-613`) matter. When
  the board has no DCA entry, they are the only code that turns on rx-data
  DCA, because the default is level 2. The model keeps them.
- An InterruptThrottleRate of 500 is below the minimum of 956, so the
  validator replaces it with the default 1. See "## Findings" for what is
  then stored.

Where the code and its comments disagree, the model follows the code: the
comments above VMDQ and FdirPballoc (`src/ixgbe_param.c:128`, `:252`) name
defaults of 8 and 0, but the descriptors the code uses have defaults of 0
(disabled) and IXGBE_FDIR_PBALLOC_64K.

## Model

| member | source | states |
|---|---|---|
| Validator.Validate | src/ixgbe_param.c:390-451 | The result is the input or the default. The status is 0 or -1. Status -1 implies the default was substituted. A changed value means status -1 or an OPTION_UNSET input. |
| Validator.ValidateOption | src/ixgbe_param.c:399-451 | The validator, with the list case as a search over the first `nr` entries, returns exactly what `Validate` specifies. |
| Validator.UnsetTakesDefault | src/ixgbe_param.c:400-405 | For every descriptor, OPTION_UNSET becomes the default with status 0. |
| Validator.EnableOptionOutcome | src/ixgbe_param.c:407-417 | An enable option keeps a value with status 0 exactly when it is 0 or 1. Any other set value becomes the default with status -1. |
| Validator.RangeOptionOutcome | src/ixgbe_param.c:418-429 | A range option keeps a value with status 0 exactly when min <= value <= max or value == def. Otherwise it substitutes the default with status -1. |
| Validator.ListOptionOutcome | src/ixgbe_param.c:430-450 | A list option keeps a value exactly when one of its first `nr` entries equals it. If none does, the default is substituted with status -1. |
| Validator.ValidateIdempotent | src/ixgbe_param.c:400-450 | Validating an already-validated value keeps it with status 0, for every descriptor whose default passes its own test. |
| ParamInputs.ParamArray.Slot | src/ixgbe_param.c:27-48 | A board has an entry exactly when its index is below the array's `num_X`, and the entry is that slot's value. |
| ParamInputs.AsSigned | src/ixgbe_param.c:374 | A slot read back as a C int is positive exactly when its unsigned value lies in (0, 2^31). |
| ParamInputs.LliSupported | src/ixgbe_param.c:362-386 | LLI is supported only on 82599 and X540. It is always supported on X540. On 82599 it is supported exactly when the LLIPush slot is not a positive int. |
| ParamInputs.Requested | src/ixgbe_param.c:678-702 | Without an entry the result is the default. An entry other than OPTION_UNSET that the descriptor accepts is kept. An unset or refused entry gives the default. |
| ParamInputs.DmacOption | src/ixgbe_param.c:1159-1185 | The DMA-coalescing default is 0. The range is [41, 10000] on the X550 family with either throttle setting on, and collapses to [0, 0] otherwise. |
| ParamInputs.IsX550Family | src/ixgbe_param.c:1169-1174 | The MAC types with DMA coalescing and MDD: X550, X550EM_x, X550EM_a and E610. |
| ParamInputs.IsFcoeMac | src/ixgbe_param.c:1060-1065 | The MAC types whose FCoE entry is consulted: X540, X550, E610 and 82599. |
| ParamInputs.VmdqMax | src/ixgbe_param.c:669-676 | The VMDQ maximum is 16 on 82598 and IXGBE_MAX_VMDQ_INDICES on every other MAC type, for each board on its own (corrected; see Findings). |
| ParamInputs.VmdqOption | src/ixgbe_param.c:659-676 | The VMDQ descriptor defaults to disabled, which its range accepts, and its range is [0, the board's maximum]. |
| ParamInputs.VxlanRxOption | src/ixgbe_param.c:1201-1216 | The VXLAN descriptor is [0, 1] with default 1 on capable hardware, and [0, 0] with default 0 otherwise; the default is always accepted. |
| Policy.IntModeRequest | src/ixgbe_param.c:500-506 | There is a request exactly when IntMode or InterruptType has an entry. A valid IntMode slot is the request, and a set IntMode above 2 becomes MSI-X. An unset IntMode slot falls back to InterruptType, whose valid mode is kept and whose other values become MSI-X. |
| Policy.IntModeStep | src/ixgbe_param.c:488-541 | MSI-X stays only for a request of MSI-X, or of MSI on hardware without MSI. MSI stays for any request but legacy. With no entry, MSI follows MSI-X. No other flag changes. |
| Policy.MqStep | src/ixgbe_param.c:542-572 | Afterwards MQ is on exactly when MSI-X is on and the board's MQ entry is not 0. MQ implies MSI-X. |
| Policy.DcaStep | src/ixgbe_param.c:573-615 | DCA capability is dropped only by an entry of 0. With an entry, DCA stays enabled only while capable. Rx-data DCA is turned on unless the entry is 0 or 1, and is never turned off. |
| Policy.RssQueues | src/ixgbe_param.c:616-647 | The RSS count is at most the board's RSS limit. A resolved 0 means min(limit, online CPUs). A valid non-zero entry is kept. |
| Policy.RssStep | src/ixgbe_param.c:616-657 | The RSS ring limit is the resolved count with MQ, or the count cut to 1 without MQ. A valid non-zero RSS entry sets the Flow Director limit, and nothing else changes it. The VMDQ limit is untouched. |
| Policy.VmdqStep | src/ixgbe_param.c:658-714 | VMDQ is enabled exactly when its limit exceeds 1, and only with MQ. The limit is within the board's range. It equals the resolved request with MQ, or without MQ for a request of 0 or 1. A request above 1 without MQ forces it to 0. Corrected: the range is the board's own; see Findings. |
| Policy.SriovStep | src/ixgbe_param.c:716-773 | SR-IOV is enabled exactly when max_vfs is non-zero, and only with SR-IOV capability and MQ. max_vfs is at most 63. A failed validation gives 0. With capability and MQ, max_vfs is the resolved request. |
| Policy.VepaStep | src/ixgbe_param.c:774-799 | VEPA bridge mode is turned on exactly by an entry of 1 and never turned off. |
| Policy.EncodeRate | src/ixgbe_param.c:829-830 | The encoded rate is a multiple of 4 (bit 0 is a control bit) and at most 4000000. |
| Policy.ItrSetting | src/ixgbe_param.c:814-832 | Entry 0 gives off and entry 1 gives dynamic. A valid rate is encoded. An entry that validates to the default gives dynamic. Every result is off, dynamic or the encoding of a rate in [min, max]. Corrected; see Findings. |
| Policy.ItrStep | src/ixgbe_param.c:801-840 | The rx and tx settings are equal. With no entry they are dynamic, an entry of 0 turns throttling off, an entry of 1 is dynamic, and an allowed rate is encoded as `(1000000 / rate) << 2`. Every setting is off, dynamic or an allowed rate. Corrected (a fallen-back entry is dynamic); see Findings. |
| Policy.LliValue | src/ixgbe_param.c:842-869 | An LLI field is within its range. It is 0 without an entry, without LLI support (so always off 82599/X540, and on 82599 when LLIPush is positive), and for an entry above the range. With support, a valid entry is kept. |
| Policy.LliPushOn | src/ixgbe_param.c:898-922 | LLI push is on only on X540, and there exactly for an entry of 1. |
| Policy.LliStep | src/ixgbe_param.c:842-982 | After the five LLI blocks, LLI push implies X540 and every LLI field is within its range. Only the LLI fields and the push flag change. |
| Policy.FdirPballocStep | src/ixgbe_param.c:985-1025 | The buffer is none exactly on 82598, and otherwise one of the three levels. A valid entry picks its own level. A missing or invalid entry gives the 64K level. |
| Policy.AtrSampleRateStep | src/ixgbe_param.c:1026-1054 | The sample rate is off on 82598 and otherwise at most 255. Without an entry, or for an entry above 255, it is 20. A valid entry is kept. |
| Policy.FcoeStep | src/ixgbe_param.c:1056-1096 | FCoE capability is recomputed. It is on exactly for the FCoE MAC types whose entry is not 0. |
| Policy.LroStep | src/ixgbe_param.c:1097-1130 | LRO ends on exactly for an entry of 1 on RSC-capable hardware. |
| Policy.AllowUnsupportedSfpStep | src/ixgbe_param.c:1131-1158 | Untested SFP+ modules are allowed exactly for an entry of 1. |
| Policy.DmacWatchdogStep | src/ixgbe_param.c:1159-1199 | A non-zero watchdog needs the X550 family and throttling on, and then lies in [41, 10000]. Under those conditions a valid entry is kept. No entry, or an entry outside [41, 10000], gives 0. |
| Policy.VxlanRxStep | src/ixgbe_param.c:1200-1236 | VXLAN rx offload ends enabled exactly on capable hardware whose entry is not 0. |
| Policy.MddStep | src/ixgbe_param.c:1237-1274 | MDD ends enabled exactly on the X550 family when the entry is not 0. |
| Policy.QueueBlocks | src/ixgbe_param.c:488-799 | The interrupt-mode through VEPA blocks in order, keeping the three ring limits. |
| Policy.LatencyBlocks | src/ixgbe_param.c:801-1054 | The throttling, LLI, Flow Director and ATR blocks change only their own fields and the push flag, and establish equal throttle settings, the LLI bounds and the Flow Director bounds. |
| Policy.OffloadBlocks | src/ixgbe_param.c:1056-1274 | The FCoE through MDD blocks change only their own fields and flags, and establish each hardware gate. |
| Policy.CheckOptionsSpec | src/ixgbe_param.c:465-1275 | The whole routine for one board, with blocks in source order and compiled-out blocks skipped. |
| Policy.MqNeedsMsix | src/ixgbe_param.c:564-615 | Once the MQ block has run, MQ implies MSI-X, and the DCA block does not change that. |
| Policy.RssVmdqRules | src/ixgbe_param.c:616-714 | Given MQ implies MSI-X, the RSS and VMDQ blocks establish the queue rules: ring-limit bounds, VMDQ needs MQ, and RSS is limited to 1 without MQ. |
| Policy.SriovRules | src/ixgbe_param.c:716-799 | The SR-IOV and VEPA blocks add the SR-IOV rules and keep the earlier queue rules. |
| Policy.QueueBlocksRules | src/ixgbe_param.c:488-799 | After the queue blocks every queue rule holds. |
| Policy.LatencyKeepsQueueRules | src/ixgbe_param.c:801-1054 | The throttling, LLI and Flow Director blocks preserve every queue rule. |
| Policy.OffloadKeepsRules | src/ixgbe_param.c:1056-1274 | The offload blocks preserve the queue and latency rules and add the offload gates. |
| Policy.CheckOptionsConsistent | src/ixgbe_param.c:465-1275 | For all parameters and starting states, the final configuration obeys every rule. MQ needs MSI-X. VMDQ and SR-IOV need MQ. SR-IOV needs capability. LRO needs RSC. DMA coalescing and MDD need the X550 family. VXLAN offload needs capability. LLI push needs X540. All values are within range. |
| AdapterModel.Adapter.CheckIntMode | src/ixgbe_param.c:488-541 | The block's in-place flag updates leave exactly `IntModeStep` of the previous state. |
| AdapterModel.Adapter.CheckMq | src/ixgbe_param.c:542-572 | The block leaves exactly `MqStep` of the previous state. |
| AdapterModel.Adapter.CheckDca | src/ixgbe_param.c:573-615 | The block, including its final rx-data assignment, leaves exactly `DcaStep` of the previous state. |
| AdapterModel.Adapter.CheckRss | src/ixgbe_param.c:616-657 | The block's writes to the ring-limit array leave exactly `RssStep` of the previous state. |
| AdapterModel.Adapter.CheckVmdq | src/ixgbe_param.c:658-714 | The block leaves exactly `VmdqStep` of the previous state. Corrected: it validates against the board's own range, not the shared static descriptor; see Findings. |
| AdapterModel.Adapter.CheckSriov | src/ixgbe_param.c:716-773 | The block leaves exactly `SriovStep` of the previous state. |
| AdapterModel.Adapter.CheckVepa | src/ixgbe_param.c:774-799 | The block leaves exactly `VepaStep` of the previous state. |
| AdapterModel.Adapter.CheckItr | src/ixgbe_param.c:801-840 | The block leaves exactly `ItrStep` of the previous state. Corrected: it stores dynamic 1 where the code encodes the default as a rate; see Findings. |
| AdapterModel.Adapter.LliField | src/ixgbe_param.c:842-869 | The port, size, EtherType or VLAN-priority block stores exactly `LliValue`. |
| AdapterModel.Adapter.LliPushBlock | src/ixgbe_param.c:898-922 | The push block sets the flag exactly when `LliPushOn` and changes nothing else. |
| AdapterModel.Adapter.CheckLli | src/ixgbe_param.c:842-982 | The five LLI blocks leave exactly `LliStep` of the previous state. |
| AdapterModel.Adapter.CheckFdirPballoc | src/ixgbe_param.c:985-1025 | The block leaves exactly `FdirPballocStep` of the previous state. |
| AdapterModel.Adapter.CheckAtrSampleRate | src/ixgbe_param.c:1026-1054 | The block leaves exactly `AtrSampleRateStep` of the previous state. |
| AdapterModel.Adapter.CheckFcoe | src/ixgbe_param.c:1056-1096 | The block leaves exactly `FcoeStep` of the previous state. |
| AdapterModel.Adapter.CheckLro | src/ixgbe_param.c:1097-1130 | The block leaves exactly `LroStep` of the previous state. |
| AdapterModel.Adapter.CheckAllowUnsupportedSfp | src/ixgbe_param.c:1131-1158 | The block leaves exactly `AllowUnsupportedSfpStep` of the previous state. |
| AdapterModel.Adapter.CheckDmacWatchdog | src/ixgbe_param.c:1159-1199 | The block leaves exactly `DmacWatchdogStep` of the previous state. |
| AdapterModel.Adapter.CheckVxlanRx | src/ixgbe_param.c:1200-1236 | The block leaves exactly `VxlanRxStep` of the previous state. |
| AdapterModel.Adapter.CheckMdd | src/ixgbe_param.c:1237-1274 | The block leaves exactly `MddStep` of the previous state. |
| AdapterModel.Adapter.QueueOptions | src/ixgbe_param.c:488-799 | The interrupt-mode through VEPA blocks leave exactly `QueueBlocks` of the previous state. |
| AdapterModel.Adapter.LatencyOptions | src/ixgbe_param.c:801-1054 | The throttling through ATR blocks leave exactly `LatencyBlocks` of the previous state. |
| AdapterModel.Adapter.OffloadOptions | src/ixgbe_param.c:1056-1274 | The FCoE through MDD blocks leave exactly `OffloadBlocks` of the previous state. |
| AdapterModel.Adapter.CheckOptions | src/ixgbe_param.c:465-1275 | The adapter ends in `CheckOptionsSpec` of its starting state, and so obeys every cross-option rule. |
| Findings.ItrSettingAsWritten | src/ixgbe_param.c:814-832 | As written, entries 0 and 1 give off and dynamic, and any entry that validates to the default 1 is encoded as a fixed rate, 4000000 in the model's unbounded field, never dynamic. |
| Findings.EncodeRateAtMostHalf | src/ixgbe_param.c:829-830 | Any rate of 2 or more encodes to at most 2000000. |
| Findings.NotASetting | src/ixgbe_param.c:801-832 | With a minimum rate of at least 2, 4000000 encodes no allowed rate. |
| Findings.ItrBelowMinimum | src/ixgbe_param.c:801-832 | Entry 500 validates to the default with status -1. As written it is encoded as a fixed rate (4000000 in the unbounded field, which is no allowed rate) instead of dynamic. Corrected, it is dynamic. |
| Findings.ItrUnsetEntry | src/ixgbe_param.c:400-405 | An entry of -1 also yields a fixed rate (4000000 in the unbounded field) as written, and dynamic when corrected. |
| Findings.ItrSettingsAgreeOffDefault | src/ixgbe_param.c:814-832 | Whenever the validated value is not the default, the corrected and as-written settings agree. |
| Findings.VmdqMaxAsWritten | src/ixgbe_param.c:658-676 | The static descriptor's maximum after a sequence of boards is the initial value or 16, and is 16 right after an 82598 board. |
| Findings.VmdqMaxAsWrittenSticks | src/ixgbe_param.c:658-676 | The maximum is 16 exactly when any earlier board was an 82598, whatever the current board is. |
| Findings.VmdqSecondBoardRefused | src/ixgbe_param.c:658-692 | For an 82598 then an 82599 board with 32 pools each: as written the second board's 32 is refused (status -1, VMDQ off). With the per-board range it is accepted. |
| Scenarios.VmdqWithoutMq | src/ixgbe_param.c:678-713 | 4 VMDQ pools without MQ leave VMDQ disabled with limit 0, on every board, whether its range accepts 4 or not. |
| Scenarios.SriovAboveMaximum | src/ixgbe_param.c:726-773 | 70 virtual functions fail validation, so max_vfs is 0 and SR-IOV is disabled. |
| Scenarios.DmacUnsupported | src/ixgbe_param.c:1159-1199 | A watchdog of 100 off the X550 family is refused and the timer is 0. |
| Scenarios.ItrEntries | src/ixgbe_param.c:814-833 | Entries 0 and 1 give off and dynamic, and an allowed rate of 2000 is stored as 2000 in both settings. |

## Left out

- Diagnostic output is not modelled: `netdev_info`, `netdev_notice`, `DPRINTK`, the descriptors' name, err and msg strings, list-entry strings and the `pstring` buffer.
- The parameter-declaration macros and kernel load-time parsing are not modelled. The arrays and their `num_X` counts are read-only inputs, with every slot at or past `num_X` still OPTION_UNSET.
- Only the build with `module_param_array` defined is modelled. The other branch reads every slot unconditionally, and its FdirPballoc and AtrSampleRate blocks still use `num_X`. CONFIG_DCA, CONFIG_PCI_IOV, IXGBE_NO_LLI, HAVE_TX_MQ and CONFIG_FCOE are the booleans of `BuildConfig`.
- `ixgbe_max_rss_indices` and `num_online_cpus` are parameters, as are IXGBE_MIN_INT_RATE, IXGBE_MAX_INT_RATE and IXGBE_MAX_VMDQ_INDICES. They are defined outside this file, and ixgbe.h is not part of this model. The numeric values of the IXGBE_FLAG_* bits are also defined there, so flags are abstract members of a set.
- The widths of the adapter fields are declared in ixgbe.h. The throttle settings and ring limits are therefore unbounded naturals, and no truncation on storing is modelled. If the throttle field is 16 bits wide, the as-written 4000000 of the throttle finding would be stored as 2304, still a fixed rate rather than dynamic.
- `BUG()` in the validator's default case is not modelled, because the descriptor datatype has no other kind.
- The notice for `bd >= IXGBE_MAX_NIC` is not modelled, because it changes no state.
- The unconditional read of `RSS[bd]` at line 625 is not modelled. For a board index above IXGBE_MAX_NIC that read is out of bounds. The value read is always overwritten, because the `opt.def == 0` branch always runs when there is no entry. The model therefore reads the slot only when `num_RSS > bd`.
- The RSS descriptor's maximum is also written into a static descriptor, but it is rewritten for every board before use. The model computes it per board.
- The tests of constant descriptor defaults are not modelled as separate branches (`opt.def == OPTION_DISABLED` and similar). They always take the same side; that side is modelled.
- Other bits of `netdev->features`, and everything that later consumes the flags (interrupt setup, queue allocation, SR-IOV bring-up), are not part of this model.
- Policy.QueueBlocks: its own contract states only that the ring limits keep their three entries. The queue rules it establishes are proved separately, in Policy.QueueBlocksRules.
- Policy.CheckOptionsSpec: its own contract states only well-formedness. Its meaning is proved in Policy.CheckOptionsConsistent.

## Findings

| source | as written | input that shows it | evidently intended | confidence | as-written member | corrected member |
|---|---|---|---|---|---|---|
| src/ixgbe_param.c:826-830 | Any throttle entry other than 0 or 1 is validated and then encoded as `(1000000/itr) << 2`. This includes an entry that falls back to the default 1, which is stored as a fixed rate instead of dynamic (4000000 in the model's unbounded field). | InterruptThrottleRate=500 (below the minimum of 956), or -1 | The error text promises "using default of 1", meaning dynamic throttling, so the setting should be 1 | high; not executed | Findings.ItrSettingAsWritten (shown by Findings.ItrBelowMinimum) | Policy.ItrSetting |
| src/ixgbe_param.c:659-676 | The VMDQ descriptor is `static`, and an 82598 board lowers its maximum to 16. No later board raises it again. | An 82598 board then an 82599 board, with VMDQ=32 for the second | Each board validates against its own MAC type's maximum (16 on 82598, IXGBE_MAX_VMDQ_INDICES elsewhere) | medium; not executed | Findings.VmdqMaxAsWritten (shown by Findings.VmdqSecondBoardRefused) | Policy.VmdqStep |
