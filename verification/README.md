# em2rs register-map model

A Dafny model of the em2rs driver for EM2RS stepper-motor controllers. The
driver talks Modbus RTU to the controller and turns high-level motion
requests into ordered writes of 16-bit holding registers. The requests cover
initialisation, jogging, digital-input mapping, soft limits, homing, path
(PR) motion and the global PR control flags. It also decodes status and
alarm words read back from the device.

The async client (`src/client.rs`) and the blocking client (`src/sync.rs`)
have the same logic on the same lines, so one model covers both. The model
is organised as follows:

- `Words` (`words.dfy`): the machine words. `u8`, `u16` and `u32` are
  `bv8`, `bv16` and `bv32`. The `f32` phase current is kept as its IEEE bit
  pattern.
- `Wrappers` (`wrappers.dfy`): the optional value that the path lookup and the
  code decoders return.
- `Registers` (`registers.dfy`): the register map of `src/registers.rs`.
  It holds the addresses, the path-block offsets and the status masks, and
  `PathBase` (`get_path_base`).
- `Types` (`types.dfy`): the enums of `src/types.rs`, each with its wire
  code and a decoder. It also holds the `MotionStatus` and `CurrentAlarm`
  flag words, the three configuration records and their constructors and
  builders, and the error type.
- `Channel` (`channel.dfy`): the pre-established Modbus channel.
  - A `Write` is one `write_single_register` call.
  - Each request gets one answer: accepted, an exception response from
    the device, or a failure of the channel itself (io or protocol).
  - `Run` executes a plan of writes as `write_register` does. It stops at
    the first channel failure. An exception response is discarded, so the
    plan goes on and the call still succeeds (see "## Findings").
    `RunChecked` is the corrected loop, which stops on either kind of
    answer.
  - A `Device` is the sequence of writes it has received. Reading a
    register returns the most recent value written to it.
- `Sequencer` (`sequencer.dfy`): every write-only driver operation, as the
  write plan it sends or the validation error it returns before sending
  anything.
- `Bits` and `GlobalCtrl` (`bits.dfy`, `globalctrl.dfy`): the bit
  arithmetic for the read-modify-write of `PR_GLOBAL_CTRL_FCT`.
- `Session` (`session.dfy`): the operations that read the device, and
  the global-control read-modify-write. It also models the shared RS-485
  bus, on which the channel's current slave address decides which motor
  receives a write. Address 0 is the Modbus RTU broadcast address, and every
  slave applies a write sent to it.

## Model

| member | source | states |
|---|---|---|
| Registers.PathBase | src/registers.rs:138-151 | paths 0..8 have a block and every other id has none; block n starts at 0x6200 + 8·n |
| Registers.PathRegistersDisjoint | src/registers.rs:100-118 | two (path, offset) pairs name the same register only when they are the same pair; every path register lies in 0x6200..0x6247 |
| Registers.InputRegistersSpacing | src/registers.rs:11-17 | the seven digital-input registers SI1..SI7 are two apart, so SIn = SI1 + 2·(n−1) |
| Registers.MotionMasksSingleBits | src/registers.rs:129-134 | each motion-status mask is a single bit, and the six masks are pairwise disjoint |
| Types.CodesRoundTrip | src/types.rs:34-201 | decoding the wire code of any enum value gives that value back, for all eight command/config enums |
| Types.CodesInjective | src/types.rs:48-195 | distinct enum values have distinct wire codes |
| Types.InputCodesBelowNcBit | src/types.rs:48-74 | no input-function code uses the normally-closed bit 0x80, so adding that bit cannot disturb the code |
| Types.MotionFlagsRoundTrip | src/types.rs:205-231 | the six status predicates determine exactly the masked bits of the status word, and any choice of six flags is realised by some word |
| Types.MotionPredicatesIndependent | src/types.rs:207-231 | flipping bits of the status word changes a predicate exactly when a flipped bit is that predicate's mask |
| Types.AlarmMasksSingleBits | src/types.rs:124-130 | the six alarm masks are single, pairwise disjoint bits |
| Types.AlarmFlagsRoundTrip | src/types.rs:122-155 | the six alarm predicates determine exactly the masked bits of the alarm word, and every flag combination is realisable |
| Types.AlarmPredicatesIndependent | src/types.rs:132-154 | flipping alarm bits changes a predicate exactly when its own mask bit is flipped |
| Types.HomingConfig.Default | src/types.rs:250-267 | the default homing setup: input 1 as a normally-open origin switch, clockwise, move after homing, home-switch method, positions 0, speeds 100/50, ramps 100/100 |
| Types.PathConfig.New | src/types.rs:282-295 | ids above 8 are refused with InvalidPath(id); valid ids get absolute position 0, velocity, acceleration and deceleration 100, no pause |
| Types.StepperConfig.New | src/types.rs:309-317 | a fresh config keeps the slave id and pulses per revolution, runs clockwise, has 1.0 A phase current and inductance 1000 |
| Types.StepperConfig.WithPhaseCurrent | src/types.rs:319-322 | sets the phase current and leaves every other field equal |
| Types.StepperConfig.WithInductance | src/types.rs:324-327 | sets the inductance and leaves every other field equal |
| Types.StepperConfig.WithDirection | src/types.rs:329-332 | sets the direction and leaves every other field equal |
| Types.BuildersCommute | src/types.rs:319-332 | each builder changes only its own field, so builders on different fields commute and a repeated one keeps the last value |
| Sequencer.SplitJoin | src/client.rs:206-219 | the high/low 16-bit halves of a u32 rebuild it (msb·65536 + lsb), and splitting a joined pair returns the pair |
| Sequencer.SetPeakCurrent | src/client.rs:92-95 | one write to PEAK_CURRENT of the converted phase current |
| Sequencer.SetMotorInductance | src/client.rs:98-101 | one write to the inductance register; the value never exceeds 10000 and equals the request exactly when the request is within 10000 |
| Sequencer.InductanceClampIdempotent | src/client.rs:98-101 | clamping an already-clamped inductance changes nothing |
| Sequencer.InitPlan | src/client.rs:47-63 | init writes pulses/rev, direction, peak current and inductance, in that order, to four distinct registers, with a 0/1 direction and a clamped inductance |
| Sequencer.InitReadBack | src/client.rs:47-63 | after init each of the four registers reads back the configured value (inductance clamped, peak current converted) |
| Sequencer.ForcedEnableBySoftware | src/client.rs:104-107 | one write to FORCED_ENA whose value is 1 exactly when enabling and 0 otherwise |
| Sequencer.SetControlWord | src/client.rs:110-112 | one write to CONTROL_WORD that decodes back to the requested command |
| Sequencer.SaveParamEeprom | src/client.rs:115-117 | a single CONTROL_WORD write of 0x2211 |
| Sequencer.ParamReset | src/client.rs:120-122 | a single CONTROL_WORD write of 0x2222 |
| Sequencer.FactoryReset | src/client.rs:125-127 | a single CONTROL_WORD write of 0x2233 |
| Sequencer.SaveMappingEeprom | src/client.rs:130-132 | a single CONTROL_WORD write of 0x2244 |
| Sequencer.JogMotor | src/client.rs:135-141 | clockwise jogs with 0x4001, counter-clockwise with 0x4002, on CONTROL_WORD |
| Sequencer.InputRegister | src/client.rs:155 | input n (1..7) is configured at the n-th digital-input register, which lies in SI1..SI7 |
| Sequencer.InputWord | src/client.rs:154 | the function code and the normally-closed increment share no bit, so their sum is their bitwise or |
| Sequencer.InputWordRoundTrip | src/client.rs:144-157 | the input configuration word decodes back to the chosen function and normally-closed flag |
| Sequencer.ConfigureInput | src/client.rs:144-157 | input numbers outside 1..7 are refused with InvalidDigitalInput and no write; otherwise one write to SIn whose word decodes to the function and NC flag |
| Sequencer.SetSoftLimitMax | src/client.rs:206-211 | two writes, high half then low half, to the positive soft-limit registers, joining back to the limit |
| Sequencer.SetSoftLimitMin | src/client.rs:214-219 | the same for the negative soft-limit registers |
| Sequencer.HomeModeWord | src/client.rs:250-252 | direction, move-after flag and method occupy disjoint bits, so the sum is their or and lies in 0..7 |
| Sequencer.HomeModeRoundTrip | src/client.rs:244-255 | the home-mode word decodes back to direction, move-after-homing flag and method |
| Sequencer.ConfigureHoming | src/client.rs:244-255 | writes the home-mode word (at most 7, decoding to the inputs) then the fixed auxiliary value |
| Sequencer.SetHomingPosition | src/client.rs:258-263 | high then low half of the home-switch position, joining back to it |
| Sequencer.SetHomingStopPosition | src/client.rs:266-271 | high then low half of the homing stop position, joining back to it |
| Sequencer.SetHomingHighVelocity | src/client.rs:274-276 | one write of the speed, unchanged, to HOMING_HIGH_VELOCITY |
| Sequencer.SetHomingLowVelocity | src/client.rs:279-281 | one write of the speed, unchanged, to HOMING_LOW_VELOCITY |
| Sequencer.SetHomingAcceleration | src/client.rs:284-286 | one write of the ramp, unchanged, to HOMING_ACC |
| Sequencer.SetHomingDeceleration | src/client.rs:289-291 | one write of the ramp, unchanged, to HOMING_DEC |
| Sequencer.ApplyHomingConfig | src/client.rs:294-304 | refuses an invalid input number with no write; otherwise eleven writes |
| Sequencer.ApplyHomingConfigWrites | src/client.rs:294-304 | the eleven writes are exactly input mapping, home mode, aux, position H/L, stop position H/L, high speed, low speed, acceleration, deceleration |
| Sequencer.ApplyHomingConfigOrder | src/client.rs:294-304 | the plan touches eleven distinct registers in the source's order |
| Sequencer.ApplyHomingConfigFailure | src/client.rs:294-304 | if write k is the first to meet a channel failure, exactly the first k+1 writes were sent, the error is that fault, and only the accepted writes among the first k reached the device (all k when all were accepted) |
| Sequencer.HomingThirdWriteFails | src/client.rs:294-304 | when the third write fails, the device has only the input mapping and home mode applied; every other register is untouched |
| Sequencer.ApplyHomingConfigReadBack | src/client.rs:294-304 | after a successful apply, every homing register reads back its configured value |
| Sequencer.RefusedHomingInputReportsSuccess | src/sync.rs:294-304 | as written: if the device refuses the input-mapping write and accepts the rest, apply_homing_config sends all eleven writes and returns Ok, yet the input register keeps its old value |
| Sequencer.RefusedDefaultHomingLeavesInputUnset | src/types.rs:250-267 | as written: the default homing config on a fresh device with that refusal reports Ok while input 1 decodes to no function instead of the origin switch |
| Sequencer.CheckedHomingInputRefused | src/sync.rs:294-304 | corrected: the same refusal stops apply_homing_config after its first write with the device's exception, and the device is unchanged |
| Sequencer.CheckedHomingSuccessApplies | src/sync.rs:294-304 | corrected: a successful apply_homing_config means all eleven writes landed and the input function and home mode decode back from the device |
| Sequencer.SetPrControl | src/client.rs:307-309 | one write to PR_CTRL that decodes back to the command |
| Sequencer.StartHoming | src/client.rs:312-314 | a single PR_CTRL write of 0x20 |
| Sequencer.StopMotor | src/client.rs:326-328 | a single PR_CTRL write of 0x40 |
| Sequencer.ManualZero | src/client.rs:331-333 | a single PR_CTRL write of 0x21 |
| Sequencer.StartPath | src/client.rs:317-323 | ids above 8 are refused with InvalidPath and no write; otherwise PR_CTRL gets 0x10 + id |
| Sequencer.ChainRuns | src/client.rs:398-419 | executing two chained calls on the channel is executing the first and, only if all its writes were acknowledged, the second on the following answers, as `first?; second?` does |
| Sequencer.PathControlWord | src/client.rs:351-358 | motion type, interrupt 0x10, overlap 0x20, relative 0x40 and jump 0x4000 plus target nibble occupy disjoint bits, so the sum is their or and never exceeds 0x4F7F |
| Sequencer.PathControlRoundTrip | src/client.rs:339-361 | the path control word decodes back to motion type, interrupt, overlap, absolute, jump flag and jump target nibble |
| Sequencer.ConfigurePathMotion | src/client.rs:339-361 | invalid path ids are refused with InvalidPath; otherwise one write to the path's base register whose word decodes to the inputs and sets no bit outside 0x4F7F |
| Sequencer.PathControlWordBits | src/client.rs:351-358 | the path control word sets no bit outside motion type, interrupt, overlap, relative, jump and the jump-target nibble (mask 0x4F7F) |
| Sequencer.SetPathPosition | src/client.rs:364-371 | invalid ids are refused; otherwise high then low half at offsets 1 and 2 of the path block, joining back to the position |
| Sequencer.SetPathRegister | src/client.rs:374-395 | the single-register path setters: invalid ids are refused; otherwise the value goes to base + offset |
| Sequencer.SetPathVelocity | src/client.rs:374-377 | invalid ids are refused with InvalidPath; otherwise one write of the speed at offset 3 of the path block |
| Sequencer.SetPathAcceleration | src/client.rs:380-383 | invalid ids are refused with InvalidPath; otherwise one write of the ramp at offset 4 of the path block |
| Sequencer.SetPathDeceleration | src/client.rs:386-389 | invalid ids are refused with InvalidPath; otherwise one write of the ramp at offset 5 of the path block |
| Sequencer.SetPathPauseTime | src/client.rs:392-395 | invalid ids are refused with InvalidPath; otherwise one write of the pause at offset 6 of the path block |
| Sequencer.ApplyPathConfig | src/client.rs:398-419 | invalid ids are refused with no write; otherwise six writes, or seven when a pause time is set |
| Sequencer.ApplyPathConfigWrites | src/client.rs:398-419 | the writes are control, position H/L, velocity, acceleration, deceleration, then pause time only when it is non-zero |
| Sequencer.ApplyPathConfigDistinct | src/client.rs:398-419 | the path plan never writes one register twice |
| Sequencer.ApplyPathConfigReadBack | src/client.rs:398-419 | after a successful apply every configured path register reads back its value |
| Sequencer.ExamplePathPlan | examples/multiple_motors.rs:44-52 | the usage example's path 0 (absolute, position 5000, velocity 300, ramps 150, no pause) is six writes starting with control word 0x0001 at 0x6200, and the pause register is not written |
| Sequencer.NewPathConfigApplies | src/types.rs:282-295 | a freshly constructed path config is always accepted and issues six writes |
| Sequencer.DefaultHomingConfigApplies | src/types.rs:250-267 | the default homing config is accepted by apply_homing_config and issues eleven writes |
| Channel.Run | src/sync.rs:66-71 | a plan stops at the first channel failure: success means the whole plan was sent, an error is the io/protocol fault of the last write sent, no earlier write met a channel failure, and exactly the accepted writes among those sent land |
| Channel.AckError | src/sync.rs:83-88 | a read reports a channel failure as that fault and an exception response as that exception code |
| Channel.RunNoFailure | src/sync.rs:66-71 | with no channel failure the whole plan is sent and the call succeeds, whatever the device answered; only the accepted writes land |
| Channel.RunAllAcknowledged | src/sync.rs:66-71 | when every write is accepted the whole plan is sent, every write lands, and the call succeeds |
| Channel.RunIssuesPrefix | src/sync.rs:66-71 | the writes sent are always a prefix of the plan, in order |
| Channel.RefusedWriteReportsSuccess | src/sync.rs:66-71 | as written: a refused write in a plan the channel carries still yields Ok, and fewer writes land than were planned |
| Channel.RefusedFirstWriteLost | src/sync.rs:66-71 | as written: when only the first write of a plan of distinct registers is refused, the call succeeds and that register keeps its old value |
| Channel.RunChecked | src/sync.rs:83-88 | corrected write loop: success exactly when every write was accepted, and then every write landed; otherwise the error of the last write sent, fault or exception alike, with the earlier writes applied |
| Channel.RunCheckedAgrees | src/sync.rs:66-71 | when the device refuses no write, the checked loop and the loop as written give the same execution |
| Sequencer.InvalidInputSendsNothing | src/client.rs:150-152 | configure_input and apply_homing_config with an input number outside 1..7 put nothing on the channel and return InvalidDigitalInput with that number |
| Sequencer.InvalidPathSendsNothing | src/client.rs:317-419 | start_path, configure_path_motion, set_path_position, the single-register path setters and apply_path_config with a path id above 8 put nothing on the channel and return InvalidPath with that id |
| Channel.RunFirstFailure | src/sync.rs:66-71 | when write k is the first to meet a channel failure, exactly k+1 writes were sent, the accepted writes among the first k landed, and that fault is returned |
| Channel.RunAppend | src/client.rs:294-304 | running two plans back to back is running the first, then the second only if the first fully succeeded |
| Channel.StoreReadBack | src/sync.rs:66-71 | after a plan with distinct addresses, each written register reads back the value written to it |
| Channel.StoreFrame | src/sync.rs:66-71 | a register no write of the plan addresses keeps its value |
| Session.ReadRegister | src/sync.rs:83-88 | a read succeeds exactly when the device accepts it; otherwise it returns the channel fault or the device's exception code |
| Session.ReadAfterWrite | src/sync.rs:66-88 | reading a register just written returns the written value |
| Session.GetInputStatus | src/sync.rs:160-163 | the raw DIGITAL_INPUT_STATUS word when the device answers, the read's error otherwise |
| Session.GetVersion | src/sync.rs:422-425 | the raw VERSION_INFORMATION word when the device answers, the read's error otherwise |
| Session.GetMotionStatus | src/sync.rs:166-169 | succeeds exactly when the read does, with the read's error otherwise; on success it wraps the raw MOTION_STATUS word, and the decoded flags are exactly its status bits |
| Session.GetCurrentAlarm | src/sync.rs:428-431 | succeeds exactly when the read does, with the read's error otherwise; on success it wraps the raw CURRENT_ALARM word, and the decoded flags are exactly its alarm bits |
| Session.IsPathCompleted | src/sync.rs:172-175 | one status read: its fault, or whether the path-complete bit 0x20 of MOTION_STATUS is set |
| Session.IsHomingCompleted | src/sync.rs:178-181 | one status read: its fault, or whether the homing-complete bit 0x40 of MOTION_STATUS is set |
| Session.CompletionReadsOneBit | src/sync.rs:172-181 | path and homing completion are the 0x20 and 0x40 bits of MOTION_STATUS; devices agreeing on that bit answer alike |
| Session.UpdateGlobalCtrl | src/sync.rs:184-241 | a failed read stops with its error and no write; otherwise one write to PR_GLOBAL_CTRL_FCT with the requested bit set as asked |
| Session.SetCtrgEffectiveEdge | src/sync.rs:184-192 | bit 0 of the written word is set exactly when double-edge is requested; all other bits are written back as read |
| Session.SoftLimitControl | src/sync.rs:195-203 | bit 1 of the written word is set exactly when enabling; all other bits are written back as read |
| Session.HomingPowerUpControl | src/sync.rs:222-230 | bit 2 of the written word is set exactly when enabling; all other bits are written back as read |
| Session.SetCtrgTriggerType | src/sync.rs:233-241 | bit 4 of the written word is set exactly when level trigger is requested; all other bits are written back as read |
| Session.UpdateGlobalCtrlOneBit | src/sync.rs:184-241 | the update sets the chosen flag as asked and leaves every other bit of the register as it was |
| Session.UpdateGlobalCtrlEffect | src/sync.rs:184-241 | the update changes only PR_GLOBAL_CTRL_FCT on the device |
| Session.UpdateGlobalCtrlIdempotent | src/sync.rs:184-241 | repeating the same flag update leaves the device register unchanged |
| Session.UpdateGlobalCtrlReadFails | src/sync.rs:184-241 | when the read fails or is refused nothing is written and the read's error is returned |
| GlobalCtrl.MasksDistinctBits | src/sync.rs:184-241 | the four flags use distinct single bits (0, 1, 2, 4) |
| GlobalCtrl.SetBitUnchanged | src/sync.rs:184-241 | setting a flag leaves the word unchanged exactly when the flag already had that value |
| Session.WritesToAddressed | src/sync.rs:47-48 | frames sent to one slave reach that slave's device and no other; frames sent to the broadcast address 0 reach every slave |
| Session.BroadcastReachesEverySlave | src/sync.rs:47-48 | a plan sent while the channel targets slave id 0 is stored on every slave, and each of its writes reads back there |
| Session.TransmitEffect | src/sync.rs:66-71 | sending a plan changes only the current target's device (every device when the target is 0), by exactly that plan |
| Session.Perform | src/sync.rs:47-48 | only init moves the channel to the motor's own slave id; every other operation in `Command` leaves the target where it was |
| Session.PerformWritesCurrentTarget | src/sync.rs:66-71 | any operation other than init writes to whichever slave the channel currently addresses, or to all of them when it addresses 0 |
| Session.StaleTargetStartsWrongMotor | src/sync.rs:317-323 | a motor with slave id 1 on a channel left at slave 3 that calls start_path(0) without init starts slave 3 and leaves slave 1 untouched |
| Session.PerformAddressed | src/sync.rs:47-48 | corrected behaviour: every operation addresses the motor's own slave id first |
| Session.PerformAddressedOwnSlave | src/sync.rs:47-48 | under the corrected behaviour a command's writes reach exactly its own slave and other slaves are untouched, except that a session configured with id 0 broadcasts to every slave |
| Session.PerformAgreesWhenAddressed | src/sync.rs:47-48 | the two behaviours coincide for init, and whenever the channel already addresses the motor |

## Left out

- Transport: Modbus framing, CRC, serial I/O, async scheduling and the optional inter-frame delay (`modbus-delay`) are not modelled. Each request is answered with an abstract `Ack`: accepted, refused with an exception code, or failed with a `Fault`. `Fault` stands for the io and protocol variants of `Em2rsError`, and `DeviceException` for its exception variant. The payload of the io and protocol errors is reduced to a number.
- Sequencer.InitPlan and Sequencer.SetPeakCurrent: the peak current is `(phase_current * 1.4 * 10.0) as u16` in `f32` arithmetic. Floating point is not modelled, so the conversion is the parameter `peakOf` and only its placement in the plan is stated.
- `into_context` and `new` only move the channel handle and copy the config. They are not modelled beyond `Session.Bus` holding the current target.
- `write_registers` is dead code in the driver (`#[allow(dead_code)]`, never called). It is not modelled.
- Short reads: `read_registers(addr, 1)` followed by `data[0]` would panic on an empty reply. The model treats a read as either one word or a transport fault.
- Session.Bus: a broadcast write (slave id 0) is applied by every slave, but no slave answers it. The model does not model what the channel returns for such a write; `Channel.Run` still pairs every write with one answer.
- Unwritten registers: a `Device` reads 0 at any register nothing has been written to. Real power-on values are device firmware behaviour.
- Session.Perform: assumes every write of a plan is accepted. Partial failure is stated separately by `Channel.Run` and its lemmas.
- The `SaveParameterStatus` and `DigitalOutputFunction` codes are modelled with decoders and round trips. The driver never writes or reads them, so no operation uses them.
- The `SO_NC_INCR` constant has no operation that uses it in the driver. It is kept only as a constant.
- Sequencer.Chain: a plan is either all of its writes or a validation error raised before any write, so it cannot express writes sent before a later step's validation fails. Chain therefore requires that the second step fails validation only when the first does. Every chain in `apply_path_config` validates the same path id in each step, so this case does not arise in the driver.
- Failed writes: a write that met a channel failure or an exception response is taken to have had no effect on the device (`Channel.Settle` stores only the accepted writes). A Modbus write whose response is lost or times out may in fact have been applied. `Sequencer.ApplyHomingConfigFailure` and `Sequencer.HomingThirdWriteFails` rely on this assumption.

## Findings

| source | as written | input that shows it | evidently intended | confidence | as-written member | corrected member |
|---|---|---|---|---|---|---|
| src/sync.rs:47-48 (also src/client.rs:47-48) | only `init` calls `set_slave`; every other operation writes to whatever slave the shared channel last addressed | an `Em2rsSyncClient` (or `Em2rsClient`) for slave 1 built from a context last used for slave 3 calls `start_path(0)` before `init` | each motor's operations address its own slave id, as the multi-motor use of `into_context` implies | medium, not executed | Session.StaleTargetStartsWrongMotor | Session.PerformAddressedOwnSlave |
| src/sync.rs:67 (also src/client.rs:67) | `let _ = ...write_single_register(addr, value)?` propagates only channel errors and discards the device's exception response, while `read_registers` uses `??` | `apply_homing_config(HomingConfig::default())` on a device that answers the SI1 write with an exception and accepts the other ten writes | an exception response is reported as `Em2rsError::ModbusException` and stops the operation, as for reads; success means every write took effect | medium, not executed | Sequencer.RefusedDefaultHomingLeavesInputUnset | Sequencer.CheckedHomingSuccessApplies |

The sequencer's lemmas are stated over `Channel.Run`, the loop as written.
`Channel.RunCheckedAgrees` shows that the corrected loop gives the same
execution whenever the device refuses no write. So every lemma whose answers
contain no exception response holds for the corrected driver as well.
