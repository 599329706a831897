/** The command sequencer of `Em2rsClient` / `Em2rsSyncClient`: every public
    operation as the ordered list of register writes it issues, or the
    validation error it returns before issuing any. Running a plan against the
    channel is `Channel.Run`; the blocking and the async client issue the same
    plans. */
module Sequencer {
  import opened Words
  import opened Wrappers
  import opened Registers
  import opened Types
  import opened Channel
  import opened Bits

  /** Upper bound the inductance is clamped to. */
  const MAX_INDUCTANCE: U16 := 10000

  /** Auxiliary homing register written after the homing mode, and its value. */
  const HOMING_AUX: U16 := 0x601A
  const HOMING_AUX_VALUE: U16 := 0x0002

  // ---------------------------------------------------------------------------
  // 32-bit values over two registers

  /** The high word of a 32-bit value, `(v >> 16) & 0xFFFF`. */
  function High(v: U32): U16 {
    ((v >> 16) & 0xFFFF) as U16
  }

  /** The low word of a 32-bit value, `v & 0xFFFF`. */
  function Low(v: U32): U16 {
    (v & 0xFFFF) as U16
  }

  /** The 32-bit value held by a high and a low register. */
  function Join(high: U16, low: U16): U32 {
    ((high as U32) << 16) | (low as U32)
  }

  /** Splitting is lossless and joining inverts it; in 32-bit arithmetic the
      high word weighs 65536. */
  lemma SplitJoin(v: U32, high: U16, low: U16)
    ensures Join(High(v), Low(v)) == v
    ensures (High(v) as U32) * 0x1_0000 + (Low(v) as U32) == v
    ensures High(Join(high, low)) == high && Low(Join(high, low)) == low
  {
  }

  /** Writes a 32-bit value to a register pair, high word first. */
  function WriteSplit(highAddr: U16, lowAddr: U16, v: U32): (plan: seq<Write>)
    ensures |plan| == 2 && plan[0].addr == highAddr && plan[1].addr == lowAddr
    ensures Join(plan[0].value, plan[1].value) == v
  {
    SplitJoin(v, 0, 0);
    [Write(highAddr, High(v)), Write(lowAddr, Low(v))]
  }

  // ---------------------------------------------------------------------------
  // Motor parameters and initialisation

  /** Peak current: one write of the device word derived from the phase
      current. The float conversion is the parameter `peakOf`. */
  function SetPeakCurrent(phaseCurrent: F32, peakOf: F32 -> U16): (plan: seq<Write>)
    ensures |plan| == 1 && plan[0].addr == PEAK_CURRENT && plan[0].value == peakOf(phaseCurrent)
  {
    [Write(PEAK_CURRENT, peakOf(phaseCurrent))]
  }

  /** Motor inductance, silently saturated at 10000. */
  function SetMotorInductance(inductance: U16): (plan: seq<Write>)
    ensures |plan| == 1 && plan[0].addr == MOTOR_INDUCTANCE
    ensures plan[0].value <= MAX_INDUCTANCE
    ensures plan[0].value == inductance <==> inductance <= MAX_INDUCTANCE
    ensures inductance >= MAX_INDUCTANCE ==> plan[0].value == MAX_INDUCTANCE
    ensures plan[0].value <= inductance
  {
    [Write(MOTOR_INDUCTANCE, if inductance <= MAX_INDUCTANCE then inductance else MAX_INDUCTANCE)]
  }

  /** Clamping is idempotent: writing back a clamped value writes it unchanged. */
  lemma InductanceClampIdempotent(inductance: U16)
    ensures SetMotorInductance(SetMotorInductance(inductance)[0].value) == SetMotorInductance(inductance)
  {
  }

  /** The writes of `init` after the channel is addressed to the device:
      pulses per revolution, direction, peak current, inductance. */
  function InitPlan(config: StepperConfig, peakOf: F32 -> U16): (plan: seq<Write>)
    ensures Addresses(plan) == [PULSE_PER_REV, MOTOR_DIRECTION, PEAK_CURRENT, MOTOR_INDUCTANCE]
    ensures plan[1].value <= 1 && plan[3].value <= MAX_INDUCTANCE
    ensures DistinctAddresses(plan)
  {
    [Write(PULSE_PER_REV, config.pulsePerRev), Write(MOTOR_DIRECTION, config.direction.Code())]
    + SetPeakCurrent(config.phaseCurrent, peakOf)
    + SetMotorInductance(config.inductance)
  }

  /** After a successful `init` the device holds the configuration: the pulse
      count, a direction word that decodes to the configured direction, the
      derived peak current and the clamped inductance. */
  lemma InitReadBack(dev: Device, config: StepperConfig, peakOf: F32 -> U16)
    ensures var d := Store(dev, InitPlan(config, peakOf));
      && d.Read(PULSE_PER_REV) == config.pulsePerRev
      && Direction.FromCode(d.Read(MOTOR_DIRECTION)) == Some(config.direction)
      && d.Read(PEAK_CURRENT) == peakOf(config.phaseCurrent)
      && d.Read(MOTOR_INDUCTANCE) == SetMotorInductance(config.inductance)[0].value
  {
    var plan := InitPlan(config, peakOf);
    StoreReadBack(dev, plan, 0);
    StoreReadBack(dev, plan, 1);
    StoreReadBack(dev, plan, 2);
    StoreReadBack(dev, plan, 3);
    CodesRoundTrip(config.direction, Invalid, NoOutput, ResetCurrentAlarm, SaveSuccessfully, LimitSwitch, RunThePath, NoAction);
  }

  /** Software forced enable: 1 to enable, 0 to disable. */
  function ForcedEnableBySoftware(enable: bool): (plan: seq<Write>)
    ensures |plan| == 1 && plan[0].addr == FORCED_ENA
    ensures plan[0].value <= 1 && (plan[0].value == 1 <==> enable)
  {
    [Write(FORCED_ENA, if enable then 0x0001 else 0x0000)]
  }

  // ---------------------------------------------------------------------------
  // Control-word commands

  /** One write of a control-word command; the written word decodes back to it. */
  function SetControlWord(command: ControlWord): (plan: seq<Write>)
    ensures |plan| == 1 && plan[0].addr == CONTROL_WORD
    ensures ControlWord.FromCode(plan[0].value) == Some(command)
  {
    CodesRoundTrip(Clockwise, Invalid, NoOutput, command, SaveSuccessfully, LimitSwitch, RunThePath, NoAction);
    [Write(CONTROL_WORD, command.Code())]
  }

  function SaveParamEeprom(): (plan: seq<Write>)
    ensures plan == [Write(CONTROL_WORD, 0x2211)]
  {
    SetControlWord(ControlWord.SaveParamEeprom)
  }

  function ParamReset(): (plan: seq<Write>)
    ensures plan == [Write(CONTROL_WORD, 0x2222)]
  {
    SetControlWord(ControlWord.ParamReset)
  }

  function FactoryReset(): (plan: seq<Write>)
    ensures plan == [Write(CONTROL_WORD, 0x2233)]
  {
    SetControlWord(ControlWord.FactoryReset)
  }

  function SaveMappingEeprom(): (plan: seq<Write>)
    ensures plan == [Write(CONTROL_WORD, 0x2244)]
  {
    SetControlWord(ControlWord.SaveMappingEeprom)
  }

  /** Jog: 0x4001 clockwise, 0x4002 counter-clockwise, to the control word. */
  function JogMotor(direction: Direction): (plan: seq<Write>)
    ensures |plan| == 1 && plan[0].addr == CONTROL_WORD
    ensures plan[0].value == (if direction == Clockwise then 0x4001 else 0x4002)
  {
    var command := match direction
      case Clockwise => JogClockwise
      case CounterClockwise => JogCounterClockwise;
    SetControlWord(command)
  }

  // ---------------------------------------------------------------------------
  // Digital inputs

  /** Register of digital input `inputNo`, computed as SI1 + 2 * (inputNo - 1). */
  function InputRegister(inputNo: U8): (addr: U16)
    requires 1 <= inputNo <= 7
    ensures addr == DIGITAL_INPUTS[inputNo - 1]
    ensures SI1 <= addr <= SI7
  {
    SI1 + ((inputNo - 1) as U16) * 2
  }

  /** Input configuration word: function code plus 0x80 when normally closed. */
  function InputWord(fn: DigitalInputFunction, normallyClosed: bool): (w: U16)
    ensures w == fn.Code() | (if normallyClosed then SI_NC_INCR else 0)
    ensures fn.Code() & (if normallyClosed then SI_NC_INCR else 0) == 0
  {
    InputCodesBelowNcBit(fn);
    fn.Code() + if normallyClosed then SI_NC_INCR else 0
  }

  /** Reads an input configuration word back as (function, normally closed). */
  function DecodeInputWord(w: U16): (Option<DigitalInputFunction>, bool) {
    (DigitalInputFunction.FromCode(w & !SI_NC_INCR), w & SI_NC_INCR != 0)
  }

  /** Decoding an input word recovers the function and the polarity. */
  lemma InputWordRoundTrip(fn: DigitalInputFunction, normallyClosed: bool)
    ensures DecodeInputWord(InputWord(fn, normallyClosed)) == (Some(fn), normallyClosed)
  {
    InputCodesBelowNcBit(fn);
    CodesRoundTrip(Clockwise, fn, NoOutput, ResetCurrentAlarm, SaveSuccessfully, LimitSwitch, RunThePath, NoAction);
    var w := InputWord(fn, normallyClosed);
    assert w & !SI_NC_INCR == fn.Code();
  }

  /** `configure_input`: input numbers outside 1..7 are refused with no write;
      otherwise one write to that input's register. */
  function ConfigureInput(inputNo: U8, fn: DigitalInputFunction, normallyClosed: bool): (r: Result<seq<Write>>)
    ensures r.Err? <==> !(1 <= inputNo <= 7)
    ensures r.Err? ==> r.error == InvalidDigitalInput(inputNo)
    ensures r.Ok? ==> |r.value| == 1 && r.value[0].addr == DIGITAL_INPUTS[inputNo - 1]
    ensures r.Ok? ==> r.value[0].value == fn.Code() | (if normallyClosed then SI_NC_INCR else 0)
    ensures r.Ok? ==> DecodeInputWord(r.value[0].value) == (Some(fn), normallyClosed)
  {
    if !(1 <= inputNo <= 7) then Err(InvalidDigitalInput(inputNo))
    else
      InputWordRoundTrip(fn, normallyClosed);
      Ok([Write(InputRegister(inputNo), InputWord(fn, normallyClosed))])
  }

  // ---------------------------------------------------------------------------
  // Soft limits

  function SetSoftLimitMax(max: U32): (plan: seq<Write>)
    ensures Addresses(plan) == [SOFT_LIMIT_P_H, SOFT_LIMIT_P_L]
    ensures Join(plan[0].value, plan[1].value) == max
  {
    WriteSplit(SOFT_LIMIT_P_H, SOFT_LIMIT_P_L, max)
  }

  function SetSoftLimitMin(min: U32): (plan: seq<Write>)
    ensures Addresses(plan) == [SOFT_LIMIT_N_H, SOFT_LIMIT_N_L]
    ensures Join(plan[0].value, plan[1].value) == min
  {
    WriteSplit(SOFT_LIMIT_N_H, SOFT_LIMIT_N_L, min)
  }

  // ---------------------------------------------------------------------------
  // Homing

  /** Homing mode word: direction (bit 0) + move-after flag (bit 1) + method (bit 2). */
  function HomeModeWord(direction: Direction, moveToPos: bool, homing: HomingMethod): (w: U16)
    ensures w <= 7
    ensures w == direction.Code() | (if moveToPos then 0x0002 else 0) | homing.Code()
  {
    direction.Code() + (if moveToPos then 0x0002 else 0x0000) + homing.Code()
  }

  /** Reads a homing mode word back as (direction, move-after flag, method). */
  function DecodeHomeMode(w: U16): (Option<Direction>, bool, Option<HomingMethod>) {
    (Direction.FromCode(w & 0x0001), w & 0x0002 != 0, HomingMethod.FromCode(w & 0x0004))
  }

  /** Decoding a homing mode word recovers all three settings. */
  lemma HomeModeRoundTrip(direction: Direction, moveToPos: bool, homing: HomingMethod)
    ensures DecodeHomeMode(HomeModeWord(direction, moveToPos, homing)) == (Some(direction), moveToPos, Some(homing))
  {
    CodesRoundTrip(direction, Invalid, NoOutput, ResetCurrentAlarm, SaveSuccessfully, homing, RunThePath, NoAction);
  }

  /** `configure_homing`: the homing mode word, then the fixed 0x601A := 2. */
  function ConfigureHoming(direction: Direction, moveToPos: bool, homing: HomingMethod): (plan: seq<Write>)
    ensures Addresses(plan) == [HOME_MODE, HOMING_AUX]
    ensures plan[0].value <= 7 && plan[1].value == HOMING_AUX_VALUE
    ensures DecodeHomeMode(plan[0].value) == (Some(direction), moveToPos, Some(homing))
  {
    HomeModeRoundTrip(direction, moveToPos, homing);
    [Write(HOME_MODE, HomeModeWord(direction, moveToPos, homing)), Write(HOMING_AUX, HOMING_AUX_VALUE)]
  }

  function SetHomingPosition(position: U32): (plan: seq<Write>)
    ensures Addresses(plan) == [HOME_SWITCH_POS_HIGH, HOME_SWITCH_POS_LOW]
    ensures Join(plan[0].value, plan[1].value) == position
  {
    WriteSplit(HOME_SWITCH_POS_HIGH, HOME_SWITCH_POS_LOW, position)
  }

  function SetHomingStopPosition(position: U32): (plan: seq<Write>)
    ensures Addresses(plan) == [HOMING_STOP_POS_HIGH, HOMING_STOP_POS_LOW]
    ensures Join(plan[0].value, plan[1].value) == position
  {
    WriteSplit(HOMING_STOP_POS_HIGH, HOMING_STOP_POS_LOW, position)
  }

  /** `set_homing_high_velocity`: one write of the value, unchanged, to HOMING_HIGH_VELOCITY. */
  function SetHomingHighVelocity(rpm: U16): (plan: seq<Write>)
    ensures |plan| == 1 && plan[0].addr == HOMING_HIGH_VELOCITY && plan[0].value == rpm
  {
    [Write(HOMING_HIGH_VELOCITY, rpm)]
  }

  /** `set_homing_low_velocity`: one write of the value, unchanged, to HOMING_LOW_VELOCITY. */
  function SetHomingLowVelocity(rpm: U16): (plan: seq<Write>)
    ensures |plan| == 1 && plan[0].addr == HOMING_LOW_VELOCITY && plan[0].value == rpm
  {
    [Write(HOMING_LOW_VELOCITY, rpm)]
  }

  /** `set_homing_acceleration`: one write of the value, unchanged, to HOMING_ACC. */
  function SetHomingAcceleration(acc: U16): (plan: seq<Write>)
    ensures |plan| == 1 && plan[0].addr == HOMING_ACC && plan[0].value == acc
  {
    [Write(HOMING_ACC, acc)]
  }

  /** `set_homing_deceleration`: one write of the value, unchanged, to HOMING_DEC. */
  function SetHomingDeceleration(dec: U16): (plan: seq<Write>)
    ensures |plan| == 1 && plan[0].addr == HOMING_DEC && plan[0].value == dec
  {
    [Write(HOMING_DEC, dec)]
  }

  /** Registers written by `apply_homing_config`, in order, for a valid input. */
  function HomingAddresses(inputNo: U8): (addrs: seq<U16>)
    requires 1 <= inputNo <= 7
    ensures |addrs| == 11
    ensures forall i, j :: 0 <= i < j < |addrs| ==> addrs[i] != addrs[j]
  {
    [DIGITAL_INPUTS[inputNo - 1], HOME_MODE, HOMING_AUX,
     HOME_SWITCH_POS_HIGH, HOME_SWITCH_POS_LOW, HOMING_STOP_POS_HIGH, HOMING_STOP_POS_LOW,
     HOMING_HIGH_VELOCITY, HOMING_LOW_VELOCITY, HOMING_ACC, HOMING_DEC]
  }

  /** `apply_homing_config`: the eight homing setters chained with `?`. Only the
      input number can fail validation, and it is checked before any write. */
  function ApplyHomingConfig(config: HomingConfig): (r: Result<seq<Write>>)
    ensures r.Err? <==> !(1 <= config.inputNo <= 7)
    ensures r.Err? ==> r.error == InvalidDigitalInput(config.inputNo)
    ensures r.Ok? ==> |r.value| == 11
  {
    var input :- ConfigureInput(config.inputNo, config.inputFunction, config.normallyClosed);
    Ok(input
       + ConfigureHoming(config.direction, config.moveToPosAfter, config.homingMethod)
       + SetHomingPosition(config.position)
       + SetHomingStopPosition(config.positionStop)
       + SetHomingHighVelocity(config.highVelocity)
       + SetHomingLowVelocity(config.lowVelocity)
       + SetHomingAcceleration(config.acceleration)
       + SetHomingDeceleration(config.deceleration))
  }

  /** On a valid input number `apply_homing_config` issues exactly these eleven
      writes, in this order: the input register, the homing mode, 0x601A := 2,
      home position high then low, stop position high then low, high velocity,
      low velocity, acceleration, deceleration. */
  lemma ApplyHomingConfigWrites(config: HomingConfig)
    requires 1 <= config.inputNo <= 7
    ensures ApplyHomingConfig(config) == Ok([
      Write(DIGITAL_INPUTS[config.inputNo - 1], InputWord(config.inputFunction, config.normallyClosed)),
      Write(HOME_MODE, HomeModeWord(config.direction, config.moveToPosAfter, config.homingMethod)),
      Write(HOMING_AUX, HOMING_AUX_VALUE),
      Write(HOME_SWITCH_POS_HIGH, High(config.position)),
      Write(HOME_SWITCH_POS_LOW, Low(config.position)),
      Write(HOMING_STOP_POS_HIGH, High(config.positionStop)),
      Write(HOMING_STOP_POS_LOW, Low(config.positionStop)),
      Write(HOMING_HIGH_VELOCITY, config.highVelocity),
      Write(HOMING_LOW_VELOCITY, config.lowVelocity),
      Write(HOMING_ACC, config.acceleration),
      Write(HOMING_DEC, config.deceleration)])
  {
    var plan := ApplyHomingConfig(config).value;
    var literal := [
      Write(DIGITAL_INPUTS[config.inputNo - 1], InputWord(config.inputFunction, config.normallyClosed)),
      Write(HOME_MODE, HomeModeWord(config.direction, config.moveToPosAfter, config.homingMethod)),
      Write(HOMING_AUX, HOMING_AUX_VALUE),
      Write(HOME_SWITCH_POS_HIGH, High(config.position)),
      Write(HOME_SWITCH_POS_LOW, Low(config.position)),
      Write(HOMING_STOP_POS_HIGH, High(config.positionStop)),
      Write(HOMING_STOP_POS_LOW, Low(config.positionStop)),
      Write(HOMING_HIGH_VELOCITY, config.highVelocity),
      Write(HOMING_LOW_VELOCITY, config.lowVelocity),
      Write(HOMING_ACC, config.acceleration),
      Write(HOMING_DEC, config.deceleration)];
    assert ConfigureInput(config.inputNo, config.inputFunction, config.normallyClosed).value == literal[..1];
    assert ConfigureHoming(config.direction, config.moveToPosAfter, config.homingMethod) == literal[1..3];
    assert SetHomingPosition(config.position) == literal[3..5];
    assert SetHomingStopPosition(config.positionStop) == literal[5..7];
    assert plan == literal[..1] + literal[1..3] + literal[3..5] + literal[5..7]
                   + literal[7..8] + literal[8..9] + literal[9..10] + literal[10..];
    assert literal[..1] + literal[1..3] + literal[3..5] + literal[5..7]
           + literal[7..8] + literal[8..9] + literal[9..10] + literal[10..] == literal;
  }

  /** On a valid input number `apply_homing_config` writes eleven distinct
      registers in the fixed order of `HomingAddresses`. */
  lemma ApplyHomingConfigOrder(config: HomingConfig)
    requires 1 <= config.inputNo <= 7
    ensures Addresses(ApplyHomingConfig(config).value) == HomingAddresses(config.inputNo)
    ensures DistinctAddresses(ApplyHomingConfig(config).value)
  {
    ApplyHomingConfigWrites(config);
    var plan := ApplyHomingConfig(config).value;
    var addrs := HomingAddresses(config.inputNo);
    assert forall i :: 0 <= i < |plan| ==> plan[i].addr == addrs[i];
  }

  /** If the k-th write of `apply_homing_config` (counting from 0) is the first
      to meet a channel failure, the call returns that fault after putting
      writes 0..k on the channel, and only the accepted writes among 0..k-1
      reach the device (all of them when all were acknowledged): there is no
      rollback. */
  lemma ApplyHomingConfigFailure(dev: Device, config: HomingConfig, acks: seq<Ack>, k: nat)
    requires 1 <= config.inputNo <= 7
    requires 11 <= |acks| && k < 11 && acks[k].Failed?
    requires forall j :: 0 <= j < k ==> !acks[j].Failed?
    ensures var plan := ApplyHomingConfig(config).value;
      var e := Execute(ApplyHomingConfig(config), acks);
      && e.sent == plan[..k + 1]
      && e.outcome == Err(Transport(acks[k].fault))
      && Settle(dev, e) == Store(dev, Landed(plan[..k], acks))
    ensures (forall j :: 0 <= j < k ==> acks[j].Acked?) ==>
      Settle(dev, Execute(ApplyHomingConfig(config), acks)) == Store(dev, ApplyHomingConfig(config).value[..k])
  {
    var plan := ApplyHomingConfig(config).value;
    RunFirstFailure(plan, acks, k);
    if forall j :: 0 <= j < k ==> acks[j].Acked? {
      LandedAllAcked(plan[..k], acks);
    }
  }

  /** With a failure on the third write the call returns that write's fault,
      the input register and the homing mode register hold the configured
      words, and every other register keeps its value. */
  lemma HomingThirdWriteFails(dev: Device, config: HomingConfig, acks: seq<Ack>, a: U16)
    requires 1 <= config.inputNo <= 7
    requires 11 <= |acks| && acks[0].Acked? && acks[1].Acked? && acks[2].Failed?
    requires a != DIGITAL_INPUTS[config.inputNo - 1] && a != HOME_MODE
    ensures var e := Execute(ApplyHomingConfig(config), acks);
      |e.sent| == 3 && e.outcome == Err(Transport(acks[2].fault))
    ensures var d := Settle(dev, Execute(ApplyHomingConfig(config), acks));
      DecodeInputWord(d.Read(DIGITAL_INPUTS[config.inputNo - 1])) == (Some(config.inputFunction), config.normallyClosed)
    ensures var d := Settle(dev, Execute(ApplyHomingConfig(config), acks));
      DecodeHomeMode(d.Read(HOME_MODE)) == (Some(config.direction), config.moveToPosAfter, Some(config.homingMethod))
    ensures Settle(dev, Execute(ApplyHomingConfig(config), acks)).Read(a) == dev.Read(a)
  {
    var plan := ApplyHomingConfig(config).value;
    ApplyHomingConfigFailure(dev, config, acks, 2);
    ApplyHomingConfigWrites(config);
    var applied := plan[..2];
    assert applied == [
      Write(DIGITAL_INPUTS[config.inputNo - 1], InputWord(config.inputFunction, config.normallyClosed)),
      Write(HOME_MODE, HomeModeWord(config.direction, config.moveToPosAfter, config.homingMethod))];
    assert DIGITAL_INPUTS[config.inputNo - 1] <= SI7 < HOME_MODE;
    assert DistinctAddresses(applied);
    StoreReadBack(dev, applied, 0);
    StoreReadBack(dev, applied, 1);
    InputWordRoundTrip(config.inputFunction, config.normallyClosed);
    HomeModeRoundTrip(config.direction, config.moveToPosAfter, config.homingMethod);
    StoreFrame(dev, applied, a);
  }

  /** After a successful `apply_homing_config` the device holds the whole
      configuration: every field can be decoded back from the registers. */
  lemma ApplyHomingConfigReadBack(dev: Device, config: HomingConfig)
    requires 1 <= config.inputNo <= 7
    ensures var d := Store(dev, ApplyHomingConfig(config).value);
      && DecodeInputWord(d.Read(DIGITAL_INPUTS[config.inputNo - 1])) == (Some(config.inputFunction), config.normallyClosed)
      && DecodeHomeMode(d.Read(HOME_MODE)) == (Some(config.direction), config.moveToPosAfter, Some(config.homingMethod))
      && d.Read(HOMING_AUX) == HOMING_AUX_VALUE
      && Join(d.Read(HOME_SWITCH_POS_HIGH), d.Read(HOME_SWITCH_POS_LOW)) == config.position
      && Join(d.Read(HOMING_STOP_POS_HIGH), d.Read(HOMING_STOP_POS_LOW)) == config.positionStop
      && d.Read(HOMING_HIGH_VELOCITY) == config.highVelocity
      && d.Read(HOMING_LOW_VELOCITY) == config.lowVelocity
      && d.Read(HOMING_ACC) == config.acceleration
      && d.Read(HOMING_DEC) == config.deceleration
  {
    var plan := ApplyHomingConfig(config).value;
    ApplyHomingConfigWrites(config);
    ApplyHomingConfigOrder(config);
    StoreReadBack(dev, plan, 0);
    StoreReadBack(dev, plan, 1);
    StoreReadBack(dev, plan, 2);
    StoreReadBack(dev, plan, 3);
    StoreReadBack(dev, plan, 4);
    StoreReadBack(dev, plan, 5);
    StoreReadBack(dev, plan, 6);
    StoreReadBack(dev, plan, 7);
    StoreReadBack(dev, plan, 8);
    StoreReadBack(dev, plan, 9);
    StoreReadBack(dev, plan, 10);
    InputWordRoundTrip(config.inputFunction, config.normallyClosed);
    HomeModeRoundTrip(config.direction, config.moveToPosAfter, config.homingMethod);
    SplitJoin(config.position, 0, 0);
    SplitJoin(config.positionStop, 0, 0);
  }

  /** As written, an exception response to the first write of
      `apply_homing_config` is discarded: all eleven writes are issued and the
      call returns `Ok(())`, yet the input register keeps its old value. */
  lemma RefusedHomingInputReportsSuccess(dev: Device, config: HomingConfig, acks: seq<Ack>)
    requires 1 <= config.inputNo <= 7
    requires 11 <= |acks| && acks[0].Refused?
    requires forall j :: 1 <= j < 11 ==> acks[j].Acked?
    ensures var e := Execute(ApplyHomingConfig(config), acks);
      && e.outcome == Ok(())
      && e.sent == ApplyHomingConfig(config).value
      && Settle(dev, e).Read(DIGITAL_INPUTS[config.inputNo - 1]) == dev.Read(DIGITAL_INPUTS[config.inputNo - 1])
  {
    var plan := ApplyHomingConfig(config).value;
    ApplyHomingConfigWrites(config);
    ApplyHomingConfigOrder(config);
    RefusedFirstWriteLost(dev, plan, acks);
  }

  /** The default homing configuration on a device whose registers are all 0:
      the device refuses the write of input 1, the call reports success, and
      input 1 is left with no function instead of the origin switch. */
  lemma RefusedDefaultHomingLeavesInputUnset(code: U8, acks: seq<Ack>)
    requires 11 <= |acks| && acks[0] == Refused(code)
    requires forall j :: 1 <= j < 11 ==> acks[j].Acked?
    ensures var e := Execute(ApplyHomingConfig(HomingConfig.Default()), acks);
      && e.outcome == Ok(())
      && DecodeInputWord(Settle(Device([]), e).Read(SI1)) == (Some(Invalid), false)
  {
    RefusedHomingInputReportsSuccess(Device([]), HomingConfig.Default(), acks);
    CodesRoundTrip(Clockwise, Invalid, NoOutput, ResetCurrentAlarm, SaveSuccessfully, LimitSwitch, RunThePath, NoAction);
  }

  /** With exception responses checked, the same refusal stops
      `apply_homing_config` at its first write with the device's exception,
      and nothing reaches the device. */
  lemma CheckedHomingInputRefused(dev: Device, config: HomingConfig, acks: seq<Ack>)
    requires 1 <= config.inputNo <= 7
    requires 11 <= |acks| && acks[0].Refused?
    ensures var e := ExecuteChecked(ApplyHomingConfig(config), acks);
      && e.sent == ApplyHomingConfig(config).value[..1]
      && e.outcome == Err(DeviceException(acks[0].exceptionCode))
      && Settle(dev, e) == dev
  {
  }

  /** With exception responses checked, a successful `apply_homing_config`
      means the device holds the configured input function and homing mode. */
  lemma CheckedHomingSuccessApplies(dev: Device, config: HomingConfig, acks: seq<Ack>)
    requires 1 <= config.inputNo <= 7
    requires 11 <= |acks|
    ensures var e := ExecuteChecked(ApplyHomingConfig(config), acks);
      e.outcome.Ok? ==>
        && Settle(dev, e) == Store(dev, ApplyHomingConfig(config).value)
        && DecodeInputWord(Settle(dev, e).Read(DIGITAL_INPUTS[config.inputNo - 1])) == (Some(config.inputFunction), config.normallyClosed)
        && DecodeHomeMode(Settle(dev, e).Read(HOME_MODE)) == (Some(config.direction), config.moveToPosAfter, Some(config.homingMethod))
  {
    ApplyHomingConfigReadBack(dev, config);
  }

  /** The library's default homing configuration passes validation and is
      applied as eleven writes. */
  lemma DefaultHomingConfigApplies()
    ensures ApplyHomingConfig(HomingConfig.Default()).Ok?
    ensures |ApplyHomingConfig(HomingConfig.Default()).value| == 11
  {
  }

  // ---------------------------------------------------------------------------
  // PR control

  /** One write of a PR control command; the written word decodes back to it. */
  function SetPrControl(command: PrControlCommand): (plan: seq<Write>)
    ensures |plan| == 1 && plan[0].addr == PR_CTRL
    ensures PrControlCommand.FromCode(plan[0].value) == Some(command)
  {
    CodesRoundTrip(Clockwise, Invalid, NoOutput, ResetCurrentAlarm, SaveSuccessfully, LimitSwitch, command, NoAction);
    [Write(PR_CTRL, command.Code())]
  }

  function StartHoming(): (plan: seq<Write>)
    ensures plan == [Write(PR_CTRL, 0x20)]
  {
    SetPrControl(Homing)
  }

  function StopMotor(): (plan: seq<Write>)
    ensures plan == [Write(PR_CTRL, 0x40)]
  {
    SetPrControl(QuickStop)
  }

  function ManualZero(): (plan: seq<Write>)
    ensures plan == [Write(PR_CTRL, 0x21)]
  {
    SetPrControl(PrControlCommand.ManualZero)
  }

  /** `start_path`: ids above 8 are refused with no write; otherwise one write
      of 0x10 + id to PR_CTRL, from which the id can be recovered. */
  function StartPath(pathId: U8): (r: Result<seq<Write>>)
    ensures r.Err? <==> pathId > MAX_PATH_ID
    ensures r.Err? ==> r.error == InvalidPath(pathId)
    ensures r.Ok? ==> |r.value| == 1 && r.value[0].addr == PR_CTRL
    ensures r.Ok? ==> 0x10 <= r.value[0].value <= 0x18
    ensures r.Ok? ==> r.value[0].value - RunThePath.Code() == pathId as U16
  {
    if pathId > 8 then Err(InvalidPath(pathId))
    else Ok([Write(PR_CTRL, RunThePath.Code() + pathId as U16)])
  }

  // ---------------------------------------------------------------------------
  // Paths

  /** `first?; second?` for two planned calls: the first error wins, otherwise
      the writes of both in order. A plan is either all of its writes or a
      validation error raised before any write, so the second call may fail
      validation only when the first one does; every chain in
      `apply_path_config` validates the same path id in each step. */
  function Chain(first: Result<seq<Write>>, second: Result<seq<Write>>): (r: Result<seq<Write>>)
    requires second.Err? ==> first.Err?
    ensures r.Ok? <==> first.Ok?
    ensures first.Err? ==> r == first
    ensures r.Ok? ==> r.value == first.value + second.value
  {
    match first
    case Err(e) => Err(e)
    case Ok(writes) => Ok(writes + second.value)
  }

  /** Executing a chained plan is executing the first call and, only when all
      of its writes were acknowledged, the second call on the answers that
      follow: exactly what `first?; second?` does on the channel. */
  lemma ChainRuns(first: Result<seq<Write>>, second: Result<seq<Write>>, acks: seq<Ack>)
    requires second.Err? ==> first.Err?
    requires first.Ok? ==> |first.value| + |second.value| <= |acks|
    ensures first.Err? ==> Execute(Chain(first, second), acks) == Execute(first, acks)
    ensures first.Ok? ==> Execute(Chain(first, second), acks)
                          == AndThen(Run(first.value, acks), second.value, acks[|first.value|..])
  {
    if first.Ok? {
      RunAppend(first.value, second.value, acks);
    }
  }

  /** `get_path_base(id).ok_or(InvalidPath(id))`. */
  function RequirePathBase(pathId: U8): (r: Result<U16>)
    ensures r.Ok? <==> pathId <= MAX_PATH_ID
    ensures r.Err? ==> r.error == InvalidPath(pathId)
    ensures r.Ok? ==> r.value == PathBase(pathId).value
  {
    match PathBase(pathId)
    case None => Err(InvalidPath(pathId))
    case Some(base) => Ok(base)
  }

  /** The fields of a path control word. */
  datatype PathControl = PathControl(
    motion: Option<PathMotionType>, interrupt: bool, overlap: bool,
    absolute: bool, jump: bool, jumpTo: U8)

  /** Path control word: motion type in bits 0-1, interrupt 0x10, overlap 0x20,
      relative 0x40, and when jumping 0x4000 plus the target nibble in bits 8-11.
      The parts occupy disjoint bits, so the sum is their bitwise or. */
  function PathControlWord(motion: PathMotionType, interrupt: bool, overlap: bool,
                           absolute: bool, jump: bool, jumpTo: U8): (w: U16)
    ensures w == motion.Code() | (if interrupt then 0x0010 else 0) | (if overlap then 0x0020 else 0)
                 | (if absolute then 0 else 0x0040)
                 | (if jump then 0x4000 | (((jumpTo & 0x0F) as U16) << 8) else 0)
    ensures w <= 0x4F7F
  {
    var w := motion.Code()
      + (if interrupt then 0x0010 else 0x0000)
      + (if overlap then 0x0020 else 0x0000)
      + (if absolute then 0x0000 else 0x0040);
    if jump then w + (0x4000 + (((jumpTo & 0x0F) as U16) << 8)) else w
  }

  /** A path control word sets no bit outside motion type, interrupt, overlap,
      relative, jump and the jump-target nibble. */
  lemma PathControlWordBits(motion: PathMotionType, interrupt: bool, overlap: bool,
                            absolute: bool, jump: bool, jumpTo: U8)
    ensures PathControlWord(motion, interrupt, overlap, absolute, jump, jumpTo) & !PATH_CTRL_BITS == 0
  {
    var m: U16 := motion.Code();
    var i: U16 := if interrupt then 0x0010 else 0;
    var o: U16 := if overlap then 0x0020 else 0;
    var a: U16 := if absolute then 0 else 0x0040;
    var t: U16 := ((jumpTo & 0x0F) as U16) << 8;
    assert m <= 3;
    assert m & !PATH_CTRL_BITS == 0;
    assert t & !PATH_CTRL_BITS == 0 by {
      assert (jumpTo & 0x0F) as U16 <= 0x0F;
    }
    var j: U16 := if jump then 0x4000 | t else 0;
    assert j & !PATH_CTRL_BITS == 0 by {
      if jump {
        OrWithin(0x4000, t, PATH_CTRL_BITS);
      }
    }
    OrWithin(m, i, PATH_CTRL_BITS);
    OrWithin(m | i, o, PATH_CTRL_BITS);
    OrWithin(m | i | o, a, PATH_CTRL_BITS);
    OrWithin(m | i | o | a, j, PATH_CTRL_BITS);
  }

  /** Every bit a path control word may set. */
  const PATH_CTRL_BITS: U16 := 0x4F7F

  /** Reads a path control word back into its fields. */
  function DecodePathControl(w: U16): PathControl {
    PathControl(PathMotionType.FromCode(w & 0x000F), w & 0x0010 != 0, w & 0x0020 != 0,
                w & 0x0040 == 0, w & 0x4000 != 0, ((w >> 8) & 0x000F) as U8)
  }

  /** Decoding a path control word recovers every field; only the low nibble of
      the jump target is kept, and only when jumping. */
  lemma PathControlRoundTrip(motion: PathMotionType, interrupt: bool, overlap: bool,
                             absolute: bool, jump: bool, jumpTo: U8)
    ensures DecodePathControl(PathControlWord(motion, interrupt, overlap, absolute, jump, jumpTo))
         == PathControl(Some(motion), interrupt, overlap, absolute, jump, if jump then jumpTo & 0x0F else 0)
  {
    CodesRoundTrip(Clockwise, Invalid, NoOutput, ResetCurrentAlarm, SaveSuccessfully, LimitSwitch, RunThePath, motion);
  }

  /** `configure_path_motion`: an invalid path id is refused with no write;
      otherwise one write of the control word to the path's base register. */
  function ConfigurePathMotion(pathId: U8, motion: PathMotionType, interrupt: bool, overlap: bool,
                               absolute: bool, jump: bool, jumpTo: U8): (r: Result<seq<Write>>)
    ensures r.Err? <==> pathId > MAX_PATH_ID
    ensures r.Err? ==> r.error == InvalidPath(pathId)
    ensures r.Ok? ==> |r.value| == 1 && r.value[0].addr == PathBase(pathId).value + PATH_CTRL_OFFSET
    ensures r.Ok? ==> DecodePathControl(r.value[0].value)
                      == PathControl(Some(motion), interrupt, overlap, absolute, jump, if jump then jumpTo & 0x0F else 0)
    ensures r.Ok? ==> r.value[0].value & !PATH_CTRL_BITS == 0
  {
    var base :- RequirePathBase(pathId);
    PathControlRoundTrip(motion, interrupt, overlap, absolute, jump, jumpTo);
    PathControlWordBits(motion, interrupt, overlap, absolute, jump, jumpTo);
    Ok([Write(base + PATH_CTRL_OFFSET, PathControlWord(motion, interrupt, overlap, absolute, jump, jumpTo))])
  }

  function SetPathPosition(pathId: U8, position: U32): (r: Result<seq<Write>>)
    ensures r.Err? <==> pathId > MAX_PATH_ID
    ensures r.Err? ==> r.error == InvalidPath(pathId)
    ensures r.Ok? ==> Addresses(r.value) == [PathBase(pathId).value + PATH_POSITION_H_OFFSET,
                                             PathBase(pathId).value + PATH_POSITION_L_OFFSET]
    ensures r.Ok? ==> Join(r.value[0].value, r.value[1].value) == position
  {
    var base :- RequirePathBase(pathId);
    Ok(WriteSplit(base + PATH_POSITION_H_OFFSET, base + PATH_POSITION_L_OFFSET, position))
  }

  /** One write of `value` at `offset` in the block of path `pathId`. */
  function SetPathRegister(pathId: U8, offset: U16, value: U16): (r: Result<seq<Write>>)
    ensures r.Err? <==> pathId > MAX_PATH_ID
    ensures r.Err? ==> r.error == InvalidPath(pathId)
    ensures r.Ok? ==> r.value == [Write(PathBase(pathId).value + offset, value)]
  {
    var base :- RequirePathBase(pathId);
    Ok([Write(base + offset, value)])
  }

  /** `set_path_velocity`: refused for an invalid path id, otherwise one write at
      offset `PATH_VELOCITY_OFFSET` of the path's block. */
  function SetPathVelocity(pathId: U8, rpm: U16): (r: Result<seq<Write>>)
    ensures r.Err? <==> pathId > MAX_PATH_ID
    ensures r.Err? ==> r.error == InvalidPath(pathId)
    ensures r.Ok? ==> r.value == [Write(PathBase(pathId).value + PATH_VELOCITY_OFFSET, rpm)]
  {
    SetPathRegister(pathId, PATH_VELOCITY_OFFSET, rpm)
  }

  /** `set_path_acceleration`: refused for an invalid path id, otherwise one write at
      offset `PATH_ACC_OFFSET` of the path's block. */
  function SetPathAcceleration(pathId: U8, acc: U16): (r: Result<seq<Write>>)
    ensures r.Err? <==> pathId > MAX_PATH_ID
    ensures r.Err? ==> r.error == InvalidPath(pathId)
    ensures r.Ok? ==> r.value == [Write(PathBase(pathId).value + PATH_ACC_OFFSET, acc)]
  {
    SetPathRegister(pathId, PATH_ACC_OFFSET, acc)
  }

  /** `set_path_deceleration`: refused for an invalid path id, otherwise one write at
      offset `PATH_DEC_OFFSET` of the path's block. */
  function SetPathDeceleration(pathId: U8, dec: U16): (r: Result<seq<Write>>)
    ensures r.Err? <==> pathId > MAX_PATH_ID
    ensures r.Err? ==> r.error == InvalidPath(pathId)
    ensures r.Ok? ==> r.value == [Write(PathBase(pathId).value + PATH_DEC_OFFSET, dec)]
  {
    SetPathRegister(pathId, PATH_DEC_OFFSET, dec)
  }

  /** `set_path_pause_time`: refused for an invalid path id, otherwise one write at
      offset `PATH_PAUSE_TIME_OFFSET` of the path's block. */
  function SetPathPauseTime(pathId: U8, ms: U16): (r: Result<seq<Write>>)
    ensures r.Err? <==> pathId > MAX_PATH_ID
    ensures r.Err? ==> r.error == InvalidPath(pathId)
    ensures r.Ok? ==> r.value == [Write(PathBase(pathId).value + PATH_PAUSE_TIME_OFFSET, ms)]
  {
    SetPathRegister(pathId, PATH_PAUSE_TIME_OFFSET, ms)
  }

  /** The five setters every valid `apply_path_config` runs, as planned writes. */
  function PathHead(config: PathConfig): (r: Result<seq<Write>>)
    ensures r.Err? <==> config.pathId > MAX_PATH_ID
    ensures r.Err? ==> r.error == InvalidPath(config.pathId)
    ensures r.Ok? ==> |r.value| == 6
  {
    Chain(Chain(Chain(Chain(
      ConfigurePathMotion(config.pathId, PositionPositioning, false, false, config.absolutePosition, false, 0),
      SetPathPosition(config.pathId, config.position)),
      SetPathVelocity(config.pathId, config.velocity)),
      SetPathAcceleration(config.pathId, config.acceleration)),
      SetPathDeceleration(config.pathId, config.deceleration))
  }

  /** `apply_path_config`: position positioning with interrupt, overlap and jump
      off, then position, velocity, acceleration, deceleration, and the pause
      time only when it is non-zero; each setter chained with `?`. */
  function ApplyPathConfig(config: PathConfig): (r: Result<seq<Write>>)
    ensures r.Err? <==> config.pathId > MAX_PATH_ID
    ensures r.Err? ==> r.error == InvalidPath(config.pathId)
    ensures r.Ok? ==> |r.value| == if config.pauseTime > 0 then 7 else 6
  {
    var head := PathHead(config);
    if config.pauseTime > 0 then Chain(head, SetPathPauseTime(config.pathId, config.pauseTime)) else head
  }

  /** The first six writes of `apply_path_config` on a valid path. */
  lemma PathHeadWrites(config: PathConfig)
    requires config.pathId <= MAX_PATH_ID
    ensures var base := PathBase(config.pathId).value;
      PathHead(config) == Ok([
        Write(base, if config.absolutePosition then 0x01 else 0x41),
        Write(base + 1, High(config.position)),
        Write(base + 2, Low(config.position)),
        Write(base + 3, config.velocity),
        Write(base + 4, config.acceleration),
        Write(base + 5, config.deceleration)])
  {
    var base := PathBase(config.pathId).value;
    assert RequirePathBase(config.pathId) == Ok(base);
    var c := [Write(base, if config.absolutePosition then 0x01 else 0x41)];
    var p := [Write(base + 1, High(config.position)), Write(base + 2, Low(config.position))];
    var v := [Write(base + 3, config.velocity)];
    var a := [Write(base + 4, config.acceleration)];
    var d := [Write(base + 5, config.deceleration)];
    assert PathControlWord(PositionPositioning, false, false, config.absolutePosition, false, 0)
           == if config.absolutePosition then 0x01 else 0x41;
    assert ConfigurePathMotion(config.pathId, PositionPositioning, false, false, config.absolutePosition, false, 0) == Ok(c);
    assert WriteSplit(base + 1, base + 2, config.position) == p;
    assert SetPathPosition(config.pathId, config.position) == Ok(p);
    assert SetPathVelocity(config.pathId, config.velocity) == Ok(v);
    assert SetPathAcceleration(config.pathId, config.acceleration) == Ok(a);
    assert SetPathDeceleration(config.pathId, config.deceleration) == Ok(d);
    assert c + p + v + a + d == [c[0], p[0], p[1], v[0], a[0], d[0]];
  }

  /** On a valid path `apply_path_config` writes offsets 0, 1, 2, ... of the
      path's block in order: control 0x01 (absolute) or 0x41 (relative),
      position high then low, velocity, acceleration, deceleration, and the
      pause time only when it is non-zero. */
  lemma ApplyPathConfigWrites(config: PathConfig)
    requires config.pathId <= MAX_PATH_ID
    ensures var base := PathBase(config.pathId).value;
      var six := [
        Write(base, if config.absolutePosition then 0x01 else 0x41),
        Write(base + 1, High(config.position)),
        Write(base + 2, Low(config.position)),
        Write(base + 3, config.velocity),
        Write(base + 4, config.acceleration),
        Write(base + 5, config.deceleration)];
      ApplyPathConfig(config) == Ok(if config.pauseTime > 0 then six + [Write(base + 6, config.pauseTime)] else six)
  {
    PathHeadWrites(config);
    assert ApplyPathConfig(config)
        == if config.pauseTime > 0 then Chain(PathHead(config), SetPathPauseTime(config.pathId, config.pauseTime))
           else PathHead(config);
  }

  /** `apply_path_config` writes the registers of the path's own block in
      offset order. */
  lemma ApplyPathConfigAddresses(config: PathConfig)
    requires config.pathId <= MAX_PATH_ID
    ensures var base := PathBase(config.pathId).value;
      Addresses(ApplyPathConfig(config).value)
        == [base, base + 1, base + 2, base + 3, base + 4, base + 5]
           + (if config.pauseTime > 0 then [base + 6] else [])
  {
    ApplyPathConfigWrites(config);
  }

  /** Registers `base` to `base + 6`: the seven offsets `apply_path_config` may
      write (the eighth register of each block is never written). */
  function BlockRegisters(base: U16, count: nat): (addrs: seq<U16>)
    requires count <= 7
    ensures |addrs| == count
  {
    [base, base + 1, base + 2, base + 3, base + 4, base + 5, base + 6][..count]
  }

  /** Inside the path area the offsets of a block are different registers. */
  lemma BlockRegistersDistinct(base: U16, count: nat)
    requires count <= 7
    ensures forall i, j :: 0 <= i < j < count ==> BlockRegisters(base, count)[i] != BlockRegisters(base, count)[j]
  {
    var all := [base, base + 1, base + 2, base + 3, base + 4, base + 5, base + 6];
    forall i, j | 0 <= i < j < 7
      ensures all[i] != all[j]
    {
      if i == 0 {} else if i == 1 {} else if i == 2 {} else if i == 3 {} else if i == 4 {} else {}
    }
  }

  /** `apply_path_config` writes no register twice. */
  lemma ApplyPathConfigDistinct(config: PathConfig)
    requires config.pathId <= MAX_PATH_ID
    ensures DistinctAddresses(ApplyPathConfig(config).value)
  {
    var base := PathBase(config.pathId).value;
    var plan := ApplyPathConfig(config).value;
    ApplyPathConfigAddresses(config);
    BlockRegistersDistinct(base, |plan|);
    assert Addresses(plan) == BlockRegisters(base, |plan|);
  }

  /** The device after storing the path writes of `config` at `base`, with
      distinct addresses: every field reads back, and without a pause the pause
      register keeps its value. */
  lemma PathBlockReadBack(dev: Device, base: U16, config: PathConfig, plan: seq<Write>)
    requires var six := [
        Write(base, PathControlWord(PositionPositioning, false, false, config.absolutePosition, false, 0)),
        Write(base + 1, High(config.position)),
        Write(base + 2, Low(config.position)),
        Write(base + 3, config.velocity),
        Write(base + 4, config.acceleration),
        Write(base + 5, config.deceleration)];
      plan == if config.pauseTime > 0 then six + [Write(base + 6, config.pauseTime)] else six
    requires DistinctAddresses(plan)
    ensures var d := Store(dev, plan);
      && DecodePathControl(d.Read(base)) == PathControl(Some(PositionPositioning), false, false, config.absolutePosition, false, 0)
      && Join(d.Read(base + 1), d.Read(base + 2)) == config.position
      && d.Read(base + 3) == config.velocity
      && d.Read(base + 4) == config.acceleration
      && d.Read(base + 5) == config.deceleration
      && d.Read(base + 6) == if config.pauseTime > 0 then config.pauseTime else dev.Read(base + 6)
  {
    StoreReadBack(dev, plan, 0);
    StoreReadBack(dev, plan, 1);
    StoreReadBack(dev, plan, 2);
    StoreReadBack(dev, plan, 3);
    StoreReadBack(dev, plan, 4);
    StoreReadBack(dev, plan, 5);
    if config.pauseTime > 0 {
      StoreReadBack(dev, plan, 6);
    } else {
      StoreFrame(dev, plan, base + 6);
    }
    PathControlRoundTrip(PositionPositioning, false, false, config.absolutePosition, false, 0);
    SplitJoin(config.position, 0, 0);
  }

  /** After a successful `apply_path_config` the path block holds the
      configuration; a zero pause time leaves the pause register as it was. */
  lemma ApplyPathConfigReadBack(dev: Device, config: PathConfig)
    requires config.pathId <= MAX_PATH_ID
    ensures var base := PathBase(config.pathId).value;
      var d := Store(dev, ApplyPathConfig(config).value);
      && DecodePathControl(d.Read(base)) == PathControl(Some(PositionPositioning), false, false, config.absolutePosition, false, 0)
      && Join(d.Read(base + 1), d.Read(base + 2)) == config.position
      && d.Read(base + 3) == config.velocity
      && d.Read(base + 4) == config.acceleration
      && d.Read(base + 5) == config.deceleration
      && d.Read(base + 6) == if config.pauseTime > 0 then config.pauseTime else dev.Read(base + 6)
  {
    var base := PathBase(config.pathId).value;
    ApplyPathConfigWrites(config);
    ApplyPathConfigDistinct(config);
    assert PathControlWord(PositionPositioning, false, false, config.absolutePosition, false, 0)
           == if config.absolutePosition then 0x01 else 0x41;
    PathBlockReadBack(dev, base, config, ApplyPathConfig(config).value);
  }

  /** A configuration built by `PathConfig::new` always applies, as six writes. */
  lemma NewPathConfigApplies(pathId: U8)
    requires PathConfig.New(pathId).Ok?
    ensures ApplyPathConfig(PathConfig.New(pathId).value).Ok?
    ensures |ApplyPathConfig(PathConfig.New(pathId).value).value| == 6
  {
  }

  /** The usage example's path 0 at 5000 with velocity 300 and ramps of 150 and
      no pause: six writes, the pause register untouched. */
  lemma ExamplePathPlan()
    ensures ApplyPathConfig(PathConfig(0, true, 5000, 300, 150, 150, 0)) == Ok([
      Write(0x6200, 0x0001), Write(0x6201, 0x0000), Write(0x6202, 5000),
      Write(0x6203, 300), Write(0x6204, 150), Write(0x6205, 150)])
  {
    ApplyPathConfigWrites(PathConfig(0, true, 5000, 300, 150, 150, 0));
  }

  // ---------------------------------------------------------------------------
  // Validation before any write

  /** An input number outside 1..7 makes `configure_input` and
      `apply_homing_config` return InvalidDigitalInput with that number before
      anything is put on the channel, whatever the channel would answer. */
  lemma InvalidInputSendsNothing(inputNo: U8, fn: DigitalInputFunction, normallyClosed: bool,
                                 config: HomingConfig, acks: seq<Ack>)
    requires !(1 <= inputNo <= 7) && !(1 <= config.inputNo <= 7)
    ensures Execute(ConfigureInput(inputNo, fn, normallyClosed), acks)
         == Execution([], [], Err(InvalidDigitalInput(inputNo)))
    ensures Execute(ApplyHomingConfig(config), acks)
         == Execution([], [], Err(InvalidDigitalInput(config.inputNo)))
  {
  }

  /** A path id above 8 makes every path operation return InvalidPath with that
      id before anything is put on the channel, whatever the channel would
      answer. */
  lemma InvalidPathSendsNothing(pathId: U8, motion: PathMotionType, interrupt: bool, overlap: bool,
                                absolute: bool, jump: bool, jumpTo: U8, position: U32,
                                offset: U16, value: U16, config: PathConfig, acks: seq<Ack>)
    requires pathId > MAX_PATH_ID && config.pathId > MAX_PATH_ID
    ensures Execute(StartPath(pathId), acks) == Execution([], [], Err(InvalidPath(pathId)))
    ensures Execute(ConfigurePathMotion(pathId, motion, interrupt, overlap, absolute, jump, jumpTo), acks)
         == Execution([], [], Err(InvalidPath(pathId)))
    ensures Execute(SetPathPosition(pathId, position), acks) == Execution([], [], Err(InvalidPath(pathId)))
    ensures Execute(SetPathRegister(pathId, offset, value), acks) == Execution([], [], Err(InvalidPath(pathId)))
    ensures Execute(ApplyPathConfig(config), acks) == Execution([], [], Err(InvalidPath(config.pathId)))
  {
  }
}
