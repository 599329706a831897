/** Domain types of the controller: the error taxonomy, the closed enumerations
    with their fixed wire encodings (and the decoders that invert them), the
    status and alarm words, and the three configuration records. */
module Types {
  import opened Words
  import opened Wrappers
  import opened Bits
  import opened Registers

  /** Why the channel itself failed; carried verbatim to the caller. */
  datatype Fault =
    | Io(code: nat)             // communication error
    | Protocol(code: nat)       // malformed or unexpected response

  /** The library's error type: channel failures, exception responses of the
      device, and validation failures carrying the offending value. */
  datatype Error =
    | Transport(fault: Fault)
    | DeviceException(exceptionCode: U8)
    | InvalidParameter(message: string)
    | InvalidPath(pathId: U8)
    | InvalidDigitalInput(inputNo: U8)
    | OperationFailed(message: string)

  /** The library's result type, usable with `:-` for early exit. */
  datatype Result<+T> = Ok(value: T) | Err(error: Error) {
    predicate IsFailure() { Err? }
    function PropagateFailure<U>(): Result<U>
      requires Err?
    {
      Err(error)
    }
    function Extract(): T
      requires Ok?
    {
      value
    }
  }

  datatype Direction = Clockwise | CounterClockwise {
    function Code(): (c: U16)
      ensures c <= 1
    {
      match this
      case Clockwise => 0x00
      case CounterClockwise => 0x01
    }
    static function FromCode(w: U16): (d: Option<Direction>)
      ensures d.Some? ==> d.value.Code() == w
      ensures d.None? <==> w > 1
    {
      if w == 0x00 then Some(Clockwise)
      else if w == 0x01 then Some(CounterClockwise)
      else None
    }
  }

  datatype DigitalInputFunction =
    | Invalid | AlarmClearing | Enable | TriggerCmd | TriggerHoming | Emergency
    | JogPositive | JogNegative | Pot | Not | Org
    | Add0 | Add1 | Add2 | Add3 | JogVelocity
  {
    function Code(): U16 {
      match this
      case Invalid => 0x00
      case AlarmClearing => 0x07
      case Enable => 0x08
      case TriggerCmd => 0x20
      case TriggerHoming => 0x21
      case Emergency => 0x22
      case JogPositive => 0x23
      case JogNegative => 0x24
      case Pot => 0x25
      case Not => 0x26
      case Org => 0x27
      case Add0 => 0x28
      case Add1 => 0x29
      case Add2 => 0x2A
      case Add3 => 0x2B
      case JogVelocity => 0x2C
    }
    static function FromCode(w: U16): (f: Option<DigitalInputFunction>)
      ensures f.Some? ==> f.value.Code() == w
      ensures f.Some? ==> w <= 0x2C
    {
      if w == 0x00 then Some(Invalid)
      else if w == 0x07 then Some(AlarmClearing)
      else if w == 0x08 then Some(Enable)
      else if w == 0x20 then Some(TriggerCmd)
      else if w == 0x21 then Some(TriggerHoming)
      else if w == 0x22 then Some(Emergency)
      else if w == 0x23 then Some(JogPositive)
      else if w == 0x24 then Some(JogNegative)
      else if w == 0x25 then Some(Pot)
      else if w == 0x26 then Some(Not)
      else if w == 0x27 then Some(Org)
      else if w == 0x28 then Some(Add0)
      else if w == 0x29 then Some(Add1)
      else if w == 0x2A then Some(Add2)
      else if w == 0x2B then Some(Add3)
      else if w == 0x2C then Some(JogVelocity)
      else None
    }
  }

  datatype DigitalOutputFunction =
    | NoOutput | CmdCompleted | PathCompleted | HomingCompleted
    | InPosCompleted | BrakeOutput | AlarmOutput
  {
    function Code(): U16 {
      match this
      case NoOutput => 0x00
      case CmdCompleted => 0x20
      case PathCompleted => 0x21
      case HomingCompleted => 0x22
      case InPosCompleted => 0x23
      case BrakeOutput => 0x24
      case AlarmOutput => 0x25
    }
    static function FromCode(w: U16): (f: Option<DigitalOutputFunction>)
      ensures f.Some? ==> f.value.Code() == w
    {
      if w == 0x00 then Some(NoOutput)
      else if w == 0x20 then Some(CmdCompleted)
      else if w == 0x21 then Some(PathCompleted)
      else if w == 0x22 then Some(HomingCompleted)
      else if w == 0x23 then Some(InPosCompleted)
      else if w == 0x24 then Some(BrakeOutput)
      else if w == 0x25 then Some(AlarmOutput)
      else None
    }
  }

  datatype ControlWord =
    | ResetCurrentAlarm | ResetHistoryAlarm | SaveParamEeprom | ParamReset
    | FactoryReset | SaveMappingEeprom | JogClockwise | JogCounterClockwise
  {
    function Code(): U16 {
      match this
      case ResetCurrentAlarm => 0x1111
      case ResetHistoryAlarm => 0x1122
      case SaveParamEeprom => 0x2211
      case ParamReset => 0x2222
      case FactoryReset => 0x2233
      case SaveMappingEeprom => 0x2244
      case JogClockwise => 0x4001
      case JogCounterClockwise => 0x4002
    }
    static function FromCode(w: U16): (c: Option<ControlWord>)
      ensures c.Some? ==> c.value.Code() == w
    {
      if w == 0x1111 then Some(ResetCurrentAlarm)
      else if w == 0x1122 then Some(ResetHistoryAlarm)
      else if w == 0x2211 then Some(SaveParamEeprom)
      else if w == 0x2222 then Some(ParamReset)
      else if w == 0x2233 then Some(FactoryReset)
      else if w == 0x2244 then Some(SaveMappingEeprom)
      else if w == 0x4001 then Some(JogClockwise)
      else if w == 0x4002 then Some(JogCounterClockwise)
      else None
    }
  }

  datatype SaveParameterStatus = SaveSuccessfully | FailedToSave {
    function Code(): U16 {
      match this
      case SaveSuccessfully => 0x5555
      case FailedToSave => 0xAAAA
    }
    static function FromCode(w: U16): (s: Option<SaveParameterStatus>)
      ensures s.Some? ==> s.value.Code() == w
    {
      if w == 0x5555 then Some(SaveSuccessfully)
      else if w == 0xAAAA then Some(FailedToSave)
      else None
    }
  }

  datatype HomingMethod = LimitSwitch | HomeSwitch {
    function Code(): (c: U16)
      ensures c & !0x0004 == 0
    {
      match this
      case LimitSwitch => 0x00
      case HomeSwitch => 0x04
    }
    static function FromCode(w: U16): (m: Option<HomingMethod>)
      ensures m.Some? ==> m.value.Code() == w
    {
      if w == 0x00 then Some(LimitSwitch)
      else if w == 0x04 then Some(HomeSwitch)
      else None
    }
  }

  datatype PrControlCommand = RunThePath | Homing | ManualZero | QuickStop {
    function Code(): U16 {
      match this
      case RunThePath => 0x10
      case Homing => 0x20
      case ManualZero => 0x21
      case QuickStop => 0x40
    }
    static function FromCode(w: U16): (c: Option<PrControlCommand>)
      ensures c.Some? ==> c.value.Code() == w
    {
      if w == 0x10 then Some(RunThePath)
      else if w == 0x20 then Some(Homing)
      else if w == 0x21 then Some(ManualZero)
      else if w == 0x40 then Some(QuickStop)
      else None
    }
  }

  datatype PathMotionType = NoAction | PositionPositioning | VelocityMovement | HomingMotion {
    function Code(): (c: U16)
      ensures c <= 3
    {
      match this
      case NoAction => 0x00
      case PositionPositioning => 0x01
      case VelocityMovement => 0x02
      case HomingMotion => 0x03
    }
    static function FromCode(w: U16): (t: Option<PathMotionType>)
      ensures t.Some? ==> t.value.Code() == w
      ensures t.None? <==> w > 3
    {
      if w == 0x00 then Some(NoAction)
      else if w == 0x01 then Some(PositionPositioning)
      else if w == 0x02 then Some(VelocityMovement)
      else if w == 0x03 then Some(HomingMotion)
      else None
    }
  }

  /** Every encoding is inverted by its decoder, so distinct variants of one
      enumeration never share a wire value. */
  lemma CodesRoundTrip(d: Direction, i: DigitalInputFunction, o: DigitalOutputFunction,
                       c: ControlWord, s: SaveParameterStatus, m: HomingMethod,
                       p: PrControlCommand, t: PathMotionType)
    ensures Direction.FromCode(d.Code()) == Some(d)
    ensures DigitalInputFunction.FromCode(i.Code()) == Some(i)
    ensures DigitalOutputFunction.FromCode(o.Code()) == Some(o)
    ensures ControlWord.FromCode(c.Code()) == Some(c)
    ensures SaveParameterStatus.FromCode(s.Code()) == Some(s)
    ensures HomingMethod.FromCode(m.Code()) == Some(m)
    ensures PrControlCommand.FromCode(p.Code()) == Some(p)
    ensures PathMotionType.FromCode(t.Code()) == Some(t)
  {
    match i
    case Invalid =>
    case AlarmClearing =>
    case Enable =>
    case TriggerCmd =>
    case TriggerHoming =>
    case Emergency =>
    case JogPositive =>
    case JogNegative =>
    case Pot =>
    case Not =>
    case Org =>
    case Add0 =>
    case Add1 =>
    case Add2 =>
    case Add3 =>
    case JogVelocity =>
  }

  /** Injectivity of every encoding, as a consequence of the round trip. */
  lemma CodesInjective(i1: DigitalInputFunction, i2: DigitalInputFunction,
                       c1: ControlWord, c2: ControlWord,
                       p1: PrControlCommand, p2: PrControlCommand,
                       t1: PathMotionType, t2: PathMotionType)
    ensures i1.Code() == i2.Code() ==> i1 == i2
    ensures c1.Code() == c2.Code() ==> c1 == c2
    ensures p1.Code() == p2.Code() ==> p1 == p2
    ensures t1.Code() == t2.Code() ==> t1 == t2
  {
    CodesRoundTrip(Clockwise, i1, NoOutput, c1, SaveSuccessfully, LimitSwitch, p1, t1);
    CodesRoundTrip(Clockwise, i2, NoOutput, c2, SaveSuccessfully, LimitSwitch, p2, t2);
  }

  /** Every input function code fits in the low seven bits, so it never
      collides with the normally-closed increment 0x80. */
  lemma InputCodesBelowNcBit(f: DigitalInputFunction)
    ensures f.Code() <= 0x2C
    ensures f.Code() & SI_NC_INCR == 0
  {
    CodesRoundTrip(Clockwise, f, NoOutput, ResetCurrentAlarm, SaveSuccessfully, LimitSwitch, RunThePath, NoAction);
  }

  /** The six motion-status conditions, one boolean per flag bit. */
  datatype MotionFlags = MotionFlags(
    fault: bool, enabled: bool, running: bool,
    cmdComplete: bool, pathComplete: bool, homingComplete: bool)
  {
    /** The status word that has exactly these flags set. */
    function Word(): U16 {
      (if fault then MS_FAULT else 0) | (if enabled then MS_ENABLE else 0)
      | (if running then MS_RUNNING else 0) | (if cmdComplete then MS_CMD_COMPLETE else 0)
      | (if pathComplete then MS_PATH_COMPLETE else 0) | (if homingComplete then MS_HOMING_COMPLETE else 0)
    }
  }

  /** All bits the motion-status decoder looks at. */
  const MS_ALL: U16 := MS_FAULT | MS_ENABLE | MS_RUNNING | MS_CMD_COMPLETE | MS_PATH_COMPLETE | MS_HOMING_COMPLETE

  /** A raw motion-status register word. */
  datatype MotionStatus = MotionStatus(raw: U16) {
    predicate IsFault() { raw & MS_FAULT != 0 }
    predicate IsEnabled() { raw & MS_ENABLE != 0 }
    predicate IsRunning() { raw & MS_RUNNING != 0 }
    predicate IsCmdComplete() { raw & MS_CMD_COMPLETE != 0 }
    predicate IsPathComplete() { raw & MS_PATH_COMPLETE != 0 }
    predicate IsHomingComplete() { raw & MS_HOMING_COMPLETE != 0 }

    function Flags(): MotionFlags {
      MotionFlags(IsFault(), IsEnabled(), IsRunning(), IsCmdComplete(), IsPathComplete(), IsHomingComplete())
    }
  }

  /** Decoding inverts encoding, and encoding the decoded flags keeps exactly
      the six meaningful bits of a raw word. */
  lemma MotionFlagsRoundTrip(f: MotionFlags, w: U16)
    ensures MotionStatus(f.Word()).Flags() == f
    ensures MotionStatus(w).Flags().Word() == w & MS_ALL
  {
  }

  /** Toggling a set of bits changes a motion-status predicate exactly when the
      set contains that predicate's own bit. */
  lemma MotionPredicatesIndependent(w: U16, toggle: U16)
    ensures MotionStatus(w ^ toggle).IsFault() != MotionStatus(w).IsFault() <==> toggle & MS_FAULT != 0
    ensures MotionStatus(w ^ toggle).IsEnabled() != MotionStatus(w).IsEnabled() <==> toggle & MS_ENABLE != 0
    ensures MotionStatus(w ^ toggle).IsRunning() != MotionStatus(w).IsRunning() <==> toggle & MS_RUNNING != 0
    ensures MotionStatus(w ^ toggle).IsCmdComplete() != MotionStatus(w).IsCmdComplete() <==> toggle & MS_CMD_COMPLETE != 0
    ensures MotionStatus(w ^ toggle).IsPathComplete() != MotionStatus(w).IsPathComplete() <==> toggle & MS_PATH_COMPLETE != 0
    ensures MotionStatus(w ^ toggle).IsHomingComplete() != MotionStatus(w).IsHomingComplete() <==> toggle & MS_HOMING_COMPLETE != 0
  {
  }

  // Current alarm flags
  const OVER_CURRENT: U16 := 0x01
  const OVER_VOLTAGE: U16 := 0x02
  const CURRENT_SAMPLING_FAULT: U16 := 0x40
  const FAILED_LOCK_SHAFT: U16 := 0x80
  const EEPROM_FAULT: U16 := 0x200
  const AUTOTUNING_FAULT: U16 := 0x100

  /** All bits the alarm decoder looks at. */
  const ALARM_ALL: U16 := OVER_CURRENT | OVER_VOLTAGE | CURRENT_SAMPLING_FAULT | FAILED_LOCK_SHAFT | EEPROM_FAULT | AUTOTUNING_FAULT

  /** The six alarm conditions, one boolean per alarm bit. */
  datatype AlarmFlags = AlarmFlags(
    overCurrent: bool, overVoltage: bool, currentSamplingFault: bool,
    failedLockShaft: bool, eepromFault: bool, autotuningFault: bool)
  {
    /** The alarm word that has exactly these alarms set. */
    function Word(): U16 {
      (if overCurrent then OVER_CURRENT else 0) | (if overVoltage then OVER_VOLTAGE else 0)
      | (if currentSamplingFault then CURRENT_SAMPLING_FAULT else 0) | (if failedLockShaft then FAILED_LOCK_SHAFT else 0)
      | (if eepromFault then EEPROM_FAULT else 0) | (if autotuningFault then AUTOTUNING_FAULT else 0)
    }
  }

  /** A raw current-alarm register word. */
  datatype CurrentAlarm = CurrentAlarm(raw: U16) {
    predicate HasOverCurrent() { raw & OVER_CURRENT != 0 }
    predicate HasOverVoltage() { raw & OVER_VOLTAGE != 0 }
    predicate HasCurrentSamplingFault() { raw & CURRENT_SAMPLING_FAULT != 0 }
    predicate HasFailedLockShaft() { raw & FAILED_LOCK_SHAFT != 0 }
    predicate HasEepromFault() { raw & EEPROM_FAULT != 0 }
    predicate HasAutotuningFault() { raw & AUTOTUNING_FAULT != 0 }

    function Flags(): AlarmFlags {
      AlarmFlags(HasOverCurrent(), HasOverVoltage(), HasCurrentSamplingFault(),
                 HasFailedLockShaft(), HasEepromFault(), HasAutotuningFault())
    }
  }

  /** The alarm masks are six distinct single bits. */
  lemma AlarmMasksSingleBits()
    ensures SingleBit(OVER_CURRENT) && SingleBit(OVER_VOLTAGE) && SingleBit(CURRENT_SAMPLING_FAULT)
    ensures SingleBit(FAILED_LOCK_SHAFT) && SingleBit(EEPROM_FAULT) && SingleBit(AUTOTUNING_FAULT)
    ensures var masks := [OVER_CURRENT, OVER_VOLTAGE, CURRENT_SAMPLING_FAULT, FAILED_LOCK_SHAFT, EEPROM_FAULT, AUTOTUNING_FAULT];
      forall i, j :: 0 <= i < j < |masks| ==> masks[i] & masks[j] == 0
  {
  }

  /** Alarm decoding inverts alarm encoding and ignores every other bit. */
  lemma AlarmFlagsRoundTrip(f: AlarmFlags, w: U16)
    ensures CurrentAlarm(f.Word()).Flags() == f
    ensures CurrentAlarm(w).Flags().Word() == w & ALARM_ALL
  {
  }

  /** Toggling a set of bits changes an alarm predicate exactly when the set
      contains that predicate's own bit. */
  lemma AlarmPredicatesIndependent(w: U16, toggle: U16)
    ensures CurrentAlarm(w ^ toggle).HasOverCurrent() != CurrentAlarm(w).HasOverCurrent() <==> toggle & OVER_CURRENT != 0
    ensures CurrentAlarm(w ^ toggle).HasOverVoltage() != CurrentAlarm(w).HasOverVoltage() <==> toggle & OVER_VOLTAGE != 0
    ensures CurrentAlarm(w ^ toggle).HasCurrentSamplingFault() != CurrentAlarm(w).HasCurrentSamplingFault() <==> toggle & CURRENT_SAMPLING_FAULT != 0
    ensures CurrentAlarm(w ^ toggle).HasFailedLockShaft() != CurrentAlarm(w).HasFailedLockShaft() <==> toggle & FAILED_LOCK_SHAFT != 0
    ensures CurrentAlarm(w ^ toggle).HasEepromFault() != CurrentAlarm(w).HasEepromFault() <==> toggle & EEPROM_FAULT != 0
    ensures CurrentAlarm(w ^ toggle).HasAutotuningFault() != CurrentAlarm(w).HasAutotuningFault() <==> toggle & AUTOTUNING_FAULT != 0
  {
  }

  /** Homing configuration; `inputNo` is validated only when it is applied. */
  datatype HomingConfig = HomingConfig(
    inputNo: U8,
    inputFunction: DigitalInputFunction,
    normallyClosed: bool,
    direction: Direction,
    moveToPosAfter: bool,
    homingMethod: HomingMethod,
    position: U32,
    positionStop: U32,
    highVelocity: U16,
    lowVelocity: U16,
    acceleration: U16,
    deceleration: U16)
  {
    /** The library's default homing configuration: input 1 as origin switch. */
    static function Default(): (c: HomingConfig)
      ensures c.inputNo == 1
      ensures c.inputFunction == Org && !c.normallyClosed && c.direction == Clockwise
      ensures c.moveToPosAfter && c.homingMethod == HomeSwitch
      ensures c.position == 0 && c.positionStop == 0
      ensures c.highVelocity == 100 && c.lowVelocity == 50
      ensures c.acceleration == 100 && c.deceleration == 100
    {
      HomingConfig(1, Org, false, Clockwise, true, HomeSwitch, 0, 0, 100, 50, 100, 100)
    }
  }

  /** Configuration of one path slot. */
  datatype PathConfig = PathConfig(
    pathId: U8,
    absolutePosition: bool,
    position: U32,
    velocity: U16,
    acceleration: U16,
    deceleration: U16,
    pauseTime: U16)
  {
    /** A path configuration with default motion values; ids above 8 are refused. */
    static function New(pathId: U8): (r: Result<PathConfig>)
      ensures r.Err? <==> pathId > MAX_PATH_ID
      ensures r.Err? ==> r.error == InvalidPath(pathId)
      ensures r.Ok? ==> r.value.pathId == pathId && PathBase(r.value.pathId).Some?
      ensures r.Ok? ==> r.value.absolutePosition && r.value.position == 0
      ensures r.Ok? ==> r.value.velocity == 100 && r.value.acceleration == 100 && r.value.deceleration == 100
      ensures r.Ok? ==> r.value.pauseTime == 0
    {
      if pathId > 8 then Err(InvalidPath(pathId))
      else Ok(PathConfig(pathId, true, 0, 100, 100, 100, 0))
    }
  }

  /** Motor configuration consumed by initialisation. */
  datatype StepperConfig = StepperConfig(
    slaveId: U8,
    pulsePerRev: U16,
    direction: Direction,
    phaseCurrent: F32,
    inductance: U16)
  {
    static function New(slaveId: U8, pulsePerRev: U16): (c: StepperConfig)
      ensures c.slaveId == slaveId && c.pulsePerRev == pulsePerRev
      ensures c.direction == Clockwise && c.phaseCurrent == F32_ONE && c.inductance == 1000
    {
      StepperConfig(slaveId, pulsePerRev, Clockwise, F32_ONE, 1000)
    }

    function WithPhaseCurrent(current: F32): (c: StepperConfig)
      ensures c.phaseCurrent == current
      ensures c.slaveId == slaveId && c.pulsePerRev == pulsePerRev
      ensures c.direction == direction && c.inductance == inductance
    {
      this.(phaseCurrent := current)
    }

    function WithInductance(value: U16): (c: StepperConfig)
      ensures c.inductance == value
      ensures c.slaveId == slaveId && c.pulsePerRev == pulsePerRev
      ensures c.direction == direction && c.phaseCurrent == phaseCurrent
    {
      this.(inductance := value)
    }

    function WithDirection(dir: Direction): (c: StepperConfig)
      ensures c.direction == dir
      ensures c.slaveId == slaveId && c.pulsePerRev == pulsePerRev
      ensures c.phaseCurrent == phaseCurrent && c.inductance == inductance
    {
      this.(direction := dir)
    }
  }

  /** The builders touch disjoint fields, so they commute, and a later call to
      the same builder overrides an earlier one. */
  lemma BuildersCommute(c: StepperConfig, i: F32, l: U16, d: Direction, l2: U16)
    ensures c.WithPhaseCurrent(i).WithInductance(l) == c.WithInductance(l).WithPhaseCurrent(i)
    ensures c.WithPhaseCurrent(i).WithDirection(d) == c.WithDirection(d).WithPhaseCurrent(i)
    ensures c.WithInductance(l).WithDirection(d) == c.WithDirection(d).WithInductance(l)
    ensures c.WithInductance(l).WithInductance(l2) == c.WithInductance(l2)
  {
  }
}
