/** The client session (`Em2rsClient` / `Em2rsSyncClient` as an object): one
    slave id and stepper configuration bound to a channel that may be shared
    with other slaves on the same bus. Covers the register reads, the status
    predicates built on them, the read-modify-write setters of
    PR_GLOBAL_CTRL_FCT, and which slave a session's writes reach. */
module Session {
  import opened Words
  import opened Wrappers
  import opened Registers
  import opened Types
  import opened Channel
  import opened Bits
  import opened GlobalCtrl
  import Sequencer

  // ---------------------------------------------------------------------------
  // Reads

  /** `read_registers(addr, 1)` then `data[0]`: the register's value, or the
      error of the read, a channel failure or the device's exception response
      alike (`??`). */
  function ReadRegister(dev: Device, addr: U16, ack: Ack): (r: Result<U16>)
    ensures r.Ok? <==> ack.Acked?
    ensures r.Err? ==> r.error == AckError(ack)
  {
    if ack.Acked? then Ok(dev.Read(addr)) else Err(AckError(ack))
  }

  /** A successful read returns what the latest write to that register stored. */
  lemma ReadAfterWrite(dev: Device, w: Write)
    ensures ReadRegister(dev.Put(w), w.addr, Acked) == Ok(w.value)
  {
  }

  /** `get_input_status`: the raw word of DIGITAL_INPUT_STATUS, or the read's error. */
  function GetInputStatus(dev: Device, ack: Ack): (r: Result<U16>)
    ensures r.Ok? <==> ack.Acked?
    ensures r.Err? ==> r.error == AckError(ack)
    ensures r.Ok? ==> r.value == dev.Read(DIGITAL_INPUT_STATUS)
  {
    ReadRegister(dev, DIGITAL_INPUT_STATUS, ack)
  }

  /** `get_version`: the raw word of VERSION_INFORMATION, or the read's error. */
  function GetVersion(dev: Device, ack: Ack): (r: Result<U16>)
    ensures r.Ok? <==> ack.Acked?
    ensures r.Err? ==> r.error == AckError(ack)
    ensures r.Ok? ==> r.value == dev.Read(VERSION_INFORMATION)
  {
    ReadRegister(dev, VERSION_INFORMATION, ack)
  }

  /** The motion status word, wrapped. */
  function GetMotionStatus(dev: Device, ack: Ack): (r: Result<MotionStatus>)
    ensures r.Ok? <==> ack.Acked?
    ensures r.Err? ==> r.error == AckError(ack)
    ensures r.Ok? ==> r.value.raw == dev.Read(MOTION_STATUS)
    ensures r.Ok? ==> r.value.Flags().Word() == dev.Read(MOTION_STATUS) & MS_ALL
  {
    var raw :- ReadRegister(dev, MOTION_STATUS, ack);
    MotionFlagsRoundTrip(MotionStatus(raw).Flags(), raw);
    Ok(MotionStatus(raw))
  }

  /** The current alarm word, wrapped. */
  function GetCurrentAlarm(dev: Device, ack: Ack): (r: Result<CurrentAlarm>)
    ensures r.Ok? <==> ack.Acked?
    ensures r.Err? ==> r.error == AckError(ack)
    ensures r.Ok? ==> r.value.raw == dev.Read(CURRENT_ALARM)
    ensures r.Ok? ==> r.value.Flags().Word() == dev.Read(CURRENT_ALARM) & ALARM_ALL
  {
    var raw :- ReadRegister(dev, CURRENT_ALARM, ack);
    AlarmFlagsRoundTrip(CurrentAlarm(raw).Flags(), raw);
    Ok(CurrentAlarm(raw))
  }

  /** `is_path_completed`: one status read, then its path-complete bit. */
  function IsPathCompleted(dev: Device, ack: Ack): (r: Result<bool>)
    ensures r.Ok? <==> ack.Acked?
    ensures r.Err? ==> r.error == AckError(ack)
    ensures r.Ok? ==> r.value == (dev.Read(MOTION_STATUS) & MS_PATH_COMPLETE != 0)
  {
    var status :- GetMotionStatus(dev, ack);
    Ok(status.IsPathComplete())
  }

  /** `is_homing_completed`: one status read, then its homing-complete bit. */
  function IsHomingCompleted(dev: Device, ack: Ack): (r: Result<bool>)
    ensures r.Ok? <==> ack.Acked?
    ensures r.Err? ==> r.error == AckError(ack)
    ensures r.Ok? ==> r.value == (dev.Read(MOTION_STATUS) & MS_HOMING_COMPLETE != 0)
  {
    var status :- GetMotionStatus(dev, ack);
    Ok(status.IsHomingComplete())
  }

  /** The completion predicates look at one bit of the status register and at
      nothing else: two devices whose status words agree on that bit give the
      same answer, and the answer is true exactly when the bit is set. */
  lemma CompletionReadsOneBit(d1: Device, d2: Device)
    ensures IsPathCompleted(d1, Acked) == Ok(d1.Read(MOTION_STATUS) & 0x0020 != 0)
    ensures IsHomingCompleted(d1, Acked) == Ok(d1.Read(MOTION_STATUS) & 0x0040 != 0)
    ensures d1.Read(MOTION_STATUS) & 0x0020 == d2.Read(MOTION_STATUS) & 0x0020
            ==> IsPathCompleted(d1, Acked) == IsPathCompleted(d2, Acked)
    ensures d1.Read(MOTION_STATUS) & 0x0040 == d2.Read(MOTION_STATUS) & 0x0040
            ==> IsHomingCompleted(d1, Acked) == IsHomingCompleted(d2, Acked)
  {
  }

  // ---------------------------------------------------------------------------
  // Read-modify-write of PR_GLOBAL_CTRL_FCT

  /** The setters of PR_GLOBAL_CTRL_FCT: read the register (a failed read
      issues no write), switch one bit, write the word back. */
  function UpdateGlobalCtrl(dev: Device, readAck: Ack, bit: GlobalCtrlBit, on: bool): (r: Result<seq<Write>>)
    ensures r.Ok? <==> readAck.Acked?
    ensures r.Err? ==> r.error == AckError(readAck)
    ensures r.Ok? ==> |r.value| == 1 && r.value[0].addr == PR_GLOBAL_CTRL_FCT
    ensures r.Ok? ==> IsOn(r.value[0].value, bit) == on
  {
    var reg :- ReadRegister(dev, PR_GLOBAL_CTRL_FCT, readAck);
    Ok([Write(PR_GLOBAL_CTRL_FCT, SetBit(reg, bit, on))])
  }

  /** `set_ctrg_effective_edge`: bit 0 (0x0001) of PR_GLOBAL_CTRL_FCT is set exactly when
      `doubleEdge`, and the rest of the word is written back as read. */
  function SetCtrgEffectiveEdge(dev: Device, readAck: Ack, doubleEdge: bool): (r: Result<seq<Write>>)
    ensures r.Ok? <==> readAck.Acked?
    ensures r.Err? ==> r.error == AckError(readAck)
    ensures r.Ok? ==> |r.value| == 1 && r.value[0].addr == PR_GLOBAL_CTRL_FCT
    ensures r.Ok? ==> (r.value[0].value & 0x0001 != 0) == doubleEdge
    ensures r.Ok? ==> r.value[0].value & !0x0001 == dev.Read(PR_GLOBAL_CTRL_FCT) & !0x0001
  {
    SetBitKeepsOthers(dev.Read(PR_GLOBAL_CTRL_FCT), CtrgEffectiveEdge, doubleEdge);
    UpdateGlobalCtrl(dev, readAck, CtrgEffectiveEdge, doubleEdge)
  }

  /** `soft_limit_control`: bit 1 (0x0002) of PR_GLOBAL_CTRL_FCT is set exactly when
      `enable`, and the rest of the word is written back as read. */
  function SoftLimitControl(dev: Device, readAck: Ack, enable: bool): (r: Result<seq<Write>>)
    ensures r.Ok? <==> readAck.Acked?
    ensures r.Err? ==> r.error == AckError(readAck)
    ensures r.Ok? ==> |r.value| == 1 && r.value[0].addr == PR_GLOBAL_CTRL_FCT
    ensures r.Ok? ==> (r.value[0].value & 0x0002 != 0) == enable
    ensures r.Ok? ==> r.value[0].value & !0x0002 == dev.Read(PR_GLOBAL_CTRL_FCT) & !0x0002
  {
    SetBitKeepsOthers(dev.Read(PR_GLOBAL_CTRL_FCT), SoftLimit, enable);
    UpdateGlobalCtrl(dev, readAck, SoftLimit, enable)
  }

  /** `homing_power_up_control`: bit 2 (0x0004) of PR_GLOBAL_CTRL_FCT is set exactly when
      `enable`, and the rest of the word is written back as read. */
  function HomingPowerUpControl(dev: Device, readAck: Ack, enable: bool): (r: Result<seq<Write>>)
    ensures r.Ok? <==> readAck.Acked?
    ensures r.Err? ==> r.error == AckError(readAck)
    ensures r.Ok? ==> |r.value| == 1 && r.value[0].addr == PR_GLOBAL_CTRL_FCT
    ensures r.Ok? ==> (r.value[0].value & 0x0004 != 0) == enable
    ensures r.Ok? ==> r.value[0].value & !0x0004 == dev.Read(PR_GLOBAL_CTRL_FCT) & !0x0004
  {
    SetBitKeepsOthers(dev.Read(PR_GLOBAL_CTRL_FCT), HomingPowerUp, enable);
    UpdateGlobalCtrl(dev, readAck, HomingPowerUp, enable)
  }

  /** `set_ctrg_trigger_type`: bit 4 (0x0010) of PR_GLOBAL_CTRL_FCT is set exactly when
      `levelTrigger`, and the rest of the word is written back as read. */
  function SetCtrgTriggerType(dev: Device, readAck: Ack, levelTrigger: bool): (r: Result<seq<Write>>)
    ensures r.Ok? <==> readAck.Acked?
    ensures r.Err? ==> r.error == AckError(readAck)
    ensures r.Ok? ==> |r.value| == 1 && r.value[0].addr == PR_GLOBAL_CTRL_FCT
    ensures r.Ok? ==> (r.value[0].value & 0x0010 != 0) == levelTrigger
    ensures r.Ok? ==> r.value[0].value & !0x0010 == dev.Read(PR_GLOBAL_CTRL_FCT) & !0x0010
  {
    SetBitKeepsOthers(dev.Read(PR_GLOBAL_CTRL_FCT), CtrgTriggerType, levelTrigger);
    UpdateGlobalCtrl(dev, readAck, CtrgTriggerType, levelTrigger)
  }

  /** The device after a successful global-control update. */
  function AfterUpdate(dev: Device, bit: GlobalCtrlBit, on: bool): Device {
    Store(dev, UpdateGlobalCtrl(dev, Acked, bit, on).value)
  }

  /** After an update the register holds the old word with only the chosen bit
      switched, and every other register is as it was. */
  lemma UpdateGlobalCtrlEffect(dev: Device, bit: GlobalCtrlBit, on: bool, a: U16)
    ensures AfterUpdate(dev, bit, on).Read(PR_GLOBAL_CTRL_FCT) == SetBit(dev.Read(PR_GLOBAL_CTRL_FCT), bit, on)
    ensures a != PR_GLOBAL_CTRL_FCT ==> AfterUpdate(dev, bit, on).Read(a) == dev.Read(a)
  {
    var plan := UpdateGlobalCtrl(dev, Acked, bit, on).value;
    StoreReadBack(dev, plan, 0);
    if a != PR_GLOBAL_CTRL_FCT {
      StoreFrame(dev, plan, a);
    }
  }

  /** The register after an update differs from the one before at most in the
      chosen bit, and that bit has the requested state. */
  lemma UpdateGlobalCtrlOneBit(dev: Device, bit: GlobalCtrlBit, on: bool)
    ensures var before := dev.Read(PR_GLOBAL_CTRL_FCT);
      var after := AfterUpdate(dev, bit, on).Read(PR_GLOBAL_CTRL_FCT);
      IsOn(after, bit) == on && after & !bit.Mask() == before & !bit.Mask()
  {
    UpdateGlobalCtrlEffect(dev, bit, on, PR_GLOBAL_CTRL_FCT);
    SetBitKeepsOthers(dev.Read(PR_GLOBAL_CTRL_FCT), bit, on);
  }

  /** Each setter is idempotent: a second call with the same flag leaves the
      register as the first call left it. */
  lemma UpdateGlobalCtrlIdempotent(dev: Device, bit: GlobalCtrlBit, on: bool)
    ensures var once := AfterUpdate(dev, bit, on);
      AfterUpdate(once, bit, on).Read(PR_GLOBAL_CTRL_FCT) == once.Read(PR_GLOBAL_CTRL_FCT)
  {
    var once := AfterUpdate(dev, bit, on);
    UpdateGlobalCtrlEffect(dev, bit, on, PR_GLOBAL_CTRL_FCT);
    UpdateGlobalCtrlEffect(once, bit, on, PR_GLOBAL_CTRL_FCT);
    SetBitIdempotent(dev.Read(PR_GLOBAL_CTRL_FCT), bit, on);
  }

  /** A failed read issues no write and reports the read's error. */
  lemma UpdateGlobalCtrlReadFails(dev: Device, readAck: Ack, bit: GlobalCtrlBit, on: bool, acks: seq<Ack>)
    requires !readAck.Acked?
    ensures Execute(UpdateGlobalCtrl(dev, readAck, bit, on), acks) == Execution([], [], Err(AckError(readAck)))
  {
  }

  // ---------------------------------------------------------------------------
  // Sessions on a shared bus

  /** One write as it travels on the bus, addressed to a slave. */
  datatype Frame = Frame(slave: U8, write: Write)

  /** The shared channel: the slave it currently targets and every frame sent
      on it so far. */
  datatype Bus = Bus(target: U8, frames: seq<Frame>)

  /** The frames of a plan sent to one slave. */
  function Addressed(slave: U8, plan: seq<Write>): (frames: seq<Frame>)
    ensures |frames| == |plan|
    ensures forall i :: 0 <= i < |plan| ==> frames[i] == Frame(slave, plan[i])
  {
    if |plan| == 0 then [] else [Frame(slave, plan[0])] + Addressed(slave, plan[1..])
  }

  /** The Modbus RTU broadcast address: every slave on the line applies a
      write sent to it, and none answers. */
  const BROADCAST: U8 := 0

  /** A frame addressed to `to` is applied by the slave at `slave`: its own
      frames and every broadcast. */
  predicate Reaches(to: U8, slave: U8) {
    to == slave || to == BROADCAST
  }

  /** The writes among `frames` that reach `slave`, in order. */
  function WritesTo(frames: seq<Frame>, slave: U8): seq<Write>
    decreases |frames|
  {
    if |frames| == 0 then []
    else
      var last := frames[|frames| - 1];
      WritesTo(frames[..|frames| - 1], slave) + (if Reaches(last.slave, slave) then [last.write] else [])
  }

  /** The registers of one slave on the bus: the frames addressed to it. */
  function DeviceAt(bus: Bus, slave: U8): Device {
    Device(WritesTo(bus.frames, slave))
  }

  /** Sends a plan to the slave the bus currently targets. */
  function Transmit(bus: Bus, plan: seq<Write>): (b: Bus)
    ensures b.target == bus.target
  {
    Bus(bus.target, bus.frames + Addressed(bus.target, plan))
  }

  lemma {:induction false} WritesToAppend(a: seq<Frame>, b: seq<Frame>, slave: U8)
    ensures WritesTo(a + b, slave) == WritesTo(a, slave) + WritesTo(b, slave)
    decreases |b|
  {
    if |b| == 0 {
      assert a + b == a;
    } else {
      assert (a + b)[..|a + b| - 1] == a + b[..|b| - 1];
      WritesToAppend(a, b[..|b| - 1], slave);
    }
  }

  lemma {:induction false} WritesToAddressed(target: U8, plan: seq<Write>, slave: U8)
    ensures WritesTo(Addressed(target, plan), slave) == if Reaches(target, slave) then plan else []
    decreases |plan|
  {
    if |plan| > 0 {
      var frames := Addressed(target, plan);
      assert frames[..|frames| - 1] == Addressed(target, plan[..|plan| - 1]);
      WritesToAddressed(target, plan[..|plan| - 1], slave);
      assert plan[..|plan| - 1] + [plan[|plan| - 1]] == plan;
    }
  }

  /** Transmitting a plan stores it on the targeted slave, or on every slave
      when the target is the broadcast address, and leaves every other
      slave's registers exactly as they were. */
  lemma TransmitEffect(bus: Bus, plan: seq<Write>, slave: U8)
    ensures DeviceAt(Transmit(bus, plan), slave)
         == if Reaches(bus.target, slave) then Store(DeviceAt(bus, slave), plan) else DeviceAt(bus, slave)
  {
    WritesToAppend(bus.frames, Addressed(bus.target, plan), slave);
    WritesToAddressed(bus.target, plan, slave);
    StoreLog(DeviceAt(bus, slave), plan);
    assert WritesTo(bus.frames, slave) + [] == WritesTo(bus.frames, slave);
  }

  /** The write operations of a session. */
  datatype Command =
    | Init
    | ForcedEnable(enable: bool)
    | SaveParamEeprom
    | ParamReset
    | FactoryReset
    | SaveMappingEeprom
    | Jog(direction: Direction)
    | ConfigureInput(inputNo: U8, inputFunction: DigitalInputFunction, normallyClosed: bool)
    | SoftLimitMax(max: U32)
    | SoftLimitMin(min: U32)
    | StartHoming
    | StartPath(pathId: U8)
    | StopMotor
    | SetZero
    | ApplyPath(path: PathConfig)
    | ApplyHoming(homing: HomingConfig)

  /** The writes a command plans, or its validation error. */
  function PlanOf(config: StepperConfig, cmd: Command, peakOf: F32 -> U16): (r: Result<seq<Write>>)
    ensures r.Err? ==> cmd.ConfigureInput? || cmd.StartPath? || cmd.ApplyPath? || cmd.ApplyHoming?
  {
    match cmd
    case Init => Ok(Sequencer.InitPlan(config, peakOf))
    case ForcedEnable(enable) => Ok(Sequencer.ForcedEnableBySoftware(enable))
    case SaveParamEeprom => Ok(Sequencer.SaveParamEeprom())
    case ParamReset => Ok(Sequencer.ParamReset())
    case FactoryReset => Ok(Sequencer.FactoryReset())
    case SaveMappingEeprom => Ok(Sequencer.SaveMappingEeprom())
    case Jog(direction) => Ok(Sequencer.JogMotor(direction))
    case ConfigureInput(inputNo, fn, nc) => Sequencer.ConfigureInput(inputNo, fn, nc)
    case SoftLimitMax(max) => Ok(Sequencer.SetSoftLimitMax(max))
    case SoftLimitMin(min) => Ok(Sequencer.SetSoftLimitMin(min))
    case StartHoming => Ok(Sequencer.StartHoming())
    case StartPath(pathId) => Sequencer.StartPath(pathId)
    case StopMotor => Ok(Sequencer.StopMotor())
    case SetZero => Ok(Sequencer.ManualZero())
    case ApplyPath(path) => Sequencer.ApplyPathConfig(path)
    case ApplyHoming(homing) => Sequencer.ApplyHomingConfig(homing)
  }

  /** What a command returns and the bus it leaves behind. */
  datatype Outcome = Outcome(result: Result<()>, bus: Bus)

  /** A command as the client issues it: only `init` points the channel at the
      session's slave; every other command goes to whichever slave the channel
      targets already. Every write is taken as acknowledged here; failures are
      the business of `Channel.Run`. */
  function Perform(config: StepperConfig, bus: Bus, cmd: Command, peakOf: F32 -> U16): (out: Outcome)
    ensures out.result.Ok? <==> PlanOf(config, cmd, peakOf).Ok?
    ensures out.bus.target == if cmd.Init? then config.slaveId else bus.target
  {
    var channel := if cmd.Init? then Bus(config.slaveId, bus.frames) else bus;
    match PlanOf(config, cmd, peakOf)
    case Err(e) => Outcome(Err(e), channel)
    case Ok(plan) => Outcome(Ok(()), Transmit(channel, plan))
  }

  /** As written, a command other than `init` stores its plan on the slave the
      channel happens to target (on all of them after a broadcast target) and
      on no other, whatever the session's own slave id is. */
  lemma PerformWritesCurrentTarget(config: StepperConfig, bus: Bus, cmd: Command, peakOf: F32 -> U16, slave: U8)
    requires !cmd.Init? && PlanOf(config, cmd, peakOf).Ok?
    ensures var after := Perform(config, bus, cmd, peakOf).bus;
      DeviceAt(after, slave)
        == if Reaches(bus.target, slave) then Store(DeviceAt(bus, slave), PlanOf(config, cmd, peakOf).value)
           else DeviceAt(bus, slave)
  {
    TransmitEffect(bus, PlanOf(config, cmd, peakOf).value, slave);
  }

  /** A plan sent while the channel targets slave id 0 is applied by every
      slave on the line. */
  lemma BroadcastReachesEverySlave(plan: seq<Write>, bus: Bus, slave: U8)
    requires bus.target == BROADCAST
    ensures DeviceAt(Transmit(bus, plan), slave) == Store(DeviceAt(bus, slave), plan)
    ensures DistinctAddresses(plan) ==>
      forall i :: 0 <= i < |plan| ==> DeviceAt(Transmit(bus, plan), slave).Read(plan[i].addr) == plan[i].value
  {
    TransmitEffect(bus, plan, slave);
    if DistinctAddresses(plan) {
      forall i | 0 <= i < |plan|
        ensures DeviceAt(Transmit(bus, plan), slave).Read(plan[i].addr) == plan[i].value
      {
        StoreReadBack(DeviceAt(bus, slave), plan, i);
      }
    }
  }

  /** A session for slave 1 handed a channel last used for slave 3 starts path
      0 on slave 3, and slave 1 receives nothing. */
  lemma StaleTargetStartsWrongMotor(peakOf: F32 -> U16)
    ensures var after := Perform(StepperConfig.New(1, 10000), Bus(3, []), StartPath(0), peakOf).bus;
      && DeviceAt(after, 3).Read(PR_CTRL) == 0x0010
      && DeviceAt(after, 1) == Device([])
  {
    var config := StepperConfig.New(1, 10000);
    assert PlanOf(config, StartPath(0), peakOf) == Ok([Write(PR_CTRL, 0x0010)]);
    TransmitEffect(Bus(3, []), [Write(PR_CTRL, 0x0010)], 3);
    TransmitEffect(Bus(3, []), [Write(PR_CTRL, 0x0010)], 1);
  }

  /** A command that first points the channel at the session's own slave, as
      `init` does, before its writes. */
  function PerformAddressed(config: StepperConfig, bus: Bus, cmd: Command, peakOf: F32 -> U16): (out: Outcome)
    ensures out.result.Ok? <==> PlanOf(config, cmd, peakOf).Ok?
    ensures out.bus.target == config.slaveId
  {
    var channel := Bus(config.slaveId, bus.frames);
    match PlanOf(config, cmd, peakOf)
    case Err(e) => Outcome(Err(e), channel)
    case Ok(plan) => Outcome(Ok(()), Transmit(channel, plan))
  }

  /** With addressing, a command stores its plan on the session's own slave
      and on no other, unless that id is the broadcast address, which reaches
      every slave; a refused command changes no slave at all. */
  lemma PerformAddressedOwnSlave(config: StepperConfig, bus: Bus, cmd: Command, peakOf: F32 -> U16, slave: U8)
    ensures var plan := PlanOf(config, cmd, peakOf);
      var after := PerformAddressed(config, bus, cmd, peakOf).bus;
      DeviceAt(after, slave)
        == if plan.Ok? && Reaches(config.slaveId, slave) then Store(DeviceAt(bus, slave), plan.value)
           else DeviceAt(bus, slave)
  {
    var plan := PlanOf(config, cmd, peakOf);
    if plan.Ok? {
      TransmitEffect(Bus(config.slaveId, bus.frames), plan.value, slave);
    }
  }

  /** The client as written agrees with the addressed version on `init`, and on
      every command once the channel already targets the session's slave. */
  lemma PerformAgreesWhenAddressed(config: StepperConfig, bus: Bus, cmd: Command, peakOf: F32 -> U16)
    requires cmd.Init? || bus.target == config.slaveId
    ensures Perform(config, bus, cmd, peakOf) == PerformAddressed(config, bus, cmd, peakOf)
  {
  }
}
