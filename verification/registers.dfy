/** The controller's register map: fixed addresses, single-bit status masks and
    the lookup from a path id to the base address of that path's register block. */
module Registers {
  import opened Words
  import opened Wrappers
  import opened Bits

  // Basic parameters
  const PULSE_PER_REV: U16 := 0x0001
  const CONTROL_MODE_SOURCE: U16 := 0x0005
  const MOTOR_DIRECTION: U16 := 0x0007
  const MOTOR_INDUCTANCE: U16 := 0x0009
  const FORCED_ENA: U16 := 0x000F
  const CMD_FILTER_TIME: U16 := 0x00A1

  // Digital input configuration, one register every two addresses
  const SI1: U16 := 0x0145
  const SI2: U16 := 0x0147
  const SI3: U16 := 0x0149
  const SI4: U16 := 0x014B
  const SI5: U16 := 0x014D
  const SI6: U16 := 0x014F
  const SI7: U16 := 0x0151

  /** SI1..SI7 in input-number order: input `n` is at index `n - 1`. */
  const DIGITAL_INPUTS: seq<U16> := [SI1, SI2, SI3, SI4, SI5, SI6, SI7]

  // Digital output configuration
  const SO1: U16 := 0x0157
  const SO2: U16 := 0x0159
  const SO3: U16 := 0x015B

  // Brake and alarm configuration
  const DELAY_BRAKE_RELEASED: U16 := 0x0167
  const DELAY_BRAKE_LOCKED: U16 := 0x0169
  const THRESHOLD_BRAKE: U16 := 0x016B
  const ALARM_DETECTION: U16 := 0x016D

  // Status registers
  const BUS_VOLTAGE: U16 := 0x0177
  const DIGITAL_INPUT_STATUS: U16 := 0x0179
  const DIGITAL_OUTPUT_STATUS: U16 := 0x017B
  const DIP_SW_STATUS: U16 := 0x0187

  // Motor parameters
  const PEAK_CURRENT: U16 := 0x0191
  const PERCENT_SHAFT_LOCKED: U16 := 0x0197
  const SHAFT_LOCKED_DURATION: U16 := 0x0199
  const SHAFT_LOCKED_RISING_TIME: U16 := 0x019F
  const MAX_STOP_TIME: U16 := 0x01A5
  const AUTO_TUNING_POWER_ON: U16 := 0x01AB

  // RS485 configuration
  const RS485_BAUDRATE: U16 := 0x01BD
  const RS485_ID: U16 := 0x01BF
  const RS485_DATA_TYPE: U16 := 0x01C1
  const RS485_CONTROL_WORD: U16 := 0x01C3
  const COM_BIT_DELAY: U16 := 0x01C4

  // Standby configuration
  const SWITCHING_TIME_STANDBY: U16 := 0x01D1
  const STANDBY_CURRENT_PERCENT: U16 := 0x01D3

  // Jog configuration
  const JOG_VELOCITY: U16 := 0x01E1
  const INTERVAL: U16 := 0x01E3
  const RUNNING_TIME: U16 := 0x01E5
  const ACC_DEC_TIME: U16 := 0x01E7

  // Version and firmware
  const VERSION_INFORMATION: U16 := 0x01FF
  const FIRMWARE_INFORMATION: U16 := 0x0201

  // Motor model and advanced parameters
  const MOTOR_MODEL: U16 := 0x0231
  const BACK_EMF_COEF: U16 := 0x0235
  const CURRENT_LOOP_PROPORTIONAL_KP: U16 := 0x0237
  const CURRENT_LOOP_KI: U16 := 0x0239
  const CURRENT_LOOP_KP: U16 := 0x023B
  const CURRENT_LOOP_KC: U16 := 0x023D
  const OVER_VOLTAGE_THRESHOLD: U16 := 0x0243

  // Motion status and control
  const MOTION_STATUS: U16 := 0x1003
  const CONTROL_WORD: U16 := 0x1801
  const SAVE_PARAMETER_STATUS_WORD: U16 := 0x1901
  const CURRENT_ALARM: U16 := 0x2203

  // PR (position/routine) control
  const PR_GLOBAL_CTRL_FCT: U16 := 0x6000
  const PR_CTRL: U16 := 0x6002
  const SOFT_LIMIT_P_H: U16 := 0x6006
  const SOFT_LIMIT_P_L: U16 := 0x6007
  const SOFT_LIMIT_N_H: U16 := 0x6008
  const SOFT_LIMIT_N_L: U16 := 0x6009

  // Homing configuration
  const HOME_MODE: U16 := 0x600A
  const HOME_SWITCH_POS_HIGH: U16 := 0x600B
  const HOME_SWITCH_POS_LOW: U16 := 0x600C
  const HOMING_STOP_POS_HIGH: U16 := 0x600D
  const HOMING_STOP_POS_LOW: U16 := 0x600E
  const HOMING_HIGH_VELOCITY: U16 := 0x600F
  const HOMING_LOW_VELOCITY: U16 := 0x6010
  const HOMING_ACC: U16 := 0x6011
  const HOMING_DEC: U16 := 0x6012

  // Path configuration base addresses, one block of eight registers per path
  const PATH0_BASE: U16 := 0x6200
  const PATH1_BASE: U16 := 0x6208
  const PATH2_BASE: U16 := 0x6210
  const PATH3_BASE: U16 := 0x6218
  const PATH4_BASE: U16 := 0x6220
  const PATH5_BASE: U16 := 0x6228
  const PATH6_BASE: U16 := 0x6230
  const PATH7_BASE: U16 := 0x6238
  const PATH8_BASE: U16 := 0x6240

  // Path register offsets from the base
  const PATH_CTRL_OFFSET: U16 := 0
  const PATH_POSITION_H_OFFSET: U16 := 1
  const PATH_POSITION_L_OFFSET: U16 := 2
  const PATH_VELOCITY_OFFSET: U16 := 3
  const PATH_ACC_OFFSET: U16 := 4
  const PATH_DEC_OFFSET: U16 := 5
  const PATH_PAUSE_TIME_OFFSET: U16 := 6
  const PATH_SPECIAL_PARAM_OFFSET: U16 := 7

  /** Highest valid path id. */
  const MAX_PATH_ID: U8 := 8

  // Normally-closed increments added to an input or output function code
  const SI_NC_INCR: U16 := 0x0080
  const SO_NC_INCR: U16 := 0x0080

  // Motion status flags
  const MS_FAULT: U16 := 0x0001
  const MS_ENABLE: U16 := 0x0002
  const MS_RUNNING: U16 := 0x0004
  const MS_CMD_COMPLETE: U16 := 0x0010
  const MS_PATH_COMPLETE: U16 := 0x0020
  const MS_HOMING_COMPLETE: U16 := 0x0040

  /** Base address of the register block of path `pathId`; None for any id above 8. */
  function PathBase(pathId: U8): (base: Option<U16>)
    ensures base.Some? <==> pathId <= MAX_PATH_ID
    ensures base.Some? ==> base.value == PATH0_BASE + 8 * (pathId as U16)
  {
    if pathId == 0 then Some(PATH0_BASE)
    else if pathId == 1 then Some(PATH1_BASE)
    else if pathId == 2 then Some(PATH2_BASE)
    else if pathId == 3 then Some(PATH3_BASE)
    else if pathId == 4 then Some(PATH4_BASE)
    else if pathId == 5 then Some(PATH5_BASE)
    else if pathId == 6 then Some(PATH6_BASE)
    else if pathId == 7 then Some(PATH7_BASE)
    else if pathId == 8 then Some(PATH8_BASE)
    else None
  }

  /** Registers of distinct paths never share an address, offsets 0..7 of one
      path are distinct, and every path register lies in 0x6200..0x6247. */
  lemma PathRegistersDisjoint(i: U8, j: U8, a: U16, b: U16)
    requires i <= MAX_PATH_ID && j <= MAX_PATH_ID
    requires a <= PATH_SPECIAL_PARAM_OFFSET && b <= PATH_SPECIAL_PARAM_OFFSET
    ensures PathBase(i).value + a == PathBase(j).value + b <==> i == j && a == b
    ensures PathBase(i).value <= PathBase(i).value + a <= PathBase(i).value + PATH_SPECIAL_PARAM_OFFSET
    ensures PATH0_BASE <= PathBase(i).value + a <= 0x6247
  {
  }

  /** The digital-input registers are spaced two apart: SIn == SI1 + 2 * (n - 1). */
  lemma InputRegistersSpacing(n: int)
    requires 1 <= n <= 7
    ensures DIGITAL_INPUTS[n - 1] == SI1 + 2 * ((n - 1) as U16)
  {
  }

  /** The six motion-status masks are single bits and pairwise disjoint. */
  lemma MotionMasksSingleBits()
    ensures SingleBit(MS_FAULT) && SingleBit(MS_ENABLE) && SingleBit(MS_RUNNING)
    ensures SingleBit(MS_CMD_COMPLETE) && SingleBit(MS_PATH_COMPLETE) && SingleBit(MS_HOMING_COMPLETE)
    ensures var masks := [MS_FAULT, MS_ENABLE, MS_RUNNING, MS_CMD_COMPLETE, MS_PATH_COMPLETE, MS_HOMING_COMPLETE];
      forall i, j :: 0 <= i < j < |masks| ==> masks[i] & masks[j] == 0
  {
  }
}
