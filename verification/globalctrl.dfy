/** The switches of the PR global control register (PR_GLOBAL_CTRL_FCT) and
    what switching one of them does to the register word. */
module GlobalCtrl {
  import opened Words
  import opened Bits

  /** The four single-bit switches of the PR global control register. */
  datatype GlobalCtrlBit = CtrgEffectiveEdge | SoftLimit | HomingPowerUp | CtrgTriggerType {
    function Mask(): U16 {
      match this
      case CtrgEffectiveEdge => 0x01
      case SoftLimit => 0x02
      case HomingPowerUp => 0x04
      case CtrgTriggerType => 0x10
    }
  }

  /** Each switch is a single bit. */
  lemma MaskSingleBit(bit: GlobalCtrlBit)
    ensures SingleBit(bit.Mask())
  {
  }

  /** The switches occupy different bits. */
  lemma MasksDistinctBits(b1: GlobalCtrlBit, b2: GlobalCtrlBit)
    ensures b1 != b2 <==> b1.Mask() & b2.Mask() == 0
  {
  }

  /** Whether a switch is on in a register word. */
  predicate IsOn(reg: U16, bit: GlobalCtrlBit) {
    reg & bit.Mask() != 0
  }

  /** `reg |= mask` when switching on, `reg &= !mask` when switching off. */
  function SetBit(reg: U16, bit: GlobalCtrlBit, on: bool): (r: U16)
    ensures IsOn(r, bit) == on
  {
    var m := bit.Mask();
    if on then
      MaskSingleBit(bit);
      OrSets(reg, m);
      reg | m
    else
      AndNotClears(reg, m);
      reg & !m
  }

  /** Switching one bit leaves every other bit of the word as it was. */
  lemma SetBitKeepsOthers(reg: U16, bit: GlobalCtrlBit, on: bool)
    ensures SetBit(reg, bit, on) & !bit.Mask() == reg & !bit.Mask()
  {
    if on {
      OrKeepsRest(reg, bit.Mask());
    } else {
      AndNotTwice(reg, bit.Mask());
    }
  }

  /** Setting a bit twice is setting it once. */
  lemma SetBitIdempotent(reg: U16, bit: GlobalCtrlBit, on: bool)
    ensures SetBit(SetBit(reg, bit, on), bit, on) == SetBit(reg, bit, on)
  {
    if on {
      OrTwice(reg, bit.Mask());
    } else {
      AndNotTwice(reg, bit.Mask());
    }
  }

  /** The word is left unchanged exactly when the switch already had the
      requested state. */
  lemma SetBitUnchanged(reg: U16, bit: GlobalCtrlBit, on: bool)
    ensures SetBit(reg, bit, on) == reg <==> IsOn(reg, bit) == on
  {
    if on {
      SetOnUnchanged(reg, bit);
    } else {
      SetOffUnchanged(reg, bit);
    }
  }

  lemma SetOnUnchanged(reg: U16, bit: GlobalCtrlBit)
    ensures SetBit(reg, bit, true) == reg <==> IsOn(reg, bit)
  {
    if IsOn(reg, bit) {
      SetOnWhenOn(reg, bit);
    } else {
      SetOnWhenOff(reg, bit);
    }
  }

  lemma SetOnWhenOn(reg: U16, bit: GlobalCtrlBit)
    requires IsOn(reg, bit)
    ensures SetBit(reg, bit, true) == reg
  {
    var m := bit.Mask();
    assert SetBit(reg, bit, true) == reg | m;
    MaskSingleBit(bit);
    SingleBitSet(reg, m);
    OrAbsorbs(reg, m);
  }

  lemma SetOnWhenOff(reg: U16, bit: GlobalCtrlBit)
    requires !IsOn(reg, bit)
    ensures SetBit(reg, bit, true) != reg
  {
    var m := bit.Mask();
    assert SetBit(reg, bit, true) == reg | m;
    MaskSingleBit(bit);
    OrSets(reg, m);
  }

  lemma SetOffUnchanged(reg: U16, bit: GlobalCtrlBit)
    ensures SetBit(reg, bit, false) == reg <==> !IsOn(reg, bit)
  {
    var m := bit.Mask();
    assert SetBit(reg, bit, false) == reg & !m;
    AndNotFixes(reg, m);
  }
}
