/** Setting bits of a 16-bit register word with `word | mask` and clearing
    them with `word & !mask`. Each fact is its own lemma: the solver settles
    them one at a time far more cheaply than together. */
module Bits {
  import opened Words

  /** A word with exactly one bit set. */
  predicate SingleBit(m: U16) {
    m != 0 && m & (m - 1) == 0
  }

  lemma OrSets(word: U16, mask: U16)
    requires mask != 0
    ensures (word | mask) & mask != 0
  {
  }

  lemma OrKeepsRest(word: U16, mask: U16)
    ensures (word | mask) & !mask == word & !mask
  {
  }

  lemma OrTwice(word: U16, mask: U16)
    ensures (word | mask) | mask == word | mask
  {
  }

  lemma OrAbsorbs(word: U16, mask: U16)
    requires word & mask == mask
    ensures word | mask == word
  {
  }

  lemma SingleBitSet(word: U16, mask: U16)
    requires SingleBit(mask) && word & mask != 0
    ensures word & mask == mask
  {
  }

  lemma AndNotClears(word: U16, mask: U16)
    ensures (word & !mask) & mask == 0
  {
  }

  lemma AndNotTwice(word: U16, mask: U16)
    ensures (word & !mask) & !mask == word & !mask
  {
  }

  lemma AndNotFixes(word: U16, mask: U16)
    ensures word & !mask == word <==> word & mask == 0
  {
    AndNotClears(word, mask);
    if word & mask == 0 {
      NoCommonBits(word, mask);
    }
  }

  lemma OrWithin(a: U16, b: U16, mask: U16)
    requires a & !mask == 0 && b & !mask == 0
    ensures (a | b) & !mask == 0
  {
  }

  lemma NoCommonBits(word: U16, mask: U16)
    requires word & mask == 0
    ensures word & !mask == word
  {
  }
}
