/**
 * The words of the Mersenne Twister and the bit operations on them.
 *
 * A word is an `unsigned long`, which has 64 bits where the library is built, so the words are `bv64` here and
 * that every one of them stays below 2^32 is something to prove.
 */
module TwisterWords {

  const N: nat := 624
  const M: nat := 397
  const MASK: bv64 := 0xffff_ffff

  function MixBits(u: bv64, v: bv64): bv64 {
    (u & 0x8000_0000) | (v & 0x7fff_ffff)
  }

  function Twist(m: bv64, s0: bv64, s1: bv64): bv64 {
    Fold(m, MixBits(s0, s1), LowBit(s1))
  }

  function Fold(m: bv64, mixed: bv64, low: bv64): bv64 {
    m ^ (mixed >> 1) ^ ((0 - low) & 0x9908_b0df)
  }

  function LowBit(w: bv64): bv64 {
    w & 1
  }

  /** Tempering: four steps, each of which mixes a word with itself shifted. */
  function Temper(s: bv64): bv64 {
    ShiftRight18(ShiftLeft15(ShiftLeft7(ShiftRight11(s))))
  }

  function ShiftRight11(s: bv64): bv64 {
    s ^ (s >> 11)
  }

  function ShiftLeft7(s: bv64): bv64 {
    s ^ ((s << 7) & 0x9d2c_5680)
  }

  function ShiftLeft15(s: bv64): bv64 {
    s ^ ((s << 15) & 0xefc6_0000)
  }

  function ShiftRight18(s: bv64): bv64 {
    s ^ (s >> 18)
  }

  /** One step of the seeding sequence: word `i` from the word before it. */
  function Knuth(prev: bv64, i: bv64): bv64 {
    Grow(Spread(prev), i)
  }

  function Spread(prev: bv64): bv64 {
    prev ^ (prev >> 30)
  }

  function Grow(y: bv64, i: bv64): bv64 {
    (1812433253 * y + i) & MASK
  }

  /** The two mixing steps of seeding from an array; `key` is masked by the step itself. */
  function MixKey(word: bv64, prev: bv64, key: bv64, j: bv64): bv64 {
    MixLower(word, prev, Lower(key), j)
  }

  function MixLower(word: bv64, prev: bv64, key: bv64, j: bv64): bv64 {
    Blend(word, KeyFactor(prev), key + j)
  }

  function KeyFactor(prev: bv64): bv64 {
    (prev ^ (prev >> 30)) * 1664525
  }

  function Blend(word: bv64, y: bv64, k: bv64): bv64 {
    ((word ^ y) + k) & MASK
  }

  function MixIndex(word: bv64, prev: bv64, i: bv64): bv64 {
    Blend(word, IndexFactor(prev), 0 - i)
  }

  function IndexFactor(prev: bv64): bv64 {
    (prev ^ (prev >> 30)) * 1566083941
  }

  /** An `int` of the source as a word. */
  function Word(i: nat): bv64
    requires i < 0x8000_0000
  {
    i as bv64
  }

  /** The count `left` as a saved word and back; ten bits hold it. */
  function CountWord(left: nat): bv64
    requires left <= N
  {
    (left as bv10) as bv64
  }

  function WordCount(w: bv64): nat
    requires w <= 624
  {
    (w as bv10) as nat
  }

  lemma TenBitsHold(left: nat)
    requires left <= 624
    ensures (left as bv10) as nat == left
  {
  }

  lemma CountSurvives(left: nat)
    requires left <= N
    ensures CountWord(left) <= 624 && WordCount(CountWord(left)) == left
  {
    TenBitsHold(left);
  }

  function Lower(w: bv64): bv64 {
    w & MASK
  }

  /** Below 2^32. */
  predicate Fits(w: bv64) {
    w <= 0xffff_ffff
  }

  lemma TwistFits(m: bv64, s0: bv64, s1: bv64)
    requires Fits(m)
    ensures Fits(Twist(m, s0, s1))
  {
  }

  lemma TemperFits(s: bv64)
    requires Fits(s)
    ensures Fits(Temper(s))
  {
    hide Untemper, Fits;
    TemperUndone(s);
  }

  lemma KnuthFits(prev: bv64, i: bv64)
    ensures Fits(Knuth(prev, i))
  {
    hide Spread, Fits;
    MasksFit(1812433253 * Spread(prev) + i);
  }

  lemma BlendFits(word: bv64, y: bv64, k: bv64)
    ensures Fits(Blend(word, y, k))
  {
    hide Fits;
    MasksFit((word ^ y) + k);
  }

  lemma MasksFit(w: bv64)
    ensures Fits(w & MASK)
  {
  }

  lemma MixKeyFits(word: bv64, prev: bv64, key: bv64, j: bv64)
    ensures Fits(MixKey(word, prev, key, j))
  {
    hide Lower, KeyFactor, Blend, Fits;
    BlendFits(word, KeyFactor(prev), Lower(key) + j);
  }

  lemma MixKeyIgnores(word: bv64, prev: bv64, key: bv64, other: bv64, j: bv64)
    requires Lower(key) == Lower(other)
    ensures MixKey(word, prev, key, j) == MixKey(word, prev, other, j)
  {
    hide Lower, MixLower;
  }

  lemma MixIndexFits(word: bv64, prev: bv64, i: bv64)
    ensures Fits(MixIndex(word, prev, i))
  {
    hide IndexFactor, Blend, Fits;
    BlendFits(word, IndexFactor(prev), 0 - i);
  }

  /** The mask that randInt(n) tosses unused bits with. */
  function Used(n: bv64): bv64 {
    var u1 := n | (n >> 1);
    var u2 := u1 | (u1 >> 2);
    var u4 := u2 | (u2 >> 4);
    var u8 := u4 | (u4 >> 8);
    u8 | (u8 >> 16)
  }

  /** What randInt(n) makes of a number it draws. */
  function Masked(w: bv64, n: bv64): bv64 {
    w & Used(n)
  }

  /** randInt(n) draws another one. */
  predicate Rejected(w: bv64, n: bv64) {
    Masked(w, n) > n
  }

  lemma AcceptedAtMost(w: bv64, n: bv64)
    requires !Rejected(w, n)
    ensures Masked(w, n) <= n
  {
    hide Masked;
  }

  /** The mask is the least one of the form 2^k - 1 that covers `n`, so every number up to `n` gets through. */
  lemma UsedIsLeastMask(n: bv64, i: bv64)
    requires Fits(n) && i <= n
    ensures Used(n) & (Used(n) + 1) == 0
    ensures n <= Used(n) && Used(n) >> 1 <= n
    ensures Masked(i, n) == i
  {
  }

  // ----------------------------------------------------------------------------------------- undoing

  /** The word that a tempered one comes from: the last step is undone first. A shift by less than half the width is
      undone in rounds, each of which gets right as many bits more as the shift is wide. */
  function Untemper(t: bv64): bv64 {
    UndoRight11(UndoLeft7(UndoLeft15(UndoRight18(t))))
  }

  function UndoRight18(t: bv64): bv64 {
    t ^ (t >> 18)
  }

  function UndoLeft15(t: bv64): bv64 {
    t ^ ((t << 15) & 0xefc6_0000)
  }

  function UndoLeft7(t: bv64): bv64 {
    var bits14 := t ^ ((t << 7) & 0x9d2c_5680);
    var bits21 := t ^ ((bits14 << 7) & 0x9d2c_5680);
    var bits28 := t ^ ((bits21 << 7) & 0x9d2c_5680);
    t ^ ((bits28 << 7) & 0x9d2c_5680)
  }

  function UndoRight11(t: bv64): bv64 {
    var bits22 := t ^ (t >> 11);
    t ^ (bits22 >> 11)
  }

  lemma Right18Undone(s: bv64)
    requires Fits(s)
    ensures UndoRight18(ShiftRight18(s)) == s && Fits(ShiftRight18(s))
  {
  }

  lemma Left15Undone(s: bv64)
    requires Fits(s)
    ensures UndoLeft15(ShiftLeft15(s)) == s && Fits(ShiftLeft15(s))
  {
  }

  lemma Left7Undone(s: bv64)
    requires Fits(s)
    ensures UndoLeft7(ShiftLeft7(s)) == s && Fits(ShiftLeft7(s))
  {
  }

  lemma Right11Undone(s: bv64)
    requires Fits(s)
    ensures UndoRight11(ShiftRight11(s)) == s && Fits(ShiftRight11(s))
  {
  }

  /** Tempering loses nothing: every 32-bit word is recovered from its output. */
  lemma TemperUndone(s: bv64)
    requires Fits(s)
    ensures Fits(Temper(s)) && Untemper(Temper(s)) == s
  {
    hide ShiftRight11, ShiftLeft7, ShiftLeft15, ShiftRight18;
    hide UndoRight11, UndoLeft7, UndoLeft15, UndoRight18, Fits;
    Right11Undone(s);
    Left7Undone(ShiftRight11(s));
    Left15Undone(ShiftLeft7(ShiftRight11(s)));
    Right18Undone(ShiftLeft15(ShiftLeft7(ShiftRight11(s))));
  }

  /** What a twist tells of the two words that went into it: the top bit of one, the other 31 of the next. */
  function Untwist(m: bv64, t: bv64): bv64 {
    if (m ^ t) & 0x8000_0000 == 0 then (m ^ t) << 1 else (((m ^ t) ^ 0x9908_b0df) << 1) | 1
  }

  function Seam(s0: bv64, s1: bv64): bv64 {
    (s0 & 0x8000_0000) | (s1 & 0x7fff_ffff)
  }

  lemma FoldUndone(m: bv64, mixed: bv64)
    requires Fits(mixed)
    ensures Untwist(m, Fold(m, mixed, LowBit(mixed))) == mixed
  {
  }

  lemma LowBitOfMix(u: bv64, v: bv64)
    ensures LowBit(MixBits(u, v)) == LowBit(v)
  {
  }

  lemma MixFits(u: bv64, v: bv64)
    ensures Fits(MixBits(u, v))
  {
  }

  lemma TwistUndone(m: bv64, s0: bv64, s1: bv64)
    ensures Untwist(m, Twist(m, s0, s1)) == Seam(s0, s1)
  {
    hide Untwist, Fold, LowBit, Fits;
    LowBitOfMix(s0, s1);
    MixFits(s0, s1);
    FoldUndone(m, MixBits(s0, s1));
  }

  /** In 32 bits the multiplier of the seeding sequence has an inverse, so that the word before is recovered. */
  function Unknuth(w: bv64, i: bv64): bv64 {
    Unspread(Ungrow(w, i))
  }

  function Ungrow(w: bv64, i: bv64): bv64 {
    ((w - i) * 2520285293) & 0xffff_ffff
  }

  function Unspread(y: bv64): bv64 {
    y ^ (y >> 30)
  }

  lemma SpreadUndone(prev: bv64)
    requires Fits(prev)
    ensures Unspread(Spread(prev)) == prev && Fits(Spread(prev))
  {
  }

  predicate GrownFrom(w: bv64, i: bv64, y: bv64) {
    ((w - i) * 2520285293) & 0xffff_ffff == y & 0xffff_ffff
  }

  lemma MultiplierHasInverse(y: bv64, i: bv64)
    ensures GrownFrom((1812433253 * y + i) & 0xffff_ffff, i, y)
  {
  }

  lemma GrowIsGrown(y: bv64, i: bv64)
    ensures GrownFrom(Grow(y, i), i, y)
  {
    hide GrownFrom;
    MultiplierHasInverse(y, i);
  }

  lemma UngrowGrown(w: bv64, i: bv64, y: bv64)
    requires GrownFrom(w, i, y) && Fits(y)
    ensures Ungrow(w, i) == y
  {
  }

  lemma KnuthUndone(prev: bv64, i: bv64)
    requires Fits(prev)
    ensures Unknuth(Knuth(prev, i), i) == prev
  {
    hide Spread, Unspread, Grow, Ungrow, GrownFrom, Fits;
    SpreadUndone(prev);
    GrowIsGrown(Spread(prev), i);
    UngrowGrown(Grow(Spread(prev), i), i, Spread(prev));
  }

  /** The word that a mixing step overwrites is recovered from what it was mixed with. */
  function Unblend(w: bv64, y: bv64, k: bv64): bv64 {
    ((w - k) ^ y) & 0xffff_ffff
  }

  predicate BlendedFrom(w: bv64, y: bv64, k: bv64, word: bv64) {
    ((w - k) ^ y) & 0xffff_ffff == word & 0xffff_ffff
  }

  lemma BlendingHasInverse(word: bv64, y: bv64, k: bv64)
    ensures BlendedFrom(((word ^ y) + k) & 0xffff_ffff, y, k, word)
  {
  }

  lemma BlendIsBlended(word: bv64, y: bv64, k: bv64)
    ensures BlendedFrom(Blend(word, y, k), y, k, word)
  {
    hide BlendedFrom;
    BlendingHasInverse(word, y, k);
  }

  lemma UnblendBlended(w: bv64, y: bv64, k: bv64, word: bv64)
    requires BlendedFrom(w, y, k, word) && Fits(word)
    ensures Unblend(w, y, k) == word
  {
  }

  lemma BlendUndone(word: bv64, y: bv64, k: bv64)
    requires Fits(word)
    ensures Unblend(Blend(word, y, k), y, k) == word
  {
    hide Blend, Unblend, BlendedFrom, Fits;
    BlendIsBlended(word, y, k);
    UnblendBlended(Blend(word, y, k), y, k, word);
  }

  function UnmixKey(w: bv64, prev: bv64, key: bv64, j: bv64): bv64 {
    Unblend(w, (prev ^ (prev >> 30)) * 1664525, Lower(key) + j)
  }

  lemma MixKeyUndone(word: bv64, prev: bv64, key: bv64, j: bv64)
    requires Fits(word)
    ensures UnmixKey(MixKey(word, prev, key, j), prev, key, j) == word
  {
    hide Blend, Unblend, Lower, Fits;
    BlendUndone(word, KeyFactor(prev), Lower(key) + j);
  }

  function UnmixIndex(w: bv64, prev: bv64, i: bv64): bv64 {
    Unblend(w, (prev ^ (prev >> 30)) * 1566083941, 0 - i)
  }

  lemma MixIndexUndone(word: bv64, prev: bv64, i: bv64)
    requires Fits(word)
    ensures UnmixIndex(MixIndex(word, prev, i), prev, i) == word
  {
    hide Blend, Unblend, Fits;
    BlendUndone(word, IndexFactor(prev), 0 - i);
  }
}
