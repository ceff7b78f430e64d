/** The SplitMix64 generator and the sampling loop of `crates/bench-corpus/src/lib.rs`. The loop
    stops only because the generator is a full-cycle permutation of the 64-bit words. */
module SplitMix {

  const WORD: int := 0x1_0000_0000_0000_0000

  type U64 = x: int | 0 <= x < WORD witness 0

  const GAMMA: int := 0x9E37_79B9_7F4A_7C15
  const MIX1: int := 0xBF58_476D_1CE4_E5B9
  const MIX2: int := 0x94D0_49BB_1331_11EB

  // ---------------------------------------------------------------- bits of a natural

  /** Bitwise exclusive or. */
  function Xor(a: nat, b: nat): nat
    decreases a + b
  {
    if a == 0 && b == 0 then 0 else 2 * Xor(a / 2, b / 2) + (a % 2 + b % 2) % 2
  }

  /** Right shift: drop the lowest bit `n` times. */
  function Shr(a: nat, n: nat): nat
    decreases n, a
  {
    if n == 0 then a else Shr(a / 2, n - 1)
  }

  function Pow2(n: nat): nat {
    if n == 0 then 1 else 2 * Pow2(n - 1)
  }

  lemma {:induction false} XorBound(a: nat, b: nat, n: nat)
    requires a < Pow2(n) && b < Pow2(n)
    ensures Xor(a, b) < Pow2(n)
  {
    if n > 0 {
      XorBound(a / 2, b / 2, n - 1);
    }
  }

  lemma {:induction false} XorZero(a: nat)
    ensures Xor(a, 0) == a && Xor(0, a) == a
  {
    if a > 0 {
      XorZero(a / 2);
    }
  }

  lemma {:induction false} XorSelf(a: nat)
    ensures Xor(a, a) == 0
  {
    if a > 0 {
      XorSelf(a / 2);
    }
  }

  /** `Xor` acts bit by bit: on the lowest bits and on the rest. */
  lemma XorHalves(a: nat, b: nat)
    ensures Xor(a, b) / 2 == Xor(a / 2, b / 2)
    ensures Xor(a, b) % 2 == (a % 2 + b % 2) % 2
  {
  }

  function Bit(a: nat, i: nat): (b: nat)
    ensures b < 2
    decreases i
  {
    if i == 0 then a % 2 else Bit(a / 2, i - 1)
  }

  lemma {:induction false} XorBit(a: nat, b: nat, i: nat)
    ensures Bit(Xor(a, b), i) == if Bit(a, i) == Bit(b, i) then 0 else 1
    decreases i
  {
    XorHalves(a, b);
    if i > 0 {
      XorBit(a / 2, b / 2, i - 1);
    }
  }

  lemma {:induction false} SameBits(a: nat, b: nat)
    requires forall i: nat :: Bit(a, i) == Bit(b, i)
    ensures a == b
    decreases a + b
  {
    if a + b > 0 {
      assert Bit(a, 0) == Bit(b, 0);
      forall i: nat ensures Bit(a / 2, i) == Bit(b / 2, i) {
        assert Bit(a, i + 1) == Bit(b, i + 1);
      }
      SameBits(a / 2, b / 2);
    }
  }

  lemma XorAssoc(a: nat, b: nat, c: nat)
    ensures Xor(Xor(a, b), c) == Xor(a, Xor(b, c))
  {
    forall i: nat ensures Bit(Xor(Xor(a, b), c), i) == Bit(Xor(a, Xor(b, c)), i) {
      XorBit(a, b, i);
      XorBit(b, c, i);
      XorBit(Xor(a, b), c, i);
      XorBit(a, Xor(b, c), i);
    }
    SameBits(Xor(Xor(a, b), c), Xor(a, Xor(b, c)));
  }

  lemma {:induction false} ShrXor(a: nat, b: nat, n: nat)
    ensures Shr(Xor(a, b), n) == Xor(Shr(a, n), Shr(b, n))
    decreases n
  {
    if n > 0 {
      XorHalves(a, b);
      ShrXor(a / 2, b / 2, n - 1);
    }
  }

  lemma {:induction false} ShrShr(a: nat, m: nat, n: nat)
    ensures Shr(Shr(a, m), n) == Shr(a, m + n)
    decreases m
  {
    if m > 0 {
      ShrShr(a / 2, m - 1, n);
    }
  }

  lemma {:induction false} ShrSmall(a: nat, n: nat, width: nat)
    requires a < Pow2(width)
    ensures Shr(a, n) < Pow2(width)
    ensures width <= n ==> Shr(a, n) == 0
    decreases n
  {
    if n > 0 {
      if width > 0 {
        ShrSmall(a / 2, n - 1, width - 1);
      } else {
        ShrSmall(0, n - 1, 0);
      }
    }
  }

  lemma WordIsPow2()
    ensures Pow2(64) == WORD
  {
    assert Pow2(4) == 16;
    PowSum(4, 4);
    PowSum(8, 8);
    PowSum(16, 16);
    PowSum(32, 32);
  }

  lemma {:induction false} PowSum(m: nat, n: nat)
    ensures Pow2(m + n) == Pow2(m) * Pow2(n)
    decreases m
  {
    if m > 0 {
      PowSum(m - 1, n);
    }
  }

  lemma {:induction false} ShrRange(a: nat, n: nat)
    ensures Shr(a, n) * Pow2(n) <= a < (Shr(a, n) + 1) * Pow2(n)
    decreases n
  {
    if n > 0 {
      ShrRange(a / 2, n - 1);
      DoubledRange(a, Shr(a, n), Pow2(n - 1));
    }
  }

  lemma DoubledRange(a: nat, q: nat, p: nat)
    requires q * p <= a / 2 < (q + 1) * p
    ensures q * (2 * p) <= a < (q + 1) * (2 * p)
  {
    assert q * (2 * p) == 2 * (q * p) && (q + 1) * (2 * p) == 2 * ((q + 1) * p);
  }

  /** Shifting right is dividing by the power of two. */
  lemma ShrIsDivision(a: nat, n: nat)
    ensures Pow2(n) > 0 && Shr(a, n) == a / Pow2(n)
  {
    ShrRange(a, n);
    Pow2Positive(n);
    FloorIs(a, Pow2(n), Shr(a, n));
  }

  lemma {:induction false} Pow2Positive(n: nat)
    ensures Pow2(n) > 0
  {
    if n > 0 {
      Pow2Positive(n - 1);
    }
  }

  lemma FloorIs(a: nat, p: nat, q: nat)
    requires p > 0 && q * p <= a < (q + 1) * p
    ensures a / p == q
  {
    NextMultiple(q, p);
    RemainderUnique(a, p, q, a - q * p);
    QuotientUnique(a / p, q, p);
  }

  /** A bit is the parity of the shifted number. */
  lemma {:induction false} BitIsShifted(a: nat, i: nat)
    ensures Bit(a, i) == Shr(a, i) % 2
    decreases i
  {
    if i > 0 {
      BitIsShifted(a / 2, i - 1);
    }
  }

  lemma ShiftDivisors()
    ensures Pow2(27) == 0x800_0000 && Pow2(30) == 0x4000_0000 && Pow2(31) == 0x8000_0000
  {
    assert Pow2(3) == 8 && Pow2(6) == 64;
    PowSum(6, 6);
    PowSum(12, 12);
    PowSum(24, 3);
    PowSum(27, 3);
    PowSum(1, 30);
  }

  // ---------------------------------------------------------------- each mixing step is invertible

  function XorShift(x: U64, n: nat): (r: U64) {
    XorShiftWord(x, n);
    Xor(x, Shr(x, n))
  }

  lemma XorShiftWord(x: U64, n: nat)
    ensures 0 <= Shr(x, n) < WORD && 0 <= Xor(x, Shr(x, n)) < WORD
  {
    WordIsPow2();
    ShrSmall(x, n, 64);
    XorBound(x, Shr(x, n), 64);
  }

  /** Undoes `XorShift` by at least a third of the word. */
  function UnXorShift(y: U64, n: nat): (r: U64) {
    XorShiftWord(y, n);
    WordIsPow2();
    ShrSmall(y, 2 * n, 64);
    XorBound(Xor(y, Shr(y, n)), Shr(y, 2 * n), 64);
    Xor(Xor(y, Shr(y, n)), Shr(y, 2 * n))
  }

  /** Four terms where the middle ones cancel in pairs. */
  lemma XorCancel(a: nat, b: nat, c: nat)
    ensures Xor(Xor(Xor(a, b), Xor(b, c)), c) == a
  {
    XorAssoc(a, b, Xor(b, c));
    XorAssoc(b, b, c);
    XorSelf(b);
    XorZero(c);
    XorAssoc(a, c, c);
    XorSelf(c);
    XorZero(a);
  }

  lemma XorShiftUndone(x: U64, n: nat)
    requires 64 <= 3 * n
    ensures UnXorShift(XorShift(x, n), n) == x
  {
    WordIsPow2();
    var y := XorShift(x, n);
    ShrXor(x, Shr(x, n), n);
    ShrShr(x, n, n);
    ShrXor(x, Shr(x, n), 2 * n);
    ShrShr(x, n, 2 * n);
    ShrSmall(x, 3 * n, 64);
    XorZero(Shr(x, 2 * n));
    XorCancel(x, Shr(x, n), Shr(x, 2 * n));
  }

  lemma XorShiftRedone(y: U64, n: nat)
    requires 64 <= 3 * n
    ensures XorShift(UnXorShift(y, n), n) == y
  {
    WordIsPow2();
    var a, b, c := y as nat, Shr(y, n), Shr(y, 2 * n);
    var x := UnXorShift(y, n);
    ShrXor(Xor(a, b), c, n);
    ShrXor(a, b, n);
    ShrShr(y, n, n);
    ShrShr(y, 2 * n, n);
    ShrSmall(y, 3 * n, 64);
    XorZero(Xor(b, c));
    assert Shr(x, n) == Xor(b, c);
    assert Xor(x, Xor(b, c)) == a by {
      XorAssoc(a, b, c);
      XorAssoc(a, Xor(b, c), Xor(b, c));
      XorSelf(Xor(b, c));
      XorZero(a);
    }
  }

  function MulWrap(x: U64, m: int): (r: U64) {
    x * m % WORD
  }

  lemma ModUnique(x: int, q: int)
    requires 0 <= x < WORD
    ensures (x + q * WORD) % WORD == x
  {
  }

  /** Multiplying by `m` and then by its inverse modulo the word is the identity. */
  lemma MulUndone(x: U64, m: int, inv: int, t: int)
    requires m * inv == 1 + t * WORD
    ensures MulWrap(MulWrap(x, m), inv) == x
  {
    var q := x * m / WORD;
    var r := x * m % WORD;
    calc {
      r * inv;
      (x * m - q * WORD) * inv;
      x * (m * inv) - q * inv * WORD;
      x * (1 + t * WORD) - q * inv * WORD;
      x + (x * t - q * inv) * WORD;
    }
    ModUnique(x, x * t - q * inv);
  }

  const MIX1_INVERSE: int := 0x96DE_1B17_3F11_9089
  const MIX2_INVERSE: int := 0x3196_42B2_D24D_8EC3
  const GAMMA_INVERSE: int := 0xF1DE_83E1_9937_733D

  /** The output function of `next_u64`, applied to the advanced state. */
  function Mix(z: U64): (r: U64) {
    XorShift(MulWrap(XorShift(MulWrap(XorShift(z, 30), MIX1), 27), MIX2), 31)
  }

  /** The output function with its shifts as divisions. */
  lemma MixWrittenOut(z: U64)
    ensures var z1 := Xor(z, z / 0x4000_0000) * 0xBF58_476D_1CE4_E5B9 % 0x1_0000_0000_0000_0000;
            var z2 := Xor(z1, z1 / 0x800_0000) * 0x94D0_49BB_1331_11EB % 0x1_0000_0000_0000_0000;
            Mix(z) == Xor(z2, z2 / 0x8000_0000)
  {
    ShiftDivisors();
    ShrIsDivision(z, 30);
    var z1 := MulWrap(XorShift(z, 30), MIX1);
    ShrIsDivision(z1, 27);
    var z2 := MulWrap(XorShift(z1, 27), MIX2);
    ShrIsDivision(z2, 31);
  }

  function Unmix(v: U64): (r: U64) {
    UnXorShift(MulWrap(UnXorShift(MulWrap(UnXorShift(v, 31), MIX2_INVERSE), 27), MIX1_INVERSE), 30)
  }

  /** The output function permutes the words. */
  lemma MixIsPermutation(z: U64)
    ensures Unmix(Mix(z)) == z
    ensures Mix(Unmix(z)) == z
  {
    var a := XorShift(z, 30);
    var b := MulWrap(a, MIX1);
    var c := XorShift(b, 27);
    var d := MulWrap(c, MIX2);
    XorShiftUndone(d, 31);
    MulUndone(c, MIX2, MIX2_INVERSE, 2077064247507883091);
    XorShiftUndone(b, 27);
    MulUndone(a, MIX1, MIX1_INVERSE, 8125545580553827436);
    XorShiftUndone(z, 30);

    var e := UnXorShift(z, 31);
    var f := MulWrap(e, MIX2_INVERSE);
    var g := UnXorShift(f, 27);
    var h := MulWrap(g, MIX1_INVERSE);
    XorShiftRedone(h, 30);
    MulUndone(g, MIX1_INVERSE, MIX1, 8125545580553827436);
    XorShiftRedone(f, 27);
    MulUndone(e, MIX2_INVERSE, MIX2, 2077064247507883091);
    XorShiftRedone(z, 31);
  }

  // ---------------------------------------------------------------- the state walk is one cycle

  /** `wrapping_add` of the increment. */
  function Advance(s: U64): (r: U64) {
    if s + GAMMA < WORD then s + GAMMA else s + GAMMA - WORD
  }

  /** How many calls, between 1 and the whole cycle, bring state `s` to state `t`. */
  function Distance(s: U64, t: U64): (n: int)
    ensures 1 <= n <= WORD
  {
    var r := (t - s) * GAMMA_INVERSE % WORD;
    if r == 0 then WORD else r
  }

  lemma ModShift(x: int, y: int, q: int)
    requires x == y + q * WORD
    ensures x % WORD == y % WORD
  {
    var r, p := y % WORD, y / WORD;
    assert x == r + (p + q) * WORD;
    ModUnique(r, p + q);
  }

  /** Both distances are the same multiple of the inverse increment, one apart. */
  lemma DistanceTerms(s: U64, t: U64)
    ensures (t - Advance(s)) * GAMMA_INVERSE % WORD == ((t - s) * GAMMA_INVERSE - 1) % WORD
  {
    var carry := if s + GAMMA < WORD then 0 else 1;
    var x, y := (t - s) * GAMMA_INVERSE, (t - Advance(s)) * GAMMA_INVERSE;
    assert Advance(s) == s + GAMMA - carry * WORD;
    assert GAMMA * GAMMA_INVERSE == 1 + 10771413168148108919 * WORD;
    assert y == x - 1 + (carry * GAMMA_INVERSE - 10771413168148108919) * WORD;
    ModShift(y, x - 1, carry * GAMMA_INVERSE - 10771413168148108919);
  }

  /** A non-zero offset within the word stays non-zero when multiplied by a unit. */
  lemma UnitKeepsNonzero(d: int)
    requires -WORD < d < WORD && d * GAMMA_INVERSE % WORD == 0
    ensures d == 0
  {
    var q := d * GAMMA_INVERSE / WORD;
    var w := q * GAMMA - d * 10771413168148108919;
    assert d == w * WORD by {
      assert d * GAMMA_INVERSE == q * WORD;
    }
  }

  lemma PredecessorMod(x: int)
    ensures (x - 1) % WORD == if x % WORD == 0 then WORD - 1 else x % WORD - 1
  {
  }

  /** Each call brings the state one closer to any other state, or arrives. */
  lemma OneCloser(s: U64, t: U64)
    ensures Advance(s) == t ==> Distance(s, t) == 1
    ensures Advance(s) != t ==> Distance(Advance(s), t) == Distance(s, t) - 1
  {
    DistanceTerms(s, t);
    PredecessorMod((t - s) * GAMMA_INVERSE);
    if (t - Advance(s)) * GAMMA_INVERSE % WORD == 0 {
      UnitKeepsNonzero(t - Advance(s));
    }
  }

  /** The state after `k` calls. */
  function StateAfter(s: U64, k: nat): (r: U64) {
    if k == 0 then s else Advance(StateAfter(s, k - 1))
  }

  /** The output of the `k`-th call, counted from 1. */
  function Draw(s: U64, k: nat): (r: U64)
    requires k >= 1
  {
    Mix(StateAfter(s, k))
  }

  lemma {:induction false} StateAfterFront(s: U64, k: nat)
    requires k >= 1
    ensures StateAfter(s, k) == StateAfter(Advance(s), k - 1)
    decreases k
  {
    if k > 1 {
      StateAfterFront(s, k - 1);
    }
  }

  lemma {:induction false} WalkArrives(s: U64, t: U64)
    ensures StateAfter(s, Distance(s, t)) == t
    decreases Distance(s, t)
  {
    OneCloser(s, t);
    StateAfterFront(s, Distance(s, t));
    if Advance(s) != t {
      WalkArrives(Advance(s), t);
    }
  }

  /** Full cycle: from any state, every word is drawn within 2^64 calls. */
  lemma EveryWordIsDrawn(s: U64, v: U64) returns (k: nat)
    ensures 1 <= k <= WORD && Draw(s, k) == v
  {
    k := Distance(s, Unmix(v));
    WalkArrives(s, Unmix(v));
    MixIsPermutation(v);
  }

  lemma {:induction false} DistanceIsCallCount(s: U64, k: nat)
    requires 1 <= k <= WORD
    ensures Distance(s, StateAfter(s, k)) == k
    decreases k
  {
    var t := StateAfter(s, k);
    StateAfterFront(s, k);
    OneCloser(s, t);
    if k > 1 {
      DistanceIsCallCount(Advance(s), k - 1);
      if Advance(s) == t {
        SelfDistance(t);
      }
    }
  }

  lemma SelfDistance(t: U64)
    ensures Distance(t, t) == WORD
  {
  }

  /** And exactly once: 2^64 successive draws are all different. */
  lemma NoWordIsDrawnTwice(s: U64, i: nat, j: nat)
    requires 1 <= i <= WORD && 1 <= j <= WORD && Draw(s, i) == Draw(s, j)
    ensures i == j
  {
    MixIsPermutation(StateAfter(s, i));
    MixIsPermutation(StateAfter(s, j));
    DistanceIsCallCount(s, i);
    DistanceIsCallCount(s, j);
  }

  // ---------------------------------------------------------------- the sampling loop

  /** The index a drawn word picks below `bound`: its remainder, by repeated subtraction. */
  function Index(v: U64, bound: U64): (i: U64)
    ensures bound > 0 ==> i < bound
    decreases v
  {
    if bound == 0 then 0 else if v < bound then v else Index(v - bound, bound)
  }

  lemma RemainderUnique(v: int, b: int, q: int, r: int)
    requires 0 <= r < b && v == q * b + r
    ensures v % b == r
  {
    var k := v / b - q;
    assert k * b == r - v % b;
    assert (k >= 1 ==> k * b >= b) && (k <= -1 ==> k * b <= -b);
  }

  lemma {:induction false} IndexIsRemainder(v: U64, bound: U64)
    requires bound > 0
    ensures Index(v, bound) == v % bound
    decreases v
  {
    if v < bound {
      RemainderUnique(v, bound, 0, v);
    } else {
      IndexIsRemainder(v - bound, bound);
      RemainderUnique(v, bound, (v - bound) / bound + 1, (v - bound) % bound);
    }
  }

  lemma AdvanceIsSum(s: U64)
    ensures Advance(s) == (s + 0x9E37_79B9_7F4A_7C15) % 0x1_0000_0000_0000_0000
  {
  }

  lemma NextTotal(x: int)
    ensures (x % WORD + GAMMA) % WORD == (x + GAMMA) % WORD
  {
    ModShift(x + GAMMA, x % WORD + GAMMA, x / WORD);
  }

  /** The state after `k` calls is `k` increments on, modulo 2^64. */
  lemma {:induction false} StateAfterIs(s: U64, k: nat)
    ensures StateAfter(s, k) == (s + k * 0x9E37_79B9_7F4A_7C15) % 0x1_0000_0000_0000_0000
    decreases k
  {
    if k > 0 {
      StateAfterIs(s, k - 1);
      AdvanceIsSum(StateAfter(s, k - 1));
      NextTotal(s + (k - 1) * GAMMA);
    }
  }

  // ---------------------------------------------------------------- published outputs

  /** `c` is the exclusive or of `a` and `b`, bit by bit. */
  ghost predicate IsXor(a: nat, b: nat, c: nat) {
    forall i: nat :: Bit(c, i) == if Bit(a, i) == Bit(b, i) then 0 else 1
  }

  /** `Xor` is the one number with those bits. */
  lemma XorIsExact(a: nat, b: nat, c: nat)
    ensures IsXor(a, b, c) <==> c == Xor(a, b)
  {
    forall i: nat ensures Bit(Xor(a, b), i) == if Bit(a, i) == Bit(b, i) then 0 else 1 {
      XorBit(a, b, i);
    }
    if IsXor(a, b, c) {
      SameBits(c, Xor(a, b));
    }
  }

  lemma BitPushed(a: nat, x: nat, i: nat)
    requires x < 2
    ensures Bit(2 * a + x, i) == if i == 0 then x else Bit(a, i - 1)
  {
    var a' := 2 * a + x;
    assert a' / 2 == a && a' % 2 == x;
  }

  lemma IsXorPushed(a: nat, b: nat, c: nat, x: nat, y: nat, z: nat)
    requires x < 2 && y < 2 && z == (x + y) % 2 && IsXor(a, b, c)
    ensures IsXor(2 * a + x, 2 * b + y, 2 * c + z)
  {
    var a', b', c' := 2 * a + x, 2 * b + y, 2 * c + z;
    forall i: nat ensures Bit(c', i) == if Bit(a', i) == Bit(b', i) then 0 else 1 {
      BitPushed(a, x, i);
      BitPushed(b, y, i);
      BitPushed(c, z, i);
    }
  }

  lemma {:induction false} NoBits(i: nat)
    ensures Bit(0, i) == 0
  {
    if i > 0 {
      NoBits(i - 1);
    }
  }

  lemma NothingXored()
    ensures IsXor(0, 0, 0)
  {
    forall i: nat ensures Bit(0, i) == 0 {
      NoBits(i);
    }
  }

  function BitAt(x: bv8, m: bv8): nat { if x & m != 0 then 1 else 0 }

  predicate SingleBit(m: bv8) {
    m == 0x80 || m == 0x40 || m == 0x20 || m == 0x10 || m == 8 || m == 4 || m == 2 || m == 1
  }

  lemma BitAtXor(x: bv8, y: bv8, m: bv8)
    requires SingleBit(m)
    ensures BitAt(x ^ y, m) == (BitAt(x, m) + BitAt(y, m)) % 2
  {
    assert (x ^ y) & m == (x & m) ^ (y & m);
    assert x & m == 0 || x & m == m;
    assert y & m == 0 || y & m == m;
  }

  lemma IsXorBitAt(a: nat, b: nat, c: nat, x: bv8, y: bv8, m: bv8)
    requires IsXor(a, b, c) && SingleBit(m)
    ensures IsXor(2 * a + BitAt(x, m), 2 * b + BitAt(y, m), 2 * c + BitAt(x ^ y, m))
  {
    BitAtXor(x, y, m);
    IsXorPushed(a, b, c, BitAt(x, m), BitAt(y, m), BitAt(x ^ y, m));
  }

  function Nibble(a: nat, x: bv8, m3: bv8, m2: bv8, m1: bv8, m0: bv8): nat {
    2 * (2 * (2 * (2 * a + BitAt(x, m3)) + BitAt(x, m2)) + BitAt(x, m1)) + BitAt(x, m0)
  }

  lemma IsXorNibble(a: nat, b: nat, c: nat, x: bv8, y: bv8, m3: bv8, m2: bv8, m1: bv8, m0: bv8)
    requires IsXor(a, b, c) && SingleBit(m3) && SingleBit(m2) && SingleBit(m1) && SingleBit(m0)
    ensures IsXor(Nibble(a, x, m3, m2, m1, m0), Nibble(b, y, m3, m2, m1, m0), Nibble(c, x ^ y, m3, m2, m1, m0))
  {
    IsXorBitAt(a, b, c, x, y, m3);
    var a3, b3, c3 := 2 * a + BitAt(x, m3), 2 * b + BitAt(y, m3), 2 * c + BitAt(x ^ y, m3);
    IsXorBitAt(a3, b3, c3, x, y, m2);
    var a2, b2, c2 := 2 * a3 + BitAt(x, m2), 2 * b3 + BitAt(y, m2), 2 * c3 + BitAt(x ^ y, m2);
    IsXorBitAt(a2, b2, c2, x, y, m1);
    var a1, b1, c1 := 2 * a2 + BitAt(x, m1), 2 * b2 + BitAt(y, m1), 2 * c2 + BitAt(x ^ y, m1);
    IsXorBitAt(a1, b1, c1, x, y, m0);
  }

  /** Appending a byte to each number appends the bytes' exclusive or. */
  lemma XorPush(a: nat, b: nat, c: nat, x: bv8, y: bv8)
    requires IsXor(a, b, c)
    ensures IsXor(Push(a, x), Push(b, y), Push(c, x ^ y))
  {
    IsXorNibble(a, b, c, x, y, 0x80, 0x40, 0x20, 0x10);
    var a', b', c' := Nibble(a, x, 0x80, 0x40, 0x20, 0x10), Nibble(b, y, 0x80, 0x40, 0x20, 0x10),
                      Nibble(c, x ^ y, 0x80, 0x40, 0x20, 0x10);
    IsXorNibble(a', b', c', x, y, 8, 4, 2, 1);
    PushByBits(a, x);
    PushByBits(b, y);
    PushByBits(c, x ^ y);
  }

  /** A byte's number, bit by bit. */
  lemma ByteIsItsBits(x: bv8)
    ensures Nibble(Nibble(0, x, 0x80, 0x40, 0x20, 0x10), x, 8, 4, 2, 1) == x as nat
  {
  }

  lemma PushByBits(a: nat, x: bv8)
    ensures Push(a, x) == Nibble(Nibble(a, x, 0x80, 0x40, 0x20, 0x10), x, 8, 4, 2, 1)
  {
    ByteIsItsBits(x);
  }

  /** A 64-bit word by its bytes, the highest first. */
  datatype Bytes = Bytes(b7: bv8, b6: bv8, b5: bv8, b4: bv8, b3: bv8, b2: bv8, b1: bv8, b0: bv8)

  function Push(a: nat, x: bv8): nat { 0x100 * a + x as nat }

  function PushFour(a: nat, x3: bv8, x2: bv8, x1: bv8, x0: bv8): nat { Push(Push(Push(Push(a, x3), x2), x1), x0) }

  function NumberOn(a: nat, w: Bytes): nat {
    PushFour(PushFour(a, w.b7, w.b6, w.b5, w.b4), w.b3, w.b2, w.b1, w.b0)
  }

  function Number(w: Bytes): nat { NumberOn(0, w) }

  function XorEach(v: Bytes, w: Bytes): Bytes {
    Bytes(v.b7 ^ w.b7, v.b6 ^ w.b6, v.b5 ^ w.b5, v.b4 ^ w.b4, v.b3 ^ w.b3, v.b2 ^ w.b2, v.b1 ^ w.b1, v.b0 ^ w.b0)
  }

  lemma XorPushFour(a: nat, b: nat, c: nat, x3: bv8, x2: bv8, x1: bv8, x0: bv8, y3: bv8, y2: bv8, y1: bv8, y0: bv8)
    requires IsXor(a, b, c)
    ensures IsXor(PushFour(a, x3, x2, x1, x0), PushFour(b, y3, y2, y1, y0),
                  PushFour(c, x3 ^ y3, x2 ^ y2, x1 ^ y1, x0 ^ y0))
  {
    XorPush(a, b, c, x3, y3);
    XorPush(Push(a, x3), Push(b, y3), Push(c, x3 ^ y3), x2, y2);
    XorPush(Push(Push(a, x3), x2), Push(Push(b, y3), y2), Push(Push(c, x3 ^ y3), x2 ^ y2), x1, y1);
    XorPush(Push(Push(Push(a, x3), x2), x1), Push(Push(Push(b, y3), y2), y1),
            Push(Push(Push(c, x3 ^ y3), x2 ^ y2), x1 ^ y1), x0, y0);
  }

  /** Exclusive or, byte by byte. */
  lemma XorBytes(v: Bytes, w: Bytes)
    ensures Xor(Number(v), Number(w)) == Number(XorEach(v, w))
  {
    NumbersXored(v, w);
    XorIsExact(Number(v), Number(w), Number(XorEach(v, w)));
  }

  lemma NumbersXored(v: Bytes, w: Bytes)
    ensures IsXor(Number(v), Number(w), Number(XorEach(v, w)))
  {
    NothingXored();
    XorHigh(0, 0, 0, v, w);
  }

  lemma XorHigh(a: nat, b: nat, c: nat, v: Bytes, w: Bytes)
    requires IsXor(a, b, c)
    ensures IsXor(NumberOn(a, v), NumberOn(b, w), NumberOn(c, XorEach(v, w)))
  {
    XorPushFour(a, b, c, v.b7, v.b6, v.b5, v.b4, w.b7, w.b6, w.b5, w.b4);
    var a' := PushFour(a, v.b7, v.b6, v.b5, v.b4);
    var b' := PushFour(b, w.b7, w.b6, w.b5, w.b4);
    var c' := PushFour(c, v.b7 ^ w.b7, v.b6 ^ w.b6, v.b5 ^ w.b5, v.b4 ^ w.b4);
    XorPushFour(a', b', c', v.b3, v.b2, v.b1, v.b0, w.b3, w.b2, w.b1, w.b0);
  }

  /** The output function on bytes, given the shifted words and the products. */
  lemma MixBytes(z: Bytes, s: Bytes, z1: Bytes, s1: Bytes, z2: Bytes, s2: Bytes) returns (v: Bytes)
    requires Number(z) < WORD && Number(s) == Number(z) / 0x4000_0000
    requires Number(z1) == Number(XorEach(z, s)) * MIX1 % WORD && Number(s1) == Number(z1) / 0x800_0000
    requires Number(z2) == Number(XorEach(z1, s1)) * MIX2 % WORD && Number(s2) == Number(z2) / 0x8000_0000
    ensures v == XorEach(z2, s2) && Mix(Number(z)) == Number(v)
  {
    v := XorEach(z2, s2);
    XorBytes(z, s);
    XorBytes(z1, s1);
    XorBytes(z2, s2);
    MixFrom(Number(z), Number(XorEach(z, s)), Number(z1), Number(XorEach(z1, s1)), Number(z2), Number(v));
  }

  lemma MixFrom(z: U64, a: nat, z1: nat, b: nat, z2: nat, v: nat)
    requires a == Xor(z, z / 0x4000_0000) && z1 == a * MIX1 % WORD
    requires b == Xor(z1, z1 / 0x800_0000) && z2 == b * MIX2 % WORD && v == Xor(z2, z2 / 0x8000_0000)
    ensures Mix(z) == v
  {
    MixWrittenOut(z);
  }

  lemma DrawIs(s: U64, k: nat, z: U64, q: int, v: nat)
    requires k >= 1 && s + k * GAMMA == z + q * WORD && Mix(z) == v
    ensures Draw(s, k) == v
  {
    StateAfterIs(s, k);
    ModUnique(z, q);
  }

  lemma FirstWord() returns (z: Bytes, v: Bytes)
    ensures Number(z) == 0x9E37_79B9_7F4A_7C15 && Number(v) == 0xE220_A839_7B1D_CDAF && Mix(Number(z)) == Number(v)
  {
    z := Bytes(0x9E, 0x37, 0x79, 0xB9, 0x7F, 0x4A, 0x7C, 0x15);
    v := MixBytes(z, Bytes(0x00, 0x00, 0x00, 0x02, 0x78, 0xDD, 0xE6, 0xE5), Bytes(0x6F, 0x68, 0x26, 0x1B, 0x57, 0xE7, 0xA7, 0x70), Bytes(0x00, 0x00, 0x00, 0x0D, 0xED, 0x04, 0xC3, 0x6A), Bytes(0xE2, 0x20, 0xA8, 0x38, 0xBF, 0x5C, 0x9D, 0xDE), Bytes(0x00, 0x00, 0x00, 0x01, 0xC4, 0x41, 0x50, 0x71));
  }

  lemma FirstOutput(s: U64)
    requires s == 0
    ensures Draw(s, 1) == 0xE220_A839_7B1D_CDAF
  {
    var z, v := FirstWord();
    DrawIs(s, 1, Number(z), 0, Number(v));
  }

  lemma SecondWord() returns (z: Bytes, v: Bytes)
    ensures Number(z) == 0x3C6E_F372_FE94_F82A && Number(v) == 0x6E78_9E6A_A1B9_65F4 && Mix(Number(z)) == Number(v)
  {
    z := Bytes(0x3C, 0x6E, 0xF3, 0x72, 0xFE, 0x94, 0xF8, 0x2A);
    v := MixBytes(z, Bytes(0x00, 0x00, 0x00, 0x00, 0xF1, 0xBB, 0xCD, 0xCB), Bytes(0x2A, 0x94, 0xFC, 0xBF, 0xCC, 0xB4, 0x34, 0x99), Bytes(0x00, 0x00, 0x00, 0x05, 0x52, 0x9F, 0x97, 0xF9), Bytes(0x6E, 0x78, 0x9E, 0x6A, 0x7D, 0x48, 0x59, 0x20), Bytes(0x00, 0x00, 0x00, 0x00, 0xDC, 0xF1, 0x3C, 0xD4));
  }

  lemma SecondOutput(s: U64)
    requires s == 0
    ensures Draw(s, 2) == 0x6E78_9E6A_A1B9_65F4
  {
    var z, v := SecondWord();
    DrawIs(s, 2, Number(z), 1, Number(v));
  }

  lemma ThirdWord() returns (z: Bytes, v: Bytes)
    ensures Number(z) == 0xDAA6_6D2C_7DDF_743F && Number(v) == 0x06C4_5D18_8009_454F && Mix(Number(z)) == Number(v)
  {
    z := Bytes(0xDA, 0xA6, 0x6D, 0x2C, 0x7D, 0xDF, 0x74, 0x3F);
    v := MixBytes(z, Bytes(0x00, 0x00, 0x00, 0x03, 0x6A, 0x99, 0xB4, 0xB1), Bytes(0xF1, 0xC3, 0xDD, 0x63, 0x22, 0xD8, 0x2C, 0x9E), Bytes(0x00, 0x00, 0x00, 0x1E, 0x38, 0x7B, 0xAC, 0x64), Bytes(0x06, 0xC4, 0x5D, 0x18, 0x8D, 0x81, 0xFF, 0x7E), Bytes(0x00, 0x00, 0x00, 0x00, 0x0D, 0x88, 0xBA, 0x31));
  }

  lemma ThirdOutput(s: U64)
    requires s == 0
    ensures Draw(s, 3) == 0x06C4_5D18_8009_454F
  {
    var z, v := ThirdWord();
    DrawIs(s, 3, Number(z), 1, Number(v));
  }

  /** The generator's published outputs from state 0. */
  lemma PublishedOutputs(s: U64)
    requires s == 0
    ensures Draw(s, 1) == 0xE220_A839_7B1D_CDAF
    ensures Draw(s, 2) == 0x6E78_9E6A_A1B9_65F4
    ensures Draw(s, 3) == 0x06C4_5D18_8009_454F
  {
    FirstOutput(s);
    SecondOutput(s);
    ThirdOutput(s);
  }

  class Rng {
    var state: U64

    constructor (seed: U64)
      ensures state == seed
    {
      state := seed;
    }

    method NextU64() returns (z: U64)
      modifies this
      ensures state == StateAfter(old(state), 1) && z == Draw(old(state), 1)
      ensures state == (old(state) + 0x9E37_79B9_7F4A_7C15) % 0x1_0000_0000_0000_0000
      ensures var z1 := Xor(state, state / 0x4000_0000) * 0xBF58_476D_1CE4_E5B9 % 0x1_0000_0000_0000_0000;
              var z2 := Xor(z1, z1 / 0x800_0000) * 0x94D0_49BB_1331_11EB % 0x1_0000_0000_0000_0000;
              z == Xor(z2, z2 / 0x8000_0000)
    {
      AdvanceIsSum(state);
      MixWrittenOut(Advance(state));
      state := if state + GAMMA < WORD then state + GAMMA else state + GAMMA - WORD;
      z := state;
      z := MulWrap(XorShift(z, 30), MIX1);
      z := MulWrap(XorShift(z, 27), MIX2);
      z := XorShift(z, 31);
    }

    method Below(bound: U64) returns (i: U64)
      modifies this
      ensures bound == 0 ==> i == 0 && state == old(state)
      ensures bound > 0 ==> i == Index(Draw(old(state), 1), bound) && i < bound && state == StateAfter(old(state), 1)
    {
      if bound == 0 {
        i := 0;
      } else {
        var z := NextU64();
        IndexIsRemainder(z, bound);
        i := z % bound;
      }
    }
  }

  /** The distinct indices among the first `k` draws. */
  function Touched(s: U64, bound: U64, k: nat): set<int> {
    if k == 0 then {} else Touched(s, bound, k - 1) + {Index(Draw(s, k), bound)}
  }

  lemma SmallIndex(v: U64, bound: U64)
    requires v < bound
    ensures Index(v, bound) == v
  {
  }

  /** Every index below the bound is picked within 2^64 draws, whatever the state. */
  lemma EveryIndexIsHit(s: U64, bound: U64, goal: U64) returns (k: nat)
    requires goal < bound
    ensures 1 <= k <= WORD && Index(Draw(s, k), bound) == goal
  {
    k := EveryWordIsDrawn(s, goal);
    SmallIndex(goal, bound);
  }

  lemma {:induction false} StateAfterSum(s: U64, j: nat, k: nat)
    ensures StateAfter(s, j + k) == StateAfter(StateAfter(s, j), k)
    decreases k
  {
    if k > 0 {
      StateAfterSum(s, j, k - 1);
    }
  }

  lemma {:induction false} FullRange(t: set<int>, n: nat)
    requires forall i :: 0 <= i < n ==> i in t
    ensures |t| >= n
  {
    if n > 0 {
      FullRange(t - {n - 1}, n - 1);
    }
  }

  lemma {:induction false} TouchedInRange(s: U64, bound: U64, k: nat)
    requires bound > 0
    ensures forall i :: i in Touched(s, bound, k) ==> 0 <= i < bound
    decreases k
  {
    if k > 0 {
      TouchedInRange(s, bound, k - 1);
    }
  }

  lemma {:induction false} TouchedGrows(s: U64, bound: U64, j: nat, k: nat)
    requires j <= k
    ensures Touched(s, bound, j) <= Touched(s, bound, k)
    decreases k
  {
    if j < k {
      TouchedGrows(s, bound, j, k - 1);
    }
  }

  /** One cycle of draws touches every index there is. */
  lemma CycleTouchesAll(s: U64, bound: U64, cycle: nat)
    requires cycle == WORD
    ensures |Touched(s, bound, cycle)| >= bound
  {
    forall i | 0 <= i < bound ensures i in Touched(s, bound, cycle) {
      var k := EveryIndexIsHit(s, bound, i);
      assert i in Touched(s, bound, k);
      TouchedGrows(s, bound, k, cycle);
    }
    FullRange(Touched(s, bound, cycle), bound);
  }

  /** One turn of the sampling loop, `k` draws after state `s`. */
  method TouchOne(rng: Rng, len: U64, touched: set<int>, ghost s: U64, ghost k: nat) returns (more: set<int>)
    requires len > 0 && rng.state == StateAfter(s, k) && touched == Touched(s, len, k)
    modifies rng
    ensures rng.state == StateAfter(s, k + 1) && more == Touched(s, len, k + 1)
    ensures |more| <= |touched| + 1
  {
    StateAfterSum(s, k, 1);
    var i := rng.Below(len);
    more := touched + {i};
  }

  /** Every run of fewer than `k` draws touches fewer than `n` indices. */
  predicate TooFew(s: U64, bound: U64, k: nat, n: nat) {
    k == 0 || (TooFew(s, bound, k - 1, n) && |Touched(s, bound, k - 1)| < n)
  }

  lemma {:induction false} TooFewBefore(s: U64, bound: U64, k: nat, n: nat)
    requires TooFew(s, bound, k, n)
    ensures forall j :: 0 <= j < k ==> |Touched(s, bound, j)| < n
    decreases k
  {
    if k > 0 {
      TooFewBefore(s, bound, k - 1, n);
    }
  }

  /** The loop of `incrementalize` and `incrementalize_go`: draw until `n` distinct indices below
      `len` are touched. It ends within one cycle, with exactly the indices of the shortest
      sufficient run of draws. */
  method Sample(rng: Rng, len: U64, n: nat) returns (touched: set<int>, ghost draws: nat)
    requires n <= len
    modifies rng
    ensures |touched| == n && (forall i :: i in touched ==> 0 <= i < len)
    ensures draws <= WORD && rng.state == StateAfter(old(rng.state), draws)
    ensures touched == Touched(old(rng.state), len, draws)
    ensures forall j :: 0 <= j < draws ==> |Touched(old(rng.state), len, j)| < n
  {
    ghost var s0 := rng.state;
    ghost var cycle: nat :| cycle == WORD;
    CycleTouchesAll(s0, len, cycle);
    touched, draws := {}, 0;
    while |touched| < n
      invariant |touched| <= n && draws <= cycle
      invariant rng.state == StateAfter(s0, draws)
      invariant touched == Touched(s0, len, draws)
      invariant TooFew(s0, len, draws, n)
      decreases cycle - draws
    {
      assert draws < cycle;
      touched := TouchOne(rng, len, touched, s0, draws);
      draws := draws + 1;
    }
    TooFewBefore(s0, len, draws, n);
    if len > 0 {
      TouchedInRange(s0, len, draws);
    }
  }

  // ---------------------------------------------------------------- how even the indices are

  /** How often index `i` is picked in the first `k` draws. */
  function Picks(s: U64, bound: U64, i: int, k: nat): nat {
    if k == 0 then 0 else Picks(s, bound, i, k - 1) + if Index(Draw(s, k), bound) == i then 1 else 0
  }

  /** The words behind those picks. */
  function PickedWords(s: U64, bound: U64, i: int, k: nat): set<int> {
    if k == 0 then {}
    else PickedWords(s, bound, i, k - 1) + if Index(Draw(s, k), bound) == i then {Draw(s, k)} else {}
  }

  /** The words below `m` that pick index `i`. */
  function WordsFor(bound: U64, i: int, m: nat): set<int>
    requires m <= WORD
  {
    if m == 0 then {} else WordsFor(bound, i, m - 1) + if Index(m - 1, bound) == i then {m - 1} else {}
  }

  lemma {:induction false} PickedWordsAre(s: U64, bound: U64, i: int, k: nat, v: int)
    ensures v in PickedWords(s, bound, i, k)
       <==> 0 <= v < WORD && Index(v, bound) == i && exists j: nat :: 1 <= j <= k && Draw(s, j) == v
    decreases k
  {
    if k > 0 {
      PickedWordsAre(s, bound, i, k - 1, v);
      assert Draw(s, k) == v ==> exists j: nat :: 1 <= j <= k && Draw(s, j) == v;
    }
  }

  lemma NextWordIsNew(s: U64, bound: U64, i: int, k: nat)
    requires 1 <= k <= WORD
    ensures Draw(s, k) !in PickedWords(s, bound, i, k - 1)
  {
    var v := Draw(s, k);
    PickedWordsAre(s, bound, i, k - 1, v);
    if v in PickedWords(s, bound, i, k - 1) {
      var j: nat :| 1 <= j <= k - 1 && Draw(s, j) == v;
      NoWordIsDrawnTwice(s, j, k);
    }
  }

  /** No word is drawn twice in a cycle, so picks and picked words are as many. */
  lemma {:induction false} PicksAreWords(s: U64, bound: U64, i: int, k: nat)
    requires k <= WORD
    ensures |PickedWords(s, bound, i, k)| == Picks(s, bound, i, k)
    decreases k
  {
    if k > 0 {
      PicksAreWords(s, bound, i, k - 1);
      NextWordIsNew(s, bound, i, k);
    }
  }

  lemma {:induction false} WordsForAre(bound: U64, i: int, m: nat, v: int)
    requires m <= WORD
    ensures v in WordsFor(bound, i, m) <==> 0 <= v < m && Index(v, bound) == i
    decreases m
  {
    if m > 0 {
      WordsForAre(bound, i, m - 1, v);
    }
  }

  /** Every word is drawn in a cycle, so the picked words are all that pick the index. */
  lemma CyclePicksAllWords(s: U64, bound: U64, i: int, cycle: nat)
    requires cycle == WORD
    ensures PickedWords(s, bound, i, cycle) == WordsFor(bound, i, cycle)
  {
    forall v ensures v in PickedWords(s, bound, i, cycle) <==> v in WordsFor(bound, i, cycle) {
      PickedWordsAre(s, bound, i, cycle, v);
      WordsForAre(bound, i, cycle, v);
      if 0 <= v < WORD {
        var j := EveryWordIsDrawn(s, v);
      }
    }
  }

  datatype Division = Division(quotient: nat, remainder: nat)

  /** Division by counting up: the remainder grows, or wraps into the quotient. */
  function Divide(m: nat, b: nat): (d: Division)
    requires b > 0
    ensures d.remainder < b
    decreases m
  {
    if m == 0 then Division(0, 0)
    else
      var d := Divide(m - 1, b);
      if d.remainder + 1 == b then Division(d.quotient + 1, 0) else Division(d.quotient, d.remainder + 1)
  }

  lemma NextMultiple(q: nat, b: nat)
    ensures (q + 1) * b == q * b + b
  {
  }

  lemma {:induction false} DivideIsExact(m: nat, b: nat)
    requires b > 0
    ensures m == Divide(m, b).quotient * b + Divide(m, b).remainder
    decreases m
  {
    if m > 0 {
      DivideIsExact(m - 1, b);
      NextMultiple(Divide(m - 1, b).quotient, b);
    }
  }

  lemma IndexIsRest(v: U64, bound: U64)
    requires bound > 0
    ensures Index(v, bound) == Divide(v, bound).remainder
  {
    var d := Divide(v, bound);
    DivideIsExact(v, bound);
    IndexIsRemainder(v, bound);
    RemainderUnique(v, bound, d.quotient, d.remainder);
  }

  lemma WordsForStep(bound: U64, i: int, m: nat)
    requires 1 <= m <= WORD
    ensures |WordsFor(bound, i, m)| == |WordsFor(bound, i, m - 1)| + if Index(m - 1, bound) == i then 1 else 0
  {
    WordsForAre(bound, i, m - 1, m - 1);
  }

  /** Below `m` there are a quotient's worth of words for each index, and one more for the first few. */
  lemma {:induction false} WordsForCount(bound: U64, i: int, m: nat)
    requires 0 <= i < bound && m <= WORD
    ensures |WordsFor(bound, i, m)| == Divide(m, bound).quotient + if i < Divide(m, bound).remainder then 1 else 0
    decreases m
  {
    if m > 0 {
      WordsForCount(bound, i, m - 1);
      WordsForStep(bound, i, m);
      IndexIsRest(m - 1, bound);
    }
  }

  lemma DivideIsDivision(m: nat, b: nat)
    requires b > 0
    ensures Divide(m, b) == Division(m / b, m % b)
  {
    var d := Divide(m, b);
    DivideIsExact(m, b);
    RemainderUnique(m, b, d.quotient, d.remainder);
    QuotientUnique(m / b, d.quotient, b);
  }

  lemma {:induction false} MulGrows(x: nat, y: nat, b: nat)
    requires x < y && b > 0
    ensures x * b < y * b
    decreases y
  {
    NextMultiple(y - 1, b);
    if x < y - 1 {
      MulGrows(x, y - 1, b);
    }
  }

  lemma QuotientUnique(x: nat, y: nat, b: nat)
    requires b > 0
    ensures x * b == y * b ==> x == y
  {
    if x < y {
      MulGrows(x, y, b);
    } else if y < x {
      MulGrows(y, x, b);
    }
  }

  /** Over one cycle, from any state, index `i` is picked 2^64 / `bound` times, and once more when it
      is below the remainder. */
  lemma CyclePicks(s: U64, bound: U64, i: int, cycle: nat)
    requires 0 <= i < bound && cycle == WORD
    ensures Picks(s, bound, i, cycle) == cycle / bound + if i < cycle % bound then 1 else 0
  {
    PicksAreWords(s, bound, i, cycle);
    CyclePicksAllWords(s, bound, i, cycle);
    WordsForCount(bound, i, cycle);
    DivideIsDivision(cycle, bound);
  }

  /** `below` is documented as uniform. It is, over a cycle, exactly when the bound divides 2^64. */
  lemma UniformIffDivides(s: U64, bound: U64, cycle: nat)
    requires bound > 0 && cycle == WORD
    ensures (forall i, j :: 0 <= i < bound && 0 <= j < bound ==> Picks(s, bound, i, cycle) == Picks(s, bound, j, cycle))
       <==> cycle % bound == 0
  {
    forall i | 0 <= i < bound
      ensures Picks(s, bound, i, cycle) == cycle / bound + if i < cycle % bound then 1 else 0
    {
      CyclePicks(s, bound, i, cycle);
    }
    CyclePicks(s, bound, 0, cycle);
    CyclePicks(s, bound, bound - 1, cycle);
  }

  /** So three packages are not sampled evenly: the first has one pick more. */
  lemma ThreeIsUneven(s: U64, cycle: nat)
    requires cycle == WORD
    ensures Picks(s, 3, 0, cycle) == Picks(s, 3, 2, cycle) + 1
  {
    CyclePicks(s, 3, 0, cycle);
    CyclePicks(s, 3, 2, cycle);
  }
}
