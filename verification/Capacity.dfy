/** Pool amounts as a person writes them: `crates/core/src/capacity.rs`, with the memory sizes of
    `crates/core/src/units.rs`. */
module Capacity {
  import opened Common

  const U64_MAX: nat := 0xFFFF_FFFF_FFFF_FFFF
  const MICROS_PER_CPU: nat := 1_000_000

  datatype Error = NotANumber | TooLarge | BelowStep | UnknownUnit | NoDefault | EmptyShare | ZeroRefused | FixedUnit

  // ---------------------------------------------------------------- decimal text

  predicate IsDigit(c: char) { '0' <= c <= '9' }

  predicate AllDigits(s: string) { forall i :: 0 <= i < |s| ==> IsDigit(s[i]) }

  function Digit(c: char): (d: nat)
    requires IsDigit(c)
    ensures d < 10
  {
    c as int - '0' as int
  }

  function Value(s: string): nat
    requires AllDigits(s)
  {
    if s == "" then 0 else 10 * Value(s[..|s| - 1]) + Digit(s[|s| - 1])
  }

  function Pow10(n: nat): (p: nat)
    ensures p > 0
  {
    if n == 0 then 1 else 10 * Pow10(n - 1)
  }

  lemma {:induction false} Pow10Sum(m: nat, n: nat)
    ensures Pow10(m + n) == Pow10(m) * Pow10(n)
  {
    if m > 0 {
      Pow10Sum(m - 1, n);
      assert Pow10(m + n) == 10 * Pow10(m - 1 + n);
    }
  }

  lemma ValueSnoc(s: string, c: char)
    requires AllDigits(s) && IsDigit(c)
    ensures AllDigits(s + [c]) && Value(s + [c]) == 10 * Value(s) + Digit(c)
  {
    assert (s + [c])[..|s|] == s;
  }

  lemma ShiftProduct(v: nat, p: nat)
    ensures v * (10 * p) == 10 * (v * p)
  {
  }

  lemma {:induction false} ValueConcat(s: string, t: string)
    requires AllDigits(s) && AllDigits(t)
    ensures AllDigits(s + t) && Value(s + t) == Value(s) * Pow10(|t|) + Value(t)
    decreases |t|
  {
    if t == "" {
      assert s + t == s;
    } else {
      var t', c := t[..|t| - 1], t[|t| - 1];
      ValueConcat(s, t');
      ValueSnoc(s + t', c);
      assert s + t == s + t' + [c] && t == t' + [c];
      ShiftProduct(Value(s), Pow10(|t'|));
    }
  }

  lemma {:induction false} ValueBound(s: string)
    requires AllDigits(s)
    ensures Value(s) < Pow10(|s|)
  {
    if s != "" {
      ValueBound(s[..|s| - 1]);
    }
  }

  // ---------------------------------------------------------------- parsing

  /** A whole number that fits a `u64`, written in ASCII digits only. */
  function Whole(s: string): Option<nat> {
    if s != "" && AllDigits(s) && Value(s) <= U64_MAX then Some(Value(s)) else None
  }

  /** The position of the first `.`, or the length of the text. */
  function FirstDot(s: string): (d: nat)
    ensures d <= |s|
    ensures forall i :: 0 <= i < d ==> s[i] != '.'
    ensures d < |s| ==> s[d] == '.'
  {
    if s == "" || s[0] == '.' then 0 else 1 + FirstDot(s[1..])
  }

  /** `v / p` in millionths, to the nearest, halves up. */
  function NearestMicros(v: nat, p: nat): nat
    requires p > 0
  {
    (2 * MICROS_PER_CPU * v + p) / (2 * p)
  }

  /** The fraction `f / 10^|f|` in millionths. */
  function RoundMicros(f: string): nat
    requires AllDigits(f)
  {
    NearestMicros(Value(f), Pow10(|f|))
  }

  /** What a CPU amount means, in micro-CPUs. */
  function CpuMicros(s: string): Result<nat, Error> {
    var d := FirstDot(s);
    var whole := Whole(s[..d]);
    if whole.None? then Err(NotANumber)
    else if whole.value * MICROS_PER_CPU > U64_MAX then Err(TooLarge)
    else if d == |s| then Ok(whole.value * MICROS_PER_CPU)
    else
      var f := s[d + 1..];
      if f == "" || !AllDigits(f) then Err(NotANumber)
      else
        var n := whole.value * MICROS_PER_CPU + RoundMicros(f);
        if n > U64_MAX then Err(TooLarge)
        else if n == 0 && Value(f) != 0 then Err(BelowStep)
        else Ok(n)
  }

  // ---------------------------------------------------------------- the digit loop rounds exactly

  /** The number the first `k` digits of a fraction denote, missing digits read as zero. */
  function Leading(f: string, k: nat): nat
    requires AllDigits(f)
  {
    if k <= |f| then Value(f[..k]) else Value(f) * Pow10(k - |f|)
  }

  lemma LeadingNext(f: string, k: nat)
    requires AllDigits(f)
    ensures Leading(f, k + 1) == 10 * Leading(f, k) + if k < |f| then Digit(f[k]) else 0
  {
    if k < |f| {
      assert f[..k + 1][..k] == f[..k];
    } else {
      assert f[..|f|] == f;
      assert Pow10(k + 1 - |f|) == 10 * Pow10(k - |f|);
    }
  }

  lemma DivExact(x: nat, m: nat, r: nat)
    requires r < m
    ensures (x * m + r) / m == x
  {
    var q := (x * m + r) / m;
    assert (x * m + r) == q * m + (x * m + r) % m;
    var e := q - x;
    assert e * m == r - (x * m + r) % m;
    assert (e >= 1 ==> e * m >= m) && (e <= -1 ==> e * m <= 0 - m);
  }

  /** With at most six digits nothing is rounded. */
  lemma RoundShort(f: string)
    requires AllDigits(f) && |f| <= 6
    ensures RoundMicros(f) == Value(f) * Pow10(6 - |f|)
  {
    Pow10Sum(|f|, 6 - |f|);
    SixIsMicros();
    RoundShortCore(Value(f), Pow10(|f|), Pow10(6 - |f|));
  }

  lemma SixIsMicros()
    ensures Pow10(6) == MICROS_PER_CPU
  {
    assert Pow10(2) == 100 && Pow10(4) == 10000;
  }

  lemma RoundShortCore(v: nat, p: nat, m: nat)
    requires p > 0 && p * m == MICROS_PER_CPU
    ensures NearestMicros(v, p) == v * m
  {
    assert 2 * (p * m) * v + p == (v * m) * (2 * p) + p;
    DivExact(v * m, 2 * p, p);
  }

  /** The remainder after six digits reaches a half exactly when the seventh digit is 5 or more. */
  lemma HalfIsSeventhDigit(t: string)
    requires AllDigits(t) && t != ""
    ensures 2 * Value(t) >= Pow10(|t|) <==> Digit(t[0]) >= 5
  {
    ValueFront(t);
    ValueBound(t[1..]);
    HalfCore(Digit(t[0]), Pow10(|t| - 1), Value(t[1..]));
  }

  lemma ValueFront(t: string)
    requires AllDigits(t) && t != ""
    ensures Value(t) == Digit(t[0]) * Pow10(|t| - 1) + Value(t[1..])
  {
    var head := t[..1];
    assert t == head + t[1..];
    ValueConcat(head, t[1..]);
    assert head[..0] == "" && Value("") == 0;
    assert Value(head) == Digit(t[0]);
  }

  lemma HalfCore(d: nat, q: nat, r: nat)
    requires r < q
    ensures 2 * (d * q + r) >= 10 * q <==> d >= 5
  {
    if d >= 5 {
      assert (d - 5) * q >= 0;
      assert (d - 5) * q == d * q - 5 * q;
    } else {
      assert (4 - d) * q >= 0;
      assert (4 - d) * q == 4 * q - d * q;
    }
  }

  lemma RoundLong(f: string)
    requires AllDigits(f) && |f| > 6
    ensures RoundMicros(f) == Value(f[..6]) + if Digit(f[6]) >= 5 then 1 else 0
  {
    var a, t := Value(f[..6]), f[6..];
    var r, p := Value(t), Pow10(|t|);
    assert f == f[..6] + t;
    ValueConcat(f[..6], t);
    Pow10Sum(6, |t|);
    SixIsMicros();
    ValueBound(t);
    HalfIsSeventhDigit(t);
    RoundLongCore(a, r, p);
  }

  lemma RoundLongCore(a: nat, r: nat, p: nat)
    requires r < p
    ensures NearestMicros(a * p + r, MICROS_PER_CPU * p) == a + if 2 * r >= p then 1 else 0
  {
    var m := 2 * (MICROS_PER_CPU * p);
    var top := MICROS_PER_CPU * (2 * r + p);
    assert 2 * MICROS_PER_CPU * (a * p + r) + MICROS_PER_CPU * p == a * m + top;
    if 2 * r >= p {
      assert a * m + top == (a + 1) * m + (top - m);
      DivExact(a + 1, m, top - m);
    } else {
      DivExact(a, m, top);
    }
  }

  lemma RoundIsLeading(f: string)
    requires AllDigits(f)
    ensures RoundMicros(f) == Leading(f, 6) + if |f| > 6 && Digit(f[6]) >= 5 then 1 else 0
  {
    if |f| > 6 {
      RoundLong(f);
    } else {
      RoundShort(f);
      assert f[..|f|] == f;
    }
  }

  /** The fraction's digit loop: six digits, missing ones zero, and a carry from the seventh. */
  method ParseFraction(f: string) returns (part: nat)
    requires AllDigits(f)
    ensures part == RoundMicros(f)
  {
    part := 0;
    for k := 0 to 6
      invariant part == Leading(f, k)
    {
      LeadingNext(f, k);
      part := part * 10 + if k < |f| then Digit(f[k]) else 0;
    }
    RoundIsLeading(f);
    if |f| > 6 && Digit(f[6]) >= 5 {
      part := part + 1;
    }
  }

  /** `parse_cpu`, with checked arithmetic throughout. */
  method ParseCpu(s: string) returns (r: Result<nat, Error>)
    ensures r == CpuMicros(s)
  {
    var d := FirstDot(s);
    var whole := Whole(s[..d]);
    if whole.None? {
      return Err(NotANumber);
    }
    var micros := whole.value * MICROS_PER_CPU;
    if micros > U64_MAX {
      return Err(TooLarge);
    }
    if d < |s| {
      var f := s[d + 1..];
      if f == "" || !AllDigits(f) {
        return Err(NotANumber);
      }
      var part := ParseFraction(f);
      micros := micros + part;
      if micros > U64_MAX {
        return Err(TooLarge);
      }
      NonzeroDigit(f);
      if micros == 0 && exists i :: 0 <= i < |f| && f[i] != '0' {
        return Err(BelowStep);
      }
    }
    return Ok(micros);
  }

  lemma {:induction false} NonzeroDigit(f: string)
    requires AllDigits(f)
    ensures Value(f) != 0 <==> exists i :: 0 <= i < |f| && f[i] != '0'
  {
    if f != "" {
      var f' := f[..|f| - 1];
      NonzeroDigit(f');
      if i :| 0 <= i < |f| && f[i] != '0' {
        assert i < |f'| ==> f'[i] != '0';
      }
      if Value(f) != 0 && Digit(f[|f| - 1]) == 0 {
        var i :| 0 <= i < |f'| && f'[i] != '0';
        assert f[i] != '0';
      }
    }
  }

  // ---------------------------------------------------------------- exactness over the rationals

  /** `<digits>` or `<digits>.<digits>`. */
  predicate IsDecimal(s: string) {
    var d := FirstDot(s);
    && d > 0 && AllDigits(s[..d])
    && (d == |s| || (d + 1 < |s| && AllDigits(s[d + 1..])))
  }

  function Fraction(s: string): string {
    var d := FirstDot(s);
    if d == |s| then "" else s[d + 1..]
  }

  /** The number a decimal text denotes. */
  function Denoted(s: string): real
    requires IsDecimal(s)
  {
    Value(s[..FirstDot(s)]) as real + Value(Fraction(s)) as real / Pow10(|Fraction(s)|) as real
  }

  /** The nearest whole number of micro-CPUs, halves up. */
  function Nearest(v: real): int {
    (v * 1000000.0 + 0.5).Floor
  }

  lemma RealQuotient(a: nat, b: nat)
    requires b > 0
    ensures (a / b) as real <= a as real / b as real < (a / b + 1) as real
  {
    var q := a / b;
    assert q * b <= a < (q + 1) * b;
    assert (q as real) * (b as real) == (q * b) as real;
    assert ((q + 1) as real) * (b as real) == ((q + 1) * b) as real;
    RealDivMono(q as real, a as real, (q + 1) as real, b as real);
  }

  lemma RealDivMono(lo: real, x: real, hi: real, b: real)
    requires b > 0.0 && lo * b <= x < hi * b
    ensures lo <= x / b < hi
  {
    var y := x / b;
    assert y * b == x;
    assert y < lo ==> (lo - y) * b > 0.0;
    assert y >= hi ==> (y - hi) * b >= 0.0;
  }

  lemma FloorIs(x: real, n: int)
    requires n as real <= x < (n + 1) as real
    ensures x.Floor == n
  {
  }

  lemma NearestIsRounded(s: string)
    requires IsDecimal(s)
    ensures Nearest(Denoted(s)) == Value(s[..FirstDot(s)]) * MICROS_PER_CPU + RoundMicros(Fraction(s))
  {
    NearestCore(Value(s[..FirstDot(s)]), Value(Fraction(s)), Pow10(|Fraction(s)|));
  }

  lemma NearestCore(w: nat, f: nat, p: nat)
    requires p > 0
    ensures Nearest(w as real + f as real / p as real)
         == w * MICROS_PER_CPU + NearestMicros(f, p)
  {
    var a, b := 2 * MICROS_PER_CPU * f + p, 2 * p;
    RealQuotient(a, b);
    ScaledSum(w as real, f as real, p as real);
    assert a as real == 2000000.0 * f as real + p as real;
    assert b as real == 2.0 * p as real;
    var x := (w as real + f as real / p as real) * 1000000.0 + 0.5;
    assert x == (w * MICROS_PER_CPU) as real + a as real / b as real;
    FloorIs(x, w * MICROS_PER_CPU + a / b);
  }

  lemma ScaledSum(w: real, f: real, p: real)
    requires p > 0.0
    ensures (w + f / p) * 1000000.0 + 0.5 == w * 1000000.0 + (2000000.0 * f + p) / (2.0 * p)
  {
    var y := f / p;
    var x := 2000000.0 * y + 1.0;
    assert x * p == 2000000.0 * (y * p) + p;
    assert y * p == f;
    RealCancel(x, p, 2000000.0 * f + p);
  }

  lemma RealCancel(x: real, p: real, z: real)
    requires p > 0.0 && z == x * p
    ensures z / (2.0 * p) == x / 2.0
  {
    var q := z / (2.0 * p);
    assert q * (2.0 * p) == z;
    assert (2.0 * q - x) * p == 0.0;
  }

  lemma DenotedZero(s: string)
    requires IsDecimal(s)
    ensures Denoted(s) == 0.0 <==> Value(s[..FirstDot(s)]) == 0 && Value(Fraction(s)) == 0
  {
    SumIsZero(Value(s[..FirstDot(s)]), Value(Fraction(s)), Pow10(|Fraction(s)|));
  }

  lemma SumIsZero(w: nat, f: nat, p: nat)
    requires p > 0
    ensures w as real + f as real / p as real == 0.0 <==> w == 0 && f == 0
  {
    PositiveQuotient(f as real, p as real);
  }

  lemma PositiveQuotient(f: real, p: real)
    requires f >= 0.0 && p > 0.0
    ensures f / p >= 0.0 && (f / p == 0.0 <==> f == 0.0)
  {
    assert (f / p) * p == f;
  }

  /** CPU parsing is exact: text is accepted exactly when it is a decimal whose nearest number of
      micro-CPUs fits and is not a zero made from something, and the result is that number. */
  lemma CpuExact(s: string)
    ensures CpuMicros(s).Ok?
       <==> IsDecimal(s) && Nearest(Denoted(s)) <= U64_MAX && (Nearest(Denoted(s)) == 0 ==> Denoted(s) == 0.0)
    ensures CpuMicros(s).Ok? ==> CpuMicros(s).value == Nearest(Denoted(s))
  {
    if IsDecimal(s) {
      NearestIsRounded(s);
      DenotedZero(s);
      if FirstDot(s) == |s| {
        RoundShort("");
      }
    }
  }

  /** Which refusal: a false zero is below the step, a whole part that is a `u64` but not in
      micro-CPUs or a decimal past the last one is too large, and anything else is not a number. */
  lemma CpuRefusals(s: string)
    requires CpuMicros(s).Err?
    ensures CpuMicros(s).error == BelowStep <==> IsDecimal(s) && Nearest(Denoted(s)) == 0
    ensures CpuMicros(s).error == TooLarge
       <==> && FirstDot(s) > 0 && AllDigits(s[..FirstDot(s)]) && Value(s[..FirstDot(s)]) <= U64_MAX
            && (Value(s[..FirstDot(s)]) * MICROS_PER_CPU > U64_MAX || (IsDecimal(s) && Nearest(Denoted(s)) > U64_MAX))
    ensures CpuMicros(s).error in {BelowStep, TooLarge, NotANumber}
  {
    if IsDecimal(s) {
      NearestIsRounded(s);
      DenotedZero(s);
      if FirstDot(s) == |s| {
        RoundShort("");
      }
    }
  }

  // ---------------------------------------------------------------- memory sizes

  function DigitPrefix(s: string): (d: nat)
    ensures d <= |s| && AllDigits(s[..d])
    ensures d < |s| ==> !IsDigit(s[d])
  {
    if s == "" || !IsDigit(s[0]) then 0 else 1 + DigitPrefix(s[1..])
  }

  function Lower(s: string): string {
    if s == "" then ""
    else [if 'A' <= s[0] <= 'Z' then (s[0] as int + 32) as char else s[0]] + Lower(s[1..])
  }

  function SizeFactor(u: string): Option<nat> {
    var l := Lower(u);
    if l == "" || l == "b" then Some(1)
    else if l == "k" || l == "kb" || l == "kib" then Some(0x400)
    else if l == "m" || l == "mb" || l == "mib" then Some(0x10_0000)
    else if l == "g" || l == "gb" || l == "gib" then Some(0x4000_0000)
    else if l == "t" || l == "tb" || l == "tib" then Some(0x100_0000_0000)
    else None
  }

  /** `parse_memory_size`: digits, then at once an optional binary unit. */
  function ParseMemorySize(s: string): Result<nat, Error> {
    var d := DigitPrefix(s);
    if d == 0 then Err(NotANumber)
    else if Value(s[..d]) > U64_MAX then Err(TooLarge)
    else
      var factor := SizeFactor(s[d..]);
      if factor.None? then Err(UnknownUnit)
      else if Value(s[..d]) * factor.value > U64_MAX then Err(TooLarge)
      else Ok(Value(s[..d]) * factor.value)
  }

  predicate SameLetter(c: char, lower: char)
    requires 'a' <= lower <= 'z'
  {
    c == lower || c as int + 32 == lower as int
  }

  /** The power of 1024 a unit stands for: nothing or `B` is bytes; `K`, `M`, `G` or `T`, in any case,
      may be followed by `B` or `iB`. */
  function SuffixPower(u: string): Option<nat> {
    if u == "" || (|u| == 1 && SameLetter(u[0], 'b')) then Some(0)
    else if !(|u| == 1 || (|u| == 2 && SameLetter(u[1], 'b')) || (|u| == 3 && SameLetter(u[1], 'i') && SameLetter(u[2], 'b')))
    then None
    else if SameLetter(u[0], 'k') then Some(1)
    else if SameLetter(u[0], 'm') then Some(2)
    else if SameLetter(u[0], 'g') then Some(3)
    else if SameLetter(u[0], 't') then Some(4)
    else None
  }

  function Pow1024(n: nat): nat { if n == 0 then 1 else 1024 * Pow1024(n - 1) }

  lemma {:induction false} LowerAt(u: string)
    ensures |Lower(u)| == |u|
    ensures forall i, l: char :: 0 <= i < |u| && 'a' <= l <= 'z' ==> (Lower(u)[i] == l <==> SameLetter(u[i], l))
  {
    if u != "" {
      LowerAt(u[1..]);
    }
  }

  /** The table of units is that rule. */
  lemma SizeFactorIs(u: string)
    ensures SizeFactor(u) == if SuffixPower(u).None? then None else Some(Pow1024(SuffixPower(u).value))
  {
    LowerAt(u);
    var l := Lower(u);
    assert Pow1024(1) == 0x400 && Pow1024(2) == 0x10_0000;
    assert Pow1024(3) == 1024 * Pow1024(2) && Pow1024(4) == 1024 * Pow1024(3);
  }

  // ---------------------------------------------------------------- units

  datatype Unit = Count | Cpu | Bytes

  function OfBuiltin(pool: string): Option<Unit> {
    if pool == "cpu" then Some(Cpu) else if pool == "memory" then Some(Bytes) else None
  }

  function DefaultFor(pool: string): Unit {
    if OfBuiltin(pool).Some? then OfBuiltin(pool).value else Count
  }

  function Parse(u: Unit, s: string): Result<nat, Error> {
    match u
    case Count => if Whole(s).Some? then Ok(Whole(s).value) else Err(NotANumber)
    case Cpu => CpuMicros(s)
    case Bytes => ParseMemorySize(s)
  }

  function DigitChar(d: nat): (c: char)
    requires d < 10
    ensures IsDigit(c) && Digit(c) == d
  {
    ('0' as int + d) as char
  }

  /** `u64::to_string`. */
  function ToDecimal(n: nat): (s: string)
    ensures s != "" && AllDigits(s)
  {
    if n < 10 then [DigitChar(n)] else ToDecimal(n / 10) + [DigitChar(n % 10)]
  }

  /** Zero-padded to exactly `width` digits. */
  function Padded(n: nat, width: nat): (s: string)
    ensures |s| == width && AllDigits(s)
  {
    if width == 0 then "" else Padded(n / 10, width - 1) + [DigitChar(n % 10)]
  }

  function TrimZeros(s: string): string {
    if s != "" && s[|s| - 1] == '0' then TrimZeros(s[..|s| - 1]) else s
  }

  /** An amount written back in its unit. */
  function Canonical(u: Unit, amount: nat): string {
    match u
    case Cpu =>
      var whole, frac := amount / MICROS_PER_CPU, amount % MICROS_PER_CPU;
      if frac == 0 then ToDecimal(whole) else ToDecimal(whole) + "." + TrimZeros(Padded(frac, 6))
    case _ => ToDecimal(amount)
  }

  lemma {:induction false} ToDecimalValue(n: nat)
    ensures Value(ToDecimal(n)) == n
  {
    if n < 10 {
      assert ToDecimal(n)[..0] == "";
    } else {
      ToDecimalValue(n / 10);
      ValueSnoc(ToDecimal(n / 10), DigitChar(n % 10));
    }
  }

  lemma {:induction false} PaddedValue(n: nat, width: nat)
    requires n < Pow10(width)
    ensures Value(Padded(n, width)) == n
  {
    if width > 0 {
      assert Pow10(width) == 10 * Pow10(width - 1);
      PaddedValue(n / 10, width - 1);
      ValueSnoc(Padded(n / 10, width - 1), DigitChar(n % 10));
    }
  }

  /** Dropping trailing zeros divides by the power of ten dropped. */
  lemma {:induction false} TrimValue(s: string)
    requires AllDigits(s)
    ensures |TrimZeros(s)| <= |s| && AllDigits(TrimZeros(s))
    ensures Value(s) == Value(TrimZeros(s)) * Pow10(|s| - |TrimZeros(s)|)
  {
    if s != "" && s[|s| - 1] == '0' {
      var s' := s[..|s| - 1];
      TrimValue(s');
      var t := TrimZeros(s');
      assert Pow10(|s| - |t|) == 10 * Pow10(|s'| - |t|);
      ShiftProduct(Value(t), Pow10(|s'| - |t|));
    }
  }

  lemma {:induction false} DotAfterDigits(s: string, t: string)
    requires AllDigits(s)
    ensures FirstDot(s + "." + t) == |s|
    ensures FirstDot(s) == |s|
  {
    if s == "" {
      assert (s + "." + t)[0] == '.';
    } else {
      DotAfterDigits(s[1..], t);
      assert (s + "." + t)[1..] == s[1..] + "." + t;
    }
  }

  lemma {:induction false} AllDigitsPrefix(s: string)
    requires AllDigits(s)
    ensures DigitPrefix(s) == |s|
  {
    if s != "" {
      AllDigitsPrefix(s[1..]);
    }
  }

  lemma FractionText(frac: nat)
    requires 0 < frac < MICROS_PER_CPU
    ensures var f := TrimZeros(Padded(frac, 6)); f != "" && AllDigits(f) && RoundMicros(f) == frac
  {
    var p := Padded(frac, 6);
    assert Pow10(6) == MICROS_PER_CPU;
    PaddedValue(frac, 6);
    TrimValue(p);
    RoundShort(TrimZeros(p));
    assert Value("") == 0;
  }

  lemma ParseTwoParts(i: string, f: string)
    requires i != "" && AllDigits(i) && f != "" && AllDigits(f)
    requires 0 < Value(i) * MICROS_PER_CPU + RoundMicros(f) <= U64_MAX
    ensures CpuMicros(i + "." + f) == Ok(Value(i) * MICROS_PER_CPU + RoundMicros(f))
  {
    DotAfterDigits(i, f);
    var s := i + "." + f;
    assert s[..|i|] == i && s[|i| + 1..] == f;
  }

  lemma ParseOnePart(i: string)
    requires i != "" && AllDigits(i) && Value(i) * MICROS_PER_CPU <= U64_MAX
    ensures CpuMicros(i) == Ok(Value(i) * MICROS_PER_CPU)
  {
    DotAfterDigits(i, "");
    assert i[..|i|] == i;
  }

  lemma CpuRoundTrip(amount: nat)
    requires amount <= U64_MAX
    ensures CpuMicros(Canonical(Cpu, amount)) == Ok(amount)
  {
    var whole, frac := amount / MICROS_PER_CPU, amount % MICROS_PER_CPU;
    ToDecimalValue(whole);
    if frac == 0 {
      ParseOnePart(ToDecimal(whole));
    } else {
      FractionText(frac);
      ParseTwoParts(ToDecimal(whole), TrimZeros(Padded(frac, 6)));
    }
  }

  /** Printer and parser undo each other: in every unit, the canonical text of any `u64` amount
      parses back to that amount. */
  lemma CanonicalRoundTrip(u: Unit, amount: nat)
    requires amount <= U64_MAX
    ensures Parse(u, Canonical(u, amount)) == Ok(amount)
  {
    if u == Cpu {
      CpuRoundTrip(amount);
    } else {
      var s := ToDecimal(amount);
      ToDecimalValue(amount);
      AllDigitsPrefix(s);
      assert s[..|s|] == s;
    }
  }

  lemma {:induction false} DigitsThenUnit(s: string, u: string)
    requires AllDigits(s) && (u == "" || !IsDigit(u[0]))
    ensures DigitPrefix(s + u) == |s|
  {
    if s == "" {
      assert s + u == u;
    } else {
      DigitsThenUnit(s[1..], u);
      assert (s + u)[1..] == s[1..] + u;
    }
  }

  /** Memory sizes: a decimal followed at once by a unit is that many of the unit, refused when the
      unit is none or the bytes do not fit. */
  lemma MemorySizeIs(n: nat, u: string)
    requires u == "" || !IsDigit(u[0])
    ensures ParseMemorySize(ToDecimal(n) + u)
         == if n > U64_MAX then Err(TooLarge)
            else if SuffixPower(u).None? then Err(UnknownUnit)
            else if n * Pow1024(SuffixPower(u).value) > U64_MAX then Err(TooLarge)
            else Ok(n * Pow1024(SuffixPower(u).value))
  {
    var s := ToDecimal(n) + u;
    ToDecimalValue(n);
    DigitsThenUnit(ToDecimal(n), u);
    assert s[..|ToDecimal(n)|] == ToDecimal(n) && s[|ToDecimal(n)|..] == u;
    SizeFactorIs(u);
  }

  lemma {:induction false} NoLeadingZero(n: nat)
    ensures n > 0 ==> ToDecimal(n)[0] != '0'
    ensures n == 0 ==> ToDecimal(n) == "0"
  {
    if n >= 10 {
      NoLeadingZero(n / 10);
    } else {
      assert DigitChar(n) == '0' <==> n == 0;
    }
  }

  lemma {:induction false} TrimmedEnd(s: string)
    ensures TrimZeros(s) <= s && (TrimZeros(s) != "" ==> TrimZeros(s)[|TrimZeros(s)| - 1] != '0')
  {
    if s != "" && s[|s| - 1] == '0' {
      TrimmedEnd(s[..|s| - 1]);
    }
  }

  /** A whole part without leading zeros, and a fraction of at most six digits not ending in zero. */
  predicate ShortWhole(i: string) { i != "" && AllDigits(i) && (i[0] == '0' ==> |i| == 1) }

  predicate ShortFraction(f: string) { 0 < |f| <= 6 && AllDigits(f) && f[|f| - 1] != '0' }

  lemma WholeIsShort(n: nat)
    ensures ShortWhole(ToDecimal(n))
  {
    NoLeadingZero(n);
  }

  lemma FractionIsShort(frac: nat)
    requires 0 < frac < MICROS_PER_CPU
    ensures ShortFraction(TrimZeros(Padded(frac, 6)))
  {
    FractionText(frac);
    TrimmedEnd(Padded(frac, 6));
  }

  /** Canonical CPU text is the shortest: the whole part without leading zeros and, for a fractional
      amount only, a dot and at most six digits that do not end in zero. */
  lemma CanonicalIsShortest(amount: nat)
    ensures var s, d := Canonical(Cpu, amount), FirstDot(Canonical(Cpu, amount));
            && ShortWhole(s[..d])
            && (d == |s| <==> amount % MICROS_PER_CPU == 0)
            && (d < |s| ==> ShortFraction(s[d + 1..]))
  {
    var whole, frac := amount / MICROS_PER_CPU, amount % MICROS_PER_CPU;
    var i := ToDecimal(whole);
    WholeIsShort(whole);
    if frac == 0 {
      DotAfterDigits(i, "");
      assert i[..|i|] == i;
    } else {
      var f := TrimZeros(Padded(frac, 6));
      FractionIsShort(frac);
      DotAfterDigits(i, f);
      var s := i + "." + f;
      assert s[..|i|] == i && s[|i| + 1..] == f;
    }
  }

  // ---------------------------------------------------------------- pool declarations

  datatype Capacity = Amount(amount: nat) | Percent(percent: nat)

  datatype Zero = Allowed | Refused

  function ParseCapacity(pool: string, unit: Unit, s: string, zero: Zero): Result<Capacity, Error> {
    if s != "" && s[|s| - 1] == '%' then
      if OfBuiltin(pool).None? then Err(NoDefault)
      else
        var pct := Whole(s[..|s| - 1]);
        if pct.None? then Err(NotANumber)
        else if pct.value == 0 then Err(EmptyShare)
        else Ok(Percent(pct.value))
    else
      match Parse(unit, s)
      case Err(e) => Err(e)
      case Ok(n) => if n == 0 && zero == Refused then Err(ZeroRefused) else Ok(Amount(n))
  }

  lemma CanonicalEndsInDigit(u: Unit, amount: nat)
    ensures Canonical(u, amount) != ""
    ensures IsDigit(Canonical(u, amount)[|Canonical(u, amount)| - 1])
  {
    var frac := amount % MICROS_PER_CPU;
    if u == Cpu && frac != 0 {
      FractionText(frac);
    }
  }

  /** Capacities round-trip too: an amount in its canonical text, a share as digits and `%`. A zero
      amount is refused exactly where the surface refuses zero. */
  lemma CapacityRoundTrip(pool: string, u: Unit, n: nat, zero: Zero)
    requires n <= U64_MAX
    ensures ParseCapacity(pool, u, Canonical(u, n), zero)
         == if n == 0 && zero == Refused then Err(ZeroRefused) else Ok(Amount(n))
    ensures ParseCapacity(pool, u, ToDecimal(n) + "%", zero)
         == if OfBuiltin(pool).None? then Err(NoDefault) else if n == 0 then Err(EmptyShare) else Ok(Percent(n))
  {
    CanonicalRoundTrip(u, n);
    CanonicalEndsInDigit(u, n);
    ToDecimalValue(n);
    var s := ToDecimal(n) + "%";
    assert s[..|s| - 1] == ToDecimal(n);
  }

  datatype PoolSpec = PoolSpec(unit: Unit, capacity: Option<Capacity>)

  /** `PoolSpec::from_written`: a builtin's unit cannot be changed, a missing one is the default. */
  function FromWritten(pool: string, unit: Option<Unit>, value: Option<string>): Result<PoolSpec, Error> {
    if unit.Some? && OfBuiltin(pool).Some? && unit.value != OfBuiltin(pool).value then Err(FixedUnit)
    else
      var u := if unit.Some? then unit.value else DefaultFor(pool);
      if value.None? then Ok(PoolSpec(u, None))
      else
        match ParseCapacity(pool, u, value.value, Allowed)
        case Err(e) => Err(e)
        case Ok(c) => Ok(PoolSpec(u, Some(c)))
  }

  /** Without a unit, `cpu` is read in CPUs, `memory` in bytes and any other pool as a count, and only
      the two builtins may be given as a share. */
  lemma PoolsAreReadInTheirUnits(pool: string, n: nat)
    requires n <= U64_MAX
    ensures FromWritten("cpu", None, Some(Canonical(Cpu, n))) == Ok(PoolSpec(Cpu, Some(Amount(n))))
    ensures FromWritten("memory", None, Some(Canonical(Bytes, n))) == Ok(PoolSpec(Bytes, Some(Amount(n))))
    ensures pool != "cpu" && pool != "memory"
            ==> FromWritten(pool, None, Some(Canonical(Count, n))) == Ok(PoolSpec(Count, Some(Amount(n))))
    ensures FromWritten(pool, None, Some(ToDecimal(n) + "%")).Ok? <==> (pool == "cpu" || pool == "memory") && n > 0
  {
    CapacityRoundTrip("cpu", Cpu, n, Allowed);
    CapacityRoundTrip("memory", Bytes, n, Allowed);
    CapacityRoundTrip(pool, Count, n, Allowed);
    CapacityRoundTrip(pool, DefaultFor(pool), n, Allowed);
  }
}
