/** Decimal text of natural numbers: the reference for the conversions. */
module Decimal {
  /** x followed by n zeros. */
  function Shifted(x: nat, n: nat): nat { if n == 0 then x else 10 * Shifted(x, n - 1) }

  /** Ten to the power n. */
  function Ten(n: nat): nat { Shifted(1, n) }

  predicate IsDigit(c: char) { '0' <= c <= '9' }

  predicate AllDigits(s: string) { forall i | 0 <= i < |s| :: IsDigit(s[i]) }

  function DigitValue(c: char): nat
    requires IsDigit(c)
  {
    (c - '0') as nat
  }

  function DigitChar(d: nat): char
    requires d < 10
  {
    '0' + d as char
  }

  /** The number a run of digits denotes. */
  function Value(s: string): nat
    requires AllDigits(s)
  {
    if s == "" then 0 else 10 * Value(s[..|s| - 1]) + DigitValue(s[|s| - 1])
  }

  /** The shortest decimal text of v. */
  function Text(v: nat): (s: string)
    ensures |s| >= 1 && AllDigits(s)
  {
    if v < 10 then [DigitChar(v)] else Text(v / 10) + [DigitChar(v % 10)]
  }

  lemma {:induction false} ValueOfText(v: nat)
    ensures Value(Text(v)) == v && (v > 0 ==> Text(v)[0] != '0')
  {
    if v >= 10 {
      ValueOfText(v / 10);
      assert Text(v)[..|Text(v)| - 1] == Text(v / 10);
    } else {
      assert Text(v)[..0] == "";
    }
  }

  lemma {:induction false} ShiftedAdds(x: nat, y: nat, n: nat)
    ensures Shifted(x + y, n) == Shifted(x, n) + Shifted(y, n) && Shifted(0, n) == 0
  {
    if n > 0 { ShiftedAdds(x, y, n - 1); }
  }

  /** The larger leading digit decides. */
  lemma {:induction false} ShiftedGap(x: nat, y: nat, n: nat)
    requires x < y
    ensures Shifted(x, n) + Ten(n) <= Shifted(y, n)
  {
    if n > 0 { ShiftedGap(x, y, n - 1); }
  }

  lemma {:induction false} TenGrows(m: nat, n: nat)
    requires m <= n
    ensures 1 <= Ten(m) <= Ten(n)
    decreases n
  {
    if m < n { TenGrows(m, n - 1); } else if m > 0 { TenGrows(m - 1, m - 1); }
  }

  lemma {:induction false} ValueBound(s: string)
    requires AllDigits(s)
    ensures Value(s) < Ten(|s|)
    decreases |s|
  {
    if s != "" { ValueBound(s[..|s| - 1]); }
  }

  /** A run without leading zero is at least a one followed by zeros. */
  lemma {:induction false} ValueLower(s: string)
    requires AllDigits(s) && s != "" && s[0] != '0'
    ensures Ten(|s| - 1) <= Value(s)
    decreases |s|
  {
    if |s| > 1 { ValueLower(s[..|s| - 1]); } else { assert s[..0] == ""; }
  }

  lemma {:induction false} ValueAppend(a: string, b: string)
    requires AllDigits(a) && AllDigits(b)
    ensures AllDigits(a + b) && Value(a + b) == Shifted(Value(a), |b|) + Value(b)
    decreases |b|
  {
    if b == "" {
      assert a + b == a;
    } else {
      ValueAppend(a, b[..|b| - 1]);
      assert (a + b)[..|a + b| - 1] == a + b[..|b| - 1];
    }
  }

  lemma OneDigit(c: char)
    requires IsDigit(c)
    ensures AllDigits([c]) && Value([c]) == DigitValue(c)
  {
    assert [c][..0] == "";
  }

  lemma FirstDigit(s: string)
    requires AllDigits(s) && s != ""
    ensures Value(s) == Shifted(DigitValue(s[0]), |s| - 1) + Value(s[1..])
  {
    var first, others := [s[0]], s[1..];
    OneDigit(s[0]);
    ValueAppend(first, others);
    assert first + others == s;
  }

  lemma LeadingZero(s: string)
    requires AllDigits(s) && s != "" && s[0] == '0'
    ensures Value(s[1..]) == Value(s)
  {
    FirstDigit(s);
    ShiftedAdds(0, 0, |s| - 1);
  }

  /** A prefix never denotes more than the whole run. */
  lemma {:induction false} PrefixSmaller(s: string, k: nat)
    requires AllDigits(s) && k <= |s|
    ensures Value(s[..k]) <= Value(s)
    decreases |s|
  {
    if k < |s| {
      PrefixSmaller(s[..|s| - 1], k);
      assert s[..|s| - 1][..k] == s[..k];
    } else {
      assert s[..k] == s;
    }
  }

  /** strncmp(a, b, n) > 0 for strings of n characters. */
  predicate Greater(a: string, b: string)
    requires |a| == |b|
  {
    a != "" && (a[0] > b[0] || (a[0] == b[0] && Greater(a[1..], b[1..])))
  }

  /** Two runs of the same length compare as their values do. */
  lemma {:induction false} CompareIsNumeric(a: string, b: string)
    requires AllDigits(a) && AllDigits(b) && |a| == |b|
    ensures Greater(a, b) <==> Value(a) > Value(b)
    decreases |a|
  {
    if a != "" {
      var x, y, n := DigitValue(a[0]), DigitValue(b[0]), |a| - 1;
      FirstDigit(a);
      FirstDigit(b);
      ValueBound(a[1..]);
      ValueBound(b[1..]);
      CompareIsNumeric(a[1..], b[1..]);
      if x > y { ShiftedGap(y, x, n); } else if x < y { ShiftedGap(x, y, n); }
    }
  }

  /** The number of digits is fixed by the powers of ten around the value. */
  lemma {:induction false} TextLength(v: nat, n: nat)
    requires n >= 1 && v < Ten(n) && (n == 1 || Ten(n - 1) <= v)
    ensures |Text(v)| == n
  {
    if n > 1 {
      TenGrows(0, n - 2);
      TextLength(v / 10, n - 1);
    }
  }
}

/**
 * Integers to text and back (folly/folly/Conv.h, folly/folly/Conv.cpp).
 */
module Conv {
  import opened Decimal

  const UINT64: nat := 0x1_0000_0000_0000_0000

  // ---------------------------------------------------------------- digits10

  function Two(n: nat): nat { if n == 0 then 1 else 2 * Two(n - 1) }

  /** 63 minus the number of leading zero bits. */
  function Log2(v: nat): nat
    requires v > 0
  {
    if v < 2 then 0 else 1 + Log2(v / 2)
  }

  lemma {:induction false} Log2Bounds(v: nat)
    requires v > 0
    ensures Two(Log2(v)) <= v < Two(Log2(v) + 1)
  {
    if v >= 2 { Log2Bounds(v / 2); }
  }

  /** The estimate of the number of digits from the position of the highest bit. */
  function MinLength(bits: nat): nat { 1 + bits * 77 / 256 }

  /** The estimate is right or one too small. */
  ghost predicate Estimates(bits: nat) {
    Ten(MinLength(bits) - 1) <= Two(bits) && Two(bits + 1) <= Ten(MinLength(bits) + 1)
  }

  /** The three or four bit positions that share an estimate, with the powers around them carried along. */
  lemma Span(lo: nat, n: nat, len: nat, two: nat, ten: nat)
    requires (n == 3 || n == 4) && len >= 1 && MinLength(lo) == len == MinLength(lo + n - 1)
    requires two == Two(lo) && ten == Ten(len - 1) && ten <= two && (if n == 3 then 8 * two else 16 * two) <= 100 * ten
    ensures forall b | lo <= b < lo + n :: Estimates(b)
    ensures Two(lo + n) == (if n == 3 then 8 * two else 16 * two) && Ten(len) == 10 * ten
  {
    NextPowers(lo, len, two, ten);
    forall b | lo <= b < lo + n ensures Estimates(b) {
      assert b == lo || b == lo + 1 || b == lo + 2 || b == lo + 3;
      assert MinLength(b) == len;
    }
  }

  lemma NextPowers(lo: nat, len: nat, two: nat, ten: nat)
    requires len >= 1 && two == Two(lo) && ten == Ten(len - 1)
    ensures Two(lo + 1) == 2 * two && Two(lo + 2) == 4 * two && Two(lo + 3) == 8 * two && Two(lo + 4) == 16 * two
    ensures Ten(len) == 10 * ten && Ten(len + 1) == 100 * ten
  {
    assert Ten(len + 1) == 10 * Ten(len);
    assert Two(lo + 2) == 2 * Two(lo + 1) && Two(lo + 3) == 2 * Two(lo + 2) && Two(lo + 4) == 2 * Two(lo + 3);
  }

  lemma EstimatesLow()
    ensures forall b | 0 <= b < 34 :: Estimates(b)
    ensures Two(34) == 0x400000000 && Ten(10) == 10000000000
  {
    Span(0, 4, 1, 0x1, 1);
    Span(4, 3, 2, 0x10, 10);
    Span(7, 3, 3, 0x80, 100);
    Span(10, 4, 4, 0x400, 1000);
    Span(14, 3, 5, 0x4000, 10000);
    Span(17, 3, 6, 0x20000, 100000);
    Span(20, 4, 7, 0x100000, 1000000);
    Span(24, 3, 8, 0x1000000, 10000000);
    Span(27, 3, 9, 0x8000000, 100000000);
    Span(30, 4, 10, 0x40000000, 1000000000);
  }

  lemma EstimatesAll()
    ensures forall b | 0 <= b < 64 :: Estimates(b)
  {
    EstimatesLow();
    Span(34, 3, 11, 0x400000000, 10000000000);
    Span(37, 3, 12, 0x2000000000, 100000000000);
    Span(40, 4, 13, 0x10000000000, 1000000000000);
    Span(44, 3, 14, 0x100000000000, 10000000000000);
    Span(47, 3, 15, 0x800000000000, 100000000000000);
    Span(50, 4, 16, 0x4000000000000, 1000000000000000);
    Span(54, 3, 17, 0x40000000000000, 10000000000000000);
    Span(57, 3, 18, 0x200000000000000, 100000000000000000);
    Span(60, 4, 19, 0x1000000000000000, 1000000000000000000);
  }

  const POWERS_OF_10: seq<nat> := [
    1, 10, 100, 1000, 10000, 100000, 1000000, 10000000,
    100000000, 1000000000, 10000000000, 100000000000, 1000000000000,
    10000000000000, 100000000000000, 1000000000000000, 10000000000000000,
    100000000000000000, 1000000000000000000, 10000000000000000000]

  lemma TableStep(n: nat)
    requires 0 < n < 20
    ensures POWERS_OF_10[n] == 10 * POWERS_OF_10[n - 1]
  {
  }

  lemma {:induction false} PowersOf10(n: nat)
    requires n < 20
    ensures POWERS_OF_10[n] == Ten(n)
  {
    if n > 0 {
      TableStep(n);
      PowersOf10(n - 1);
    }
  }

  lemma {:induction false} TwoGrows(m: nat, n: nat)
    requires m <= n
    ensures Two(m) <= Two(n)
    decreases n
  {
    if m < n { TwoGrows(m, n - 1); }
  }

  lemma HighestBit(v: nat)
    requires 0 < v < UINT64
    ensures Log2(v) < 64
  {
    Log2Bounds(v);
    EstimatesLow();
    assert Two(64) == UINT64 by { DoubledThirty(34); }
    if Log2(v) >= 64 { TwoGrows(64, Log2(v)); }
  }

  lemma DoubledThirty(n: nat)
    ensures Two(n + 30) == 0x40000000 * Two(n)
  {
    Doubled10(n);
    Doubled10(n + 10);
    Doubled10(n + 20);
  }

  lemma Doubled5(n: nat)
    ensures Two(n + 5) == 32 * Two(n)
  {
    assert Two(n + 1) == 2 * Two(n) && Two(n + 2) == 2 * Two(n + 1) && Two(n + 3) == 2 * Two(n + 2);
    assert Two(n + 4) == 2 * Two(n + 3);
  }

  lemma Doubled10(n: nat)
    ensures Two(n + 10) == 1024 * Two(n)
  {
    Doubled5(n);
    Doubled5(n + 5);
  }

  /** digits10 with the help of the count of leading zeros. */
  method Digits10(v: nat) returns (r: nat)
    requires v < UINT64
    ensures r == |Text(v)|
  {
    if v == 0 { return 1; }
    HighestBit(v);
    Log2Bounds(v);
    EstimatesAll();
    var bits := Log2(v);
    assert Estimates(bits);
    var minLength := MinLength(bits);
    PowersOf10(minLength);
    r := minLength + if v >= POWERS_OF_10[minLength] then 1 else 0;
    TextLength(v, r);
  }

  lemma TextOfQuotient(v: nat)
    requires v >= 10000
    ensures |Text(v)| == 4 + |Text(v / 10000)|
  {
    var a := v / 10;
    var b := a / 10;
    var c := b / 10;
    assert |Text(v)| == 1 + |Text(a)| && |Text(a)| == 1 + |Text(b)| && |Text(b)| == 1 + |Text(c)|;
    assert |Text(c)| == 1 + |Text(c / 10)|;
    assert c / 10 == v / 10000;
  }

  lemma ShortText(v: nat)
    requires v < 10000
    ensures |Text(v)| == if v < 10 then 1 else if v < 100 then 2 else if v < 1000 then 3 else 4
  {
    var a := v / 10;
    var b := a / 10;
    assert v >= 10 ==> |Text(v)| == 1 + |Text(a)|;
    assert a >= 10 ==> |Text(a)| == 1 + |Text(b)|;
    assert b >= 10 ==> |Text(b)| == 1 + |Text(b / 10)|;
  }

  /** digits10 as every other machine computes it. */
  method Digits10Portable(value: nat) returns (r: nat)
    ensures r == |Text(value)|
  {
    var v := value;
    r := 1;
    while true
      invariant r >= 1 && |Text(value)| == r - 1 + |Text(v)|
      decreases v
    {
      if v < 10000 { ShortText(v); }
      if v < 10 { return r; }
      if v < 100 { return r + 1; }
      if v < 1000 { return r + 2; }
      if v < 10000 { return r + 3; }
      TextOfQuotient(v);
      v := v / 10000;
      r := r + 4;
    }
  }

  // ---------------------------------------------------------------- printing

  /** The digits go in from the last to the first, and land exactly on the front of the buffer. */
  method Uint64ToBufferUnsafe(value: nat, buffer: array<char>) returns (n: nat)
    requires value < UINT64 && |Text(value)| <= buffer.Length
    modifies buffer
    ensures n == |Text(value)| && buffer[..n] == Text(value) && buffer[n..] == old(buffer[n..])
  {
    n := Digits10(value);
    var v, pos := value, n - 1;
    while v >= 10
      invariant 0 <= v < UINT64 && 0 <= pos < n && pos + 1 == |Text(v)|
      invariant Text(value) == Text(v) + buffer[pos + 1..n] && buffer[n..] == old(buffer[n..])
    {
      var q, d := v / 10, v % 10;
      ghost var before := buffer[pos + 1..n];
      buffer[pos] := '0' + d as char;
      assert buffer[pos..n] == [DigitChar(d)] + before;
      pos := pos - 1;
      v := q;
    }
    buffer[pos] := '0' + v as char;
    assert buffer[..n] == [DigitChar(v)] + buffer[1..n];
  }

  /** The text of an integer. */
  function IntText(v: int): string { if v < 0 then "-" + Text(-v) else Text(v) }

  lemma TextFits(v: nat)
    requires v < UINT64
    ensures |Text(v)| <= 20
  {
    if v > 0 {
      PowersOf10(19);
      assert v < Ten(20);
      TextShort(v, 20);
    }
  }

  lemma {:induction false} TextShort(v: nat, n: nat)
    requires v < Ten(n) && n >= 1
    ensures |Text(v)| <= n
  {
    if v >= 10 { TextShort(v / 10, n - 1); }
  }

  /** toAppend for the signed types of four and eight bytes; the most negative value needs no special case. */
  method ToAppendSigned(value: int, result: string) returns (r: string)
    requires -0x8000_0000_0000_0000 <= value < 0x8000_0000_0000_0000
    ensures r == result + IntText(value)
  {
    var buffer := new char[20];
    r := result;
    var u: nat := if value < 0 then value + UINT64 else value;
    if value < 0 {
      r := r + "-";
      u := Negated(u);
    }
    TextFits(u);
    var n := Uint64ToBufferUnsafe(u, buffer);
    assert r + Text(u) == result + IntText(value);
    r := r + buffer[..n];
  }

  /** toAppend for the unsigned types of four and eight bytes. */
  method ToAppendUnsigned(value: nat, result: string) returns (r: string)
    requires value < UINT64
    ensures r == result + Text(value)
  {
    var buffer := new char[20];
    TextFits(value);
    var n := Uint64ToBufferUnsafe(value, buffer);
    r := result + buffer[..n];
  }

  /** ~u + 1 on 64 bits. */
  function Negated(u: nat): (r: nat)
    requires u < UINT64
    ensures r < UINT64 && (u > 0 ==> r == UINT64 - u)
  {
    (UINT64 - 1 - u + 1) % UINT64
  }

  // ---------------------------------------------------------------- parsing

  datatype Code = EmptyInputString | InvalidLeadingChar | NoDigits | NonDigitChar | PositiveOverflow | NegativeOverflow

  datatype Expected<T> = Ok(value: T) | Err(code: Code)

  datatype Width = W8 | W16 | W32 | W64

  /** How many values the unsigned type has. */
  function Modulus(w: Width): nat {
    match w
    case W8 => 0x100
    case W16 => 0x1_0000
    case W32 => 0x1_0000_0000
    case W64 => 0x1_0000_0000_0000_0000
  }

  /** numeric_limits<UT>::digits10. */
  function SafeDigits(w: Width): nat {
    match w
    case W8 => 2
    case W16 => 4
    case W32 => 9
    case W64 => 19
  }

  function MaxString(w: Width): string {
    match w
    case W8 => "255"
    case W16 => "65535"
    case W32 => "4294967295"
    case W64 => "18446744073709551615"
  }

  lemma Four(b: string)
    requires AllDigits(b) && |b| == 4
    ensures Value(b) == 1000 * DigitValue(b[0]) + 100 * DigitValue(b[1]) + 10 * DigitValue(b[2]) + DigitValue(b[3])
  {
    assert b[..3][..2] == b[..2] && b[..2][..1] == b[..1] && b[..1][..0] == "";
    assert Value(b) == 10 * Value(b[..3]) + DigitValue(b[3]);
    assert Value(b[..3]) == 10 * Value(b[..2]) + DigitValue(b[2]);
    assert Value(b[..2]) == 10 * Value(b[..1]) + DigitValue(b[1]);
    assert Value(b[..1]) == DigitValue(b[0]);
  }

  lemma Thousands(x: nat)
    ensures Shifted(x, 1) == 10 * x && Shifted(x, 2) == 100 * x && Shifted(x, 3) == 1000 * x
    ensures Shifted(x, 4) == 10000 * x
  {
    assert Shifted(x, 1) == 10 * Shifted(x, 0);
    assert Shifted(x, 2) == 10 * Shifted(x, 1);
    assert Shifted(x, 3) == 10 * Shifted(x, 2);
    assert Shifted(x, 4) == 10 * Shifted(x, 3);
  }

  lemma Chunk(a: string, b: string, ab: string)
    requires AllDigits(a) && AllDigits(b) && |b| == 4 && ab == a + b
    ensures AllDigits(ab)
    ensures Value(ab) == 10000 * Value(a) + 1000 * DigitValue(b[0]) + 100 * DigitValue(b[1])
      + 10 * DigitValue(b[2]) + DigitValue(b[3])
  {
    ValueAppend(a, b);
    Four(b);
    Thousands(Value(a));
  }

  lemma MaxString32()
    ensures AllDigits(MaxString(W32)) && Value(MaxString(W32)) == Modulus(W32) - 1
  {
    assert Value("42") == 42 by { assert "42"[..1] == "4" && "4"[..0] == ""; }
    Chunk("42", "9496", "429496");
    Chunk("429496", "7295", "4294967295");
  }

  lemma MaxHigh64()
    ensures AllDigits("184467440737") && Value("184467440737") == 184467440737
  {
    Four("1844");
    Chunk("1844", "6744", "18446744");
    Chunk("18446744", "0737", "184467440737");
  }

  lemma MaxString64()
    ensures AllDigits(MaxString(W64)) && Value(MaxString(W64)) == Modulus(W64) - 1
  {
    MaxHigh64();
    Chunk("184467440737", "0955", "1844674407370955");
    Chunk("1844674407370955", "1615", "18446744073709551615");
  }

  /** The literals of the code are the texts of the largest values. */
  lemma MaxStringIsMax(w: Width)
    ensures |MaxString(w)| == SafeDigits(w) + 1 && AllDigits(MaxString(w)) && Value(MaxString(w)) == Modulus(w) - 1
  {
    match w
    case W8 => assert "255"[..2] == "25" && "25"[..1] == "2" && "2"[..0] == "";
    case W16 => assert Value("6") == 6 by { assert "6"[..0] == ""; } Chunk("6", "5535", "65535");
    case W32 => MaxString32();
    case W64 => MaxString64();
  }

  /** Fewer digits always fit, more digits without leading zero never do. */
  lemma WidthBounds(w: Width)
    ensures Ten(SafeDigits(w)) <= Modulus(w) <= Ten(SafeDigits(w) + 1)
  {
    PowersOf10(2); PowersOf10(3); PowersOf10(4); PowersOf10(5); PowersOf10(9); PowersOf10(10); PowersOf10(19);
    assert Ten(20) == 10 * Ten(19);
  }

  const OOR := 10000

  /** The lookup tables: the digit times its weight, and a flag too large for any sum otherwise. */
  function Shift(c: char, weight: nat): nat { if IsDigit(c) then weight * DigitValue(c) else OOR }

  lemma {:induction false} ZerosSkipped(s: string, k: nat)
    requires AllDigits(s) && k <= |s| && forall i | 0 <= i < k :: s[i] == '0'
    ensures Value(s[k..]) == Value(s)
  {
    if k == 0 {
      assert s[0..] == s;
    } else {
      ZerosSkipped(s, k - 1);
      LeadingZero(s[k - 1..]);
      assert s[k - 1..][1..] == s[k..];
    }
  }

  /** Enough is left to overflow, or not: decided by length and by comparison with the largest value. */
  predicate TooLarge(w: Width, t: string) {
    |t| > SafeDigits(w) && (|t| != SafeDigits(w) + 1 || (|t| == |MaxString(w)| && Greater(t, MaxString(w))))
  }

  lemma TooLargeIsOverflow(w: Width, t: string)
    requires AllDigits(t) && (|t| > SafeDigits(w) ==> t[0] != '0')
    ensures TooLarge(w, t) <==> Value(t) >= Modulus(w)
  {
    MaxStringIsMax(w);
    WidthBounds(w);
    ValueBound(t);
    if |t| <= SafeDigits(w) {
      TenGrows(|t|, SafeDigits(w));
    } else if |t| == SafeDigits(w) + 1 {
      CompareIsNumeric(t, MaxString(w));
    } else {
      ValueLower(t);
      TenGrows(SafeDigits(w) + 1, |t| - 1);
    }
  }

  lemma NextFour(t: string, k: nat)
    requires k + 4 <= |t| && AllDigits(t)
    ensures Value(t[..k + 4]) == 10000 * Value(t[..k]) + Shift(t[k], 1000) + Shift(t[k + 1], 100)
      + Shift(t[k + 2], 10) + Shift(t[k + 3], 1)
  {
    var b := t[k..k + 4];
    Chunk(t[..k], b, t[..k + 4]);
  }

  /** Conversion to the unsigned type. */
  function Unsigned(w: Width, x: nat): (r: nat)
    ensures r < Modulus(w) && (x < Modulus(w) ==> r == x)
  {
    x % Modulus(w)
  }

  /** result *= UT(10000); result += UT(sum). */
  function Accumulate(w: Width, result: nat, sum: nat): (r: nat)
    ensures r < Modulus(w)
    ensures Modulus(w) > 10000 && 10000 * result + sum < Modulus(w) ==> r == 10000 * result + sum
  {
    Unsigned(w, Unsigned(w, result * Unsigned(w, 10000)) + Unsigned(w, sum))
  }

  /** The sum of the table entries flags any character that is not a digit. */
  lemma FlaggedSum(a: char, b: char, c: char, d: char)
    ensures Shift(a, 1000) + Shift(b, 100) + Shift(c, 10) + Shift(d, 1) < OOR <==>
      IsDigit(a) && IsDigit(b) && IsDigit(c) && IsDigit(d)
  {
  }

  lemma FourDigits(t: string, k: nat)
    requires k + 4 <= |t|
    ensures AllDigits(t[k..k + 4]) <==> IsDigit(t[k]) && IsDigit(t[k + 1]) && IsDigit(t[k + 2]) && IsDigit(t[k + 3])
  {
    var b := t[k..k + 4];
    assert b[0] == t[k] && b[1] == t[k + 1] && b[2] == t[k + 2] && b[3] == t[k + 3];
  }

  /** One block of four digits: the accumulator takes them without wrapping. */
  method TakeFour(w: Width, t: string, k: nat, result: nat) returns (ok: bool, r: nat)
    requires k + 4 <= |t| && result < Modulus(w)
    requires AllDigits(t) ==> Value(t) < Modulus(w) && Modulus(w) > 10000 && result == Value(t[..k])
    ensures r < Modulus(w)
    ensures ok <==> AllDigits(t[k..k + 4])
    ensures AllDigits(t) ==> r == Value(t[..k + 4])
  {
    var sum := Shift(t[k], 1000) + Shift(t[k + 1], 100) + Shift(t[k + 2], 10) + Shift(t[k + 3], 1);
    ok := sum < OOR;
    r := Accumulate(w, result, sum);
    FlaggedSum(t[k], t[k + 1], t[k + 2], t[k + 3]);
    FourDigits(t, k);
    if AllDigits(t) {
      NextFour(t, k);
      PrefixSmaller(t, k + 4);
    }
  }

  lemma LastDigits(t: string, k: nat)
    requires AllDigits(t) && k <= |t| <= k + 3
    ensures |t| == k ==> Value(t) == Value(t[..k])
    ensures |t| == k + 1 ==> Value(t) == 10 * Value(t[..k]) + Shift(t[k], 1)
    ensures |t| == k + 2 ==> Value(t) == 100 * Value(t[..k]) + Shift(t[k], 10) + Shift(t[k + 1], 1)
    ensures |t| == k + 3 ==>
      Value(t) == 1000 * Value(t[..k]) + Shift(t[k], 100) + Shift(t[k + 1], 10) + Shift(t[k + 2], 1)
  {
    var n := |t|;
    assert t[..n] == t;
    if n >= k + 1 { assert t[..n - 1] == t[..|t| - 1]; }
    if n >= k + 2 { assert t[..n - 1][..n - 2] == t[..n - 2]; }
    if n >= k + 3 { assert t[..n - 2][..n - 3] == t[..n - 3]; }
  }

  /** The one to three characters that the blocks of four leave over. */
  method TakeRest(w: Width, t: string, k: nat, result: nat) returns (ok: bool, r: nat)
    requires k <= |t| <= k + 3 && result < Modulus(w)
    requires AllDigits(t) ==> Value(t) < Modulus(w) && result == Value(t[..k])
    ensures r < Modulus(w)
    ensures ok <==> AllDigits(t[k..])
    ensures AllDigits(t) ==> r == Value(t)
  {
    if AllDigits(t) { LastDigits(t, k); }
    var rest := t[k..];
    if |rest| == 3 {
      var sum := Shift(rest[0], 100) + Shift(rest[1], 10) + Shift(rest[2], 1);
      ok, r := sum < OOR, Unsigned(w, 1000 * result + sum);
    } else if |rest| == 2 {
      var sum := Shift(rest[0], 10) + Shift(rest[1], 1);
      ok, r := sum < OOR, Unsigned(w, 100 * result + sum);
    } else if |rest| == 1 {
      var sum := Shift(rest[0], 1);
      ok, r := sum < OOR, Unsigned(w, 10 * result + sum);
    } else {
      ok, r := true, result;
    }
  }

  lemma DigitsSplit(t: string, k: nat, n: nat)
    requires k <= n <= |t|
    ensures AllDigits(t[..n]) <==> AllDigits(t[..k]) && AllDigits(t[k..n])
  {
    var a, b, c := t[..k], t[k..n], t[..n];
    assert c == a + b;
    if AllDigits(c) {
      assert forall i | 0 <= i < |a| :: a[i] == c[i];
      assert forall i | 0 <= i < |b| :: b[i] == c[k + i];
    }
  }

  /** The digits of a run that cannot overflow, four at a time. */
  method Convert(w: Width, t: string) returns (r: Expected<nat>)
    requires AllDigits(t) ==> Value(t) < Modulus(w)
    requires AllDigits(t) && |t| >= 4 ==> Modulus(w) > 10000
    ensures AllDigits(t) ==> r == Ok(Value(t))
    ensures !AllDigits(t) ==> r == Err(NonDigitChar)
  {
    var k, result := 0, 0;
    while |t| - k >= 4
      invariant 0 <= k <= |t| && 0 <= result < Modulus(w) && AllDigits(t[..k])
      invariant AllDigits(t) ==> result == Value(t[..k])
    {
      var ok;
      DigitsSplit(t, k, k + 4);
      ok, result := TakeFour(w, t, k, result);
      if !ok { DigitsSplit(t, k + 4, |t|); assert t[..|t|] == t; return Err(NonDigitChar); }
      k := k + 4;
    }
    var done;
    DigitsSplit(t, k, |t|);
    assert t[..|t|] == t && t[k..|t|] == t[k..];
    done, result := TakeRest(w, t, k, result);
    r := if done then Ok(result) else Err(NonDigitChar);
  }

  /** digits_to for the unsigned types: exact for digits, an error for anything else. */
  method DigitsTo(w: Width, s: string) returns (r: Expected<nat>)
    ensures s == "" ==> r == Err(NoDigits)
    ensures s != "" && AllDigits(s) ==> r == if Value(s) < Modulus(w) then Ok(Value(s)) else Err(PositiveOverflow)
    ensures !AllDigits(s) ==> r.Err? && (r.code == NonDigitChar || r.code == PositiveOverflow)
  {
    var b := 0;
    if |s| > SafeDigits(w) {
      if s[0] == '0' {
        b := 1;
        while b < |s| && s[b] == '0'
          invariant 1 <= b <= |s| && forall i | 0 <= i < b :: s[i] == '0'
        {
          b := b + 1;
        }
        if AllDigits(s) { ZerosSkipped(s, b); }
        if b == |s| { return Ok(0); }
      }
      if TooLarge(w, s[b..]) {
        if AllDigits(s) { assert s[0..] == s; TooLargeIsOverflow(w, s[b..]); }
        return Err(PositiveOverflow);
      }
    }
    var t := s[b..];
    assert AllDigits(s) <==> AllDigits(t) by { SuffixDigits(s, b); }
    if AllDigits(s) { assert s[0..] == s; TooLargeIsOverflow(w, t); }
    if |t| == 0 { return Err(NoDigits); }
    r := Convert(w, t);
  }

  lemma SuffixDigits(s: string, b: nat)
    requires b <= |s| && forall i | 0 <= i < b :: s[i] == '0'
    ensures AllDigits(s) <==> AllDigits(s[b..])
  {
    if AllDigits(s[b..]) {
      forall i | 0 <= i < |s| ensures IsDigit(s[i]) { if i >= b { assert s[i] == s[b..][i - b]; } }
    }
  }

  // ---------------------------------------------------------------- what a text means

  predicate IsSpace(c: char) { c == ' ' || '\t' <= c <= '\r' }

  /** The values of the type. */
  predicate InRange(w: Width, signed: bool, v: int) {
    if signed then 0 - Half(w) <= v < Half(w) else 0 <= v < Modulus(w)
  }

  function Half(w: Width): (h: nat)
    ensures 2 * h == Modulus(w)
  {
    Modulus(w) / 2
  }

  /** Blanks, a sign only for signed types, digits, and a rest that does not go on with a digit. */
  ghost predicate Reads(signed: bool, src: string, blanks: string, sign: string, digits: string, rest: string) {
    && src == blanks + sign + digits + rest
    && (forall i | 0 <= i < |blanks| :: IsSpace(blanks[i]))
    && (sign == "" || (signed && (sign == "-" || sign == "+")))
    && digits != "" && AllDigits(digits) && (rest != "" ==> !IsDigit(rest[0]))
  }

  ghost function Signed(sign: string, v: nat): int { if sign == "-" then 0 - v else v }

  /** src denotes v, and rest is what follows. */
  ghost predicate Denotes(w: Width, signed: bool, src: string, v: int, rest: string) {
    InRange(w, signed, v) && exists blanks, sign, digits ::
      Reads(signed, src, blanks, sign, digits, rest) && v == Signed(sign, Value(digits))
  }

  /** Conversion of an unsigned value, or its negation, to the signed type. */
  function ToSigned(w: Width, x: int): int
    requires 0 - Modulus(w) < x < Modulus(w)
  {
    var y := if x < 0 then x + Modulus(w) else x;
    if y < Half(w) then y else y - Modulus(w)
  }

  /** The sign of the converted value tells exactly when it does not fit. */
  method Finalize(w: Width, signed: bool, negative: bool, value: nat) returns (r: Expected<int>)
    requires value < Modulus(w) && (negative ==> signed)
    ensures var v := if negative then 0 - value else value;
      r == if InRange(w, signed, v) then Ok(v) else Err(if negative then NegativeOverflow else PositiveOverflow)
  {
    if !signed { return Ok(value); }
    if negative {
      var rv := ToSigned(w, 0 - value);
      r := if rv > 0 then Err(NegativeOverflow) else Ok(rv);
    } else {
      var rv := ToSigned(w, value);
      r := if rv < 0 then Err(PositiveOverflow) else Ok(rv);
    }
  }

  /** The unsigned conversion of the digits, and what the sign makes of it. */
  method ConvertRun(w: Width, signed: bool, negative: bool, digits: string) returns (r: Expected<int>)
    requires digits != "" && AllDigits(digits) && (negative ==> signed)
    ensures var v := if negative then 0 - Value(digits) else Value(digits);
      r == if InRange(w, signed, v) then Ok(v) else Err(if negative then NegativeOverflow else PositiveOverflow)
  {
    var tmp := DigitsTo(w, digits);
    if tmp.Err? {
      var code := tmp.code;
      return Err(if code == PositiveOverflow then if negative then NegativeOverflow else PositiveOverflow else code);
    }
    r := Finalize(w, signed, negative, tmp.value);
  }

  method FindFirstNonDigit(s: string, from: nat) returns (m: nat)
    requires from <= |s|
    ensures from <= m <= |s| && AllDigits(s[from..m]) && (m < |s| ==> !IsDigit(s[m]))
  {
    m := from;
    while m < |s| && IsDigit(s[m])
      invariant from <= m <= |s| && AllDigits(s[from..m])
    {
      assert s[from..m + 1] == s[from..m] + [s[m]];
      m := m + 1;
    }
  }

  /** The run of digits at b, the sign before it and the blanks before that. */
  lemma Cut(signed: bool, src: string, a: nat, b: nat, m: nat)
    requires a <= b < m <= |src| && (forall i | 0 <= i < a :: IsSpace(src[i])) && AllDigits(src[b..m])
    requires (m < |src| ==> !IsDigit(src[m]))
    requires b == a || (signed && b == a + 1 && (src[a] == '-' || src[a] == '+'))
    ensures Reads(signed, src, src[..a], src[a..b], src[b..m], src[m..])
  {
    assert src == src[..a] + src[a..b] + src[b..m] + src[m..];
    if b == a + 1 { assert src[a..b] == [src[a]]; }
  }

  /** A reading seen through positions: blanks before a, the sign before b, digits before m. */
  ghost predicate Marks(signed: bool, src: string, a: nat, b: nat, m: nat) {
    && a <= b < m <= |src|
    && (forall i | 0 <= i < a :: IsSpace(src[i])) && !IsSpace(src[a])
    && (b == a || (signed && b == a + 1 && (src[a] == '-' || src[a] == '+')))
    && (forall i | b <= i < m :: IsDigit(src[i])) && (m < |src| ==> !IsDigit(src[m]))
  }

  lemma ReadsMarks(signed: bool, src: string, blanks: string, sign: string, digits: string, rest: string)
    requires Reads(signed, src, blanks, sign, digits, rest)
    ensures var a := |blanks|;
      var b := a + |sign|;
      var m := b + |digits|;
      Marks(signed, src, a, b, m) && blanks == src[..a] && sign == src[a..b] && digits == src[b..m] && rest == src[m..]
  {
    var a := |blanks|;
    var b := a + |sign|;
    var m := b + |digits|;
    assert blanks == src[..a] && sign == src[a..b] && digits == src[b..m] && rest == src[m..];
    assert src[b] == digits[0];
    assert forall i | 0 <= i < a :: src[i] == blanks[i];
    assert forall i | b <= i < m :: src[i] == digits[i - b];
    if b > a { assert src[a] == sign[0]; }
    if m < |src| { assert src[m] == rest[0]; }
  }

  lemma OneMarking(signed: bool, src: string, a: nat, b: nat, m: nat, a': nat, b': nat, m': nat)
    requires Marks(signed, src, a, b, m) && Marks(signed, src, a', b', m')
    ensures a == a' && b == b' && m == m'
  {
  }

  /** A text can be read in at most one way. */
  lemma OnlyReading(signed: bool, src: string, blanks: string, sign: string, digits: string, rest: string)
    requires Reads(signed, src, blanks, sign, digits, rest)
    ensures forall b, s, d, t | Reads(signed, src, b, s, d, t) :: b == blanks && s == sign && d == digits && t == rest
  {
    ReadsMarks(signed, src, blanks, sign, digits, rest);
    forall b, s, d, t | Reads(signed, src, b, s, d, t) ensures b == blanks && s == sign && d == digits && t == rest {
      ReadsMarks(signed, src, b, s, d, t);
      OneMarking(signed, src, |blanks|, |blanks| + |sign|, |blanks| + |sign| + |digits|, |b|,
                 |b| + |s|, |b| + |s| + |d|);
    }
  }

  /** Nothing can be read when the blanks are not followed by a digit, or by a sign and a digit. */
  lemma NothingRead(signed: bool, src: string, a: nat)
    requires a <= |src| && (forall i | 0 <= i < a :: IsSpace(src[i]))
    requires (a < |src| ==> !IsSpace(src[a]) && !IsDigit(src[a]))
    requires a < |src| && signed && (src[a] == '-' || src[a] == '+') ==> a + 1 >= |src| || !IsDigit(src[a + 1])
    ensures forall b, s, d, t :: !Reads(signed, src, b, s, d, t)
  {
    forall b, s, d, t ensures !Reads(signed, src, b, s, d, t) {
      if Reads(signed, src, b, s, d, t) {
        ReadsMarks(signed, src, b, s, d, t);
        assert false;
      }
    }
  }

  method SkipBlanks(src: string) returns (b: nat)
    ensures b <= |src| && (forall i | 0 <= i < b :: IsSpace(src[i])) && (b < |src| ==> !IsSpace(src[b]))
  {
    b := 0;
    while b < |src| && IsSpace(src[b])
      invariant 0 <= b <= |src| && forall i | 0 <= i < b :: IsSpace(src[i])
    {
      b := b + 1;
    }
  }

  /** src reads as digits whose signed value does not fit the type, on the side the code says. */
  ghost predicate Overflows(w: Width, signed: bool, src: string, code: Code) {
    exists blanks, sign, digits, tail :: Reads(signed, src, blanks, sign, digits, tail)
      && !InRange(w, signed, Signed(sign, Value(digits)))
      && code == if sign == "-" then NegativeOverflow else PositiveOverflow
  }

  lemma Conclude(w: Width, signed: bool, src: string, blanks: string, sign: string, digits: string, tail: string)
    requires Reads(signed, src, blanks, sign, digits, tail)
    ensures var v := Signed(sign, Value(digits));
      if InRange(w, signed, v) then
        Denotes(w, signed, src, v, tail)
      else
        && Overflows(w, signed, src, if sign == "-" then NegativeOverflow else PositiveOverflow)
        && forall x, rest :: !Denotes(w, signed, src, x, rest)
  {
    OnlyReading(signed, src, blanks, sign, digits, tail);
  }

  /**
   * str_to_integral: succeeds exactly on the texts that denote a value of the type, with that value,
   * and then leaves what follows the digits; on an error the text is left alone.
   */
  method StrToIntegral(w: Width, signed: bool, src: string) returns (r: Expected<int>, rest: string)
    ensures r.Ok? ==> Denotes(w, signed, src, r.value, rest)
    ensures r.Err? ==> rest == src && forall v, tail :: !Denotes(w, signed, src, v, tail)
    ensures r.Err? ==> (r.code == PositiveOverflow || r.code == NegativeOverflow <==> Overflows(w, signed, src, r.code))
  {
    rest := src;
    var b := SkipBlanks(src);
    if b >= |src| { NothingRead(signed, src, b); return Err(EmptyInputString), src; }
    ghost var a := b;
    var negative := false;
    if signed && !IsDigit(src[b]) {
      if src[b] == '-' { negative := true; }
      else if src[b] != '+' { NothingRead(signed, src, a); return Err(InvalidLeadingChar), src; }
      b := b + 1;
    }
    if signed && b >= |src| { NothingRead(signed, src, a); return Err(NoDigits), src; }
    if !IsDigit(src[b]) { NothingRead(signed, src, a); return Err(NonDigitChar), src; }
    var m := FindFirstNonDigit(src, b + 1);
    assert AllDigits(src[b..m]) by { assert src[b..m] == [src[b]] + src[b + 1..m]; }
    Cut(signed, src, a, b, m);
    assert src[a..b] == "-" <==> negative;
    Conclude(w, signed, src, src[..a], src[a..b], src[b..m], src[m..]);
    r := ConvertRun(w, signed, negative, src[b..m]);
    if r.Ok? { rest := src[m..]; }
  }

  // ---------------------------------------------------------------- there and back

  lemma ReadingDenotes(w: Width, signed: bool, src: string, blanks: string, sign: string, digits: string,
                       rest: string, v: int)
    requires Reads(signed, src, blanks, sign, digits, rest) && v == Signed(sign, Value(digits)) && InRange(w, signed, v)
    ensures Denotes(w, signed, src, v, rest)
  {
  }

  /** What toAppend writes denotes the value it was given, alone or followed by anything but a digit. */
  lemma PrintedTextDenotes(w: Width, signed: bool, v: int, tail: string)
    requires InRange(w, signed, v) && (tail != "" ==> !IsDigit(tail[0]))
    ensures Denotes(w, signed, IntText(v) + tail, v, tail)
  {
    var n: nat := if v < 0 then 0 - v else v;
    ValueOfText(n);
    if v < 0 {
      PrintedReads(signed, "-", Text(n), tail);
      ReadingDenotes(w, signed, "-" + Text(n) + tail, "", "-", Text(n), tail, v);
    } else {
      PrintedReads(signed, "", Text(n), tail);
      assert "" + Text(n) == Text(n);
      ReadingDenotes(w, signed, Text(n) + tail, "", "", Text(n), tail, v);
    }
  }

  lemma PrintedReads(signed: bool, sign: string, digits: string, tail: string)
    requires (sign == "" || (signed && sign == "-")) && digits != "" && AllDigits(digits)
    requires (tail != "" ==> !IsDigit(tail[0]))
    ensures Reads(signed, sign + digits + tail, "", sign, digits, tail)
  {
    assert "" + sign + digits + tail == sign + digits + tail;
  }

  /** A text denotes at most one value, so parsing what was printed gives the value back. */
  lemma DenotesOne(w: Width, signed: bool, src: string, v: int, rest: string, v': int, rest': string)
    requires Denotes(w, signed, src, v, rest) && Denotes(w, signed, src, v', rest')
    ensures v == v' && rest == rest'
  {
    var blanks, sign, digits :| Reads(signed, src, blanks, sign, digits, rest) && v == Signed(sign, Value(digits));
    OnlyReading(signed, src, blanks, sign, digits, rest);
  }

  /** The overload of toAppend that the type of the value selects. */
  method ToAppend(signed: bool, value: int, result: string) returns (r: string)
    requires InRange(W64, signed, value)
    ensures r == result + IntText(value)
  {
    if signed { r := ToAppendSigned(value, result); } else { r := ToAppendUnsigned(value, result); }
  }

  /**
   * str_to_integral undoes toAppend on every value of every signed and unsigned type of up to eight
   * bytes (the small ones are printed through the eight-byte ones), and stops exactly where the
   * printed text ends, whatever but a digit follows.
   */
  method RoundTrip(w: Width, signed: bool, value: int, tail: string) returns (r: Expected<int>, rest: string)
    requires InRange(w, signed, value) && (tail != "" ==> !IsDigit(tail[0]))
    ensures r == Ok(value) && rest == tail
  {
    var text := ToAppend(signed, value, "");
    assert text == IntText(value);
    PrintedTextDenotes(w, signed, value, tail);
    r, rest := StrToIntegral(w, signed, text + tail);
    DenotesOne(w, signed, text + tail, value, tail, r.value, rest);
  }
}
