/** Bit strings, most significant bit first, read as polynomials over GF(2). */
module Gf2 {
  type Bits = seq<bool>

  function Zeros(n: nat): Bits { seq(n, _ => false) }

  function Xor(a: Bits, b: Bits): Bits
    requires |a| == |b|
  {
    seq(|a|, i requires 0 <= i < |a| => a[i] != b[i])
  }

  /** The low digits of n in base two. */
  function BitsOf(n: nat, len: nat): (b: Bits)
    ensures |b| == len
  {
    if len == 0 then [] else BitsOf(n / 2, len - 1) + [n % 2 == 1]
  }

  function Value(b: Bits): nat { if b == [] then 0 else 2 * Value(b[..|b| - 1]) + (if b[|b| - 1] then 1 else 0) }

  lemma {:induction false} BitsOfValue(b: Bits)
    ensures BitsOf(Value(b), |b|) == b
  {
    if b != [] {
      BitsOfValue(b[..|b| - 1]);
      assert b == b[..|b| - 1] + [b[|b| - 1]];
    }
  }

  function PowerOfTwo(n: nat): nat { if n == 0 then 1 else 2 * PowerOfTwo(n - 1) }

  lemma {:induction false} ValueBound(b: Bits)
    ensures Value(b) < PowerOfTwo(|b|)
  {
    if b != [] { ValueBound(b[..|b| - 1]); }
  }

  lemma ByteBound(b: Bits)
    requires |b| == 8
    ensures Value(b) < 256
  {
    ValueBound(b);
    assert PowerOfTwo(8) == 256;
  }

  // ---------------------------------------------------------------- shift and reduce

  /** A(X) * X mod P(X), with P(X) = X^k + p for the k bits p. */
  function MulXmod(a: Bits, p: Bits): (r: Bits)
    requires |a| == |p| > 0
    ensures |r| == |a|
  {
    var shifted := a[1..] + [false];
    if a[0] then Xor(shifted, p) else shifted
  }

  function MulXkmod(a: Bits, k: nat, p: Bits): (r: Bits)
    requires |a| == |p| > 0
    ensures |r| == |a|
  {
    if k == 0 then a else MulXmod(MulXkmod(a, k - 1, p), p)
  }

  lemma XorAssoc(a: Bits, b: Bits, c: Bits)
    requires |a| == |b| == |c|
    ensures Xor(Xor(a, b), c) == Xor(a, Xor(b, c))
  {
  }

  lemma XorZeros(a: Bits)
    ensures Xor(a, Zeros(|a|)) == a
  {
  }

  lemma MulXmodLinear(a: Bits, b: Bits, p: Bits)
    requires |a| == |b| == |p| > 0
    ensures MulXmod(Xor(a, b), p) == Xor(MulXmod(a, p), MulXmod(b, p))
  {
    var l, r := MulXmod(Xor(a, b), p), Xor(MulXmod(a, p), MulXmod(b, p));
    forall i | 0 <= i < |p| ensures l[i] == r[i] { }
    assert l == r;
  }

  lemma {:induction false} MulXkmodLinear(a: Bits, b: Bits, k: nat, p: Bits)
    requires |a| == |b| == |p| > 0
    ensures MulXkmod(Xor(a, b), k, p) == Xor(MulXkmod(a, k, p), MulXkmod(b, k, p))
  {
    if k > 0 {
      MulXkmodLinear(a, b, k - 1, p);
      MulXmodLinear(MulXkmod(a, k - 1, p), MulXkmod(b, k - 1, p), p);
    }
  }

  lemma {:induction false} MulXkmodAdd(a: Bits, j: nat, k: nat, p: Bits)
    requires |a| == |p| > 0
    ensures MulXkmod(a, j + k, p) == MulXkmod(MulXkmod(a, j, p), k, p)
  {
    if k > 0 { MulXkmodAdd(a, j, k - 1, p); }
  }

  /** As long as nothing is shifted out there is nothing to reduce. */
  lemma {:induction false} ShiftOnly(a: Bits, k: nat, p: Bits)
    requires |a| == |p| > 0 && k <= |a| && forall i | 0 <= i < k :: !a[i]
    ensures MulXkmod(a, k, p) == a[k..] + Zeros(k)
  {
    if k > 0 {
      ShiftOnly(a, k - 1, p);
      assert (a[k - 1..] + Zeros(k - 1))[1..] + [false] == a[k..] + Zeros(k);
    }
  }

  // ---------------------------------------------------------------- one bit at a time

  /** fp * X + bit, mod P. */
  function UpdateBit(fp: Bits, p: Bits, bit: bool): (r: Bits)
    requires |fp| == |p| > 0
    ensures |r| == |fp|
  {
    var m := MulXmod(fp, p);
    m[|m| - 1 := m[|m| - 1] != bit]
  }

  function UpdateBits(fp: Bits, p: Bits, v: Bits): (r: Bits)
    requires |fp| == |p| > 0
    ensures |r| == |fp|
    decreases |v|
  {
    if v == [] then fp else UpdateBit(UpdateBits(fp, p, v[..|v| - 1]), p, v[|v| - 1])
  }

  lemma {:induction false} UpdateAppend(fp: Bits, p: Bits, u: Bits, v: Bits)
    requires |fp| == |p| > 0
    ensures UpdateBits(fp, p, u + v) == UpdateBits(UpdateBits(fp, p, u), p, v)
    decreases |v|
  {
    if v == [] {
      assert u + v == u;
    } else {
      UpdateAppend(fp, p, u, v[..|v| - 1]);
      assert (u + v)[..|u + v| - 1] == u + v[..|v| - 1];
    }
  }

  lemma UpdateBitLinear(m: Bits, pad: Bits, p: Bits, bit: bool)
    requires |m| == |pad| == |p| > 0 && !pad[0]
    ensures UpdateBit(Xor(m, pad), p, bit) == Xor(MulXmod(m, p), pad[1..] + [bit])
  {
    MulXmodLinear(m, pad, p);
    assert MulXmod(pad, p) == pad[1..] + [false];
    var l, r := UpdateBit(Xor(m, pad), p, bit), Xor(MulXmod(m, p), pad[1..] + [bit]);
    assert forall i | 0 <= i < |p| :: l[i] == r[i];
  }

  function Padded(v: Bits, k: nat): (r: Bits)
    requires |v| <= k
    ensures |r| == k
  {
    Zeros(k - |v|) + v
  }

  lemma PaddedAppend(u: Bits, bit: bool, k: nat)
    requires |u| < k
    ensures !Padded(u, k)[0] && Padded(u, k)[1..] + [bit] == Padded(u + [bit], k)
  {
  }

  /** Feeding at most k bits is one multiplication and one addition. */
  lemma {:induction false} UpdateIsLinear(fp: Bits, p: Bits, v: Bits)
    requires |fp| == |p| > 0 && |v| <= |fp|
    ensures UpdateBits(fp, p, v) == Xor(MulXkmod(fp, |v|, p), Padded(v, |fp|))
    decreases |v|
  {
    if v == [] {
      assert Padded(v, |fp|) == Zeros(|fp|);
      XorZeros(fp);
    } else {
      var u, bit := v[..|v| - 1], v[|v| - 1];
      assert v == u + [bit];
      PaddedAppend(u, bit, |fp|);
      UpdateIsLinear(fp, p, u);
      UpdateBitLinear(MulXkmod(fp, |u|, p), Padded(u, |fp|), p, bit);
    }
  }

  // ---------------------------------------------------------------- many bits at a time

  /** table[i][q] of the code: Q(X) * X^(k + 8 i) mod P(X), as make_poly_table builds it. */
  function TableEntry(q: Bits, i: nat, p: Bits): (r: Bits)
    requires |q| == 8 <= |p|
    ensures |r| == |p|
  {
    MulXkmod(q + Zeros(|p| - 8), 8 * (i + 1), p)
  }

  /** The table lookups of update8, update32 and update64: the last byte shifted out first. */
  function Absorb(acc: Bits, out: Bits, i: nat, p: Bits): (r: Bits)
    requires |acc| == |p| >= 8 && |out| % 8 == 0
    ensures |r| == |acc|
    decreases |out|
  {
    if out == [] then acc
    else Absorb(Xor(acc, TableEntry(out[|out| - 8..], i, p)), out[..|out| - 8], i + 1, p)
  }

  lemma AbsorbStep(acc: Bits, out: Bits, i: nat, p: Bits)
    requires |acc| == |p| >= 8 && |out| % 8 == 0
    ensures out == [] ==> Absorb(acc, out, i, p) == acc
    ensures out != [] ==>
      && |out| >= 8 && (|out| - 8) % 8 == 0
      && Absorb(acc, out, i, p) == Absorb(Xor(acc, TableEntry(out[|out| - 8..], i, p)), out[..|out| - 8], i + 1, p)
  {
  }

  /** One byte somewhere in the shifted-out bits: first it moves to the top, then it is reduced. */
  lemma OneByte(before: nat, last: Bits, i: nat, p: Bits)
    requires |last| == 8 && before + 8 <= |p|
    ensures MulXkmod(Zeros(before) + last + Zeros(|p| - before - 8), before + 8 * (i + 1), p) == TableEntry(last, i, p)
  {
    var low := Zeros(before) + last + Zeros(|p| - before - 8);
    MulXkmodAdd(low, before, 8 * (i + 1), p);
    ShiftOnly(low, before, p);
    assert low[before..] + Zeros(before) == last + Zeros(|p| - 8);
  }

  /** What was shifted out before a byte and the byte itself reduce separately. */
  lemma ReduceBoth(acc: Bits, rest: Bits, last: Bits, i: nat, p: Bits)
    requires |acc| == |p| >= 8 && |last| == 8 && |rest| + 8 <= |p|
    ensures Xor(Xor(acc, TableEntry(last, i, p)), MulXkmod(rest + Zeros(|p| - |rest|), |rest| + 8 * (i + 1), p))
         == Xor(acc, MulXkmod(rest + last + Zeros(|p| - |rest| - 8), |rest| + 8 + 8 * i, p))
  {
    var k, n := |p|, |rest| + 8 + 8 * i;
    var high, low := rest + Zeros(k - |rest|), Zeros(|rest|) + last + Zeros(k - |rest| - 8);
    OneByte(|rest|, last, i, p);
    Split(rest, last, k);
    MulXkmodLinear(low, high, n, p);
    XorAssoc(acc, TableEntry(last, i, p), MulXkmod(high, n, p));
  }

  /** The lookups add up to the reduction of everything that was shifted out. */
  lemma {:induction false} AbsorbIsReduction(acc: Bits, out: Bits, i: nat, p: Bits)
    requires |acc| == |p| >= 8 && |out| % 8 == 0 && |out| <= |p|
    ensures Absorb(acc, out, i, p) == Xor(acc, MulXkmod(out + Zeros(|p| - |out|), |out| + 8 * i, p))
    decreases |out|
  {
    AbsorbStep(acc, out, i, p);
    if out == [] {
      assert out + Zeros(|p|) == Zeros(|p|);
      ZeroStays(8 * i, p);
      XorZeros(acc);
    } else {
      var rest, last := out[..|out| - 8], out[|out| - 8..];
      assert out == rest + last;
      AbsorbIsReduction(Xor(acc, TableEntry(last, i, p)), rest, i + 1, p);
      ReduceBoth(acc, rest, last, i, p);
    }
  }

  lemma Split(rest: Bits, last: Bits, k: nat)
    requires |rest| + |last| <= k
    ensures rest + last + Zeros(k - |rest| - |last|)
      == Xor(Zeros(|rest|) + last + Zeros(k - |rest| - |last|), rest + Zeros(k - |rest|))
  {
  }

  lemma {:induction false} ZeroStays(k: nat, p: Bits)
    requires |p| > 0
    ensures MulXkmod(Zeros(|p|), k, p) == Zeros(|p|)
  {
    if k > 0 { ZeroStays(k - 1, p); assert Zeros(|p|)[1..] + [false] == Zeros(|p|); }
  }

  /** Multiplying by X^n moves the low bits up and reduces the n high ones. */
  lemma MulXkmodSplit(fp: Bits, n: nat, p: Bits)
    requires |fp| == |p| > 0 && n <= |fp|
    ensures MulXkmod(fp, n, p) == Xor(fp[n..] + Zeros(n), MulXkmod(fp[..n] + Zeros(|fp| - n), n, p))
  {
    var high, low := fp[..n] + Zeros(|fp| - n), Zeros(n) + fp[n..];
    assert fp == Xor(low, high) by { Halves(fp, n); }
    MulXkmodLinear(low, high, n, p);
    assert MulXkmod(low, n, p) == fp[n..] + Zeros(n) by {
      ShiftOnly(low, n, p);
      assert low[n..] == fp[n..];
    }
  }

  lemma Halves(fp: Bits, n: nat)
    requires n <= |fp|
    ensures fp == Xor(Zeros(n) + fp[n..], fp[..n] + Zeros(|fp| - n))
  {
  }

  lemma Regroup(kept: Bits, v: Bits, reduced: Bits)
    requires |reduced| == |kept| + |v|
    ensures Xor(Xor(kept + Zeros(|v|), reduced), Padded(v, |reduced|)) == Xor(kept + v, reduced)
  {
  }

  /** Shifting in v and reducing what falls out is feeding the bits of v one by one. */
  lemma FastIsSlow(fp: Bits, p: Bits, v: Bits)
    requires |fp| == |p| >= 8 && |v| % 8 == 0 && |v| <= |fp|
    ensures Absorb(fp[|v|..] + v, fp[..|v|], 0, p) == UpdateBits(fp, p, v)
  {
    var n := |v|;
    var reduced := MulXkmod(fp[..n] + Zeros(|fp| - n), n, p);
    AbsorbIsReduction(fp[n..] + v, fp[..n], 0, p);
    UpdateIsLinear(fp, p, v);
    MulXkmodSplit(fp, n, p);
    Regroup(fp[n..], v, reduced);
  }
}

/** Polynomials over GF(2) as sets of exponents, and what the remainder by P means for them. */
module Gf2Polynomials {
  import opened Gf2

  type Poly = set<nat>

  function Add(a: Poly, b: Poly): Poly { (a - b) + (b - a) }

  function TimesX(a: Poly): Poly { set e | e in a :: e + 1 }

  /** Q(X) * P(X) by Horner's rule, for the coefficients q of Q. */
  function Times(q: Bits, p: Poly): Poly
    decreases |q|
  {
    if q == [] then {} else
    var h := TimesX(Times(q[..|q| - 1], p));
    if q[|q| - 1] then Add(h, p) else h
  }

  /** The coefficient of X^e. */
  predicate Coefficient(b: Bits, e: nat) { e < |b| && b[|b| - 1 - e] }

  function PolyOf(b: Bits): Poly { set e: nat | e < |b| && Coefficient(b, e) }

  /** X^k + p. */
  function Modulus(p: Bits): Poly { PolyOf(p) + {|p|} }

  lemma Shifted(a: Poly, e: nat)
    ensures e in TimesX(a) <==> e > 0 && e - 1 in a
  {
    if e > 0 && e - 1 in a { assert e - 1 + 1 in TimesX(a); }
  }

  lemma TimesXAdd(a: Poly, b: Poly)
    ensures TimesX(Add(a, b)) == Add(TimesX(a), TimesX(b))
  {
    forall e: nat ensures e in TimesX(Add(a, b)) <==> e in Add(TimesX(a), TimesX(b)) {
      Shifted(Add(a, b), e);
      Shifted(a, e);
      Shifted(b, e);
    }
  }

  function Constant(bit: bool): Poly { if bit then {0} else {} }

  lemma PolyOfAppend(b: Bits, bit: bool)
    ensures PolyOf(b + [bit]) == Add(TimesX(PolyOf(b)), Constant(bit))
  {
    forall e: nat ensures e in PolyOf(b + [bit]) <==> e in Add(TimesX(PolyOf(b)), Constant(bit)) {
      Shifted(PolyOf(b), e);
    }
  }

  lemma MulXmodIsReduction(a: Bits, p: Bits)
    requires |a| == |p| > 0
    ensures PolyOf(MulXmod(a, p)) == Add(TimesX(PolyOf(a)), if a[0] then Modulus(p) else {})
  {
    var m := if a[0] then Modulus(p) else {};
    forall e: nat ensures e in PolyOf(MulXmod(a, p)) <==> e in Add(TimesX(PolyOf(a)), m) {
      Shifted(PolyOf(a), e);
      MulXmodCoefficient(a, p, e);
    }
  }

  lemma MulXmodCoefficient(a: Bits, p: Bits, e: nat)
    requires |a| == |p| > 0
    ensures Coefficient(MulXmod(a, p), e) <==>
      e < |a| && ((e > 0 && Coefficient(a, e - 1)) != (a[0] && Coefficient(p, e)))
  {
    var r := MulXmod(a, p);
    if e < |a| { assert r[|r| - 1 - e] == ((e > 0 && a[|a| - e]) != (a[0] && p[|p| - 1 - e])); }
  }

  lemma UpdateBitIsStep(fp: Bits, p: Bits, bit: bool)
    requires |fp| == |p| > 0
    ensures PolyOf(UpdateBit(fp, p, bit))
      == Add(Add(TimesX(PolyOf(fp)), if fp[0] then Modulus(p) else {}), Constant(bit))
  {
    MulXmodIsReduction(fp, p);
    var m, u := MulXmod(fp, p), UpdateBit(fp, p, bit);
    forall e: nat ensures e in PolyOf(u) <==> e in Add(PolyOf(m), Constant(bit)) { }
  }

  /** The coefficients of the quotient: the bits that the update reduced. */
  function Quotient(fp: Bits, p: Bits, v: Bits): Bits
    requires |fp| == |p| > 0
    decreases |v|
  {
    if v == [] then [] else Quotient(fp, p, v[..|v| - 1]) + [UpdateBits(fp, p, v[..|v| - 1])[0]]
  }

  lemma Cancel(a: Poly, b: Poly, m: Poly, c: Poly)
    ensures Add(Add(a, m), Add(Add(b, m), c)) == Add(Add(a, b), c)
  {
  }

  /** One bit of the long division: A = T + R gives A X + bit = (T X + m) + (R X + m + bit). */
  lemma DivideStep(a: Poly, t: Poly, r: Poly, m: Poly, c: Poly)
    requires a == Add(t, r)
    ensures Add(TimesX(a), c) == Add(Add(TimesX(t), m), Add(Add(TimesX(r), m), c))
  {
    TimesXAdd(t, r);
    Cancel(TimesX(t), TimesX(r), m, c);
  }

  lemma TimesAppend(q: Bits, bit: bool, p: Poly)
    ensures Times(q + [bit], p) == Add(TimesX(Times(q, p)), if bit then p else {})
  {
    assert (q + [bit])[..|q|] == q;
  }

  lemma DivideOnce(a: Poly, q: Bits, r: Bits, p: Bits, bit: bool)
    requires |r| == |p| > 0 && a == Add(Times(q, Modulus(p)), PolyOf(r))
    ensures Add(TimesX(a), Constant(bit)) == Add(Times(q + [r[0]], Modulus(p)), PolyOf(UpdateBit(r, p, bit)))
  {
    UpdateBitIsStep(r, p, bit);
    TimesAppend(q, r[0], Modulus(p));
    DivideStep(a, Times(q, Modulus(p)), PolyOf(r), if r[0] then Modulus(p) else {}, Constant(bit));
  }

  /** Feeding v to fp divides fp * X^|v| + v by P and keeps the remainder. */
  lemma {:induction false} UpdateDivides(fp: Bits, p: Bits, v: Bits)
    requires |fp| == |p| > 0
    ensures PolyOf(fp + v) == Add(Times(Quotient(fp, p, v), Modulus(p)), PolyOf(UpdateBits(fp, p, v)))
    decreases |v|
  {
    if v == [] {
      assert fp + v == fp;
    } else {
      var u, bit := v[..|v| - 1], v[|v| - 1];
      UpdateDivides(fp, p, u);
      assert fp + v == fp + u + [bit];
      PolyOfAppend(fp + u, bit);
      DivideOnce(PolyOf(fp + u), Quotient(fp, p, u), UpdateBits(fp, p, u), p, bit);
    }
  }

  // ---------------------------------------------------------------- the remainder is unique

  lemma {:induction false} TimesAdd(q: Bits, q': Bits, p: Poly)
    requires |q| == |q'|
    ensures Times(Xor(q, q'), p) == Add(Times(q, p), Times(q', p))
    decreases |q|
  {
    if q != [] {
      var a, b := q[..|q| - 1], q'[..|q| - 1];
      TimesAdd(a, b, p);
      assert Xor(q, q')[..|q| - 1] == Xor(a, b);
      TimesXAdd(Times(a, p), Times(b, p));
      var x, y := TimesX(Times(a, p)), TimesX(Times(b, p));
      var m, n := if q[|q| - 1] then p else {}, if q'[|q| - 1] then p else {};
      assert Add(Add(x, y), Add(m, n)) == Add(Add(x, m), Add(y, n));
    }
  }

  lemma {:induction false} LeadingZeros(n: nat, q: Bits, p: Poly)
    ensures Times(Zeros(n) + q, p) == Times(q, p)
    decreases |q| + n
  {
    if q != [] {
      LeadingZeros(n, q[..|q| - 1], p);
      assert (Zeros(n) + q)[..n + |q| - 1] == Zeros(n) + q[..|q| - 1];
    } else if n > 0 {
      LeadingZeros(n - 1, [], p);
      assert (Zeros(n) + q)[..n - 1] == Zeros(n - 1) + [];
    }
  }

  /** A non-zero multiple of P has the degree of P at least. */
  lemma {:induction false} MultipleIsLarge(q: Bits, p: Bits)
    requires q != [] && q[0]
    ensures |p| + |q| - 1 in Times(q, Modulus(p)) && forall e | e in Times(q, Modulus(p)) :: e <= |p| + |q| - 1
    decreases |q|
  {
    var h := Times(q[..|q| - 1], Modulus(p));
    forall e ensures e in TimesX(h) <==> e > 0 && e - 1 in h { if e >= 0 { Shifted(h, e); } }
    if |q| > 1 { MultipleIsLarge(q[..|q| - 1], p); }
  }

  lemma {:induction false} StripZeros(q: Bits) returns (n: nat)
    requires exists i | 0 <= i < |q| :: q[i]
    ensures n < |q| && q[n] && q == Zeros(n) + q[n..]
    decreases |q|
  {
    if q[0] {
      n := 0;
    } else {
      var m := StripZeros(q[1..]);
      n := m + 1;
      assert q == [false] + q[1..];
      assert q == Zeros(n) + q[n..];
    }
  }

  ghost predicate Reduced(r: Poly, k: nat) { forall e | e in r :: e < k }

  /** A multiple of P below the degree of P is zero. */
  lemma SmallMultipleIsZero(x: Bits, p: Bits)
    requires Reduced(Times(x, Modulus(p)), |p|)
    ensures Times(x, Modulus(p)) == {}
  {
    if exists i | 0 <= i < |x| :: x[i] {
      var z := StripZeros(x);
      LeadingZeros(z, x[z..], Modulus(p));
      MultipleIsLarge(x[z..], p);
    } else {
      assert x == Zeros(|x|) + [];
      LeadingZeros(|x|, [], Modulus(p));
    }
  }

  lemma AddRearrange(a: Poly, r: Poly, b: Poly, r': Poly)
    requires Add(a, r) == Add(b, r')
    ensures Add(a, b) == Add(r, r')
  {
    forall e: nat ensures e in Add(a, b) <==> e in Add(r, r') {
      assert e in Add(a, r) <==> e in Add(b, r');
    }
  }

  lemma RemainderIsUnique(q: Bits, r: Poly, q': Bits, r': Poly, p: Bits)
    requires Reduced(r, |p|) && Reduced(r', |p|)
    requires Add(Times(q, Modulus(p)), r) == Add(Times(q', Modulus(p)), r')
    ensures r == r'
  {
    var n := |q| + |q'|;
    var a, b := Zeros(n - |q|) + q, Zeros(n - |q'|) + q';
    LeadingZeros(n - |q|, q, Modulus(p));
    LeadingZeros(n - |q'|, q', Modulus(p));
    TimesAdd(a, b, Modulus(p));
    AddRearrange(Times(q, Modulus(p)), r, Times(q', Modulus(p)), r');
    SmallMultipleIsZero(Xor(a, b), p);
    forall e: nat ensures e in r <==> e in r' { assert e !in Add(r, r'); }
  }
}

/** Machine words as bit strings, most significant bit first. */
module Words {
  import opened Gf2

  type Word = w: Bits | |w| == 64 witness Zeros(64)

  function Shl(w: Word, n: nat): Word
    requires n <= 64
  {
    w[n..] + Zeros(n)
  }

  function Shr(w: Word, n: nat): Word
    requires n <= 64
  {
    Zeros(n) + w[..64 - n]
  }

  function Or(a: Word, b: Word): Word { seq(64, i requires 0 <= i < 64 => a[i] || b[i]) }

  /** A narrower unsigned value converted to 64 bits. */
  function Widen(v: Bits): Word
    requires |v| <= 64
  {
    Zeros(64 - |v|) + v
  }

  /** The leading `bits` bits of one or two words. */
  function Leading(words: seq<Word>, bits: nat): Bits
    requires Supported(bits) && |words| == WordCount(bits)
  {
    if |words| == 1 then words[0] else words[0] + words[1][..bits - 64]
  }

  predicate Supported(bits: nat) { bits == 64 || bits == 96 || bits == 128 }

  function WordCount(bits: nat): nat
    requires bits > 0
  {
    1 + (bits - 1) / 64
  }

  /** The unused low bits of the last word are zero. */
  predicate Clean(words: seq<Word>, bits: nat)
    requires Supported(bits) && |words| == WordCount(bits)
  {
    bits == 96 ==> words[1][32..] == Zeros(32)
  }
}

/** Fingerprint<BITS> and make_poly_table (folly/folly/Fingerprint.h, folly/folly/Fingerprint.cpp). */
module Fingerprint {
  import opened Gf2
  import opened Gf2Polynomials
  import opened Words

  type Table = seq<seq<seq<Word>>>

  ghost predicate TableOk(table: Table, bits: nat, p: Bits)
    requires Supported(bits) && |p| == bits
  {
    && |table| == 8 && (forall i | 0 <= i < 8 :: |table[i]| == 256)
    && forall i, x | 0 <= i < 8 && 0 <= x < 256 :: EntryOk(table[i][x], bits, p, i, x)
  }

  ghost predicate EntryOk(entry: seq<Word>, bits: nat, p: Bits, i: nat, x: nat)
    requires Supported(bits) && |p| == bits
  {
    && |entry| == WordCount(bits) && Clean(entry, bits)
    && Leading(entry, bits) == TableEntry(BitsOf(x, 8), i, p)
  }

  /** The shifts of the nine shlor specialisations: the words move left by n bits and v comes in on the right. */
  function Shlor(fp: seq<Word>, bits: nat, v: Bits): (r: (Bits, seq<Word>))
    requires Supported(bits) && |fp| == WordCount(bits) && (|v| == 8 || |v| == 32 || |v| == 64)
  {
    var n := |v|;
    if bits == 64 then (fp[0][..n], [Or(Shl(fp[0], n), Widen(v))])
    else if bits == 96 then
      (fp[0][..n],
       if n == 64 then [Or(fp[1], Shr(v, 32)), Shl(v, 32)]
       else [Or(Shl(fp[0], n), Shr(fp[1], 64 - n)),
             if n == 32 then Shl(Widen(v), 32) else Or(Shl(fp[1], n), Shl(Widen(v), 32))])
    else
      (fp[0][..n],
       if n == 64 then [fp[1], v]
       else [Or(Shl(fp[0], n), Shr(fp[1], 64 - n)), Or(Shl(fp[1], n), Widen(v))])
  }

  lemma ShiftPair(w0: Word, w1: Word, n: nat)
    requires n <= 64
    ensures Or(Shl(w0, n), Shr(w1, 64 - n)) == w0[n..] + w1[..n]
  {
  }

  lemma ShiftLast(w: Word, v: Bits)
    requires |v| <= 64
    ensures Or(Shl(w, |v|), Widen(v)) == w[|v|..] + v
  {
  }

  lemma ShiftHalf(w: Word, v: Bits)
    requires |v| <= 32 && w[32..] == Zeros(32)
    ensures Or(Shl(w, |v|), Shl(Widen(v), 32)) == w[|v|..32] + v + Zeros(32)
  {
    var l, r := Or(Shl(w, |v|), Shl(Widen(v), 32)), w[|v|..32] + v + Zeros(32);
    forall i | 0 <= i < 64 ensures l[i] == r[i] {
      if 32 - |v| <= i < 64 - |v| { assert !w[32..][i + |v| - 32]; }
    }
  }

  lemma FillHalf(w: Word, v: Word)
    requires w[32..] == Zeros(32)
    ensures Or(w, Shr(v, 32)) == w[..32] + v[..32]
  {
    var l, r := Or(w, Shr(v, 32)), w[..32] + v[..32];
    forall i | 0 <= i < 64 ensures l[i] == r[i] {
      if 32 <= i { assert !w[32..][i - 32]; }
    }
  }

  lemma OnlyHalf(v: Bits)
    requires |v| == 32
    ensures Shl(Widen(v), 32) == v + Zeros(32)
  {
  }

  /** On the fingerprint's own bits every specialisation is the same shift. */
  lemma ShlorShifts(fp: seq<Word>, bits: nat, v: Bits)
    requires Supported(bits) && |fp| == WordCount(bits) && Clean(fp, bits) && (|v| == 8 || |v| == 32 || |v| == 64)
    ensures var r := Shlor(fp, bits, v);
      && |r.1| == |fp| && Clean(r.1, bits)
      && r.0 == Leading(fp, bits)[..|v|] && Leading(r.1, bits) == Leading(fp, bits)[|v|..] + v
  {
    var r := Shlor(fp, bits, v);
    if bits == 64 {
      ShiftLast(fp[0], v);
    } else if bits == 128 {
      ShiftPair(fp[0], fp[1], |v|);
      ShiftLast(fp[1], v);
      assert Leading(r.1, bits) == Leading(fp, bits)[|v|..] + v;
    } else {
      HalfShifts(fp, v);
    }
  }

  lemma HalfShifts(fp: seq<Word>, v: Bits)
    requires |fp| == 2 && fp[1][32..] == Zeros(32) && (|v| == 8 || |v| == 32 || |v| == 64)
    ensures var r := Shlor(fp, 96, v);
      && |r.1| == 2 && r.1[1][32..] == Zeros(32) && r.0 == (fp[0] + fp[1][..32])[..|v|]
      && r.1[0] + r.1[1][..32] == (fp[0] + fp[1][..32])[|v|..] + v
  {
    if |v| == 64 {
      FillHalf(fp[1], v);
    } else {
      ShiftPair(fp[0], fp[1], |v|);
      if |v| == 32 { OnlyHalf(v); } else { ShiftHalf(fp[1], v); }
    }
  }

  class Fingerprint {
    const bits: nat
    const poly: Bits
    const table: Table
    var fp: array<Word>

    ghost predicate Valid()
      reads this, fp
    {
      && Supported(bits) && |poly| == bits && TableOk(table, bits, poly)
      && fp.Length == WordCount(bits) && Clean(fp[..], bits)
    }

    ghost function Value(): (r: Bits)
      requires Valid()
      reads this, fp
      ensures |r| == |poly|
    {
      Leading(fp[..], bits)
    }

    constructor (bits: nat, poly: Bits, table: Table)
      requires Supported(bits) && |poly| == bits && TableOk(table, bits, poly)
      ensures Valid() && fresh(fp) && this.bits == bits && this.poly == poly && this.table == table
      ensures Value() == [true] + Zeros(bits - 1)
    {
      this.bits, this.poly, this.table := bits, poly, table;
      fp := new Word[WordCount(bits)](_ => Zeros(64));
      new;
      fp[0] := [true] + Zeros(63);
      assert Leading(fp[..], bits) == [true] + Zeros(bits - 1);
    }

    /** xortab */
    method XorTab(entry: seq<Word>)
      requires Valid() && |entry| == WordCount(bits) && Clean(entry, bits)
      modifies fp
      ensures Valid() && Value() == Xor(old(Value()), Leading(entry, bits))
    {
      var i := 0;
      while i < fp.Length
        invariant 0 <= i <= fp.Length
        invariant forall j | 0 <= j < i :: fp[j] == Xor(old(fp[j]), entry[j])
        invariant forall j | i <= j < fp.Length :: fp[j] == old(fp[j])
      {
        fp[i] := Xor(fp[i], entry[i]);
        i := i + 1;
      }
      XorWords(old(fp[..]), entry, fp[..], bits);
    }

    /** shlor8, shlor32, shlor64 */
    method ShiftIn(v: Bits) returns (out: Bits)
      requires Valid() && (|v| == 8 || |v| == 32 || |v| == 64)
      modifies fp
      ensures Valid() && out == old(Value())[..|v|] && Value() == old(Value())[|v|..] + v
    {
      ShlorShifts(fp[..], bits, v);
      var r := Shlor(fp[..], bits, v);
      out := r.0;
      ghost var words := r.1;
      var i := 0;
      while i < fp.Length
        invariant 0 <= i <= fp.Length && forall j | 0 <= j < i :: fp[j] == words[j]
      {
        fp[i] := r.1[i];
        i := i + 1;
      }
      assert fp[..] == words;
    }

    /** update8, update32, update64: shift in, then one table lookup for each byte shifted out. */
    method UpdateWord(v: Bits)
      requires Valid() && (|v| == 8 || |v| == 32 || |v| == 64)
      modifies fp
      ensures Valid() && Value() == UpdateBits(old(Value()), poly, v)
    {
      ghost var was := Value();
      var out := ShiftIn(v);
      Reduce(out);
      FastIsSlow(was, poly, v);
    }

    /** The loop of table lookups over the bytes that were shifted out, the last one first. */
    method Reduce(shifted: Bits)
      requires Valid() && (|shifted| == 8 || |shifted| == 32 || |shifted| == 64)
      modifies fp
      ensures Valid() && Value() == Absorb(old(Value()), shifted, 0, poly)
    {
      var n := if |shifted| == 8 then 1 else if |shifted| == 32 then 4 else 8;
      var i, out := 0, shifted;
      ghost var goal := Absorb(Value(), shifted, 0, poly);
      while i < n
        invariant 0 <= i <= n && Valid() && |out| == 8 * (n - i)
        invariant Absorb(Value(), out, i, poly) == goal
      {
        out := ReduceByte(out, i);
        i := i + 1;
      }
      AbsorbStep(Value(), out, i, poly);
    }

    method ReduceByte(out: Bits, i: nat) returns (rest: Bits)
      requires Valid() && |out| >= 8 && |out| % 8 == 0 && i < 8
      modifies fp
      ensures Valid() && |rest| == |out| - 8 && |rest| % 8 == 0
      ensures Absorb(Value(), rest, i + 1, poly) == Absorb(old(Value()), out, i, poly)
    {
      AbsorbStep(Value(), out, i, poly);
      Lookup(out[|out| - 8..], i);
      rest := out[..|out| - 8];
    }

    /** update32 and update64 equal as many update8 calls on the bytes in big-endian order. */
    method UpdateBigEndian(v: Bits)
      requires Valid() && (|v| == 32 || |v| == 64)
      modifies fp
      ensures Valid() && Value() == UpdateEach(old(Value()), poly, Bytes(v))
    {
      ghost var was := Value();
      UpdateWord(v);
      ConcatBytes(v);
      WordIsBytes(was, poly, Bytes(v));
    }

    /** xortab(table[i][out & 0xff]) */
    method Lookup(last: Bits, i: nat)
      requires Valid() && |last| == 8 && i < 8
      modifies fp
      ensures Valid() && Value() == Xor(old(Value()), TableEntry(last, i, poly))
    {
      ByteBound(last);
      BitsOfValue(last);
      var x := Gf2.Value(last);
      assert EntryOk(table[i][x], bits, poly, i, x);
      XorTab(table[i][x]);
    }

    /** update(str) */
    method Update(str: seq<Bits>)
      requires Valid() && forall c | c in str :: |c| == 8
      modifies fp
      ensures Valid() && Value() == UpdateBits(old(Value()), poly, Concat(str))
    {
      var i := 0;
      ghost var was := Value();
      assert str[..0] == [];
      while i < |str|
        invariant 0 <= i <= |str| && Valid()
        invariant Value() == UpdateBits(was, poly, Concat(str[..i]))
      {
        UpdateWord(str[i]);
        assert str[..i + 1][..i] == str[..i];
        UpdateAppend(was, poly, Concat(str[..i]), str[i]);
        i := i + 1;
      }
      assert str[..|str|] == str;
    }
  }

  function Concat(str: seq<Bits>): (b: Bits) {
    if str == [] then [] else Concat(str[..|str| - 1]) + str[|str| - 1]
  }

  /** The bytes of a word, most significant first. */
  function Bytes(v: Bits): (bytes: seq<Bits>)
    requires |v| % 8 == 0
    ensures forall c | c in bytes :: |c| == 8
  {
    if v == [] then [] else Bytes(v[..|v| - 8]) + [v[|v| - 8..]]
  }

  lemma {:induction false} ConcatBytes(v: Bits)
    requires |v| % 8 == 0
    ensures Concat(Bytes(v)) == v && 8 * |Bytes(v)| == |v|
    decreases |v|
  {
    if v != [] {
      ConcatBytes(v[..|v| - 8]);
      assert Bytes(v)[..|Bytes(v)| - 1] == Bytes(v[..|v| - 8]);
      assert v[..|v| - 8] + v[|v| - 8..] == v;
    }
  }

  /** update32 and update64 take their bytes in big-endian order: they equal that many update8 calls. */
  lemma WordIsBytes(fp: Bits, p: Bits, bytes: seq<Bits>)
    requires |fp| == |p| > 0
    ensures UpdateBits(fp, p, Concat(bytes)) == UpdateEach(fp, p, bytes)
    decreases |bytes|
  {
    if bytes != [] {
      WordIsBytes(fp, p, bytes[..|bytes| - 1]);
      UpdateAppend(fp, p, Concat(bytes[..|bytes| - 1]), bytes[|bytes| - 1]);
    }
  }

  /** One update8 after the other. */
  function UpdateEach(fp: Bits, p: Bits, bytes: seq<Bits>): (r: Bits)
    requires |fp| == |p| > 0
    ensures |r| == |fp|
  {
    if bytes == [] then fp else UpdateBits(UpdateEach(fp, p, bytes[..|bytes| - 1]), p, bytes[|bytes| - 1])
  }

  /** The start value X^(k-1) followed by the message. */
  lemma StartPoly(k: nat, v: Bits)
    requires k > 0
    ensures PolyOf([true] + Zeros(k - 1) + v) == Add({k - 1 + |v|}, PolyOf(v))
  {
    var b := [true] + Zeros(k - 1) + v;
    forall e: nat ensures e in PolyOf(b) <==> e in Add({k - 1 + |v|}, PolyOf(v)) {
      if e < |v| { assert b[|b| - 1 - e] == v[|v| - 1 - e]; }
    }
  }

  /** The polynomial that is divided: X^(k-1) X^(8n) + message. */
  function Dividend(k: nat, str: seq<Bits>): (a: Poly)
    requires k > 0
  {
    Add({k - 1 + |Concat(str)|}, PolyOf(Concat(str)))
  }

  function FingerprintOf(p: Bits, str: seq<Bits>): (fp: Bits)
    requires |p| > 0
    ensures |fp| == |p|
  {
    UpdateBits([true] + Zeros(|p| - 1), p, Concat(str))
  }

  /** X^(k-1) X^(8n) + message = Q P + r with r of degree below k. */
  ghost predicate Divides(p: Bits, str: seq<Bits>, q: Bits, r: Poly)
    requires |p| > 0
  {
    Reduced(r, |p|) && Dividend(|p|, str) == Add(Times(q, Modulus(p)), r)
  }

  lemma FingerprintIsRemainder(p: Bits, str: seq<Bits>)
    requires |p| > 0
    ensures Divides(p, str, Quotient([true] + Zeros(|p| - 1), p, Concat(str)), PolyOf(FingerprintOf(p, str)))
  {
    UpdateDivides([true] + Zeros(|p| - 1), p, Concat(str));
    StartPoly(|p|, Concat(str));
  }

  ghost predicate IsRemainder(p: Bits, str: seq<Bits>, r: Poly)
    requires |p| > 0
  {
    exists q :: Divides(p, str, q, r)
  }

  /** The fingerprint of a message is the one remainder of X^(k-1) X^(8n) + message by P. */
  lemma FingerprintIsTheRemainder(p: Bits, str: seq<Bits>, r: Poly)
    requires |p| > 0
    ensures IsRemainder(p, str, r) <==> r == PolyOf(FingerprintOf(p, str))
  {
    FingerprintIsRemainder(p, str);
    forall q | Divides(p, str, q, r) ensures r == PolyOf(FingerprintOf(p, str)) {
      RemainderIsUnique(q, r, Quotient([true] + Zeros(|p| - 1), p, Concat(str)), PolyOf(FingerprintOf(p, str)), p);
    }
  }

  /**
   * fingerprint64, fingerprint96 and fingerprint128: the table is built, the bytes are fed through it
   * and the words are written out; what they hold is the remainder and nothing else.
   */
  method FingerprintString(bits: nat, poly: seq<Word>, str: seq<Bits>) returns (out: seq<Word>)
    requires Supported(bits) && |poly| == WordCount(bits) && Clean(poly, bits) && forall c | c in str :: |c| == 8
    ensures |out| == WordCount(bits) && Clean(out, bits)
    ensures |Leading(poly, bits)| == bits
    ensures forall r :: IsRemainder(Leading(poly, bits), str, r) <==> r == PolyOf(Leading(out, bits))
  {
    var table := MakePolyTable(bits, poly);
    ghost var p := Leading(poly, bits);
    var f := new Fingerprint(bits, Leading(poly, bits), table);
    f.Update(str);
    out := f.fp[..];
    forall r ensures IsRemainder(p, str, r) <==> r == PolyOf(Leading(out, bits)) {
      FingerprintIsTheRemainder(p, str, r);
    }
  }

  // ---------------------------------------------------------------- FingerprintPolynomial and make_poly_table

  class Polynomial {
    const bits: nat
    var val: array<Word>

    ghost predicate Valid()
      reads this, val
    {
      Supported(bits) && val.Length == WordCount(bits) && Clean(val[..], bits)
    }

    ghost function Coefficients(): (r: Bits)
      requires Valid()
      reads this, val
      ensures |r| == bits
    {
      Leading(val[..], bits)
    }

    constructor (bits: nat)
      requires Supported(bits)
      ensures Valid() && fresh(val) && this.bits == bits && Coefficients() == Zeros(bits)
    {
      this.bits := bits;
      val := new Word[WordCount(bits)](_ => Zeros(64));
      new;
      assert Leading(val[..], bits) == Zeros(bits);
    }

    method SetHigh8Bits(x: nat)
      requires Valid() && x < 256
      modifies val
      ensures Valid() && Coefficients() == BitsOf(x, 8) + Zeros(bits - 8)
    {
      val[0] := BitsOf(x, 8) + Zeros(56);
      var i := 1;
      while i < val.Length
        invariant 1 <= i <= val.Length && val[0] == BitsOf(x, 8) + Zeros(56)
        invariant forall j | 1 <= j < i :: val[j] == Zeros(64)
      {
        val[i] := Zeros(64);
        i := i + 1;
      }
      assert Leading(val[..], bits) == BitsOf(x, 8) + Zeros(bits - 8);
    }

    /** The carry of one word is the lowest bit of the word before it. */
    method MulX()
      requires Valid()
      modifies val
      ensures Valid() && Coefficients() == old(Coefficients())[1..] + [false]
    {
      var carry := false;
      var i := val.Length - 1;
      while i >= 0
        invariant -1 <= i < val.Length
        invariant carry == (i + 1 < val.Length && old(val[i + 1])[0])
        invariant forall j | 0 <= j <= i :: val[j] == old(val[j])
        invariant forall j | i < j < val.Length :: val[j] == old(val[j])[1..] + [CarryInto(old(val[..]), j)]
      {
        var out := val[i][0];
        val[i] := val[i][1..] + [carry];
        carry := out;
        i := i - 1;
      }
      ghost var was := old(val[..]);
      MulXWords(was, val[..], bits);
    }

    method MulXmod(p: seq<Word>)
      requires Valid() && |p| == WordCount(bits) && Clean(p, bits)
      modifies val
      ensures Valid() && Coefficients() == Gf2.MulXmod(old(Coefficients()), Leading(p, bits))
    {
      var needXor := val[0][0];
      assert needXor == Coefficients()[0];
      val[0] := [false] + val[0][1..];
      assert Leading(val[..], bits) == [false] + old(Coefficients())[1..];
      MulX();
      if needXor { AddWords(p); }
    }

    /** add */
    method AddWords(p: seq<Word>)
      requires Valid() && |p| == WordCount(bits) && Clean(p, bits)
      modifies val
      ensures Valid() && Coefficients() == Xor(old(Coefficients()), Leading(p, bits))
    {
      var i := 0;
      while i < val.Length
        invariant 0 <= i <= val.Length
        invariant forall j | 0 <= j < i :: val[j] == Xor(old(val[j]), p[j])
        invariant forall j | i <= j < val.Length :: val[j] == old(val[j])
      {
        val[i] := Xor(val[i], p[i]);
        i := i + 1;
      }
      XorWords(old(val[..]), p, val[..], bits);
    }

    method MulXkmod(k: nat, p: seq<Word>)
      requires Valid() && |p| == WordCount(bits) && Clean(p, bits)
      modifies val
      ensures Valid() && Coefficients() == Gf2.MulXkmod(old(Coefficients()), k, Leading(p, bits))
    {
      var i := 0;
      while i < k
        invariant 0 <= i <= k && Valid() && Coefficients() == Gf2.MulXkmod(old(Coefficients()), i, Leading(p, bits))
      {
        MulXmod(p);
        i := i + 1;
      }
    }
  }

  /** The bit that moves into word j from its right. */
  function CarryInto(was: seq<Word>, j: nat): (bit: bool)
    requires j < |was|
  {
    j + 1 < |was| && was[j + 1][0]
  }

  lemma MulXWords(was: seq<Word>, now: seq<Word>, bits: nat)
    requires Supported(bits) && |was| == |now| == WordCount(bits) && Clean(was, bits)
    requires forall j | 0 <= j < |was| :: now[j] == was[j][1..] + [CarryInto(was, j)]
    ensures Clean(now, bits) && Leading(now, bits) == Leading(was, bits)[1..] + [false]
  {
    if bits == 96 {
      forall i | 32 <= i < 64 ensures !was[1][i] { assert !was[1][32..][i - 32]; }
      assert now[1][32..] == Zeros(32);
    }
    assert now[0] == was[0][1..] + [CarryInto(was, 0)];
    if bits > 64 {
      assert now[1] == was[1][1..] + [false];
      ShiftTwo(was[0], was[1], now[0], now[1], bits - 64);
    }
  }

  lemma ShiftTwo(w0: Word, w1: Word, n0: Word, n1: Word, k: nat)
    requires 0 < k <= 64 && n0 == w0[1..] + [w1[0]] && n1 == w1[1..] + [false] && (k < 64 ==> !w1[k])
    ensures n0 + n1[..k] == (w0 + w1[..k])[1..] + [false]
  {
    assert n1[..k] == w1[1..k] + [false];
    assert (w0 + w1[..k])[1..] == w0[1..] + w1[..k];
    assert w1[..k] == [w1[0]] + w1[1..k];
  }

  lemma XorWords(a: seq<Word>, b: seq<Word>, c: seq<Word>, bits: nat)
    requires Supported(bits) && |a| == |b| == |c| == WordCount(bits) && Clean(a, bits) && Clean(b, bits)
    requires forall j | 0 <= j < |a| :: c[j] == Xor(a[j], b[j])
    ensures Clean(c, bits) && Leading(c, bits) == Xor(Leading(a, bits), Leading(b, bits))
  {
    if bits == 96 {
      forall i | 32 <= i < 64 ensures !c[1][i] { assert !a[1][32..][i - 32] && !b[1][32..][i - 32]; }
      assert c[1][32..] == Zeros(32);
    }
    assert Leading(c, bits) == Xor(Leading(a, bits), Leading(b, bits));
  }

  /** Eight more multiplications by X give the entry for the next row. */
  method NextEntry(t: Polynomial, poly: seq<Word>, x: nat, i: nat)
    requires t.Valid() && |poly| == WordCount(t.bits) && Clean(poly, t.bits)
    requires |Leading(poly, t.bits)| == t.bits
    requires t.Coefficients() == Gf2.MulXkmod(BitsOf(x, 8) + Zeros(t.bits - 8), 8 * i, Leading(poly, t.bits))
    modifies t.val
    ensures t.Valid() && EntryOk(t.val[..], t.bits, Leading(poly, t.bits), i, x)
    ensures t.Coefficients() == Gf2.MulXkmod(BitsOf(x, 8) + Zeros(t.bits - 8), 8 * (i + 1), Leading(poly, t.bits))
  {
    MulXkmodAdd(BitsOf(x, 8) + Zeros(t.bits - 8), 8 * i, 8, Leading(poly, t.bits));
    t.MulXkmod(8, poly);
  }

  /** make_poly_table: the table means what update8, update32 and update64 rely on. */
  method MakePolyTable(bits: nat, poly: seq<Word>) returns (table: Table)
    requires Supported(bits) && |poly| == WordCount(bits) && Clean(poly, bits)
    ensures |Leading(poly, bits)| == bits && TableOk(table, bits, Leading(poly, bits))
  {
    table := seq(8, _ => seq(256, _ => []));
    ghost var p := Leading(poly, bits);
    var x := 0;
    while x < 256
      invariant 0 <= x <= 256 && |table| == 8 && forall i | 0 <= i < 8 :: |table[i]| == 256
      invariant forall i, y | 0 <= i < 8 && 0 <= y < x :: EntryOk(table[i][y], bits, p, i, y)
    {
      var t := new Polynomial(bits);
      t.SetHigh8Bits(x);
      var i := 0;
      while i < 8
        invariant 0 <= i <= 8 && t.Valid() && t.bits == bits && fresh(t) && fresh(t.val)
        invariant t.Coefficients() == Gf2.MulXkmod(BitsOf(x, 8) + Zeros(bits - 8), 8 * i, p)
        invariant |table| == 8 && forall j | 0 <= j < 8 :: |table[j]| == 256
        invariant forall j, y | 0 <= j < 8 && 0 <= y < x :: EntryOk(table[j][y], bits, p, j, y)
        invariant forall j | 0 <= j < i :: EntryOk(table[j][x], bits, p, j, x)
      {
        NextEntry(t, poly, x, i);
        table := table[i := table[i][x := t.val[..]]];
        i := i + 1;
      }
      x := x + 1;
    }
  }
}
