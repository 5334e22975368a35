/**
 Polynomials over two elements, highest power first, and what is left of one divided by the generator of the CRC of
 section 3.4 of RFC 2083.
 */
module Polynomials {
  type Bits = seq<bool>

  /** x^32 + x^26 + x^23 + x^22 + x^16 + x^12 + x^11 + x^10 + x^8 + x^7 + x^5 + x^4 + x^2 + x + 1. */
  function Generator(): (g: Bits)
    ensures |g| == 33 && g[0]
  {
    [true,
     false, false, false, false, false, true, false, false,
     true, true, false, false, false, false, false, true,
     false, false, false, true, true, true, false, true,
     true, false, true, true, false, true, true, true]
  }

  function Zeros(n: nat): (r: Bits)
    ensures |r| == n && forall i :: 0 <= i < n ==> !r[i]
  {
    seq(n, _ => false)
  }

  function Xor(a: Bits, b: Bits): (r: Bits)
    requires |a| == |b|
    ensures |r| == |a| && forall i :: 0 <= i < |a| ==> r[i] == (a[i] != b[i])
  {
    seq(|a|, i requires 0 <= i < |a| => a[i] != b[i])
  }

  /** One step of the long division: the generator is taken off the highest power, if it is there. */
  function DivStep(m: Bits): (r: Bits)
    requires |m| > 32
    ensures |r| == |m| - 1 && forall i :: 0 <= i < |r| ==> r[i] == (m[i + 1] != (m[0] && i < 32 && Generator()[i + 1]))
  {
    seq(|m| - 1, i requires 0 <= i < |m| - 1 => m[i + 1] != (m[0] && i < 32 && Generator()[i + 1]))
  }

  function DivSteps(m: Bits, n: nat): (r: Bits)
    requires |m| >= 32 + n
    ensures |r| == |m| - n
    decreases n
  {
    if n == 0 then m else DivSteps(DivStep(m), n - 1)
  }

  /** What is left: a polynomial of powers below 32. */
  function Remainder(m: Bits): (r: Bits)
    requires |m| >= 32
    ensures |r| == 32
  {
    DivSteps(m, |m| - 32)
  }

  /** A polynomial times the generator. */
  function TimesGenerator(q: Bits): (r: Bits)
    ensures |r| == |q| + 32
  {
    if q == [] then Zeros(32)
    else Xor(if q[0] then Generator() + Zeros(|q| - 1) else Zeros(|q| + 32), [false] + TimesGenerator(q[1..]))
  }

  /** `m` is a multiple of the generator and `r`. */
  ghost predicate IsRemainder(m: Bits, r: Bits)
    requires |m| >= 32 && |r| == 32
  {
    exists q: Bits :: |q| == |m| - 32 && m == Xor(TimesGenerator(q), Zeros(|q|) + r)
  }

  lemma OneStepBack(m: Bits, t: Bits, z: Bits)
    requires |m| > 32 && |t| == |z| == |m| - 1 && DivStep(m) == Xor(t, z)
    ensures m == Xor(Xor(if m[0] then Generator() + Zeros(|m| - 33) else Zeros(|m|), [false] + t), [false] + z)
  {
    hide Generator;
    var g := if m[0] then Generator() + Zeros(|m| - 33) else Zeros(|m|);
    var r := Xor(Xor(g, [false] + t), [false] + z);
    forall i | 0 <= i < |m| ensures m[i] == r[i] {
      if i > 0 { assert DivStep(m)[i - 1] == Xor(t, z)[i - 1]; }
    }
  }

  lemma TimesOneMore(q: Bits, h: bool)
    ensures TimesGenerator([h] + q) == Xor(if h then Generator() + Zeros(|q|) else Zeros(|q| + 33), [false] + TimesGenerator(q))
  {
    hide Generator;
    assert ([h] + q)[1..] == q;
  }

  lemma OneMoreZero(n: nat, r: Bits)
    ensures [false] + (Zeros(n) + r) == Zeros(n + 1) + r
  {
  }

  lemma {:induction false} Divides(m: Bits) returns (q: Bits)
    requires |m| >= 32
    ensures |q| == |m| - 32 && m == Xor(TimesGenerator(q), Zeros(|q|) + Remainder(m))
    decreases |m|
  {
    hide Generator;
    if |m| == 32 {
      q := [];
      assert Zeros(0) + m == m;
    } else {
      var rest := Divides(DivStep(m));
      var r := Remainder(DivStep(m));
      assert Remainder(m) == r;
      hide DivStep, Xor, Zeros, DivSteps, TimesGenerator, Remainder;
      OneStepBack(m, TimesGenerator(rest), Zeros(|rest|) + r);
      TimesOneMore(rest, m[0]);
      q := [m[0]] + rest;
      assert |q| == |rest| + 1 && |rest| == |m| - 33;
      OneMoreZero(|rest|, r);
    }
  }

  /** A multiple of the generator without high powers is nothing. */
  lemma {:induction false} OnlyNothingIsSmall(q: Bits)
    requires forall i :: 0 <= i < |q| ==> !TimesGenerator(q)[i]
    ensures q == Zeros(|q|) && TimesGenerator(q) == Zeros(|q| + 32)
  {
    hide Generator;
    if q != [] {
      assert TimesGenerator(q)[0] == q[0];
      forall i | 0 <= i < |q| - 1 ensures !TimesGenerator(q[1..])[i] {
        assert !TimesGenerator(q)[i + 1];
      }
      OnlyNothingIsSmall(q[1..]);
    }
  }

  lemma {:induction false} TimesIsLinear(p: Bits, q: Bits)
    requires |p| == |q|
    ensures TimesGenerator(Xor(p, q)) == Xor(TimesGenerator(p), TimesGenerator(q))
  {
    hide Generator;
    if p != [] {
      TimesIsLinear(p[1..], q[1..]);
      assert Xor(p, q)[1..] == Xor(p[1..], q[1..]);
    }
  }

  lemma SameWhole(p: Bits, q: Bits, r: Bits, s: Bits)
    requires |p| == |q| && |r| == |s| == 32 && Xor(TimesGenerator(p), Zeros(|p|) + r) == Xor(TimesGenerator(q), Zeros(|q|) + s)
    ensures r == s
  {
    hide Generator;
    var a, b := Zeros(|p|) + r, Zeros(|q|) + s;
    var t, u := TimesGenerator(p), TimesGenerator(q);
    forall i | 0 <= i < |p| + 32 ensures Xor(t, u)[i] == Xor(a, b)[i] { assert Xor(t, a)[i] == Xor(u, b)[i]; }
    TimesIsLinear(p, q);
    OnlyNothingIsSmall(Xor(p, q));
    forall i | 0 <= i < 32 ensures r[i] == s[i] { assert !Xor(t, u)[|p| + i]; }
  }

  /** The long division finds the remainder, and there is only one. */
  lemma RemainderIsTheOne(m: Bits, r: Bits)
    requires |m| >= 32 && |r| == 32
    ensures IsRemainder(m, r) <==> r == Remainder(m)
  {
    hide Generator;
    var q := Divides(m);
    hide TimesGenerator, Xor, Zeros, Remainder;
    if IsRemainder(m, r) {
      var p: Bits :| |p| == |m| - 32 && m == Xor(TimesGenerator(p), Zeros(|p|) + r);
      SameWhole(p, q, r, Remainder(m));
    }
  }

  lemma {:induction false} DivIsLinear(m: Bits, n: Bits, k: nat)
    requires |m| == |n| >= 32 + k
    ensures DivSteps(Xor(m, n), k) == Xor(DivSteps(m, k), DivSteps(n, k))
    decreases k
  {
    hide Generator;
    if k > 0 {
      assert DivStep(Xor(m, n)) == Xor(DivStep(m), DivStep(n));
      DivIsLinear(DivStep(m), DivStep(n), k - 1);
    }
  }

  /** Where the high powers are missing, the division passes over them. */
  lemma {:induction false} DivPasses(m: Bits, k: nat)
    requires |m| >= 32
    ensures DivSteps(Zeros(k) + m, k) == m
    decreases k
  {
    hide Generator;
    if k > 0 {
      assert DivStep(Zeros(k) + m) == Zeros(k - 1) + m;
      DivPasses(m, k - 1);
    } else {
      assert Zeros(0) + m == m;
    }
  }

  lemma {:induction false} DivInTwo(m: Bits, j: nat, k: nat)
    requires |m| >= 32 + j + k
    ensures DivSteps(m, j + k) == DivSteps(DivSteps(m, j), k)
    decreases j
  {
    hide Generator;
    if j > 0 { DivInTwo(DivStep(m), j - 1, k); }
  }

  /** A register as the division's head, with nothing after it. */
  lemma RegisterSteps(a: Bits, h: Bits, low: bool, r: Bits, n: nat)
    requires |a| == |h| == |r| == 32 && [low] + h == a + [false]
    requires forall i | 0 <= i < 32 :: r[i] == (h[i] != (low && Generator()[i + 1]))
    ensures DivStep(a + Zeros(n + 1)) == r + Zeros(n)
  {
    hide Generator;
    var m := a + Zeros(n + 1);
    assert m[0] == ([low] + h)[0] == low;
    forall i | 0 <= i < 32 + n ensures DivStep(m)[i] == (r + Zeros(n))[i] {
      if i < 32 { assert ([low] + h)[i + 1] == (a + [false])[i + 1]; }
    }
  }

  /** Eight bits of the message put over the register first, or with the rest of it. */
  lemma FirstApart(a: Bits, first: Bits, rest: Bits)
    requires |a| == 32 && |first| == 8
    ensures Xor(a + Zeros(8 + |rest|), first + rest + Zeros(32))
         == Xor(Xor(a, first + Zeros(24)) + Zeros(8 + |rest|), Zeros(8) + (rest + Zeros(32)))
  {
    hide Generator;
    var x := Xor(a + Zeros(8 + |rest|), first + rest + Zeros(32));
    var y := Xor(Xor(a, first + Zeros(24)) + Zeros(8 + |rest|), Zeros(8) + (rest + Zeros(32)));
    assert first + rest + Zeros(32) == first + (rest + Zeros(32));
    forall i | 0 <= i < |x| ensures x[i] == y[i] {}
  }

  /** Once the register is divided as far as a byte reaches, the rest of the message is what remains over it. */
  lemma DivideOn(m: Bits, later: Bits, t: Bits)
    requires |later| >= 32 && |m| == |later| + 8 && t == DivSteps(m, 8)
    ensures Remainder(Xor(m, Zeros(8) + later)) == Remainder(Xor(t, later))
  {
    hide DivSteps, Xor, Zeros;
    DivPasses(later, 8);
    DivIsLinear(m, Zeros(8) + later, 8);
    var x, k := Xor(m, Zeros(8) + later), |later| - 32;
    DivInTwo(x, 8, k);
    assert |x| - 32 == 8 + k;
    assert Remainder(x) == DivSteps(x, 8 + k) == DivSteps(Xor(t, later), k);
  }
}
