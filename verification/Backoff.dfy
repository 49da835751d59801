/** The delays between reconnection attempts (connection_manager.go), in nanoseconds. */
module Backoff {

  function Min(a: int, b: int): int {
    if a < b then a else b
  }

  /** `time.Duration(float64(d) * 1.5)`: one and a half times, rounded toward zero. */
  function Scaled(d: int): int {
    if d >= 0 then 3 * d / 2 else -(3 * -d / 2)
  }

  function NextDelay(d: int, cap: int): int {
    Min(Scaled(d), cap)
  }

  /** The delay after `k` failed connects. */
  function Delay(initial: int, cap: int, k: nat): int {
    if k == 0 then initial else NextDelay(Delay(initial, cap, k - 1), cap)
  }

  function Uncapped(initial: int, k: nat): int {
    if k == 0 then initial else Scaled(Uncapped(initial, k - 1))
  }

  function Pow(b: nat, k: nat): nat {
    if k == 0 then 1 else b * Pow(b, k - 1)
  }

  lemma ScaledIsMonotone(a: int, b: int)
    requires a <= b
    ensures Scaled(a) <= Scaled(b)
    ensures Scaled(a) >= a <==> a >= -1
  {
  }

  lemma {:induction false} NegativesStayBelow(initial: int, k: nat)
    requires initial < 0
    ensures Uncapped(initial, k) <= initial
  {
    if k > 0 {
      NegativesStayBelow(initial, k - 1);
    }
  }

  lemma {:induction false} CappedGrowthAt(initial: int, cap: int, k: nat)
    requires initial <= cap
    ensures Delay(initial, cap, k) == Min(Uncapped(initial, k), cap)
  {
    if k > 0 {
      CappedGrowthAt(initial, cap, k - 1);
      var u := Uncapped(initial, k - 1);
      if u > cap {
        if initial < 0 {
          NegativesStayBelow(initial, k - 1);
        }
        ScaledIsMonotone(cap, u);
      }
    }
  }

  /** The delays are those of plain growth by one half, cut off at the cap, exactly when the
      initial delay does not exceed the cap itself. */
  lemma DelaysAreCappedGrowthExactlyWhen(initial: int, cap: int)
    ensures (forall k: nat :: Delay(initial, cap, k) == Min(Uncapped(initial, k), cap)) <==> initial <= cap
  {
    if initial <= cap {
      forall k: nat
        ensures Delay(initial, cap, k) == Min(Uncapped(initial, k), cap)
      {
        CappedGrowthAt(initial, cap, k);
      }
    } else {
      assert Delay(initial, cap, 0) != Min(Uncapped(initial, 0), cap);
    }
  }

  /** An initial delay of ten under a cap of five. */
  lemma FirstDelayMayExceedTheCap()
    ensures Delay(10, 5, 0) == 10 && Min(Uncapped(10, 0), 5) == 5 && Delay(10, 5, 1) == 5
  {
  }

  lemma {:induction false} DelayStaysInRange(initial: int, cap: int, k: nat)
    requires -1 <= initial <= cap
    ensures -1 <= Delay(initial, cap, k) <= cap
  {
    if k > 0 {
      DelayStaysInRange(initial, cap, k - 1);
    }
  }

  /** The delay never decreases exactly when the initial delay is at least -1 and at most the
      cap; an initial delay above the cap drops to it after one failure. */
  lemma DelaysNeverDecreaseExactlyWhen(initial: int, cap: int)
    ensures (forall k: nat :: Delay(initial, cap, k) <= Delay(initial, cap, k + 1)) <==> -1 <= initial <= cap
  {
    if -1 <= initial <= cap {
      forall k: nat
        ensures Delay(initial, cap, k) <= Delay(initial, cap, k + 1)
      {
        DelayStaysInRange(initial, cap, k);
        ScaledIsMonotone(Delay(initial, cap, k), cap);
      }
    } else {
      ScaledIsMonotone(initial, initial);
      assert Delay(initial, cap, 1) < Delay(initial, cap, 0);
      assert Delay(initial, cap, 0 + 1) < Delay(initial, cap, 0);
    }
  }

  lemma Scale(p: nat, a: int, b: int)
    requires a <= b
    ensures p * a <= p * b
  {
  }

  lemma ScaleStrictly(p: nat, a: int, b: int)
    requires p > 0
    ensures p * a <= p * b ==> a <= b
  {
    if a > b {
      Scale(p, b + 1, a);
      assert p * (b + 1) == p * b + p;
    }
  }

  lemma LowerStep(p: nat, q: nat, x: int, y: int, z: int)
    requires q * x <= p * y && 3 * y <= 2 * z
    ensures 3 * q * x <= 2 * p * z
  {
    Scale(p, 3 * y, 2 * z);
    assert 3 * q * x == 3 * (q * x) && p * (3 * y) == 3 * (p * y) && p * (2 * z) == 2 * p * z;
  }

  /** Growth lies between two geometric sequences of ratio 3/2. */
  lemma {:induction false} GrowthEnvelope(initial: int, k: nat)
    requires initial >= 1
    ensures Uncapped(initial, k) >= 1
    ensures Pow(3, k) * (initial - 1) <= Pow(2, k) * (Uncapped(initial, k) - 1)
    ensures Pow(2, k) * Uncapped(initial, k) <= Pow(3, k) * initial
  {
    if k > 0 {
      GrowthEnvelope(initial, k - 1);
      var u, v := Uncapped(initial, k - 1), Uncapped(initial, k);
      LowerStep(Pow(2, k - 1), Pow(3, k - 1), initial - 1, u - 1, v - 1);
      UpperStep(Pow(2, k - 1), Pow(3, k - 1), initial, u, v);
    }
  }

  lemma UpperStep(p: nat, q: nat, x: int, y: int, z: int)
    requires p * y <= q * x && 2 * z <= 3 * y
    ensures 2 * p * z <= 3 * q * x
  {
    Scale(p, 2 * z, 3 * y);
    assert 3 * q * x == 3 * (q * x) && p * (3 * y) == 3 * (p * y) && p * (2 * z) == 2 * p * z;
  }

  lemma {:induction false} PowFacts(j: nat)
    ensures Pow(2, j) > 0
    ensures Pow(3, 2 * j) >= Pow(2, 2 * j) * Pow(2, j)
  {
    if j > 0 {
      PowFacts(j - 1);
      var a, b, c := Pow(3, 2 * j - 2), Pow(2, 2 * j - 2), Pow(2, j - 1);
      assert Pow(3, 2 * j - 1) == 3 * a && Pow(2, 2 * j - 1) == 2 * b;
      assert Pow(3, 2 * j) == 9 * a && Pow(2, 2 * j) == 4 * b && Pow(2, j) == 2 * c;
      assert 4 * b * (2 * c) == 8 * (b * c);
    }
  }

  lemma {:induction false} PowIsPositive(k: nat)
    ensures Pow(2, k) > 0
  {
    if k > 0 {
      PowIsPositive(k - 1);
    }
  }

  /** From an initial delay of two or more, the cap is reached after logarithmically many
      failed connects: 2j of them, if 2^j is at least the cap. */
  lemma CapIsReachedInLogTime(initial: int, cap: int, j: nat)
    requires 2 <= initial <= cap <= Pow(2, j)
    ensures Delay(initial, cap, 2 * j) == cap
  {
    var k := 2 * j;
    GrowthEnvelope(initial, k);
    CappedGrowthAt(initial, cap, k);
    PowFacts(j);
    PowIsPositive(k);
    var u := Uncapped(initial, k);
    Scale(Pow(3, k), 1, initial - 1);
    Scale(Pow(2, k), cap, Pow(2, j));
    assert Pow(2, k) * cap <= Pow(2, k) * (u - 1);
    ScaleStrictly(Pow(2, k), cap, u - 1);
  }

  /** Below the upper envelope the cap is not reached yet. */
  lemma CapIsNotReachedBefore(initial: int, cap: int, k: nat)
    requires 1 <= initial <= cap && Pow(3, k) * initial < Pow(2, k) * cap
    ensures Delay(initial, cap, k) < cap
  {
    GrowthEnvelope(initial, k);
    CappedGrowthAt(initial, cap, k);
    var u := Uncapped(initial, k);
    if u >= cap {
      Scale(Pow(2, k), cap, u);
    }
  }

  /** With the default settings the cap of five minutes is reached at the 13th failure. */
  lemma DefaultDelays()
    ensures Delay(2_000_000_000, 300_000_000_000, 12) < 300_000_000_000
    ensures Delay(2_000_000_000, 300_000_000_000, 13) == 300_000_000_000
  {
    var d, c := 2_000_000_000, 300_000_000_000;
    assert Delay(d, c, 4) == 10_125_000_000;
    assert Delay(d, c, 8) == 51_257_812_500;
    assert Delay(d, c, 12) == 259_492_675_780;
  }

  // The configured factor. The source has a field for it and does not read the field.

  /** Rounded toward zero, as a conversion to a duration is. */
  function Truncated(x: real): int {
    if x >= 0.0 then x.Floor else -((-x).Floor)
  }

  function GrownBy(f: real, d: int): int {
    Truncated(d as real * f)
  }

  /** The delays that a factor of `f` would give. */
  function DelayBy(f: real, initial: int, cap: int, k: nat): int {
    if k == 0 then initial else Min(GrownBy(f, DelayBy(f, initial, cap, k - 1)), cap)
  }

  lemma OneAndAHalf(d: int)
    ensures GrownBy(1.5, d) == Scaled(d)
  {
    var e := if d >= 0 then d else -d;
    assert (e as real * 1.5).Floor == 3 * e / 2 by {
      assert e as real * 1.5 == (3 * e) as real / 2.0;
      var q := 3 * e / 2;
      assert q as real <= (3 * e) as real / 2.0 < (q + 1) as real;
    }
    assert d < 0 ==> -(d as real * 1.5) == e as real * 1.5;
  }

  lemma {:induction false} FactorOfOneAndAHalf(initial: int, cap: int, k: nat)
    ensures DelayBy(1.5, initial, cap, k) == Delay(initial, cap, k)
  {
    if k > 0 {
      FactorOfOneAndAHalf(initial, cap, k - 1);
      OneAndAHalf(Delay(initial, cap, k - 1));
    }
  }

  /** The delays are those of the configured factor, whatever the cap. */
  ghost predicate Obeyed(f: real, initial: int) {
    forall cap: int, k: nat :: initial <= cap ==> DelayBy(f, initial, cap, k) == Delay(initial, cap, k)
  }

  lemma {:induction false} GrowsByOne(initial: int, k: nat)
    requires initial >= 2
    ensures Uncapped(initial, k) >= initial + k
  {
    if k > 0 {
      GrowsByOne(initial, k - 1);
    }
  }

  lemma ScaleReal(u: real, a: real, b: real)
    requires u >= 0.0 && a <= b
    ensures u * a <= u * b
  {
  }

  lemma TruncationsDiffer(x: real, y: real)
    requires y >= 1.0 && (x >= y + 1.0 || x <= y - 1.0)
    ensures Truncated(x) != Truncated(y)
  {
  }

  /** A factor that is off shows in a delay that is large enough. */
  lemma OffByOne(f: real, u: int, gap: real)
    requires u >= 2 && gap > 0.0 && (f >= 1.5 + gap || f <= 1.5 - gap) && u as real * gap >= 1.0
    ensures GrownBy(f, u) != Scaled(u)
  {
    OneAndAHalf(u);
    var v := u as real;
    if f >= 1.5 + gap {
      ScaleReal(v, 1.5 + gap, f);
      assert v * (1.5 + gap) == v * 1.5 + v * gap;
    } else {
      ScaleReal(v, f, 1.5 - gap);
      assert v * (1.5 - gap) == v * 1.5 - v * gap;
    }
    TruncationsDiffer(v * f, v * 1.5);
  }

  lemma LargeEnough(gap: real) returns (n: nat)
    requires gap > 0.0
    ensures gap * n as real >= 1.0
  {
    n := (1.0 / gap).Floor + 1;
    ScaleReal(gap, 1.0 / gap, n as real);
    assert gap * (1.0 / gap) == 1.0;
  }

  /** Two ways of going on from one delay part under a cap above both. */
  lemma StepsPart(f: real, initial: int, cap: int, n: nat, u: int, v: int)
    requires v == GrownBy(f, u) && v != Scaled(u) && v <= cap && Scaled(u) <= cap
    requires Delay(initial, cap, n) == u
    ensures DelayBy(f, initial, cap, n) != u || DelayBy(f, initial, cap, n + 1) != Delay(initial, cap, n + 1)
  {
    hide GrownBy, Scaled;
    if DelayBy(f, initial, cap, n) == u {
      assert DelayBy(f, initial, cap, n + 1) == Min(v, cap);
      assert Delay(initial, cap, n + 1) == Min(Scaled(u), cap);
    }
  }

  lemma Mirror(f: real, d: int)
    ensures GrownBy(f, -d) == -GrownBy(f, d) && Scaled(-d) == -Scaled(d)
  {
    assert (-d) as real * f == -(d as real * f);
  }

  lemma {:induction false} MirrorUncapped(initial: int, k: nat)
    ensures Uncapped(-initial, k) == -Uncapped(initial, k)
  {
    if k > 0 {
      MirrorUncapped(initial, k - 1);
      Mirror(1.0, Uncapped(initial, k - 1));
    }
  }

  /** Every delay that is not stuck gets to a value where a factor other than 1.5 shows. */
  lemma FactorShows(f: real, initial: int) returns (n: nat)
    requires f != 1.5 && (initial >= 2 || initial <= -2)
    ensures GrownBy(f, Uncapped(initial, n)) != Scaled(Uncapped(initial, n))
  {
    hide GrownBy, Scaled;
    var gap, e := if f > 1.5 then f - 1.5 else 1.5 - f, if initial < 0 then -initial else initial;
    n := LargeEnough(gap);
    GrowsByOne(e, n);
    var u := Uncapped(e, n);
    ScaleReal(gap, n as real, u as real);
    OffByOne(f, u, gap);
    MirrorUncapped(e, n);
    Mirror(f, u);
  }

  /** For such a delay and every factor but 1.5 there is a cap under which some delay is not
      that of the factor. */
  lemma OtherFactorsFail(f: real, initial: int) returns (cap: int, k: nat)
    requires f != 1.5 && (initial >= 2 || initial <= -2)
    ensures initial <= cap && DelayBy(f, initial, cap, k) != Delay(initial, cap, k)
  {
    hide DelayBy, GrownBy;
    var n := FactorShows(f, initial);
    var u := Uncapped(initial, n);
    var v := GrownBy(f, u);
    cap := if v > Scaled(u) then v else Scaled(u);
    cap := if initial > cap then initial else cap;
    if initial < 0 {
      NegativesStayBelow(initial, n);
    } else {
      GrowsByOne(initial, n);
    }
    CappedGrowthAt(initial, cap, n);
    StepsPart(f, initial, cap, n, u, v);
    k := if DelayBy(f, initial, cap, n) == Delay(initial, cap, n) then n + 1 else n;
  }

  /** A delay that never grows: zero, or one nanosecond either way under a factor from 1 to 2. */
  predicate Stuck(f: real, initial: int) {
    initial == 0 || ((initial == 1 || initial == -1) && 1.0 <= f < 2.0)
  }

  lemma {:induction false} StuckDelaysStay(f: real, initial: int, cap: int, k: nat)
    requires Stuck(f, initial) && initial <= cap
    ensures DelayBy(f, initial, cap, k) == Delay(initial, cap, k) == initial
  {
    if k > 0 {
      StuckDelaysStay(f, initial, cap, k - 1);
      assert 0 as real * f == 0.0 && 1 as real * f == f && -1 as real * f == -f;
    }
  }

  lemma OneMayNotStayOne(f: real, initial: int)
    requires (initial == 1 || initial == -1) && (f < 1.0 || f >= 2.0)
    ensures !Obeyed(f, initial)
  {
    var v := GrownBy(f, initial);
    var cap := if v > 1 then v else 1;
    assert 1 as real * f == f && -1 as real * f == -f;
    assert DelayBy(f, initial, cap, 0) == initial == Delay(initial, cap, 0);
    assert DelayBy(f, initial, cap, 1) == Min(v, cap) != initial == Delay(initial, cap, 1);
  }

  /** The configured factor is obeyed, whatever the cap, exactly when it is 1.5 or the initial
      delay is one that does not grow anyway. */
  lemma FactorIsObeyedExactlyWhen(f: real, initial: int)
    ensures Obeyed(f, initial) <==> f == 1.5 || Stuck(f, initial)
  {
    if f == 1.5 {
      forall cap: int, k: nat
        ensures DelayBy(f, initial, cap, k) == Delay(initial, cap, k)
      {
        FactorOfOneAndAHalf(initial, cap, k);
      }
    } else if Stuck(f, initial) {
      forall cap: int, k: nat | initial <= cap
        ensures DelayBy(f, initial, cap, k) == Delay(initial, cap, k)
      {
        StuckDelaysStay(f, initial, cap, k);
      }
    } else if initial == 1 || initial == -1 {
      OneMayNotStayOne(f, initial);
    } else {
      var cap, k := OtherFactorsFail(f, initial);
      assert !Obeyed(f, initial);
    }
  }

  /** A factor of 2 asked for, from one second up to two minutes: the second wait is one and a
      half seconds instead of two. */
  lemma FactorOfTwoIsIgnored()
    ensures DelayBy(2.0, 1_000_000_000, 120_000_000_000, 1) == 2_000_000_000
    ensures Delay(1_000_000_000, 120_000_000_000, 1) == 1_500_000_000
  {
    assert DelayBy(2.0, 1_000_000_000, 120_000_000_000, 0) == 1_000_000_000;
    assert 1_000_000_000 as real * 2.0 == 2_000_000_000.0;
  }
}
