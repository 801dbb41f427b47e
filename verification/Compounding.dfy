/**
 Compounding of per-slot interest: the client's closed form (exact powers up to four
 slots, a cubic binomial truncation from five slots on) against the exact power, as a
 function of the slot count and as a function of the rate.
 */
module Compounding {
  import opened Reals

  const SLOTS_PER_YEAR: real := 63072000.0

  // ----- The code -----

  /** The growth factor after `slots` slots at `base` interest per slot. */
  function Compounded(base: real, slots: nat): real
  {
    if slots == 0 then 1.0
    else if slots == 1 then base + 1.0
    else if slots == 2 then (base + 1.0) * (base + 1.0)
    else if slots == 3 then (base + 1.0) * (base + 1.0) * (base + 1.0)
    else if slots == 4 then
      var pow2 := (base + 1.0) * (base + 1.0);
      pow2 * pow2
    else
      var exp := slots as real;
      var basePow2 := base * base;
      var basePow3 := basePow2 * base;
      1.0 + base * exp
      + basePow2 * exp * (exp - 1.0) / 2.0
      + basePow3 * exp * (exp - 1.0) * (exp - 2.0) / 6.0
  }

  /** The growth factor for an annual rate. */
  function ApproximateCompoundedInterest(rate: real, slots: nat): real
  {
    Compounded(rate / SLOTS_PER_YEAR, slots)
  }

  // ----- Reference notions: powers, binomial coefficients, truncated binomials -----

  function Pow(x: real, n: nat): real
  {
    if n == 0 then 1.0 else Mul(x, Pow(x, n - 1))
  }

  function Choose(n: nat, k: nat): nat
  {
    if k == 0 then 1
    else if n == 0 then 0
    else Choose(n - 1, k) + Choose(n - 1, k - 1)
  }

  /** The binomial expansion of (1 + b)^n cut off after the power k. */
  function Truncated(b: real, n: nat, k: nat): real
  {
    if k == 0 then 1.0 else Truncated(b, n, k - 1) + Mul(Choose(n, k) as real, Pow(b, k))
  }

  /** The bound on what the truncation after power k leaves out. */
  function TailBound(b: real, n: nat, k: nat): real
  {
    if n <= k then 0.0 else Mul(Mul(Choose(n, k + 1) as real, Pow(b, k + 1)), Pow(1.0 + b, n - k - 1))
  }

  // ----- Truncated binomials -----

  lemma {:induction false} PowNonNegative(x: real, n: nat)
    requires x >= 0.0
    ensures Pow(x, n) >= 0.0
  {
    hide Mul;
    if n > 0 {
      PowNonNegative(x, n - 1);
      MulNonNegative(x, Pow(x, n - 1));
    }
  }

  lemma {:induction false} PowMonotone(x: real, y: real, n: nat)
    requires 0.0 <= x <= y
    ensures Pow(x, n) <= Pow(y, n)
  {
    hide Mul;
    if n > 0 {
      PowMonotone(x, y, n - 1);
      PowNonNegative(x, n - 1);
      MulMonotoneBoth(x, y, Pow(x, n - 1), Pow(y, n - 1));
    }
  }

  lemma {:induction false} TruncatedOfZero(b: real, k: nat)
    ensures Truncated(b, 0, k) == 1.0
  {
    hide Mul;
    if k > 0 {
      TruncatedOfZero(b, k - 1);
      MulUnit(Pow(b, k));
    }
  }

  /** The next term never lowers a truncation. */
  lemma TruncatedStep(b: real, n: nat, k: nat)
    requires b >= 0.0
    ensures Truncated(b, n, k) <= Truncated(b, n, k + 1)
  {
    hide Mul;
    PowNonNegative(b, k + 1);
    MulNonNegative(Choose(n, k + 1) as real, Pow(b, k + 1));
  }

  lemma {:induction false} TruncatedAtLeastOne(b: real, n: nat, k: nat)
    requires b >= 0.0
    ensures Truncated(b, n, k) >= 1.0
  {
    if k > 0 {
      TruncatedAtLeastOne(b, n, k - 1);
      TruncatedStep(b, n, k - 1);
    }
  }

  /** Pascal's rule for truncations. */
  lemma {:induction false} Pascal(b: real, n: nat, k: nat)
    ensures Truncated(b, n + 1, k + 1) == Truncated(b, n, k + 1) + Mul(b, Truncated(b, n, k))
  {
    hide Mul;
    var c, d, p := Choose(n, k + 1) as real, Choose(n, k) as real, Pow(b, k);
    assert Choose(n + 1, k + 1) == Choose(n, k + 1) + Choose(n, k);
    MulDistributes(Mul(b, p), c, d);
    MulAssociates(d, b, p);
    MulCommutes(b, d);
    MulAssociates(b, d, p);
    if k == 0 {
      MulUnit(b);
      MulUnit(Mul(b, p));
    } else {
      Pascal(b, n, k - 1);
      MulDistributes(b, Truncated(b, n, k - 1), Mul(d, p));
    }
  }

  lemma {:induction false} TruncatedMonotoneInBase(b: real, c: real, n: nat, k: nat)
    requires 0.0 <= b <= c
    ensures Truncated(b, n, k) <= Truncated(c, n, k)
  {
    hide Mul;
    if k > 0 {
      TruncatedMonotoneInBase(b, c, n, k - 1);
      PowMonotone(b, c, k);
      MulMonotone(Pow(b, k), Pow(c, k), Choose(n, k) as real);
    }
  }

  /** A truncation never exceeds the power it truncates. */
  lemma {:induction false} TruncatedBelowPower(b: real, n: nat, k: nat)
    requires b >= 0.0
    ensures Truncated(b, n, k) <= Pow(1.0 + b, n)
  {
    hide Mul;
    if n == 0 {
      TruncatedOfZero(b, k);
    } else {
      var power := Pow(1.0 + b, n - 1);
      PowNonNegative(1.0 + b, n - 1);
      MulDistributes(power, 1.0, b);
      MulUnit(power);
      TruncatedBelowPower(b, n - 1, k);
      if k == 0 {
        MulNonNegative(b, power);
      } else {
        TruncatedBelowPower(b, n - 1, k - 1);
        Pascal(b, n - 1, k - 1);
        MulMonotone(Truncated(b, n - 1, k - 1), power, b);
      }
    }
  }

  /** What a truncation leaves out, at every order. */
  lemma {:induction false} TruncationError(b: real, n: nat, k: nat)
    requires b >= 0.0
    ensures Pow(1.0 + b, n) - Truncated(b, n, k) <= TailBound(b, n, k)
    decreases n, k
  {
    hide Mul;
    if n == 0 {
      TruncatedOfZero(b, k);
    } else {
      var power := Pow(1.0 + b, n - 1);
      MulDistributes(power, 1.0, b);
      MulUnit(power);
      TruncationError(b, n - 1, k);
      TailStep(b, n - 1, k);
      if k > 0 {
        var cut := Truncated(b, n - 1, k - 1);
        TruncationError(b, n - 1, k - 1);
        Pascal(b, n - 1, k - 1);
        MulDistributes(b, power - cut, cut);
        MulMonotone(power - cut, TailBound(b, n - 1, k - 1), b);
      }
    }
  }

  lemma {:induction false} ChooseAboveIsZero(n: nat, k: nat)
    requires n < k
    ensures Choose(n, k) == 0
  {
    if n > 0 {
      ChooseAboveIsZero(n - 1, k);
      ChooseAboveIsZero(n - 1, k - 1);
    }
  }

  /** The tail bounds obey Pascal's rule as an inequality. */
  lemma TailStep(b: real, n: nat, k: nat)
    requires b >= 0.0
    ensures TailBound(b, n, k) + Mul(b, if k == 0 then Pow(1.0 + b, n) else TailBound(b, n, k - 1))
         <= TailBound(b, n + 1, k)
  {
    hide Mul;
    if n < k {
      MulUnit(b);
    } else {
      var c, d := Choose(n, k + 1) as real, Choose(n, k) as real;
      var p, q, w := Pow(b, k), Pow(b, k + 1), Pow(1.0 + b, n - k);
      assert Choose(n + 1, k + 1) == Choose(n, k + 1) + Choose(n, k);
      MulDistributes(q, c, d);
      MulDistributes(w, Mul(c, q), Mul(d, q));
      // the lower-order tail, raised by b, is the second summand
      MulAssociates(b, Mul(d, p), w);
      MulAssociates(b, d, p);
      MulCommutes(b, d);
      MulAssociates(d, b, p);
      if k == 0 {
        MulUnit(1.0);
        MulUnit(w);
      }
      // the same-order tail is at most the first summand
      if n == k {
        ChooseAboveIsZero(n, k + 1);
        MulUnit(q);
        MulUnit(w);
      } else {
        var v := Pow(1.0 + b, n - k - 1);
        PowNonNegative(1.0 + b, n - k - 1);
        PowNonNegative(b, k + 1);
        MulMonotone(1.0, 1.0 + b, v);
        MulUnit(v);
        MulNonNegative(c, q);
        MulMonotone(v, w, Mul(c, q));
      }
    }
  }

  /** Truncations are submultiplicative in the exponent. */
  lemma {:induction false} TruncatedSubmultiplicative(b: real, m: nat, n: nat, k: nat)
    requires b >= 0.0
    ensures Truncated(b, m + n, k) <= Mul(Truncated(b, m, k), Truncated(b, n, k))
  {
    hide Mul;
    if m == 0 || k == 0 {
      TruncatedOfZero(b, k);
      MulUnit(Truncated(b, n, k));
    } else {
      var x, y := Truncated(b, m - 1, k), Truncated(b, m - 1, k - 1);
      var u, v := Truncated(b, n, k), Truncated(b, n, k - 1);
      TruncatedSubmultiplicative(b, m - 1, n, k);
      TruncatedSubmultiplicative(b, m - 1, n, k - 1);
      Pascal(b, m + n - 1, k - 1);
      Pascal(b, m - 1, k - 1);
      TruncatedAtLeastOne(b, m - 1, k - 1);
      TruncatedStep(b, n, k - 1);
      MulMonotone(v, u, y);
      MulMonotone(Truncated(b, m + n - 1, k - 1), Mul(y, u), b);
      MulAssociates(b, y, u);
      MulDistributes(u, x, Mul(b, y));
    }
  }

  // ----- The code is a truncation -----

  lemma {:induction false} ChooseOneTwo(n: nat)
    ensures Choose(n, 1) == n
    ensures 2 * Choose(n, 2) == n * (n - 1)
  {
    if n > 0 {
      ChooseOneTwo(n - 1);
      assert Choose(n, 1) == Choose(n - 1, 1) + Choose(n - 1, 0);
      assert (n - 1) * (n - 2) + 2 * (n - 1) == n * (n - 1);
    }
  }

  lemma {:induction false} ChooseThree(n: nat)
    ensures 6 * Choose(n, 3) == n * (n - 1) * (n - 2)
  {
    if n > 0 {
      ChooseThree(n - 1);
      ChooseOneTwo(n - 1);
      CubicStep(n);
    }
  }

  lemma CubicStep(n: int)
    ensures (n - 1) * (n - 2) * (n - 3) + 3 * ((n - 1) * (n - 2)) == n * (n - 1) * (n - 2)
  {
    var q := (n - 1) * (n - 2);
    assert q * (n - 3) + 3 * q == q * n;
  }

  lemma SmallPowers(b: real)
    ensures Pow(b, 1) == b && Pow(b, 2) == b * b
    ensures Pow(b, 3) == b * (b * b) && Pow(b, 4) == b * (b * (b * b))
  {
    hide Mul;
    MulUnit(b);
    MulIs(b, b);
    MulIs(b, b * b);
    MulIs(b, b * (b * b));
    assert Pow(b, 1) == Mul(b, Pow(b, 0));
    assert Pow(b, 2) == Mul(b, Pow(b, 1));
    assert Pow(b, 3) == Mul(b, Pow(b, 2));
    assert Pow(b, 4) == Mul(b, Pow(b, 3));
  }

  lemma SmallTruncations(b: real, n: nat)
    ensures Truncated(b, n, 1) == 1.0 + n as real * b
    ensures Truncated(b, n, 2) == Truncated(b, n, 1) + Choose(n, 2) as real * (b * b)
    ensures Truncated(b, n, 3) == Truncated(b, n, 2) + Choose(n, 3) as real * (b * (b * b))
  {
    hide Mul, Choose, Pow, Truncated;
    SmallPowers(b);
    ChooseOneTwo(n);
    TruncatedUnfolds(b, n, 1);
    TruncatedUnfolds(b, n, 2);
    TruncatedUnfolds(b, n, 3);
    MulIs(n as real, b);
    MulIs(Choose(n, 2) as real, b * b);
    MulIs(Choose(n, 3) as real, b * (b * b));
  }

  lemma TruncatedUnfolds(b: real, n: nat, k: nat)
    requires k > 0
    ensures Truncated(b, n, k) == Truncated(b, n, k - 1) + Mul(Choose(n, k) as real, Pow(b, k))
    ensures Truncated(b, n, 0) == 1.0
  {}

  lemma CastProduct(i: int, j: int)
    ensures (i * j) as real == i as real * j as real
  {}

  lemma CastPair(n: int, c: int)
    requires 2 * c == n * (n - 1)
    ensures 2.0 * c as real == n as real * (n as real - 1.0)
  {
    CastProduct(n, n - 1);
    assert (2 * c) as real == 2.0 * c as real;
  }

  lemma CastTriple(n: int, c: int)
    requires 6 * c == n * (n - 1) * (n - 2)
    ensures 6.0 * c as real == n as real * (n as real - 1.0) * (n as real - 2.0)
  {
    CastProduct(n, n - 1);
    CastProduct(n * (n - 1), n - 2);
    assert (6 * c) as real == 6.0 * c as real;
  }

  lemma CubicArithmetic(b: real, e: real, c2: real, c3: real)
    requires 2.0 * c2 == e * (e - 1.0)
    requires 6.0 * c3 == e * (e - 1.0) * (e - 2.0)
    ensures b * b * e * (e - 1.0) / 2.0 == c2 * (b * b)
    ensures b * b * b * e * (e - 1.0) * (e - 2.0) / 6.0 == c3 * (b * (b * b))
  {
    assert b * b * e * (e - 1.0) == b * b * (e * (e - 1.0));
    assert b * b * b * e * (e - 1.0) * (e - 2.0) == b * (b * b) * (e * (e - 1.0) * (e - 2.0));
  }

  lemma ChooseAsReals(n: nat)
    ensures var e := n as real;
            && 2.0 * Choose(n, 2) as real == e * (e - 1.0)
            && 6.0 * Choose(n, 3) as real == e * (e - 1.0) * (e - 2.0)
  {
    hide Choose;
    ChooseOneTwo(n);
    ChooseThree(n);
    CastPair(n, Choose(n, 2));
    CastTriple(n, Choose(n, 3));
  }

  lemma SmallExpansions(b: real)
    ensures (b + 1.0) * (b + 1.0) == 1.0 + 2.0 * b + b * b
    ensures (b + 1.0) * (b + 1.0) * (b + 1.0) == 1.0 + 3.0 * b + 3.0 * (b * b) + b * (b * b)
    ensures (b + 1.0) * (b + 1.0) * ((b + 1.0) * (b + 1.0))
         == 1.0 + 4.0 * b + 6.0 * (b * b) + 4.0 * (b * (b * b)) + b * (b * (b * b))
  {
    var p := 1.0 + 2.0 * b + b * b;
    assert p * (b + 1.0) == p * b + p;
    assert p * p == p + p * (2.0 * b) + p * (b * b);
  }

  /** The code is the cubic truncation at every slot count but four, where it adds the missing b^4. */
  lemma CompoundedIsTruncation(base: real, slots: nat)
    ensures Compounded(base, slots) ==
            Truncated(base, slots, 3) + if slots == 4 then Pow(base, 4) else 0.0
  {
    hide Mul, Compounded, Truncated, Pow;
    if slots <= 4 { SmallSlots(base, slots); } else { ManySlots(base, slots); }
  }

  lemma SmallSlots(base: real, slots: nat)
    requires slots <= 4
    ensures Compounded(base, slots) ==
            Truncated(base, slots, 3) + if slots == 4 then Pow(base, 4) else 0.0
  {
    hide Mul, Truncated, Pow, Choose;
    SmallTruncations(base, slots);
    SmallPowers(base);
    SmallChoices(slots);
    SmallExpansions(base);
  }

  lemma SmallChoices(n: nat)
    requires n <= 4
    ensures Choose(n, 2) == [0, 0, 1, 3, 6][n] && Choose(n, 3) == [0, 0, 0, 1, 4][n]
  {
    hide Choose;
    ChooseOneTwo(n);
    ChooseThree(n);
  }

  lemma ManySlots(base: real, slots: nat)
    requires slots > 4
    ensures Compounded(base, slots) == Truncated(base, slots, 3)
  {
    hide Mul, Truncated, Pow, Choose;
    SmallTruncations(base, slots);
    ChooseAsReals(slots);
    CubicArithmetic(base, slots as real, Choose(slots, 2) as real, Choose(slots, 3) as real);
  }

  /** Up to four slots the code is the exact power. */
  lemma ExactUpToFour(base: real, slots: nat)
    requires slots <= 4
    ensures Compounded(base, slots) == Pow(1.0 + base, slots)
  {
    SmallPowers(1.0 + base);
    var p := base + 1.0;
    assert p * p * p == p * (p * p);
    assert p * p * (p * p) == p * (p * (p * p));
  }

  // ----- Main results on the slot count -----

  /** Simple interest and the exact power enclose the code; the shortfall is the fourth-order tail. */
  lemma CompoundedBounds(base: real, slots: nat)
    requires base >= 0.0
    ensures 1.0 + slots as real * base <= Compounded(base, slots) <= Pow(1.0 + base, slots)
    ensures slots <= 4 ==> Compounded(base, slots) == Pow(1.0 + base, slots)
    ensures slots >= 5 ==>
              Pow(1.0 + base, slots) - Compounded(base, slots)
              <= Choose(slots, 4) as real * Pow(base, 4) * Pow(1.0 + base, slots - 4)
  {
    hide Mul, Compounded;
    CompoundedIsTruncation(base, slots);
    TruncatedBelowPower(base, slots, 3);
    SmallTruncations(base, slots);
    TruncatedStep(base, slots, 1);
    TruncatedStep(base, slots, 2);
    PowNonNegative(base, 4);
    if slots <= 4 {
      ExactUpToFour(base, slots);
    } else {
      TruncationError(base, slots, 3);
      MulIs(Choose(slots, 4) as real, Pow(base, 4));
      MulIs(Mul(Choose(slots, 4) as real, Pow(base, 4)), Pow(1.0 + base, slots - 4));
    }
  }

  lemma {:induction false} PowAdditive(x: real, m: nat, n: nat)
    ensures Pow(x, m + n) == Mul(Pow(x, m), Pow(x, n))
  {
    hide Mul;
    if m == 0 {
      MulUnit(Pow(x, n));
    } else {
      PowAdditive(x, m - 1, n);
      MulAssociates(x, Pow(x, m - 1), Pow(x, n));
    }
  }

  /** Accruing twice never yields less than accruing once over the joined interval. */
  lemma SplittingNeverLosesInterest(base: real, m: nat, n: nat)
    requires base >= 0.0
    ensures Compounded(base, m + n) <= Compounded(base, m) * Compounded(base, n)
  {
    hide Mul, Compounded;
    MulIs(Compounded(base, m), Compounded(base, n));
    if m + n <= 4 {
      ExactUpToFour(base, m);
      ExactUpToFour(base, n);
      ExactUpToFour(base, m + n);
      PowAdditive(1.0 + base, m, n);
    } else {
      CompoundedIsTruncation(base, m);
      CompoundedIsTruncation(base, n);
      CompoundedIsTruncation(base, m + n);
      TruncatedSubmultiplicative(base, m, n, 3);
      TruncatedAtLeastOne(base, m, 3);
      TruncatedAtLeastOne(base, n, 3);
      PowNonNegative(base, 4);
      MulMonotoneBoth(Truncated(base, m, 3), Compounded(base, m), Truncated(base, n, 3), Compounded(base, n));
    }
  }

  /** The growth from `slots` to `slots + 1`. */
  function Increment(base: real, slots: nat): real
  {
    Compounded(base, slots + 1) - Compounded(base, slots)
  }

  /** The increment where the code changes formula, from four slots to five. */
  function SeamIncrement(b: real): real
  {
    b + 4.0 * (b * b) + 6.0 * (b * (b * b)) - b * (b * (b * b))
  }

  lemma IncrementForm(base: real, slots: nat)
    ensures slots <= 3 ==> Increment(base, slots) == Mul(base, Pow(1.0 + base, slots))
    ensures slots == 4 ==> Increment(base, slots) == SeamIncrement(base)
    ensures slots >= 5 ==> Increment(base, slots) == Mul(base, Truncated(base, slots, 2))
  {
    hide Mul, Compounded;
    if slots <= 3 {
      ExactUpToFour(base, slots);
      ExactUpToFour(base, slots + 1);
      MulDistributes(Pow(1.0 + base, slots), 1.0, base);
      MulUnit(Pow(1.0 + base, slots));
    } else {
      CompoundedIsTruncation(base, slots);
      CompoundedIsTruncation(base, slots + 1);
      Pascal(base, slots, 2);
      if slots == 4 {
        SmallPowers(base);
        SmallTruncations(base, 4);
        ChooseOneTwo(4);
        SeamExpansion(base);
        assert Truncated(base, 4, 2) == 1.0 + 4.0 * base + 6.0 * (base * base);
      }
    }
  }

  lemma SeamExpansion(b: real)
    ensures Mul(b, 1.0 + 4.0 * b + 6.0 * (b * b)) == b + 4.0 * (b * b) + 6.0 * (b * (b * b))
  {}

  /** The condition under which the change of formula between four and five slots loses nothing. */
  predicate SeamHolds(base: real)
  {
    base == 0.0 || base * base * base <= 1.0 + 4.0 * base + 6.0 * base * base
  }

  lemma SeamArithmetic(b: real)
    requires b >= 0.0
    ensures SeamHolds(b) <==> SeamIncrement(b) >= 0.0
  {
    var g := 1.0 + 4.0 * b + 6.0 * b * b - b * b * b;
    assert b * g == SeamIncrement(b);
    if b > 0.0 {
      if g >= 0.0 { assert b * g >= 0.0; } else { assert b * g < 0.0; }
    }
  }

  lemma {:induction false} GrowsWithSlots(base: real, m: nat, n: nat)
    requires base >= 0.0 && SeamHolds(base) && m <= n
    ensures Compounded(base, m) <= Compounded(base, n)
    decreases n - m
  {
    hide Mul, Compounded, SeamHolds, SeamIncrement;
    if m < n {
      GrowsWithSlots(base, m + 1, n);
      IncrementForm(base, m);
      SeamArithmetic(base);
      PowNonNegative(1.0 + base, m);
      TruncatedAtLeastOne(base, m, 2);
      MulNonNegative(base, Pow(1.0 + base, m));
      MulNonNegative(base, Truncated(base, m, 2));
      assert Increment(base, m) >= 0.0;
    }
  }

  /** Growth over every interval is non-negative exactly when the seam condition holds. */
  lemma MonotoneInSlotsIff(base: real)
    requires base >= 0.0
    ensures SeamHolds(base) <==>
            forall m: nat, n: nat :: m <= n ==> Compounded(base, m) <= Compounded(base, n)
  {
    hide Mul, Compounded, SeamHolds, SeamIncrement;
    if SeamHolds(base) {
      forall m: nat, n: nat | m <= n ensures Compounded(base, m) <= Compounded(base, n) {
        GrowsWithSlots(base, m, n);
      }
    } else {
      IncrementForm(base, 4);
      SeamArithmetic(base);
      assert Increment(base, 4) == Compounded(base, 5) - Compounded(base, 4);
    }
  }

  /** The seam condition covers every per-slot rate up to 600%, and fails at 700%. */
  lemma SeamRange(base: real)
    requires 0.0 <= base <= 6.0
    ensures SeamHolds(base)
    ensures !SeamHolds(7.0)
  {
    assert base * (base * base) <= 6.0 * (base * base);
  }

  // ----- Main results on the rate -----

  lemma MonotoneInRate(b: real, c: real, slots: nat)
    requires 0.0 <= b <= c
    ensures Compounded(b, slots) <= Compounded(c, slots)
  {
    hide Mul, Compounded;
    CompoundedIsTruncation(b, slots);
    CompoundedIsTruncation(c, slots);
    TruncatedMonotoneInBase(b, c, slots, 3);
    PowMonotone(b, c, 4);
  }

  /** Per-slot rates up to 400% also order the growth increments, the seam included. */
  lemma IncrementMonotoneInRate(b: real, c: real, slots: nat)
    requires 0.0 <= b <= c <= 4.0
    ensures Increment(b, slots) <= Increment(c, slots)
  {
    hide Mul, Increment, SeamIncrement;
    IncrementForm(b, slots);
    IncrementForm(c, slots);
    if slots <= 3 {
      PowMonotone(1.0 + b, 1.0 + c, slots);
      PowNonNegative(1.0 + b, slots);
      MulMonotoneBoth(b, c, Pow(1.0 + b, slots), Pow(1.0 + c, slots));
    } else if slots == 4 {
      SeamIncrementMonotone(b, c);
    } else {
      TruncatedMonotoneInBase(b, c, slots, 2);
      TruncatedAtLeastOne(b, slots, 2);
      MulMonotoneBoth(b, c, Truncated(b, slots, 2), Truncated(c, slots, 2));
    }
  }

  lemma SeamIncrementMonotone(b: real, c: real)
    requires 0.0 <= b <= c <= 4.0
    ensures SeamIncrement(b) <= SeamIncrement(c)
  {
    hide Mul, SeamIncrement;
    // Factor the difference over c - b; the remaining factor is non-negative up to 4.
    var d, bb, bc, cc := c - b, Mul(b, b), Mul(b, c), Mul(c, c);
    MulMonotone(b, c, b);
    MulMonotone(b, c, c);
    MulNonNegative(b, b);
    SeamFactors(b, c);
    SeamFactorBound(b, c, bb, bc, cc);
    MulNonNegative(d, b + c);
    MulMonotone(Mul(b, bb) + Mul(b, cc) + Mul(c, bb) + Mul(c, cc), 6.0 * (bb + bc + cc), d);
    MulScales(d, bb + bc + cc, 6.0);
    SeamIncrementIs(b);
    SeamIncrementIs(c);
  }

  lemma SeamIncrementIs(b: real)
    ensures SeamIncrement(b)
         == b + 4.0 * Mul(b, b) + 6.0 * Mul(b, Mul(b, b)) - Mul(b, Mul(b, Mul(b, b)))
  {}

  lemma MulScales(x: real, y: real, k: real)
    ensures Mul(x, k * y) == k * Mul(x, y)
  {}

  lemma SeamFactorBound(b: real, c: real, bb: real, bc: real, cc: real)
    requires 0.0 <= b <= c <= 4.0 && 0.0 <= bb <= bc <= cc
    requires Mul(b, cc) == Mul(c, bc)
    ensures Mul(b, bb) + Mul(b, cc) + Mul(c, bb) + Mul(c, cc) <= 6.0 * (bb + bc + cc)
  {
    hide Mul;
    MulMonotone(b, 4.0, bb);
    MulMonotone(c, 4.0, bb);
    MulMonotone(c, 4.0, bc);
    MulMonotone(c, 4.0, cc);
    MulIs(4.0, bb);
    MulIs(4.0, bc);
    MulIs(4.0, cc);
  }

  lemma SeamFactors(b: real, c: real)
    ensures var d, bb, bc, cc := c - b, Mul(b, b), Mul(b, c), Mul(c, c);
      && Mul(d, b + c) == cc - bb
      && Mul(b, cc) == Mul(c, bc)
      && Mul(d, bb + bc + cc) == Mul(c, cc) - Mul(b, bb)
      && Mul(d, Mul(b, bb) + Mul(b, cc) + Mul(c, bb) + Mul(c, cc)) == Mul(c, Mul(c, cc)) - Mul(b, Mul(b, bb))
  {
    var bb, cc := b * b, c * c;
    assert (c - b) * (b * bb + b * cc + c * bb + c * cc) == (c - b) * ((b + c) * (bb + cc));
    assert ((c - b) * (b + c)) * (bb + cc) == (cc - bb) * (bb + cc);
    assert (cc - bb) * (bb + cc) == cc * cc - bb * bb;
  }
}
