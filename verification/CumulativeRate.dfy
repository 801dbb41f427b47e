/**
 The stored cumulative borrow rate is a big number in 64-bit limbs, lowest first.  The
 reserve recomposes it; the obligation sums it after reversing the stored array in place.
 */
module CumulativeRate {

  const LIMB: nat := 0x1_0000_0000_0000_0000

  /** The base-2^64 recomposition, `shln(i * 64)` being multiplication by 2^(64 i). */
  function Recomposed(limbs: seq<nat>): nat
  {
    if limbs == [] then 0 else limbs[0] + LIMB * Recomposed(limbs[1..])
  }

  function Power(i: nat): nat { if i == 0 then 1 else LIMB * Power(i - 1) }

  /** The reserve's fold over the limbs. */
  method ReserveCumulativeRate(limbs: seq<nat>) returns (acc: nat)
    ensures acc == Recomposed(limbs)
  {
    acc := 0;
    var shift := 1;
    for i := 0 to |limbs|
      invariant shift == Power(i)
      invariant acc + shift * Recomposed(limbs[i..]) == Recomposed(limbs)
    {
      assert limbs[i..][0] == limbs[i] && limbs[i..][1..] == limbs[i + 1..];
      ghost var rest := Recomposed(limbs[i + 1..]);
      assert shift * (limbs[i] + LIMB * rest) == limbs[i] * shift + (LIMB * shift) * rest;
      acc := acc + limbs[i] * shift;
      shift := LIMB * shift;
    }
    assert limbs[|limbs|..] == [];
  }

  function Sum(limbs: seq<nat>): nat
  {
    if limbs == [] then 0 else limbs[0] + Sum(limbs[1..])
  }

  function ReversedLimbs(limbs: seq<nat>): seq<nat>
  {
    if limbs == [] then [] else ReversedLimbs(limbs[1..]) + [limbs[0]]
  }

  lemma {:induction false} SumOfAppend(a: seq<nat>, b: seq<nat>)
    ensures Sum(a + b) == Sum(a) + Sum(b)
  {
    if a == [] {
      assert a + b == b;
    } else {
      assert (a + b)[1..] == a[1..] + b;
      SumOfAppend(a[1..], b);
    }
  }

  lemma {:induction false} SumOfReversedLimbs(a: seq<nat>)
    ensures Sum(ReversedLimbs(a)) == Sum(a)
  {
    if a != [] {
      SumOfReversedLimbs(a[1..]);
      SumOfAppend(ReversedLimbs(a[1..]), [a[0]]);
    }
  }

  lemma {:induction false} LimbOfReversed(a: seq<nat>, k: nat)
    requires k < |a|
    ensures |ReversedLimbs(a)| == |a| && ReversedLimbs(a)[k] == a[|a| - 1 - k]
  {
    if |a| > 1 { LimbOfReversed(a[1..], if k < |a| - 1 then k else 0); }
  }

  /** A borrow slot of an obligation; its limb array is shared with whoever holds the slot. */
  class BorrowSlot {
    const cumulativeBorrowRateBsf: array<nat>

    constructor (limbs: array<nat>)
      ensures cumulativeBorrowRateBsf == limbs
    {
      cumulativeBorrowRateBsf := limbs;
    }

    /** Reverses the stored array in place, then adds up the limbs; the shift of the accumulator is discarded. */
    method GetCumulativeBorrowRate() returns (acc: nat)
      modifies cumulativeBorrowRateBsf
      ensures cumulativeBorrowRateBsf[..] == ReversedLimbs(old(cumulativeBorrowRateBsf[..]))
      ensures acc == Sum(old(cumulativeBorrowRateBsf[..]))
    {
      hide ReversedLimbs;
      var a := cumulativeBorrowRateBsf;
      ReverseLimbs(a);
      acc := 0;
      for j := 0 to a.Length
        invariant a[..] == ReversedLimbs(old(a[..]))
        invariant acc + Sum(a[j..]) == Sum(a[..])
      {
        assert a[j..][1..] == a[j + 1..];
        acc := acc + a[j];
      }
      assert a[a.Length..] == [];
      SumOfReversedLimbs(old(a[..]));
    }
  }

  method ReverseLimbs(a: array<nat>)
    modifies a
    ensures a[..] == ReversedLimbs(old(a[..]))
  {
    hide ReversedLimbs;
    var n, i := a.Length, 0;
    while i < n / 2
      invariant 0 <= i <= n / 2
      invariant forall k :: 0 <= k < i ==> a[k] == old(a[n - 1 - k]) && a[n - 1 - k] == old(a[k])
      invariant forall k :: i <= k < n - i ==> a[k] == old(a[k])
    {
      a[i], a[n - 1 - i] := a[n - 1 - i], a[i];
      i := i + 1;
    }
    MirroredLimbs(old(a[..]), a[..]);
  }

  lemma MirroredLimbs(was: seq<nat>, now: seq<nat>)
    requires |was| == |now| && forall k :: 0 <= k < |now| ==> now[k] == was[|was| - 1 - k]
    ensures now == ReversedLimbs(was)
  {
    if was != [] {
      forall k | 0 <= k < |now| ensures |ReversedLimbs(was)| == |now| && now[k] == ReversedLimbs(was)[k] { LimbOfReversed(was, k); }
      LimbOfReversed(was, 0);
    }
  }

  lemma LimbsReversedTwice(a: seq<nat>)
    ensures ReversedLimbs(ReversedLimbs(a)) == a
  {
    var b := ReversedLimbs(a);
    if a != [] {
      LimbOfReversed(a, 0);
      forall k: nat | k < |a| ensures |ReversedLimbs(b)| == |a| && ReversedLimbs(b)[k] == a[k] {
        LimbOfReversed(a, |a| - 1 - k);
        LimbOfReversed(b, k);
      }
      LimbOfReversed(b, 0);
    }
  }

  /** The stored limbs after n calls. */
  function AfterCalls(limbs: seq<nat>, n: nat): seq<nat>
  {
    if n == 0 then limbs else ReversedLimbs(AfterCalls(limbs, n - 1))
  }

  /** However often the rate was read before, the next call returns the same value. */
  lemma {:induction false} RepeatedReadsAgree(limbs: seq<nat>, n: nat)
    ensures Sum(AfterCalls(limbs, n)) == Sum(limbs)
    ensures AfterCalls(limbs, n) == if n % 2 == 0 then limbs else ReversedLimbs(limbs)
  {
    if n > 0 {
      RepeatedReadsAgree(limbs, n - 1);
      SumOfReversedLimbs(AfterCalls(limbs, n - 1));
      LimbsReversedTwice(limbs);
    }
  }

  /** The obligation's sum is the recomposed rate exactly when all limbs above the lowest are zero. */
  lemma SumIsRecomposedIff(limbs: seq<nat>)
    ensures Sum(limbs) == Recomposed(limbs) <==> forall i :: 1 <= i < |limbs| ==> limbs[i] == 0
  {
    if limbs != [] {
      SumBelowRecomposed(limbs[1..]);
      var rest := limbs[1..];
      if forall i :: 1 <= i < |limbs| ==> limbs[i] == 0 {
        assert forall i :: 0 <= i < |rest| ==> rest[i] == limbs[i + 1];
      } else {
        var i :| 1 <= i < |limbs| && limbs[i] != 0;
        assert rest[i - 1] != 0;
      }
    }
  }

  lemma {:induction false} SumBelowRecomposed(limbs: seq<nat>)
    ensures Sum(limbs) <= Recomposed(limbs)
    ensures (forall i :: 0 <= i < |limbs| ==> limbs[i] == 0) <==> Recomposed(limbs) == 0
  {
    if limbs != [] {
      var rest := limbs[1..];
      SumBelowRecomposed(rest);
      if forall i :: 0 <= i < |limbs| ==> limbs[i] == 0 {
        assert forall i :: 0 <= i < |rest| ==> rest[i] == limbs[i + 1];
      }
      if Recomposed(limbs) == 0 {
        assert forall i :: 0 < i < |limbs| ==> limbs[i] == rest[i - 1];
      }
    }
  }

  /** A rate of 2^64, stored as limbs 0 and 1, is read back as 1. */
  lemma HighLimbIsLost()
    ensures Sum([0, 1]) == 1 && Recomposed([0, 1]) == LIMB
  {
    var limbs: seq<nat> := [0, 1];
    assert limbs[1..] == [1];
    assert limbs[1..][1..] == [];
  }
}
