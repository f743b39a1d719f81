/** The capped base-3 odometer behind `Case3.next` and `Case5.next`.
    A state is a little-endian vector of digits in 0..2, entry i never above caps[i].
    `Succ` is one carry-propagating increment; `Advance` repeats it until the
    least nonzero digit is not 2, so that of two vectors that are multiples of
    each other (mod 3) only the one whose least nonzero digit is 1 is visited. */
module Odometer {
  import opened Arith

  predicate ValidCaps(caps: seq<int>)
  {
    forall i :: 0 <= i < |caps| ==> 0 <= caps[i] <= 2
  }

  predicate WithinCaps(p: seq<int>, caps: seq<int>)
  {
    |p| == |caps| && forall i :: 0 <= i < |p| ==> 0 <= p[i] <= caps[i]
  }

  /** The position of a state in the little-endian base-3 order. */
  function ToNat(p: seq<int>): int
  {
    FromDigits(p, 3)
  }

  /** The first nonzero entry, or 0 for the all-zero vector. */
  function LeastNonzero(p: seq<int>): int
  {
    if p == [] then 0 else if p[0] != 0 then p[0] else LeastNonzero(p[1..])
  }

  /** A vector the enumeration yields: within its caps and not twice another one. */
  predicate Canonical(p: seq<int>, caps: seq<int>)
  {
    WithinCaps(p, caps) && LeastNonzero(p) != 2
  }

  /** One increment: entries at their cap wrap to 0 and carry, the first entry
      below its cap goes up by one; false when every entry wrapped. */
  function Succ(p: seq<int>, caps: seq<int>): (r: (bool, seq<int>))
    requires |p| == |caps|
    ensures |r.1| == |p|
  {
    if p == [] then (false, [])
    else if p[0] == caps[0] then
      var t := Succ(p[1..], caps[1..]);
      (t.0, [0] + t.1)
    else (true, [p[0] + 1] + p[1..])
  }

  /** The successor of `next()` after its first call: increment until the least
      nonzero digit is not 2, or report exhaustion with every digit back at 0. */
  function Advance(p: seq<int>, caps: seq<int>): (r: (bool, seq<int>))
    requires ValidCaps(caps) && WithinCaps(p, caps)
    ensures |r.1| == |p|
    decreases Pow(3, |p|) - ToNat(p)
  {
    var t := Succ(p, caps);
    if !t.0 then t
    else if LeastNonzero(t.1) == 2 then
      SuccFacts(p, caps);
      CappedBound(t.1, caps);
      Advance(t.1, caps)
    else t
  }

  // ---------------------------------------------------------------------------
  // Facts about the order and the increment

  lemma CappedBound(p: seq<int>, caps: seq<int>)
    requires ValidCaps(caps) && WithinCaps(p, caps)
    ensures IsDigits(p, 3)
    ensures 0 <= ToNat(p) < Pow(3, |p|)
  {
    FromDigitsBound(p, 3);
  }

  /** Two capped vectors of the same length at the same position are equal. */
  lemma ToNatInjective(s: seq<int>, q: seq<int>, caps: seq<int>)
    requires ValidCaps(caps) && WithinCaps(s, caps) && WithinCaps(q, caps)
    ensures ToNat(s) == ToNat(q) ==> s == q
  {
    CappedBound(s, caps);
    CappedBound(q, caps);
    ToFromDigits(s, 3);
    ToFromDigits(q, 3);
  }

  lemma TailCaps(p: seq<int>, caps: seq<int>)
    requires ValidCaps(caps) && WithinCaps(p, caps) && p != []
    ensures ValidCaps(caps[1..]) && WithinCaps(p[1..], caps[1..])
  {
    assert forall i :: 0 <= i < |p| - 1 ==> p[1..][i] == p[i + 1] && caps[1..][i] == caps[i + 1];
  }

  /** What one increment does: it stays within the caps, moves strictly
      forward when it succeeds, and wraps everything to 0 when it fails. */
  lemma {:induction false} SuccFacts(p: seq<int>, caps: seq<int>)
    requires ValidCaps(caps) && WithinCaps(p, caps)
    ensures WithinCaps(Succ(p, caps).1, caps)
    ensures Succ(p, caps).0 ==> ToNat(Succ(p, caps).1) > ToNat(p)
    ensures Succ(p, caps).0 ==> LeastNonzero(Succ(p, caps).1) in {1, 2}
    ensures !Succ(p, caps).0 ==> Succ(p, caps).1 == Zeros(|p|)
  {
    if p != [] {
      TailCaps(p, caps);
      SuccFacts(p[1..], caps[1..]);
      var q := Succ(p, caps).1;
      assert q[1..] == (if p[0] == caps[0] then Succ(p[1..], caps[1..]).1 else p[1..]);
      assert forall i :: 1 <= i < |q| ==> q[i] == q[1..][i - 1];
    }
  }

  /** Every capped vector beyond p is at or beyond the increment of p: no
      capped vector is skipped, and when the increment fails there is none. */
  lemma {:induction false} SuccImmediate(p: seq<int>, s: seq<int>, caps: seq<int>)
    requires ValidCaps(caps) && WithinCaps(p, caps) && WithinCaps(s, caps)
    ensures ToNat(s) > ToNat(p) ==> Succ(p, caps).0 && ToNat(s) >= ToNat(Succ(p, caps).1)
  {
    if p != [] {
      TailCaps(p, caps);
      TailCaps(s, caps);
      SuccImmediate(p[1..], s[1..], caps[1..]);
      CappedBound(s[1..], caps[1..]);
      if p[0] == caps[0] {
        SuccFacts(p[1..], caps[1..]);
        CappedBound(Succ(p[1..], caps[1..]).1, caps[1..]);
      }
    }
  }

  /** The increment of a vector whose first i entries sit at their caps, read
      the way the source's loop reads it: entries below i reset to 0 and entry
      i goes up by one, or all entries reset when i reaches the end. */
  lemma {:induction false} SuccAt(p: seq<int>, caps: seq<int>, i: nat)
    requires |p| == |caps| && i <= |p|
    requires forall k :: 0 <= k < i ==> p[k] == caps[k]
    requires i < |p| ==> p[i] != caps[i]
    ensures Succ(p, caps) ==
            if i == |p| then (false, Zeros(|p|)) else (true, Zeros(i) + [p[i] + 1] + p[i + 1..])
  {
    if i > 0 {
      SuccAt(p[1..], caps[1..], i - 1);
      if i == |p| {
        assert [0] + Zeros(|p| - 1) == Zeros(|p|);
      } else {
        assert p[1..][i - 1 + 1..] == p[i + 1..];
        assert [0] + (Zeros(i - 1) + [p[i] + 1] + p[i + 1..]) == Zeros(i) + [p[i] + 1] + p[i + 1..];
      }
    } else if p != [] {
      assert [p[0] + 1] + p[1..] == Zeros(0) + [p[0] + 1] + p[1..];
    }
  }

  /** The least nonzero entry of a vector that starts with i zeros and then v != 0 is v. */
  lemma {:induction false} LeastNonzeroAfterZeros(i: nat, v: int, rest: seq<int>)
    requires v != 0
    ensures LeastNonzero(Zeros(i) + [v] + rest) == v
  {
    if i > 0 {
      LeastNonzeroAfterZeros(i - 1, v, rest);
      assert (Zeros(i) + [v] + rest)[1..] == Zeros(i - 1) + [v] + rest;
    }
  }

  /** The state of the loop of `next` after i wrapped entries, with entry i then set to v. */
  lemma Spliced(s: seq<int>, p: seq<int>, i: nat, v: int)
    requires i < |p| && s == (Zeros(i) + p[i..])[i := v]
    ensures s == Zeros(i) + [v] + p[i + 1..]
    ensures v == 0 ==> s == Zeros(i + 1) + p[i + 1..]
  {
    assert s[i + 1..] == p[i + 1..];
  }

  /** The loop of `next` stops at the first entry i below its cap: when that
      entry is 0 it becomes 1 and the new vector is the one Advance yields. */
  lemma AdvanceAtYield(p: seq<int>, caps: seq<int>, i: nat)
    requires ValidCaps(caps) && WithinCaps(p, caps) && i < |p|
    requires forall k :: 0 <= k < i ==> p[k] == caps[k]
    requires p[i] != caps[i] && p[i] == 0
    ensures Advance(p, caps) == (true, Zeros(i) + [1] + p[i + 1..])
  {
    SuccAt(p, caps, i);
    LeastNonzeroAfterZeros(i, 1, p[i + 1..]);
  }

  /** When that entry is 1 it becomes 2: the new vector is further on, within
      the caps, and Advance from it gives what Advance from p gives. */
  lemma AdvanceAtCarry(p: seq<int>, caps: seq<int>, i: nat)
    requires ValidCaps(caps) && WithinCaps(p, caps) && i < |p|
    requires forall k :: 0 <= k < i ==> p[k] == caps[k]
    requires p[i] != caps[i] && p[i] != 0
    ensures WithinCaps(Zeros(i) + [2] + p[i + 1..], caps)
    ensures ToNat(p) < ToNat(Zeros(i) + [2] + p[i + 1..]) < Pow(3, |p|)
    ensures Advance(p, caps) == Advance(Zeros(i) + [2] + p[i + 1..], caps)
  {
    SuccAt(p, caps, i);
    LeastNonzeroAfterZeros(i, 2, p[i + 1..]);
    SuccFacts(p, caps);
    CappedBound(Zeros(i) + [2] + p[i + 1..], caps);
  }

  /** When every entry sits at its cap, Advance reports exhaustion with all entries 0. */
  lemma AdvanceAtEnd(p: seq<int>, caps: seq<int>)
    requires ValidCaps(caps) && WithinCaps(p, caps)
    requires forall k :: 0 <= k < |p| ==> p[k] == caps[k]
    ensures Advance(p, caps) == (false, Zeros(|p|))
  {
    SuccAt(p, caps, |p|);
  }

  // ---------------------------------------------------------------------------
  // The properties of the enumeration

  /** Advance keeps every entry within its cap. */
  lemma AdvanceWithinCaps(p: seq<int>, caps: seq<int>)
    requires ValidCaps(caps) && WithinCaps(p, caps)
    ensures WithinCaps(Advance(p, caps).1, caps)
    decreases Pow(3, |p|) - ToNat(p)
  {
    SuccFacts(p, caps);
    var t := Succ(p, caps);
    if t.0 && LeastNonzero(t.1) == 2 {
      CappedBound(t.1, caps);
      AdvanceWithinCaps(t.1, caps);
    }
  }

  /** A state Advance yields is nonzero with least nonzero entry 1, and lies
      strictly beyond the state it started from. */
  lemma AdvanceYield(p: seq<int>, caps: seq<int>)
    requires ValidCaps(caps) && WithinCaps(p, caps)
    ensures Advance(p, caps).0 ==> LeastNonzero(Advance(p, caps).1) == 1
    ensures Advance(p, caps).0 ==> ToNat(Advance(p, caps).1) > ToNat(p)
    decreases Pow(3, |p|) - ToNat(p)
  {
    SuccFacts(p, caps);
    var t := Succ(p, caps);
    if t.0 && LeastNonzero(t.1) == 2 {
      CappedBound(t.1, caps);
      AdvanceYield(t.1, caps);
    }
  }

  /** Advance reports exhaustion only with every entry reset to 0. */
  lemma AdvanceExhausted(p: seq<int>, caps: seq<int>)
    requires ValidCaps(caps) && WithinCaps(p, caps)
    ensures !Advance(p, caps).0 ==> Advance(p, caps).1 == Zeros(|p|)
    decreases Pow(3, |p|) - ToNat(p)
  {
    SuccFacts(p, caps);
    var t := Succ(p, caps);
    if t.0 && LeastNonzero(t.1) == 2 {
      CappedBound(t.1, caps);
      AdvanceExhausted(t.1, caps);
    }
  }

  /** No canonical vector is skipped: any canonical s beyond p is at or beyond
      what Advance yields, and Advance reports exhaustion only when there is none. */
  lemma AdvanceLeast(p: seq<int>, s: seq<int>, caps: seq<int>)
    requires ValidCaps(caps) && WithinCaps(p, caps) && Canonical(s, caps)
    requires ToNat(p) < ToNat(s)
    ensures Advance(p, caps).0 && ToNat(Advance(p, caps).1) <= ToNat(s)
    decreases Pow(3, |p|) - ToNat(p)
  {
    SuccFacts(p, caps);
    SuccImmediate(p, s, caps);
    var t := Succ(p, caps);
    if LeastNonzero(t.1) == 2 {
      CappedBound(t.1, caps);
      ToNatInjective(s, t.1, caps);
      AdvanceLeast(t.1, s, caps);
    }
  }
}
