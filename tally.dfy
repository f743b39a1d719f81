/** The block-restricted tally behind `has2Correlation(a, classes)` in the
    binary and ternary cases: the index range is cut into blocks of `small`
    consecutive indices, and a pair (n, n + a) is tallied, under the residue
    (w * u_n + u_{n+a}) mod q, only when both ends lie in one block. */
module Tally {
  import opened Arith

  /** Whether n and n + a fall in one block of `small` indices (never when small == 0). */
  predicate SameBlock(n: nat, a: nat, small: nat)
  {
    small > 0 && n / small == (n + a) / small
  }

  /** The larger of two tallies. */
  function Max(x: int, y: int): (r: int)
    ensures r >= x && r >= y && (r == x || r == y)
  {
    if x >= y then x else y
  }

  /** The number of start indices n of a pair: those with n + a inside the sequence. */
  function Span(len: nat, a: nat): nat
  {
    if a < len then len - a else 0
  }

  /** The residue class under which the pair (n, n + a) is tallied. */
  function Residue(cls: seq<int>, n: nat, a: nat, w: int, q: nat): int
    requires q > 0 && n + a < |cls|
  {
    (w * cls[n] + cls[n + a]) % q
  }

  /** How many n < upto have n and n + a in one block and residue c. */
  function PairCount(cls: seq<int>, a: nat, small: nat, w: int, q: nat, c: int, upto: nat): (r: nat)
    requires q > 0 && (upto == 0 || upto + a <= |cls|)
    ensures r <= upto
  {
    if upto == 0 then 0
    else
      var n := upto - 1;
      PairCount(cls, a, small, w, q, c, n)
      + (if SameBlock(n, a, small) && Residue(cls, n, a, w, q) == c then 1 else 0)
  }

  /** How many n < upto have n and n + a in one block, whatever the residue. */
  function BlockPairs(a: nat, small: nat, upto: nat): (r: nat)
    ensures r <= upto
  {
    if upto == 0 then 0
    else BlockPairs(a, small, upto - 1) + (if SameBlock(upto - 1, a, small) then 1 else 0)
  }

  /** The tallies of the classes 0 .. k-1 added up. */
  function ClassesTotal(cls: seq<int>, a: nat, small: nat, w: int, q: nat, k: nat, upto: nat): nat
    requires q > 0 && (upto == 0 || upto + a <= |cls|)
  {
    if k == 0 then 0
    else ClassesTotal(cls, a, small, w, q, k - 1, upto) + PairCount(cls, a, small, w, q, k - 1, upto)
  }

  lemma DivAtLeastOneMore(n: nat, a: nat, small: nat)
    requires 0 < small <= a
    ensures (n + a) / small > n / small
  {
    var q, r := n / small, n % small;
    var q', r' := (n + a) / small, (n + a) % small;
    assert n == small * q + r;
    assert n + a == small * q' + r';
    MulBound(small, q + 1 - q');
    assert small * (q + 1 - q') == small * q + small - small * q';
  }

  /** When blocks are empty or no longer than the shift, no pair fits in a block. */
  lemma {:induction false} NoPairWhenBlockTooShort(cls: seq<int>, a: nat, small: nat, w: int, q: nat, c: int, upto: nat)
    requires q > 0 && (upto == 0 || upto + a <= |cls|)
    requires small == 0 || small <= a
    ensures PairCount(cls, a, small, w, q, c, upto) == 0
  {
    if upto > 0 {
      NoPairWhenBlockTooShort(cls, a, small, w, q, c, upto - 1);
      if small > 0 {
        DivAtLeastOneMore(upto - 1, a, small);
      }
    }
  }

  lemma {:induction false} ClassesTotalStep(cls: seq<int>, a: nat, small: nat, w: int, q: nat, k: nat, upto: nat)
    requires q > 0 && 0 < upto && upto + a <= |cls| && k <= q
    ensures ClassesTotal(cls, a, small, w, q, k, upto)
         == ClassesTotal(cls, a, small, w, q, k, upto - 1)
            + (if SameBlock(upto - 1, a, small) && Residue(cls, upto - 1, a, w, q) < k then 1 else 0)
  {
    if k > 0 {
      ClassesTotalStep(cls, a, small, w, q, k - 1, upto);
    }
  }

  /** Every tallied pair lands in exactly one of the q classes, so the class
      tallies add up to the number of in-block pairs. */
  lemma {:induction false} ClassesAddUp(cls: seq<int>, a: nat, small: nat, w: int, q: nat, upto: nat)
    requires q > 0 && (upto == 0 || upto + a <= |cls|)
    ensures ClassesTotal(cls, a, small, w, q, q, upto) == BlockPairs(a, small, upto)
  {
    if upto > 0 {
      ClassesAddUp(cls, a, small, w, q, upto - 1);
      ClassesTotalStep(cls, a, small, w, q, q, upto);
      if SameBlock(upto - 1, a, small) {
        assert 0 <= Residue(cls, upto - 1, a, w, q) < q;
      }
    } else {
      ClassesTotalEmpty(cls, a, small, w, q, q);
    }
  }

  lemma {:induction false} ClassesTotalEmpty(cls: seq<int>, a: nat, small: nat, w: int, q: nat, k: nat)
    requires q > 0
    ensures ClassesTotal(cls, a, small, w, q, k, 0) == 0
  {
    if k > 0 {
      ClassesTotalEmpty(cls, a, small, w, q, k - 1);
    }
  }
}
