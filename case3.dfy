/** The ternary case: block functions of rank 3 over the digits 0, 1, 2,
    given by a table of 27 values (entry a + 3b + 9c holds the value on the
    little-endian tuple (a, b, c)). The module holds the capped enumeration
    `next`, the terms u_n of `eval`, the family check of `goodFamily` and
    the two 2-correlation scans. */
module Case3 {
  import opened Arith
  import opened Tally
  import opened Odometer

  /** MAX: the largest value each table entry takes during the enumeration. */
  const Caps: seq<int> := [0, 0, 0, 0, 2, 2, 0, 2, 2, 0, 2, 2, 2, 2, 2, 2, 2, 2, 0, 2, 2, 2, 2, 2, 2, 2, 2]

  /** POW3: the powers 3^0 .. 3^14. */
  const Pow3Table: seq<int> := [1, 3, 9, 27, 81, 243, 729, 2187, 6561, 19683, 59049, 177147, 531441, 1594323, 4782969]

  /** NMAX: the number of base-3 digits `eval` reads. */
  const NMax := 15

  lemma CapsValid()
    ensures |Caps| == 27 && ValidCaps(Caps)
  {
  }

  /** POW3 holds the powers of 3 it is named after. */
  lemma Pow3TableAgrees(m: nat)
    requires m < 15
    ensures Pow3Table[m] == Pow(3, m)
  {
    assert Pow(3, 7) == 2187;
    assert Pow(3, 14) == 4782969;
  }

  /** The capped entries are exactly those of the tuples with at most one
      nonzero digit, the tuples on which two functions that differ by a sum of
      selections of single digits can be told apart; fixing them to 0 visits
      one function of each such class. */
  lemma CapsZeroOnSelections(a: int, b: int, c: int)
    requires 0 <= a < 3 && 0 <= b < 3 && 0 <= c < 3
    ensures Caps[a + 3 * b + 9 * c] == 0 <==> (b == 0 && c == 0) || (a == 0 && c == 0) || (a == 0 && b == 0)
  {
    if c == 0 {
      if b == 0 {
      } else if b == 1 {
      } else {
      }
    } else if c == 1 {
      if b == 0 {
      } else if b == 1 {
      } else {
      }
    } else {
      if b == 0 {
      } else if b == 1 {
      } else {
      }
    }
  }

  /** A table of a rank-3 block function: 27 values, each 0, 1 or 2. */
  predicate Table(f: seq<int>)
  {
    |f| == 27 && forall k :: 0 <= k < 27 ==> 0 <= f[k] <= 2
  }

  /** Every state of the enumeration is a table, with 0 at the capped entries
      0, 1, 2, 3, 6, 9 and 18. */
  lemma CappedIsTable(p: seq<int>)
    requires WithinCaps(p, Caps)
    ensures Table(p)
    ensures p[0] == 0 && p[1] == 0 && p[2] == 0 && p[3] == 0 && p[6] == 0 && p[9] == 0 && p[18] == 0
  {
  }

  /** Every state the enumeration moves to is within the caps, hence a table. */
  lemma AdvanceIsTable(p: seq<int>)
    requires WithinCaps(p, Caps)
    ensures WithinCaps(Advance(p, Caps).1, Caps) && Table(Advance(p, Caps).1)
  {
    AdvanceWithinCaps(p, Caps);
    CappedIsTable(Advance(p, Caps).1);
  }

  // ---------------------------------------------------------------------------
  // The terms u_n

  /** The block function on the tuple (a, b, c). */
  function Block(f: seq<int>, a: int, b: int, c: int): (r: int)
    requires Table(f) && 0 <= a < 3 && 0 <= b < 3 && 0 <= c < 3
    ensures 0 <= r <= 2
  {
    f[a + 3 * b + 9 * c]
  }

  /** The block function summed over every window of three consecutive digits of s. */
  function WindowSum(f: seq<int>, s: seq<int>): (r: int)
    requires Table(f) && IsDigits(s, 3)
    ensures 0 <= r <= 2 * |s|
  {
    if |s| < 3 then 0 else Block(f, s[0], s[1], s[2]) + WindowSum(f, s[1..])
  }

  /** The window sum from position i on: the window at i, then the rest. */
  lemma WindowStep(f: seq<int>, s: seq<int>, i: nat)
    requires Table(f) && IsDigits(s, 3) && i + 2 < |s|
    ensures WindowSum(f, s[i..]) == Block(f, s[i], s[i + 1], s[i + 2]) + WindowSum(f, s[i + 1..])
  {
    assert s[i..][1..] == s[i + 1..];
  }

  /** The digits `eval` sums over: the NMAX base-3 digits of n, then two zeros. */
  function PaddedDigits(n: nat): (s: seq<int>)
    ensures |s| == NMax + 2 && IsDigits(s, 3)
  {
    ToDigits(n, 3, NMax) + [0, 0]
  }

  /** The term u_n: the window sum over the digits of n, mod 3. */
  function U(f: seq<int>, n: nat): (r: int)
    requires Table(f)
    ensures 0 <= r < 3
  {
    WindowSum(f, PaddedDigits(n)) % 3
  }

  lemma {:induction false} ToDigitsOfZero(k: nat)
    ensures ToDigits(0, 3, k) == Zeros(k)
  {
    if k > 0 {
      ToDigitsOfZero(k - 1);
      assert ToDigits(0, 3, k) == [0] + ToDigits(0, 3, k - 1);
    }
  }

  lemma {:induction false} WindowSumOfZeros(f: seq<int>, k: nat)
    requires Table(f) && f[0] == 0
    ensures WindowSum(f, Zeros(k)) == 0
  {
    if k >= 3 {
      assert Zeros(k)[1..] == Zeros(k - 1);
      WindowSumOfZeros(f, k - 1);
    }
  }

  /** u_0 == 0 whenever f(0, 0, 0) == 0, as for every state of the enumeration. */
  lemma UOfZero(f: seq<int>)
    requires Table(f) && f[0] == 0
    ensures U(f, 0) == 0
  {
    ToDigitsOfZero(NMax);
    assert PaddedDigits(0) == Zeros(NMax + 2);
    WindowSumOfZeros(f, NMax + 2);
  }

  /** Leading zeros do not change the sum when f(0, 0, 0) == 0: a window sum
      over k + 2 digits of n < 3^k is the one over k + 3 digits. So u_n is the
      window sum over the expansion of n, whatever NMAX, for n < 3^NMAX. */
  lemma LeadingZero(f: seq<int>, n: nat, k: nat)
    requires Table(f) && f[0] == 0 && n < Pow(3, k)
    ensures IsDigits(ToDigits(n, 3, k) + [0, 0], 3) && IsDigits(ToDigits(n, 3, k + 1) + [0, 0], 3)
    ensures WindowSum(f, ToDigits(n, 3, k) + [0, 0]) == WindowSum(f, ToDigits(n, 3, k + 1) + [0, 0])
  {
    var s := ToDigits(n, 3, k) + [0, 0];
    ToDigitsPrefix(n, 3, k + 1, k);
    ToDigitsAt(n, 3, k + 1, k);
    PowPositive(3, k);
    DivModUnique(n, Pow(3, k), 0, n);
    assert ToDigits(n, 3, k + 1) + [0, 0] == s + [0];
    TrailingZero(f, s);
  }

  /** The step of LeadingZero: one more zero after a digit string that already
      ends in two zeros adds only the window (0, 0, 0). */
  lemma {:induction false} TrailingZero(f: seq<int>, s: seq<int>)
    requires Table(f) && f[0] == 0 && IsDigits(s, 3) && |s| >= 2 && s[|s| - 2..] == [0, 0]
    ensures IsDigits(s + [0], 3) && WindowSum(f, s + [0]) == WindowSum(f, s)
    decreases |s|
  {
    var t := s + [0];
    assert IsDigits(t, 3);
    if |s| > 2 {
      assert s[1..][|s| - 3..] == s[|s| - 2..];
      TrailingZero(f, s[1..]);
      assert t[1..] == s[1..] + [0];
      assert WindowSum(f, t) == Block(f, t[0], t[1], t[2]) + WindowSum(f, t[1..]);
      assert WindowSum(f, s) == Block(f, s[0], s[1], s[2]) + WindowSum(f, s[1..]);
    } else {
      assert t == [0, 0, 0];
      assert WindowSum(f, t) == Block(f, 0, 0, 0) + WindowSum(f, [0, 0]);
    }
  }

  // ---------------------------------------------------------------------------
  // Families of pairs (x, y): the check behind `goodFamily`

  /** The buffers of `family` and `fill`: a pattern and two digit vectors of its length. */
  predicate Shaped(eq: seq<bool>, xs: seq<int>, ys: seq<int>)
  {
    |xs| == |eq| && |ys| == |eq| && IsDigits(xs, 3) && IsDigits(ys, 3)
  }

  /** The tally of one completion: 1 in the class of 2 value(x) + value(y) mod 3. */
  function Unit(r: int): (t: (nat, nat, nat))
    requires 0 <= r < 3
    ensures t.0 + t.1 + t.2 == 1
    ensures r == 0 ==> t.0 == 1
    ensures r == 1 ==> t.1 == 1
    ensures r == 2 ==> t.2 == 1
  {
    if r == 0 then (1, 0, 0) else if r == 1 then (0, 1, 0) else (0, 0, 1)
  }

  function Add(s: (nat, nat, nat), t: (nat, nat, nat)): (nat, nat, nat)
  {
    (s.0 + t.0, s.1 + t.1, s.2 + t.2)
  }

  function Total(t: (nat, nat, nat)): nat
  {
    t.0 + t.1 + t.2
  }

  /** The counts `fill` adds to tab[0], tab[1] and tab[2]: over every way of
      setting the equal positions from `off` on to (0, 0), (1, 1) or (2, 2),
      how many completions have 2 value(x) + value(y) congruent to 0, 1, 2 mod 3. */
  function FillTally(f: seq<int>, eq: seq<bool>, xs: seq<int>, ys: seq<int>, off: nat): (nat, nat, nat)
    requires Table(f) && Shaped(eq, xs, ys) && off <= |eq|
    decreases |eq| - off, 4
  {
    if off == |eq| then Unit((2 * WindowSum(f, xs) + WindowSum(f, ys)) % 3)
    else if eq[off] then FillBranches(f, eq, xs, ys, off, 3)
    else FillTally(f, eq, xs, ys, off + 1)
  }

  /** The loop of `fill` at an equal position: the counts of the values below v there. */
  function FillBranches(f: seq<int>, eq: seq<bool>, xs: seq<int>, ys: seq<int>, off: nat, v: nat): (nat, nat, nat)
    requires Table(f) && Shaped(eq, xs, ys) && off < |eq| && v <= 3
    decreases |eq| - off, v
  {
    if v == 0 then (0, 0, 0)
    else Add(FillBranches(f, eq, xs, ys, off, v - 1), FillTally(f, eq, xs[off := v - 1], ys[off := v - 1], off + 1))
  }

  /** The number of equal positions from `off` on. */
  function EqCount(eq: seq<bool>, off: nat): nat
    requires off <= |eq|
    decreases |eq| - off
  {
    if off == |eq| then 0 else (if eq[off] then 1 else 0) + EqCount(eq, off + 1)
  }

  /** `fill` visits every completion once: the three counts add up to
      3^(number of equal positions from `off` on). */
  lemma {:induction false} FillTotal(f: seq<int>, eq: seq<bool>, xs: seq<int>, ys: seq<int>, off: nat)
    requires Table(f) && Shaped(eq, xs, ys) && off <= |eq|
    ensures Total(FillTally(f, eq, xs, ys, off)) == Pow(3, EqCount(eq, off))
    decreases |eq| - off, 4
  {
    if off < |eq| {
      if eq[off] {
        FillBranchesTotal(f, eq, xs, ys, off, 3);
      } else {
        FillTotal(f, eq, xs, ys, off + 1);
      }
    }
  }

  lemma {:induction false} FillBranchesTotal(f: seq<int>, eq: seq<bool>, xs: seq<int>, ys: seq<int>, off: nat, v: nat)
    requires Table(f) && Shaped(eq, xs, ys) && off < |eq| && v <= 3
    ensures Total(FillBranches(f, eq, xs, ys, off, v)) == v * Pow(3, EqCount(eq, off + 1))
    decreases |eq| - off, v
  {
    if v > 0 {
      var xs', ys' := xs[off := v - 1], ys[off := v - 1];
      assert Shaped(eq, xs', ys');
      var before, here := FillBranches(f, eq, xs, ys, off, v - 1), FillTally(f, eq, xs', ys', off + 1);
      assert FillBranches(f, eq, xs, ys, off, v) == Add(before, here);
      FillBranchesTotal(f, eq, xs, ys, off, v - 1);
      FillTotal(f, eq, xs', ys', off + 1);
      var p := Pow(3, EqCount(eq, off + 1));
      assert Total(Add(before, here)) == (v - 1) * p + p == v * p;
    }
  }

  /** What `fill` reads: the positions before `off` and the differing ones. */
  lemma {:induction false} FillFrame(f: seq<int>, eq: seq<bool>, xs: seq<int>, ys: seq<int>,
                                     xs': seq<int>, ys': seq<int>, off: nat)
    requires Table(f) && Shaped(eq, xs, ys) && Shaped(eq, xs', ys') && off <= |eq|
    requires forall k :: 0 <= k < |eq| && (k < off || !eq[k]) ==> xs[k] == xs'[k] && ys[k] == ys'[k]
    ensures FillTally(f, eq, xs, ys, off) == FillTally(f, eq, xs', ys', off)
    decreases |eq| - off, 4
  {
    if off == |eq| {
      assert xs == xs' && ys == ys';
    } else if eq[off] {
      FillBranchesFrame(f, eq, xs, ys, xs', ys', off, 3);
    } else {
      FillFrame(f, eq, xs, ys, xs', ys', off + 1);
    }
  }

  lemma {:induction false} FillBranchesFrame(f: seq<int>, eq: seq<bool>, xs: seq<int>, ys: seq<int>,
                                             xs': seq<int>, ys': seq<int>, off: nat, v: nat)
    requires Table(f) && Shaped(eq, xs, ys) && Shaped(eq, xs', ys') && off < |eq| && v <= 3
    requires forall k :: 0 <= k < |eq| && (k < off || !eq[k]) ==> xs[k] == xs'[k] && ys[k] == ys'[k]
    ensures FillBranches(f, eq, xs, ys, off, v) == FillBranches(f, eq, xs', ys', off, v)
    decreases |eq| - off, v
  {
    if v > 0 {
      FillBranchesFrame(f, eq, xs, ys, xs', ys', off, v - 1);
      FillFrame(f, eq, xs[off := v - 1], ys[off := v - 1], xs'[off := v - 1], ys'[off := v - 1], off + 1);
    }
  }

  /** The three classes are equally frequent. */
  predicate Balanced(t: (nat, nat, nat))
  {
    t.0 == t.1 && t.1 == t.2
  }

  /** The pairs (i, j) `family` tries at a differing position `off`: all nine
      below `pad` except at the carry position `len`, otherwise the six with i != j. */
  predicate Allowed(off: nat, pad: nat, len: nat, i: int, j: int)
  {
    (off != len && off < pad) || i != j
  }

  /** What `family` returns: every way of setting the differing positions from
      `off` on to allowed pairs gives a family whose tally from `pad` on is balanced. */
  predicate FamilyOK(f: seq<int>, eq: seq<bool>, xs: seq<int>, ys: seq<int>, off: nat, pad: nat, len: nat)
    requires Table(f) && Shaped(eq, xs, ys) && off <= |eq| && pad <= |eq|
    decreases |eq| - off, 1
  {
    if off == |eq| then Balanced(FillTally(f, eq, xs, ys, pad))
    else if eq[off] then FamilyOK(f, eq, xs, ys, off + 1, pad, len)
    else forall i, j | 0 <= i < 3 && 0 <= j < 3 :: PairOK(f, eq, xs, ys, off, pad, len, i, j)
  }

  /** The branch of `family` for the pair (i, j) at the differing position `off`. */
  predicate PairOK(f: seq<int>, eq: seq<bool>, xs: seq<int>, ys: seq<int>, off: nat, pad: nat, len: nat, i: int, j: int)
    requires Table(f) && Shaped(eq, xs, ys) && off < |eq| && pad <= |eq| && 0 <= i < 3 && 0 <= j < 3
    decreases |eq| - off, 0
  {
    Allowed(off, pad, len, i, j) ==> FamilyOK(f, eq, xs[off := i], ys[off := j], off + 1, pad, len)
  }

  /** The positions `family` from `off` on reads without first writing them:
      the differing positions before `off` and the equal ones before `pad`. */
  predicate Kept(eq: seq<bool>, pad: nat, off: nat, k: nat)
    requires k < |eq|
  {
    (k < off && !eq[k]) || (k < pad && eq[k])
  }

  /** What `family` reads: only the kept positions of x and y matter. */
  lemma {:induction false} FamilyFrame(f: seq<int>, eq: seq<bool>, xs: seq<int>, ys: seq<int>,
                                       xs': seq<int>, ys': seq<int>, off: nat, pad: nat, len: nat)
    requires Table(f) && Shaped(eq, xs, ys) && Shaped(eq, xs', ys') && off <= |eq| && pad <= |eq|
    requires forall k :: 0 <= k < |eq| && Kept(eq, pad, off, k) ==> xs[k] == xs'[k] && ys[k] == ys'[k]
    ensures FamilyOK(f, eq, xs, ys, off, pad, len) == FamilyOK(f, eq, xs', ys', off, pad, len)
    decreases |eq| - off
  {
    if off == |eq| {
      FillFrame(f, eq, xs, ys, xs', ys', pad);
    } else if eq[off] {
      FamilyFrame(f, eq, xs, ys, xs', ys', off + 1, pad, len);
    } else {
      forall i, j | 0 <= i < 3 && 0 <= j < 3
        ensures PairOK(f, eq, xs, ys, off, pad, len, i, j) == PairOK(f, eq, xs', ys', off, pad, len, i, j)
      {
        FamilyFrame(f, eq, xs[off := i], ys[off := j], xs'[off := i], ys'[off := j], off + 1, pad, len);
      }
    }
  }

  /** A digit vector with every differing position from `off` on set by the choice c. */
  function Complete(eq: seq<bool>, xs: seq<int>, off: nat, c: seq<int>): (r: seq<int>)
    requires |xs| == |eq| && |c| == |eq|
    ensures |r| == |xs|
    ensures forall k | 0 <= k < |r| :: r[k] == if off <= k && !eq[k] then c[k] else xs[k]
  {
    seq(|xs|, k requires 0 <= k < |xs| => if off <= k && !eq[k] then c[k] else xs[k])
  }

  /** The choices (cx, cy) set every differing position from `off` on to a
      pair of digits that `family` tries there. */
  predicate Admissible(eq: seq<bool>, off: nat, pad: nat, len: nat, cx: seq<int>, cy: seq<int>)
  {
    |cx| == |eq| && |cy| == |eq|
    && forall k | off <= k < |eq| && !eq[k] :: 0 <= cx[k] < 3 && 0 <= cy[k] < 3 && Allowed(k, pad, len, cx[k], cy[k])
  }

  /** The completion of x and y by the choices cx and cy is a shaped pair
      whose tally from `pad` on is balanced. */
  predicate CompletionBalanced(f: seq<int>, eq: seq<bool>, xs: seq<int>, ys: seq<int>, off: nat, pad: nat,
                               cx: seq<int>, cy: seq<int>)
    requires Table(f) && |xs| == |eq| && |ys| == |eq| && |cx| == |eq| && |cy| == |eq| && pad <= |eq|
  {
    var xs', ys' := Complete(eq, xs, off, cx), Complete(eq, ys, off, cy);
    Shaped(eq, xs', ys') && Balanced(FillTally(f, eq, xs', ys', pad))
  }

  /** Every admissible completion of the differing positions from `off` on
      gives a family whose tally from `pad` on is balanced. */
  ghost predicate AllBalanced(f: seq<int>, eq: seq<bool>, xs: seq<int>, ys: seq<int>, off: nat, pad: nat, len: nat)
    requires Table(f) && |xs| == |eq| && |ys| == |eq| && pad <= |eq|
  {
    forall cx, cy | Admissible(eq, off, pad, len, cx, cy) :: CompletionBalanced(f, eq, xs, ys, off, pad, cx, cy)
  }

  /** `family` accepts exactly when every completion of the differing positions
      from `off` on by pairs it tries there gives a balanced family. */
  lemma {:induction false} FamilyOKMeaning(f: seq<int>, eq: seq<bool>, xs: seq<int>, ys: seq<int>, off: nat, pad: nat, len: nat)
    requires Table(f) && Shaped(eq, xs, ys) && off <= |eq| && pad <= |eq|
    ensures FamilyOK(f, eq, xs, ys, off, pad, len) <==> AllBalanced(f, eq, xs, ys, off, pad, len)
    decreases |eq| - off, 1
  {
    if off == |eq| {
      forall cx, cy | Admissible(eq, off, pad, len, cx, cy)
        ensures CompletionBalanced(f, eq, xs, ys, off, pad, cx, cy) <==> Balanced(FillTally(f, eq, xs, ys, pad))
      {
        assert Complete(eq, xs, off, cx) == xs && Complete(eq, ys, off, cy) == ys;
      }
      assert Admissible(eq, off, pad, len, xs, ys);
    } else if eq[off] {
      FamilyOKMeaning(f, eq, xs, ys, off + 1, pad, len);
      forall cx, cy | |cx| == |eq| && |cy| == |eq|
        ensures CompletionBalanced(f, eq, xs, ys, off, pad, cx, cy) == CompletionBalanced(f, eq, xs, ys, off + 1, pad, cx, cy)
        ensures Admissible(eq, off, pad, len, cx, cy) == Admissible(eq, off + 1, pad, len, cx, cy)
      {
        assert Complete(eq, xs, off, cx) == Complete(eq, xs, off + 1, cx);
        assert Complete(eq, ys, off, cy) == Complete(eq, ys, off + 1, cy);
      }
    } else {
      FamilyOKMeaningBranch(f, eq, xs, ys, off, pad, len);
    }
  }

  /** The step of FamilyOKMeaning at a differing position: a completion
      chooses one of the pairs `family` tries there. */
  lemma {:induction false} FamilyOKMeaningBranch(f: seq<int>, eq: seq<bool>, xs: seq<int>, ys: seq<int>, off: nat, pad: nat, len: nat)
    requires Table(f) && Shaped(eq, xs, ys) && off < |eq| && pad <= |eq| && !eq[off]
    ensures FamilyOK(f, eq, xs, ys, off, pad, len) <==> AllBalanced(f, eq, xs, ys, off, pad, len)
    decreases |eq| - off, 0
  {
    forall i, j | 0 <= i < 3 && 0 <= j < 3
      ensures PairOK(f, eq, xs, ys, off, pad, len, i, j) <==> BranchBalanced(f, eq, xs, ys, off, pad, len, i, j)
    {
      FamilyOKMeaning(f, eq, xs[off := i], ys[off := j], off + 1, pad, len);
    }
    if AllBalanced(f, eq, xs, ys, off, pad, len) {
      forall i, j | 0 <= i < 3 && 0 <= j < 3 ensures BranchBalanced(f, eq, xs, ys, off, pad, len, i, j) {
        AllBalancedBranch(f, eq, xs, ys, off, pad, len, i, j);
      }
    }
    if forall i, j | 0 <= i < 3 && 0 <= j < 3 :: BranchBalanced(f, eq, xs, ys, off, pad, len, i, j) {
      AllBranchesBalanced(f, eq, xs, ys, off, pad, len);
    }
  }

  /** If `family` tries (i, j) at the differing position `off`, every
      completion from off + 1 with (i, j) written there is balanced. */
  ghost predicate BranchBalanced(f: seq<int>, eq: seq<bool>, xs: seq<int>, ys: seq<int>, off: nat, pad: nat, len: nat, i: int, j: int)
    requires Table(f) && |xs| == |eq| && |ys| == |eq| && off < |eq| && pad <= |eq|
  {
    Allowed(off, pad, len, i, j) ==> AllBalanced(f, eq, xs[off := i], ys[off := j], off + 1, pad, len)
  }

  /** Every completion from `off` balanced: so is every branch tried there. */
  lemma AllBalancedBranch(f: seq<int>, eq: seq<bool>, xs: seq<int>, ys: seq<int>, off: nat, pad: nat, len: nat, i: int, j: int)
    requires Table(f) && |xs| == |eq| && |ys| == |eq| && off < |eq| && pad <= |eq| && !eq[off]
    requires 0 <= i < 3 && 0 <= j < 3 && AllBalanced(f, eq, xs, ys, off, pad, len)
    ensures BranchBalanced(f, eq, xs, ys, off, pad, len, i, j)
  {
    var xi, yj, next := xs[off := i], ys[off := j], off + 1;
    if Allowed(off, pad, len, i, j) {
      forall cx, cy | Admissible(eq, next, pad, len, cx, cy)
        ensures CompletionBalanced(f, eq, xi, yj, next, pad, cx, cy)
      {
        var cx', cy' := cx[off := i], cy[off := j];
        assert Admissible(eq, off, pad, len, cx', cy');
        CompleteAt(eq, xs, off, cx, i);
        CompleteAt(eq, ys, off, cy, j);
        assert CompletionBalanced(f, eq, xs, ys, off, pad, cx', cy');
      }
    }
  }

  /** Every branch tried at `off` balanced: so is every completion from `off`. */
  lemma AllBranchesBalanced(f: seq<int>, eq: seq<bool>, xs: seq<int>, ys: seq<int>, off: nat, pad: nat, len: nat)
    requires Table(f) && |xs| == |eq| && |ys| == |eq| && off < |eq| && pad <= |eq| && !eq[off]
    requires forall i, j | 0 <= i < 3 && 0 <= j < 3 :: BranchBalanced(f, eq, xs, ys, off, pad, len, i, j)
    ensures AllBalanced(f, eq, xs, ys, off, pad, len)
  {
    forall cx, cy | Admissible(eq, off, pad, len, cx, cy)
      ensures CompletionBalanced(f, eq, xs, ys, off, pad, cx, cy)
    {
      var i, j := cx[off], cy[off];
      assert BranchBalanced(f, eq, xs, ys, off, pad, len, i, j);
      assert Admissible(eq, off + 1, pad, len, cx, cy);
      CompleteAt(eq, xs, off, cx[off := i], i);
      CompleteAt(eq, ys, off, cy[off := j], j);
      assert cx[off := i] == cx && cy[off := j] == cy;
    }
  }

  /** A completion from a differing position `off` with choice v there is the
      completion from off + 1 of the vector with v written in, which does not
      read the choice at off. */
  lemma CompleteAt(eq: seq<bool>, xs: seq<int>, off: nat, c: seq<int>, v: int)
    requires |xs| == |eq| && |c| == |eq| && off < |eq| && !eq[off]
    ensures Complete(eq, xs, off, c[off := v]) == Complete(eq, xs[off := v], off + 1, c[off := v])
                                              == Complete(eq, xs[off := v], off + 1, c)
  {
  }

  /** pad = max(len + 1 - before, 0): the weight of the families for carry distance len. */
  function Pad(len: nat, before: nat): (pad: nat)
    ensures pad <= len + 1 && (pad == 0 || pad + before == len + 1)
  {
    if len + 1 > before then len + 1 - before else 0
  }

  /** The pattern `goodFamily` builds for (len, i): bit j of i below len,
      never equal at len, always equal after it. */
  function Pattern(len: nat, i: nat, after: nat): (eq: seq<bool>)
    ensures |eq| == len + after + 1
  {
    seq(len + after + 1, j requires 0 <= j < len + after + 1 => if j < len then NatBit(i, j) else j > len)
  }

  /** The patterns `goodFamily` visits for len: i below 2^len in steps of 2^pad. */
  predicate Visited(before: nat, len: nat, i: nat)
  {
    i < Pow(2, len) && i % Pow(2, Pad(len, before)) == 0
  }

  /** The family `goodFamily` checks for (len, i), from x and y all 0. */
  predicate GoodPattern(f: seq<int>, before: nat, after: nat, len: nat, i: nat)
    requires Table(f)
  {
    var n := len + after + 1;
    FamilyOK(f, Pattern(len, i, after), Zeros(n), Zeros(n), 0, Pad(len, before), len)
  }

  /** What `goodFamily(before, after)` decides: every visited pattern gives families that all balance. */
  predicate GoodFamilySpec(f: seq<int>, before: nat, after: nat)
    requires Table(f)
  {
    forall len: nat, i: nat | len < before + 2 && i < Pow(2, len) && Visited(before, len, i) :: GoodPattern(f, before, after, len, i)
  }

  /** A multiple of 2^pad has its bits below pad clear. */
  lemma LowBitsClear(i: nat, pad: nat, k: nat)
    requires k < pad && i % Pow(2, pad) == 0
    ensures !NatBit(i, k)
  {
    var p, b, h := Pow(2, pad), Pow(2, k), Pow(2, pad - k - 1);
    PowAdd(2, k, pad - k);
    assert Pow(2, pad - k) == 2 * h;
    assert p == b * (2 * h);
    PowPositive(2, k);
    PowPositive(2, pad);
    var q := i / p;
    assert i == p * q;
    MulAssoc(b, 2 * h, q);
    MulAssoc(2, h, q);
    DivModUnique(i, b, 2 * h * q, 0);
    DivModUnique(2 * h * q, 2, h * q, 0);
  }

  lemma MulAssoc(a: int, b: int, c: int)
    ensures (a * b) * c == a * (b * c)
  {
  }

  /** In a visited pattern no position below pad is equal, so `family` from
      offset 0 reads none of the buffer contents it is started with. */
  lemma NothingKeptAtStart(before: nat, after: nat, len: nat, i: nat, k: nat)
    requires Visited(before, len, i) && k < len + after + 1
    ensures !Kept(Pattern(len, i, after), Pad(len, before), 0, k)
  {
    if k < Pad(len, before) && k < len {
      LowBitsClear(i, Pad(len, before), k);
    }
  }

  lemma NextMultipleIsMultiple(i: nat, step: nat)
    requires step > 0 && i % step == 0
    ensures (i + step) % step == 0
  {
    DivModUnique(i, step, i / step, 0);
    DivModUnique(i + step, step, i / step + 1, 0);
  }

  /** Between two consecutive multiples of 2^pad there is no other one. */
  lemma NextMultiple(i: nat, i': nat, step: nat)
    requires step > 0 && i % step == 0 && i' % step == 0 && i <= i' < i + step
    ensures i' == i
  {
    var q, q' := i / step, i' / step;
    assert i == step * q && i' == step * q';
    MulBound(step, q' - q);
    MulBound(step, q - q');
  }

  // ---------------------------------------------------------------------------
  // Witnesses of 2-correlation

  /** The first m terms u_0 .. u_{m-1}: the `classes` array of the scan. */
  function EvalSeq(f: seq<int>, m: nat): (s: seq<int>)
    requires Table(f)
    ensures |s| == m
    ensures IsDigits(s, 3)
  {
    seq(m, i requires 0 <= i < m => U(f, i))
  }

  /** `has2Correlation(a, classes)`: with blocks of |cls| / 27 indices, one of
      the three classes of 2 u_n + u_{n+a} mod 3 over in-block pairs occurs
      more than |cls| / 3 times. */
  predicate Has2Holds(cls: seq<int>, a: nat)
  {
    var small, upto := |cls| / 27, Span(|cls|, a);
    Max(PairCount(cls, a, small, 2, 3, 0, upto),
        Max(PairCount(cls, a, small, 2, 3, 1, upto), PairCount(cls, a, small, 2, 3, 2, upto))) > |cls| / 3
  }

  /** A witness needs at least 27 terms and a shift shorter than a block:
      otherwise no pair lies within one block and every count stays 0. */
  lemma Has2NeedsRoom(cls: seq<int>, a: nat)
    ensures Has2Holds(cls, a) ==> 27 <= |cls| && a < |cls| / 27
  {
    var small, upto := |cls| / 27, Span(|cls|, a);
    if small == 0 || small <= a {
      NoPairWhenBlockTooShort(cls, a, small, 2, 3, 0, upto);
      NoPairWhenBlockTooShort(cls, a, small, 2, 3, 1, upto);
      NoPairWhenBlockTooShort(cls, a, small, 2, 3, 2, upto);
    }
  }

  /** The three counts add up to the number of in-block pairs, at most |cls| - a. */
  lemma Has2CountsAddUp(cls: seq<int>, a: nat)
    ensures var small, upto := |cls| / 27, Span(|cls|, a);
            PairCount(cls, a, small, 2, 3, 0, upto) + PairCount(cls, a, small, 2, 3, 1, upto)
            + PairCount(cls, a, small, 2, 3, 2, upto) == BlockPairs(a, small, upto) <= Span(|cls|, a)
  {
    var small, upto := |cls| / 27, Span(|cls|, a);
    ClassesAddUp(cls, a, small, 2, 3, upto);
    assert ClassesTotal(cls, a, small, 2, 3, 1, upto) == PairCount(cls, a, small, 2, 3, 0, upto);
    assert ClassesTotal(cls, a, small, 2, 3, 2, upto)
        == ClassesTotal(cls, a, small, 2, 3, 1, upto) + PairCount(cls, a, small, 2, 3, 1, upto);
  }

  /** Some shift a in [kmin, kmax) gives a witness on the terms cls. */
  predicate Has2AnyShift(cls: seq<int>, kmin: nat, kmax: int)
  {
    exists a: nat | kmin <= a < kmax :: Has2Holds(cls, a)
  }

  /** `has2Correlation(Kmin, Kmax)`: some m in [2, NMAX) and a in [Kmin, Kmax)
      give a witness on the first 3^m terms. */
  predicate Has2ScanSpec(f: seq<int>, kmin: nat, kmax: int)
    requires Table(f)
  {
    exists m: nat {:trigger EvalSeq(f, Pow(3, m))} | 2 <= m < NMax :: Has2AnyShift(EvalSeq(f, Pow(3, m)), kmin, kmax)
  }

  // ---------------------------------------------------------------------------
  // The imperative search

  /** `has2Correlation(a, classes)`: the tally of the three residue classes,
      then the comparison of the largest with |classes| / 3. */
  method Has2Correlation(a: nat, classes: array<int>) returns (r: bool)
    requires IsDigits(classes[..], 3)
    ensures r == Has2Holds(classes[..], a)
  {
    var tab := new int[3](_ => 0);
    var small := classes.Length / 27;
    ghost var cls := classes[..];
    var n := 0;
    while n + a < classes.Length
      invariant n == 0 || n + a <= classes.Length
      invariant tab[0] == PairCount(cls, a, small, 2, 3, 0, n)
      invariant tab[1] == PairCount(cls, a, small, 2, 3, 1, n)
      invariant tab[2] == PairCount(cls, a, small, 2, 3, 2, n)
    {
      if small > 0 && n / small == (n + a) / small {
        var k := (2 * classes[n] + classes[n + a]) % 3;
        assert k == Residue(cls, n, a, 2, 3);
        tab[k] := tab[k] + 1;
      }
      n := n + 1;
    }
    assert n == Span(classes.Length, a);
    r := Max(tab[0], Max(tab[1], tab[2])) > classes.Length / 3;
  }

  /** The loop over a in `has2Correlation(Kmin, Kmax)`, for one array of terms. */
  method Has2AtLength(classes: array<int>, kmin: nat, kmax: int) returns (r: bool)
    requires IsDigits(classes[..], 3)
    ensures r == Has2AnyShift(classes[..], kmin, kmax)
  {
    var a := kmin;
    while a < kmax
      invariant kmin <= a
      invariant forall a': nat :: kmin <= a' < a ==> !Has2Holds(classes[..], a')
    {
      var found := Has2Correlation(a, classes);
      if found {
        return true;
      }
      a := a + 1;
    }
    return false;
  }

  /** The first loop of `eval`: the NMAX digits of n, least significant
      first, written into N; the rest of N is left alone. */
  method WriteDigits(digits: array<int>, n: nat)
    requires digits.Length >= NMax
    modifies digits
    ensures digits[..NMax] == ToDigits(n, 3, NMax)
    ensures forall k :: NMax <= k < digits.Length ==> digits[k] == old(digits[k])
  {
    var m: nat := n;
    var i := 0;
    while i < NMax
      invariant 0 <= i <= NMax
      invariant digits[..i] + ToDigits(m, 3, NMax - i) == ToDigits(n, 3, NMax)
      invariant forall k :: NMax <= k < digits.Length ==> digits[k] == old(digits[k])
    {
      ghost var done := digits[..i];
      DigitStep3(done, m, NMax - i, ToDigits(n, 3, NMax));
      digits[i] := m % 3;
      assert digits[..i + 1] == done + [m % 3];
      m := m / 3;
      i := i + 1;
    }
  }

  /** The two loops of `goodFamily` that write the pattern for (len, i) into
      eq: the bits of i below len, true after len. Position len keeps the
      false it was allocated with. */
  method SetPattern(eq: array<bool>, len: nat, i: nat, after: nat)
    requires eq.Length == len + after + 1 && !eq[len]
    modifies eq
    ensures eq[..] == Pattern(len, i, after)
  {
    var j := 0;
    while j < len
      invariant 0 <= j <= len && !eq[len]
      invariant forall k :: 0 <= k < j ==> eq[k] == NatBit(i, k)
    {
      eq[j] := NatBit(i, j);
      j := j + 1;
    }
    j := len + 1;
    while j < len + after + 1
      invariant len + 1 <= j <= len + after + 1 && !eq[len]
      invariant forall k :: 0 <= k < len ==> eq[k] == NatBit(i, k)
      invariant forall k :: len < k < j ==> eq[k]
    {
      eq[j] := true;
      j := j + 1;
    }
  }

  /** One turn of the digit loop: the digit m % 3 moves from the expansion of
      m to the written prefix. */
  lemma DigitStep3(done: seq<int>, m: nat, k: nat, all: seq<int>)
    requires k > 0 && done + ToDigits(m, 3, k) == all
    ensures (done + [m % 3]) + ToDigits(m / 3, 3, k - 1) == all
  {
    assert ToDigits(m, 3, k) == [m % 3] + ToDigits(m / 3, 3, k - 1);
  }

  /** The static state of the source: the table PARAMETER of the block
      function under test, the digit buffer N of `eval` and the flag `start`
      of the enumeration. */
  class Classification {
    const parameter: array<int>
    const digits: array<int>
    var start: bool

    ghost predicate Valid()
      reads parameter, digits
    {
      parameter.Length == 27 && digits.Length == NMax + 2 && parameter != digits
      && WithinCaps(parameter[..], Caps) && Table(parameter[..]) && digits[NMax] == 0 && digits[NMax + 1] == 0
    }

    /** An array the search may use as a buffer: neither PARAMETER nor N. */
    predicate Scratch(a: array<int>)
    {
      a != parameter && a != digits
    }

    /** The fields as the JVM initialises them. */
    constructor ()
      ensures Valid() && start && parameter[..] == Zeros(27) && digits[..] == Zeros(NMax + 2)
      ensures fresh(parameter) && fresh(digits)
    {
      parameter := new int[27](_ => 0);
      digits := new int[NMax + 2](_ => 0);
      start := true;
      new;
      assert parameter[..] == Zeros(27);
    }

    /** `f(a, b, c)`: a table entry, never above the cap of its position. */
    function F(a: int, b: int, c: int): (r: int)
      reads parameter, digits
      requires Valid() && 0 <= a < 3 && 0 <= b < 3 && 0 <= c < 3
      ensures 0 <= r <= Caps[a + 3 * b + 9 * c] && r == Block(parameter[..], a, b, c)
    {
      parameter[a + 3 * b + 9 * c]
    }

    /** `next()`: the first call yields the table as it stands; every later
        call moves to the next table whose least nonzero entry is not 2, or
        reports false with every entry back at 0. */
    method Next() returns (more: bool)
      requires Valid()
      modifies this, parameter
      ensures Valid() && !start
      ensures old(start) ==> more && parameter[..] == old(parameter[..])
      ensures !old(start) ==> (more, parameter[..]) == Advance(old(parameter[..]), Caps)
      decreases start, Pow(3, 27) - ToNat(parameter[..])
    {
      if start {
        start := false;
        return true;
      }
      ghost var p0 := parameter[..];
      CapsValid();
      var i := 0;
      while i < 27
        invariant 0 <= i <= 27 && !start
        invariant forall k :: 0 <= k < i ==> p0[k] == Caps[k]
        invariant parameter[..] == Zeros(i) + p0[i..]
      {
        assert parameter[i] == p0[i];
        if parameter[i] == Caps[i] {
          parameter[i] := 0;
          Spliced(parameter[..], p0, i, 0);
        } else if parameter[i] == 0 {
          parameter[i] := 1;
          AdvanceAtYield(p0, Caps, i);
          Spliced(parameter[..], p0, i, 1);
          AdvanceIsTable(p0);
          return true;
        } else {
          parameter[i] := 2;
          AdvanceAtCarry(p0, Caps, i);
          Spliced(parameter[..], p0, i, 2);
          more := Next();
          return;
        }
        i := i + 1;
      }
      AdvanceAtEnd(p0, Caps);
      AdvanceIsTable(p0);
      assert parameter[..] == Zeros(27);
      return false;
    }

    /** `eval(n)`: writes the NMAX base-3 digits of n into N, leaves N's two
        trailing zeros alone, and returns the term u_n. Its two loops are the
        two methods below. */
    method Eval(n: nat) returns (r: int)
      requires Valid()
      modifies digits
      ensures Valid()
      ensures digits[..] == PaddedDigits(n)
      ensures r == U(parameter[..], n)
    {
      WriteDigits(digits, n);
      assert digits[..] == digits[..NMax] + [digits[NMax], digits[NMax + 1]];
      var result := SumWindows();
      r := result % 3;
    }

    /** The second loop of `eval`: the window sum over the digits in N. */
    method SumWindows() returns (result: int)
      requires Valid() && IsDigits(digits[..], 3)
      ensures result == WindowSum(parameter[..], digits[..])
    {
      ghost var f, d := parameter[..], digits[..];
      result := 0;
      var i := 0;
      while i < NMax
        invariant 0 <= i <= NMax
        invariant result + WindowSum(f, d[i..]) == WindowSum(f, d)
      {
        WindowStep(f, d, i);
        result := result + F(digits[i], digits[i + 1], digits[i + 2]);
        i := i + 1;
      }
    }

    /** `value(xBuffer)`: the block function summed over every window. */
    method Value(x: array<int>) returns (sum: int)
      requires Valid() && IsDigits(x[..], 3)
      ensures sum == WindowSum(parameter[..], x[..])
    {
      ghost var f := parameter[..];
      sum := 0;
      var i := 0;
      while i + 2 < x.Length
        invariant 0 <= i <= x.Length
        invariant sum + WindowSum(f, x[i..]) == WindowSum(f, x[..])
      {
        WindowStep(f, x[..], i);
        sum := sum + F(x[i], x[i + 1], x[i + 2]);
        i := i + 1;
      }
    }

    /** The buffers of `fill` and `family` are three different arrays, none of them PARAMETER or N. */
    predicate Apart(x: array<int>, y: array<int>, tab: array<int>)
    {
      Scratch(x) && Scratch(y) && Scratch(tab) && x != y && x != tab && y != tab
    }

    /** `fill(eq, xBuffer, yBuffer, offset, tab)`: adds to tab the three
        counts of every completion of the equal positions from `offset` on,
        and leaves those positions at 2. */
    method Fill(eq: array<bool>, x: array<int>, y: array<int>, offset: nat, tab: array<int>)
      requires Valid() && Apart(x, y, tab) && tab.Length == 3
      requires Shaped(eq[..], x[..], y[..]) && offset <= eq.Length
      modifies x, y, tab
      ensures tab[0] == old(tab[0]) + FillTally(parameter[..], eq[..], old(x[..]), old(y[..]), offset).0
      ensures tab[1] == old(tab[1]) + FillTally(parameter[..], eq[..], old(x[..]), old(y[..]), offset).1
      ensures tab[2] == old(tab[2]) + FillTally(parameter[..], eq[..], old(x[..]), old(y[..]), offset).2
      ensures forall k :: 0 <= k < eq.Length ==> x[k] == if offset <= k && eq[k] then 2 else old(x[k])
      ensures forall k :: 0 <= k < eq.Length ==> y[k] == if offset <= k && eq[k] then 2 else old(y[k])
      decreases eq.Length - offset, 2
    {
      if offset == eq.Length {
        CountCompletion(x, y, tab);
      } else if eq[offset] {
        FillEqual(eq, x, y, offset, tab);
      } else {
        Fill(eq, x, y, offset + 1, tab);
      }
    }

    /** The end of the recursion of `fill`: the completion in xBuffer and
        yBuffer adds one to the count of its class (2 value(x) + value(y)) mod 3. */
    method CountCompletion(x: array<int>, y: array<int>, tab: array<int>)
      requires Valid() && Apart(x, y, tab) && tab.Length == 3 && IsDigits(x[..], 3) && IsDigits(y[..], 3)
      modifies tab
      ensures var u := Unit((2 * WindowSum(parameter[..], x[..]) + WindowSum(parameter[..], y[..])) % 3);
              tab[0] == old(tab[0]) + u.0 && tab[1] == old(tab[1]) + u.1 && tab[2] == old(tab[2]) + u.2
    {
      var vx := Value(x);
      var vy := Value(y);
      var k := (2 * vx + vy) % 3;
      tab[k] := tab[k] + 1;
    }

    /** The loop of `fill` at an equal position: the rest enumerated with
        (0, 0), (1, 1) and (2, 2) there. */
    method FillEqual(eq: array<bool>, x: array<int>, y: array<int>, offset: nat, tab: array<int>)
      requires Valid() && Apart(x, y, tab) && tab.Length == 3
      requires Shaped(eq[..], x[..], y[..]) && offset < eq.Length && eq[offset]
      modifies x, y, tab
      ensures tab[0] == old(tab[0]) + FillTally(parameter[..], eq[..], old(x[..]), old(y[..]), offset).0
      ensures tab[1] == old(tab[1]) + FillTally(parameter[..], eq[..], old(x[..]), old(y[..]), offset).1
      ensures tab[2] == old(tab[2]) + FillTally(parameter[..], eq[..], old(x[..]), old(y[..]), offset).2
      ensures forall k :: 0 <= k < eq.Length ==> x[k] == if offset <= k && eq[k] then 2 else old(x[k])
      ensures forall k :: 0 <= k < eq.Length ==> y[k] == if offset <= k && eq[k] then 2 else old(y[k])
      decreases eq.Length - offset, 1
    {
      ghost var f, e, x0, y0 := parameter[..], eq[..], x[..], y[..];
      var i := 0;
      while i < 3
        invariant 0 <= i <= 3 && Shaped(e, x[..], y[..])
        invariant tab[0] == old(tab[0]) + FillBranches(f, e, x0, y0, offset, i).0
        invariant tab[1] == old(tab[1]) + FillBranches(f, e, x0, y0, offset, i).1
        invariant tab[2] == old(tab[2]) + FillBranches(f, e, x0, y0, offset, i).2
        invariant forall k :: 0 <= k < eq.Length ==> x[k] == if 0 < i && offset < k && e[k] then 2 else if 0 < i && k == offset then i - 1 else x0[k]
        invariant forall k :: 0 <= k < eq.Length ==> y[k] == if 0 < i && offset < k && e[k] then 2 else if 0 < i && k == offset then i - 1 else y0[k]
      {
        FillFrame(f, e, x[..][offset := i], y[..][offset := i], x0[offset := i], y0[offset := i], offset + 1);
        FillAt(eq, x, y, offset, tab, i);
        i := i + 1;
      }
    }

    /** One turn of the loop of `fill`: xBuffer[offset] = yBuffer[offset] = i,
        then the rest enumerated. */
    method FillAt(eq: array<bool>, x: array<int>, y: array<int>, offset: nat, tab: array<int>, i: int)
      requires Valid() && Apart(x, y, tab) && tab.Length == 3
      requires Shaped(eq[..], x[..], y[..]) && offset < eq.Length && 0 <= i < 3
      modifies x, y, tab
      ensures tab[0] == old(tab[0]) + FillTally(parameter[..], eq[..], old(x[..])[offset := i], old(y[..])[offset := i], offset + 1).0
      ensures tab[1] == old(tab[1]) + FillTally(parameter[..], eq[..], old(x[..])[offset := i], old(y[..])[offset := i], offset + 1).1
      ensures tab[2] == old(tab[2]) + FillTally(parameter[..], eq[..], old(x[..])[offset := i], old(y[..])[offset := i], offset + 1).2
      ensures forall k :: 0 <= k < eq.Length ==> x[k] == if offset < k && eq[k] then 2 else if k == offset then i else old(x[k])
      ensures forall k :: 0 <= k < eq.Length ==> y[k] == if offset < k && eq[k] then 2 else if k == offset then i else old(y[k])
      decreases eq.Length - offset, 0
    {
      x[offset] := i;
      y[offset] := i;
      Fill(eq, x, y, offset + 1, tab);
    }

    /** `family(eq, xBuffer, yBuffer, offset, pad, len)`: tries the allowed
        pairs at each differing position from `offset` on and checks the
        families they give, stopping at the first unbalanced one. Positions
        it reads before writing are left as they were. */
    method Family(eq: array<bool>, x: array<int>, y: array<int>, offset: nat, pad: nat, len: nat) returns (r: bool)
      requires Valid() && Scratch(x) && Scratch(y) && x != y
      requires Shaped(eq[..], x[..], y[..]) && offset <= eq.Length && pad <= eq.Length
      modifies x, y
      ensures Shaped(eq[..], x[..], y[..])
      ensures r == FamilyOK(parameter[..], eq[..], old(x[..]), old(y[..]), offset, pad, len)
      ensures forall k :: 0 <= k < eq.Length && Kept(eq[..], pad, offset, k) ==> x[k] == old(x[k]) && y[k] == old(y[k])
      decreases eq.Length - offset, 2
    {
      if offset == eq.Length {
        var tab := new int[3](_ => 0);
        Fill(eq, x, y, pad, tab);
        return tab[0] == tab[1] && tab[1] == tab[2];
      }
      if eq[offset] {
        r := Family(eq, x, y, offset + 1, pad, len);
        return;
      }
      ghost var f, e, x0, y0 := parameter[..], eq[..], x[..], y[..];
      var i := 0;
      while i < 3
        invariant 0 <= i <= 3 && Shaped(e, x[..], y[..]) && parameter[..] == f
        invariant forall k :: 0 <= k < eq.Length && Kept(e, pad, offset, k) ==> x[k] == x0[k] && y[k] == y0[k]
        invariant forall i', j' :: 0 <= i' < i && 0 <= j' < 3 ==> PairOK(f, e, x0, y0, offset, pad, len, i', j')
      {
        r := FamilyRow(eq, x, y, offset, pad, len, i, x0, y0);
        if !r {
          assert !FamilyOK(f, e, x0, y0, offset, pad, len);
          return false;
        }
        i := i + 1;
      }
      return true;
    }

    /** The inner loop of `family`: the pairs (i, 0), (i, 1), (i, 2) at the
        differing position `offset`. */
    method FamilyRow(eq: array<bool>, x: array<int>, y: array<int>, offset: nat, pad: nat, len: nat, i: int,
                     ghost x0: seq<int>, ghost y0: seq<int>) returns (r: bool)
      requires Valid() && Scratch(x) && Scratch(y) && x != y
      requires Shaped(eq[..], x[..], y[..]) && offset < eq.Length && pad <= eq.Length && !eq[offset] && 0 <= i < 3
      requires Shaped(eq[..], x0, y0)
      requires forall k :: 0 <= k < eq.Length && Kept(eq[..], pad, offset, k) ==> x[k] == x0[k] && y[k] == y0[k]
      modifies x, y
      ensures Shaped(eq[..], x[..], y[..])
      ensures r == forall j :: 0 <= j < 3 ==> PairOK(parameter[..], eq[..], x0, y0, offset, pad, len, i, j)
      ensures forall k :: 0 <= k < eq.Length && Kept(eq[..], pad, offset, k) ==> x[k] == x0[k] && y[k] == y0[k]
      decreases eq.Length - offset, 1
    {
      ghost var f, e := parameter[..], eq[..];
      var j := 0;
      while j < 3
        invariant 0 <= j <= 3 && Shaped(e, x[..], y[..]) && parameter[..] == f
        invariant forall k :: 0 <= k < eq.Length && Kept(e, pad, offset, k) ==> x[k] == x0[k] && y[k] == y0[k]
        invariant forall j' :: 0 <= j' < j ==> PairOK(f, e, x0, y0, offset, pad, len, i, j')
      {
        if (offset != len && offset < pad) || i != j {
          FamilyFrame(f, e, x[..][offset := i], y[..][offset := j], x0[offset := i], y0[offset := j], offset + 1, pad, len);
          r := FamilyAt(eq, x, y, offset, pad, len, i, j);
          if !r {
            assert !PairOK(f, e, x0, y0, offset, pad, len, i, j);
            return false;
          }
        }
        j := j + 1;
      }
      return true;
    }

    /** One pair of the inner loop of `family`: xBuffer[offset] = i and
        yBuffer[offset] = j, then the family check from the next position. */
    method FamilyAt(eq: array<bool>, x: array<int>, y: array<int>, offset: nat, pad: nat, len: nat, i: int, j: int)
      returns (r: bool)
      requires Valid() && Scratch(x) && Scratch(y) && x != y
      requires Shaped(eq[..], x[..], y[..]) && offset < eq.Length && pad <= eq.Length && !eq[offset]
      requires 0 <= i < 3 && 0 <= j < 3
      modifies x, y
      ensures Shaped(eq[..], x[..], y[..])
      ensures r == FamilyOK(parameter[..], eq[..], old(x[..])[offset := i], old(y[..])[offset := j], offset + 1, pad, len)
      ensures forall k :: 0 <= k < eq.Length && Kept(eq[..], pad, offset, k) ==> x[k] == old(x[k]) && y[k] == old(y[k])
      decreases eq.Length - offset, 0
    {
      x[offset] := i;
      y[offset] := j;
      r := Family(eq, x, y, offset + 1, pad, len);
    }

    /** `goodFamily(before, after)`: for every carry distance len < before + 2
        and every visited pattern i, the family check from x and y as the
        buffers happen to hold them, which it does not read. The shifts
        1 << len stay positive ints while len <= 30, hence the bound on before. */
    method GoodFamily(before: nat, after: nat) returns (r: bool)
      requires Valid() && before <= 29
      ensures r == GoodFamilySpec(parameter[..], before, after)
    {
      ghost var f := parameter[..];
      var len := 0;
      while len < before + 2
        invariant 0 <= len <= before + 2
        invariant forall l: nat, i: nat :: l < len && Visited(before, l, i) ==> GoodPattern(f, before, after, l, i)
      {
        var ok := GoodFamilyAt(before, after, len);
        if !ok {
          return false;
        }
        len := len + 1;
      }
      return true;
    }

    /** The patterns of one carry distance len, in steps of 2^pad, with one
        set of buffers for all of them. */
    method GoodFamilyAt(before: nat, after: nat, len: nat) returns (r: bool)
      requires Valid()
      ensures r == forall i: nat :: Visited(before, len, i) ==> GoodPattern(parameter[..], before, after, len, i)
    {
      ghost var f := parameter[..];
      var n := len + after + 1;
      var eq := new bool[n](_ => false);
      var x := new int[n](_ => 0);
      var y := new int[n](_ => 0);
      var pad := if len + 1 - before > 0 then len + 1 - before else 0;
      assert pad == Pad(len, before);
      var step := Pow(2, pad);
      PowPositive(2, pad);
      var i := 0;
      while i < Pow(2, len)
        invariant i % step == 0 && !eq[len] && Shaped(eq[..], x[..], y[..]) && parameter[..] == f
        invariant forall i': nat :: i' < i && Visited(before, len, i') ==> GoodPattern(f, before, after, len, i')
        decreases Pow(2, len) - i
      {
        SetPattern(eq, len, i, after);
        forall k | 0 <= k < n
          ensures !Kept(eq[..], pad, 0, k)
        {
          NothingKeptAtStart(before, after, len, i, k);
        }
        assert Shaped(eq[..], Zeros(n), Zeros(n));
        FamilyFrame(f, eq[..], x[..], y[..], Zeros(n), Zeros(n), 0, pad, len);
        var ok := Family(eq, x, y, 0, pad, len);
        if !ok {
          assert Visited(before, len, i) && !GoodPattern(f, before, after, len, i);
          return false;
        }
        forall i': nat | i < i' < i + step && i' % step == 0
          ensures false
        {
          NextMultiple(i, i', step);
        }
        NextMultipleIsMultiple(i, step);
        i := i + step;
      }
      return true;
    }

    /** The array `classes` the scan fills with u_0 .. u_{m-1}. */
    method EvalPrefix(m: nat) returns (classes: array<int>)
      requires Valid()
      modifies digits
      ensures Valid() && fresh(classes)
      ensures classes[..] == EvalSeq(parameter[..], m)
    {
      ghost var f := parameter[..];
      classes := new int[m];
      var i := 0;
      while i < m
        invariant 0 <= i <= m && Valid() && parameter[..] == f
        invariant forall j :: 0 <= j < i ==> classes[j] == U(f, j)
      {
        var u := Eval(i);
        classes[i] := u;
        i := i + 1;
      }
      assert classes[..] == EvalSeq(f, m);
    }

    /** `has2Correlation(Kmin, Kmax)`: the first 3^m terms for m = 2 .. 14,
        each searched for a witness with a shift in [Kmin, Kmax). */
    method Has2CorrelationScan(kmin: nat, kmax: int) returns (r: bool)
      requires Valid()
      modifies digits
      ensures Valid()
      ensures r == Has2ScanSpec(parameter[..], kmin, kmax)
    {
      ghost var f := parameter[..];
      var m := 2;
      while m < NMax
        invariant 2 <= m <= NMax && Valid() && parameter[..] == f
        invariant forall m': nat :: 2 <= m' < m ==> !Has2AnyShift(EvalSeq(f, Pow(3, m')), kmin, kmax)
      {
        Pow3TableAgrees(m);
        var classes := EvalPrefix(Pow3Table[m]);
        var found := Has2AtLength(classes, kmin, kmax);
        if found {
          assert Has2AnyShift(EvalSeq(f, Pow(3, m)), kmin, kmax);
          return true;
        }
        m := m + 1;
      }
      return false;
    }
  }
}
