/** The binary classification (`Case24`): a block-additive sequence over base 2
    of rank r in 2..5 is given by a block function f on r binary digits, stored
    as the bits of a 64-bit `parameter` (bit k holds f applied to the
    little-endian digits of k). The term u_n is the parity of the sum of f over
    every window of r consecutive binary digits of n.

    Every candidate f is either (r-2, r)-strongly 2-uncorrelated (checked by
    `goodFamily`) or must show a witness of 2-correlation; the good ones must
    also show a witness of 4-correlation. */
module Case24 {
  import opened Arith
  import opened Tally
  import opened Outcomes

  // ---------------------------------------------------------------------------
  // Bits of the parameter

  /** Bit k of a 64-bit word. */
  predicate Bit(w: bv64, k: nat)
    requires k < 64
  {
    w & (1 << k) != 0
  }

  /** The Java expression `1 << s` for an int shift 0 <= s < 32, widened to a
      long: at s == 31 the int is negative and sign-extends. */
  function JavaIntOne(s: nat): (r: bv64)
    requires s < 32
    ensures s < 31 ==> r == 1 << s
  {
    if s == 31 then 0xFFFF_FFFF_8000_0000 else 1 << s
  }

  /** The test `(parameter & (1 << s)) != 0` of the source, for an int shift s. */
  predicate ParamBit(parameter: bv64, s: nat)
    requires s < 32
  {
    parameter & JavaIntOne(s) != 0
  }

  /** On a parameter of at most 32 bits, the source's test reads exactly bit s. */
  lemma ParamBitIsBit(parameter: bv64, s: nat)
    requires s < 32 && parameter < 1 << 32
    ensures ParamBit(parameter, s) <==> Bit(parameter, s)
  {
    if s == 31 {
      ParamBitTop(parameter);
    } else {
      ParamBitBelow(parameter, s);
    }
  }

  /** At s == 31 the sign-extended mask meets only bit 31 of a 32-bit parameter. */
  lemma ParamBitTop(parameter: bv64)
    requires parameter < 1 << 32
    ensures ParamBit(parameter, 31) <==> Bit(parameter, 31)
  {
    HighBitOnly(parameter);
  }

  lemma ParamBitBelow(parameter: bv64, s: nat)
    requires s < 31
    ensures ParamBit(parameter, s) <==> Bit(parameter, s)
  {
    assert JavaIntOne(s) == 1 << s;
  }

  lemma HighBitOnly(parameter: bv64)
    requires parameter < 1 << 32
    ensures parameter & 0xFFFF_FFFF_8000_0000 == parameter & (1 << 31)
  {
  }

  /** Spreads the 26 bits of p over the positions of a 32-bit word that are
      neither 0 nor a power of two, so that f(0, ..., 0) == 0 and f is taken
      up to adding a projection x_j. */
  function GetParameter(p: bv64): (r: bv64)
    ensures r & 0x1_0117 == 0
  {
    ((p & 1) << 3) | ((p & 14) << 4) | ((p & 2032) << 5) | ((p & 67106816) << 6)
  }

  /** The inverse of GetParameter: gathers the bits back. */
  function Unpack(w: bv64): bv64
  {
    ((w >> 3) & 1) | ((w >> 4) & 14) | ((w >> 5) & 2032) | ((w >> 6) & 67106816)
  }

  /** GetParameter loses nothing on the 26-bit inputs the classification enumerates. */
  lemma GetParameterRoundTrip(p: bv64)
    requires p < 1 << 26
    ensures Unpack(GetParameter(p)) == p
  {
  }

  /** Every 32-bit word whose bits 0, 1, 2, 4, 8 and 16 are clear is the image
      of exactly one 26-bit input: one representative per block function. */
  lemma GetParameterOnto(w: bv64)
    requires w < 1 << 32 && w & 0x1_0117 == 0
    ensures Unpack(w) < 1 << 26 && GetParameter(Unpack(w)) == w
  {
  }

  /** For rank r (mask = 2^r - 1) the enumeration bound 2^(mask - r) is 2, 16,
      2048 or 2^26, and the parameter then has no bit above `mask`: the block
      function has exactly 2^r entries. */
  lemma GetParameterRange(p: bv64)
    ensures p < 2 ==> GetParameter(p) < 1 << 4
    ensures p < 16 ==> GetParameter(p) < 1 << 8
    ensures p < 2048 ==> GetParameter(p) < 1 << 16
    ensures p < 1 << 26 ==> GetParameter(p) < 1 << 32
  {
  }

  lemma PowTwoRank(rank: nat)
    requires 2 <= rank <= 5
    ensures Pow(2, rank) == if rank == 2 then 4 else if rank == 3 then 8 else if rank == 4 then 16 else 32
  {
    assert Pow(2, 2) == 4;
    assert Pow(2, 5) == 32;
  }

  lemma PowTwo11()
    ensures Pow(2, 4) == 16 && Pow(2, 11) == 2048 && Pow(2, 16) == 65536
  {
    assert Pow(2, 5) == 32;
    PowAdd(2, 5, 6);
    PowAdd(2, 5, 11);
  }

  lemma PowTwo26()
    ensures Pow(2, 26) == 0x400_0000 && Pow(2, 32) == 0x1_0000_0000
  {
    PowTwo11();
    PowAdd(2, 5, 6);
    PowAdd(2, 11, 15);
    PowAdd(2, 10, 5);
    PowAdd(2, 5, 5);
    PowAdd(2, 16, 16);
  }

  /** The block function as a table: entry s is the source's test of bit s. */
  function Table(parameter: bv64): (f: seq<bool>)
    ensures |f| == 32
  {
    seq(32, s requires 0 <= s < 32 => ParamBit(parameter, s))
  }

  lemma TableTabulates(parameter: bv64)
    ensures Tabulates(parameter, Table(parameter))
  {
  }

  /** f has one entry per bit test of the source. The link is only used where
      a bit test occurs, so that proofs about the table never reason about bits. */
  predicate Tabulates(parameter: bv64, f: seq<bool>)
  {
    |f| == 32 && forall s {:trigger ParamBit(parameter, s)} :: 0 <= s < 32 ==> f[s] == ParamBit(parameter, s)
  }

  /** A parameter has one table. */
  lemma TabulatesUnique(parameter: bv64, f: seq<bool>)
    requires Tabulates(parameter, f)
    ensures f == Table(parameter)
  {
    var t := Table(parameter);
    forall s | 0 <= s < 32
      ensures f[s] == t[s]
    {
      assert f[s] == ParamBit(parameter, s);
    }
  }

  // ---------------------------------------------------------------------------
  // The sequence u_n and the value of the block-additive function

  /** The count `eval(n)` accumulates: one for each of n, n >> 1, n >> 2, ...
      (while nonzero) whose low `rank` bits (`n & mask`) index a set bit. */
  function EvalCount(f: seq<bool>, rank: nat, n: nat): nat
    requires |f| == 32 && 2 <= rank <= 5
  {
    if n == 0 then 0
    else
      PowTwoRank(rank);
      (if f[n % Pow(2, rank)] then 1 else 0) + EvalCount(f, rank, n / 2)
  }

  /** The block function applied to a tuple of digits the
      table entry at the little-endian value of the digits. The source's int
      shift only reads the low five bits of that value, hence the `% 32`. */
  function Block(f: seq<bool>, a: int, b: int, c: int, d: int, e: int): (r: int)
    requires |f| == 32
    ensures r == 0 || r == 1
    ensures r == 1 <==> f[(a + 2 * b + 4 * c + 8 * d + 16 * e) % 32]
  {
    if f[(a + 2 * b + 4 * c + 8 * d + 16 * e) % 32] then 1 else 0
  }

  /** The term u_n: the parity of EvalCount. */
  function U(f: seq<bool>, rank: nat, n: nat): (r: int)
    requires |f| == 32 && 2 <= rank <= 5
    ensures r == 0 || r == 1
  {
    EvalCount(f, rank, n) % 2
  }

  /** The block function applied to the first window of w, reading the digits
      beyond the rank as 0, as `value` does. */
  function Term(f: seq<bool>, rank: nat, w: seq<int>): (r: int)
    requires |f| == 32 && 2 <= rank <= 5 && |w| >= rank
  {
    Block(f, w[0], w[1], if rank > 2 then w[2] else 0, if rank > 3 then w[3] else 0,
      if rank > 4 then w[4] else 0)
  }

  /** f summed over every window of `rank` consecutive entries of s. */
  function WindowSum(f: seq<bool>, rank: nat, s: seq<int>): (r: nat)
    requires |f| == 32 && 2 <= rank <= 5
  {
    if |s| < rank then 0 else Term(f, rank, s) + WindowSum(f, rank, s[1..])
  }

  /** On binary digits, a window indexes the table by its little-endian value. */
  lemma TermIsBlockValue(f: seq<bool>, rank: nat, w: seq<int>)
    requires |f| == 32 && 2 <= rank <= 5 && |w| >= rank && IsDigits(w, 2)
    ensures 0 <= FromDigits(w[..rank], 2) < Pow(2, rank) <= 32
    ensures Term(f, rank, w) == if f[FromDigits(w[..rank], 2)] then 1 else 0
  {
    PowTwoRank(rank);
    var v := w[..rank];
    assert IsDigits(v, 2);
    FromDigitsBound(v, 2);
    var c := if rank > 2 then w[2] else 0;
    var d := if rank > 3 then w[3] else 0;
    var e := if rank > 4 then w[4] else 0;
    var idx := w[0] + 2 * w[1] + 4 * c + 8 * d + 16 * e;
    assert 0 <= w[0] <= 1 && 0 <= w[1] <= 1;
    assert 0 <= c <= 1 && 0 <= d <= 1 && 0 <= e <= 1;
    BlockValueUnfold(v, rank);
    assert FromDigits(v, 2) == idx;
    BlockIndex(f, w[0], w[1], c, d, e);
  }

  lemma BlockIndex(f: seq<bool>, a: int, b: int, c: int, d: int, e: int)
    requires |f| == 32
    requires 0 <= a <= 1 && 0 <= b <= 1 && 0 <= c <= 1 && 0 <= d <= 1 && 0 <= e <= 1
    ensures 0 <= a + 2 * b + 4 * c + 8 * d + 16 * e < 32
    ensures Block(f, a, b, c, d, e) == if f[a + 2 * b + 4 * c + 8 * d + 16 * e] then 1 else 0
  {
  }

  lemma BlockValueUnfold(v: seq<int>, rank: nat)
    requires 2 <= rank <= 5 && |v| == rank
    ensures FromDigits(v, 2) == v[0] + 2 * v[1] + 4 * (if rank > 2 then v[2] else 0)
              + 8 * (if rank > 3 then v[3] else 0) + 16 * (if rank > 4 then v[4] else 0)
  {
    assert FromDigits(v, 2) == v[0] + 2 * FromDigits(v[1..], 2);
    assert FromDigits(v[1..], 2) == v[1] + 2 * FromDigits(v[2..], 2);
    if rank == 2 {
      assert v[2..] == [];
    } else {
      assert FromDigits(v[2..], 2) == v[2] + 2 * FromDigits(v[3..], 2);
      if rank == 3 {
        assert v[3..] == [];
      } else {
        assert FromDigits(v[3..], 2) == v[3] + 2 * FromDigits(v[4..], 2);
        if rank == 4 {
          assert v[4..] == [];
        } else {
          assert FromDigits(v[4..], 2) == v[4] + 2 * FromDigits(v[5..], 2);
          assert v[5..] == [];
        }
      }
    }
  }

  /** The first window of the binary expansion of n holds n's low `rank` bits. */
  lemma FirstWindow(f: seq<bool>, rank: nat, n: nat, len: nat)
    requires |f| == 32 && 2 <= rank <= len && rank <= 5
    ensures n % Pow(2, rank) < 32
    ensures Term(f, rank, ToDigits(n, 2, len)) == if f[n % Pow(2, rank)] then 1 else 0
  {
    var s := ToDigits(n, 2, len);
    ToDigitsPrefix(n, 2, len, rank);
    FromToDigits(n, 2, rank);
    TermIsBlockValue(f, rank, s);
  }

  /** u_n is the parity of the block-additive sum over the binary expansion of
      n (padded with rank - 1 zeros), provided f(0, ..., 0) == 0: the loop of
      `eval` and the windows of `value` compute the same count. */
  lemma {:induction false} EvalIsWindowSum(f: seq<bool>, rank: nat, n: nat, k: nat)
    requires |f| == 32 && 2 <= rank <= 5 && n < Pow(2, k) && !f[0]
    ensures EvalCount(f, rank, n) == WindowSum(f, rank, ToDigits(n, 2, k + rank - 1))
    decreases k
  {
    if k == 0 {
      assert n == 0;
    } else {
      HalfBelowPow(n, k);
      EvalIsWindowSum(f, rank, n / 2, k - 1);
      WindowSumStep(f, rank, n, k + rank - 1);
      if n == 0 {
        assert !f[n % Pow(2, rank)];
      } else {
        assert EvalCount(f, rank, n) == (if f[n % Pow(2, rank)] then 1 else 0) + EvalCount(f, rank, n / 2);
      }
    }
  }

  lemma HalfBelowPow(n: nat, k: nat)
    requires 0 < k && n < Pow(2, k)
    ensures n / 2 < Pow(2, k - 1)
  {
    var p := Pow(2, k - 1);
    assert n < 2 * p;
  }

  /** Dropping the least significant digit moves every window of the binary
      expansion one place: the sum loses the first window and nothing else. */
  lemma WindowSumStep(f: seq<bool>, rank: nat, n: nat, len: nat)
    requires |f| == 32 && 2 <= rank <= len && rank <= 5
    ensures n % Pow(2, rank) < 32
    ensures WindowSum(f, rank, ToDigits(n, 2, len))
         == (if f[n % Pow(2, rank)] then 1 else 0) + WindowSum(f, rank, ToDigits(n / 2, 2, len - 1))
  {
    var s := ToDigits(n, 2, len);
    assert s[1..] == ToDigits(n / 2, 2, len - 1);
    FirstWindow(f, rank, n, len);
  }

  /** The term u_n as the parity of `value` on the binary digits of n. */
  lemma UIsValueParity(f: seq<bool>, rank: nat, n: nat, k: nat)
    requires |f| == 32 && 2 <= rank <= 5 && n < Pow(2, k) && !f[0]
    ensures U(f, rank, n) == WindowSum(f, rank, ToDigits(n, 2, k + rank - 1)) % 2
  {
    EvalIsWindowSum(f, rank, n, k);
  }

  // ---------------------------------------------------------------------------
  // Families of pairs (x, y): the check behind `goodFamily`

  /** Position k is enumerated by `fill`: x and y agree there (eq[k]) and it
      is not the position |eq| - rank, where y has its fixed 1. */
  predicate Forced(eq: seq<bool>, rank: nat, k: nat)
    requires k < |eq|
  {
    eq[k] && k != |eq| - rank
  }

  /** The counts `fill` adds to tab[0] and tab[1]: over every way of setting
      the forced positions from `off` on to (0, 0) or (1, 1), how many give an
      even value(x) + value(y) and how many an odd one. */
  function FillTally(f: seq<bool>, rank: nat, eq: seq<bool>, xs: seq<int>, ys: seq<int>, off: nat): (nat, nat)
    requires |f| == 32 && 2 <= rank <= 5 && |xs| == |eq| && |ys| == |eq| && off <= |eq|
    decreases |eq| - off
  {
    if off == |eq| then
      if (WindowSum(f, rank, xs) + WindowSum(f, rank, ys)) % 2 == 0 then (1, 0) else (0, 1)
    else if Forced(eq, rank, off) then
      var t0 := FillTally(f, rank, eq, xs[off := 0], ys[off := 0], off + 1);
      var t1 := FillTally(f, rank, eq, xs[off := 1], ys[off := 1], off + 1);
      (t0.0 + t1.0, t0.1 + t1.1)
    else
      FillTally(f, rank, eq, xs, ys, off + 1)
  }

  lemma FillLeaf(f: seq<bool>, rank: nat, eq: seq<bool>, xs: seq<int>, ys: seq<int>)
    requires |f| == 32 && 2 <= rank <= 5 && |xs| == |eq| && |ys| == |eq|
    ensures FillTally(f, rank, eq, xs, ys, |eq|)
         == if (WindowSum(f, rank, xs) + WindowSum(f, rank, ys)) % 2 == 0 then (1, 0) else (0, 1)
  {
  }

  /** One step of `fill` below the end: a forced position splits the count
      into its two settings, any other position is passed over. */
  lemma FillStep(f: seq<bool>, rank: nat, eq: seq<bool>, xs: seq<int>, ys: seq<int>, off: nat)
    requires |f| == 32 && 2 <= rank <= 5 && |xs| == |eq| && |ys| == |eq| && off < |eq|
    ensures Forced(eq, rank, off) ==>
              var t0 := FillTally(f, rank, eq, xs[off := 0], ys[off := 0], off + 1);
              var t1 := FillTally(f, rank, eq, xs[off := 1], ys[off := 1], off + 1);
              FillTally(f, rank, eq, xs, ys, off) == (t0.0 + t1.0, t0.1 + t1.1)
    ensures !Forced(eq, rank, off) ==> FillTally(f, rank, eq, xs, ys, off) == FillTally(f, rank, eq, xs, ys, off + 1)
  {
  }

  /** The number of forced positions from `off` on. */
  function ForcedCount(eq: seq<bool>, rank: nat, off: nat): nat
    requires off <= |eq|
    decreases |eq| - off
  {
    if off == |eq| then 0
    else (if Forced(eq, rank, off) then 1 else 0) + ForcedCount(eq, rank, off + 1)
  }

  /** `fill` visits every completion exactly once: its two counts add up to
      2^(number of forced positions). */
  lemma {:induction false} FillTotal(f: seq<bool>, rank: nat, eq: seq<bool>, xs: seq<int>, ys: seq<int>, off: nat)
    requires |f| == 32 && 2 <= rank <= 5 && |xs| == |eq| && |ys| == |eq| && off <= |eq|
    ensures FillTally(f, rank, eq, xs, ys, off).0 + FillTally(f, rank, eq, xs, ys, off).1
            == Pow(2, ForcedCount(eq, rank, off))
    decreases |eq| - off
  {
    if off < |eq| {
      if Forced(eq, rank, off) {
        FillTotal(f, rank, eq, xs[off := 0], ys[off := 0], off + 1);
        FillTotal(f, rank, eq, xs[off := 1], ys[off := 1], off + 1);
      } else {
        FillTotal(f, rank, eq, xs, ys, off + 1);
      }
    }
  }

  /** What `fill` reads: the tallies depend only on the positions before `off`
      and on the positions it does not enumerate. */
  lemma {:induction false} FillFrame(f: seq<bool>, rank: nat, eq: seq<bool>, xs: seq<int>, ys: seq<int>,
                                     xs': seq<int>, ys': seq<int>, off: nat)
    requires |f| == 32 && 2 <= rank <= 5 && off <= |eq|
    requires |xs| == |eq| && |ys| == |eq| && |xs'| == |eq| && |ys'| == |eq|
    requires forall k :: 0 <= k < |eq| && (k < off || !Forced(eq, rank, k)) ==> xs[k] == xs'[k] && ys[k] == ys'[k]
    ensures FillTally(f, rank, eq, xs, ys, off) == FillTally(f, rank, eq, xs', ys', off)
    decreases |eq| - off
  {
    if off == |eq| {
      assert xs == xs' && ys == ys';
    } else if Forced(eq, rank, off) {
      FillFrame(f, rank, eq, xs[off := 0], ys[off := 0], xs'[off := 0], ys'[off := 0], off + 1);
      FillFrame(f, rank, eq, xs[off := 1], ys[off := 1], xs'[off := 1], ys'[off := 1], off + 1);
    } else {
      FillFrame(f, rank, eq, xs, ys, xs', ys', off + 1);
    }
  }

  /** An even and an odd count that are equal: the family is balanced. */
  predicate Balanced(f: seq<bool>, rank: nat, eq: seq<bool>, xs: seq<int>, ys: seq<int>)
    requires |f| == 32 && 2 <= rank <= 5 && |xs| == |eq| && |ys| == |eq|
  {
    FillTally(f, rank, eq, xs, ys, 0).0 == FillTally(f, rank, eq, xs, ys, 0).1
  }

  /** What `family` returns: every way of setting the positions from `off` on
      where x and y differ (not eq) to (0, 1) or (1, 0) gives a balanced
      family, explored depth first. */
  predicate FamilyOK(f: seq<bool>, rank: nat, eq: seq<bool>, xs: seq<int>, ys: seq<int>, off: nat)
    requires |f| == 32 && 2 <= rank <= 5 && |xs| == |eq| && |ys| == |eq| && off <= |eq|
    decreases |eq| - off
  {
    if off == |eq| then Balanced(f, rank, eq, xs, ys)
    else if eq[off] then FamilyOK(f, rank, eq, xs, ys, off + 1)
    else
      FamilyOK(f, rank, eq, xs[off := 0], ys[off := 1], off + 1)
      && FamilyOK(f, rank, eq, xs[off := 1], ys[off := 0], off + 1)
  }

  /** The positions `family` from `off` on reads without first writing them:
      the differing positions before `off` and the fixed position |eq| - rank. */
  predicate Kept(eq: seq<bool>, rank: nat, off: nat, k: nat)
    requires k < |eq|
  {
    (k < off && !eq[k]) || (eq[k] && k == |eq| - rank)
  }

  /** What `family` reads: only the kept positions of x and y matter. */
  lemma {:induction false} FamilyFrame(f: seq<bool>, rank: nat, eq: seq<bool>, xs: seq<int>, ys: seq<int>,
                                       xs': seq<int>, ys': seq<int>, off: nat)
    requires |f| == 32 && 2 <= rank <= 5 && off <= |eq|
    requires |xs| == |eq| && |ys| == |eq| && |xs'| == |eq| && |ys'| == |eq|
    requires forall k :: 0 <= k < |eq| && Kept(eq, rank, off, k) ==> xs[k] == xs'[k] && ys[k] == ys'[k]
    ensures FamilyOK(f, rank, eq, xs, ys, off) == FamilyOK(f, rank, eq, xs', ys', off)
    decreases |eq| - off
  {
    if off == |eq| {
      FillFrame(f, rank, eq, xs, ys, xs', ys', 0);
    } else if eq[off] {
      FamilyFrame(f, rank, eq, xs, ys, xs', ys', off + 1);
    } else {
      FamilyFrame(f, rank, eq, xs[off := 0], ys[off := 1], xs'[off := 0], ys'[off := 1], off + 1);
      FamilyFrame(f, rank, eq, xs[off := 1], ys[off := 0], xs'[off := 1], ys'[off := 0], off + 1);
    }
  }

  /** x with every differing position from `off` on set by the choice c. */
  function CompleteX(eq: seq<bool>, xs: seq<int>, off: nat, c: seq<bool>): (r: seq<int>)
    requires |xs| == |eq| && |c| == |eq|
    ensures |r| == |xs|
  {
    seq(|xs|, k requires 0 <= k < |xs| => if off <= k && !eq[k] then (if c[k] then 1 else 0) else xs[k])
  }

  /** y with every differing position from `off` on set opposite to x. */
  function CompleteY(eq: seq<bool>, ys: seq<int>, off: nat, c: seq<bool>): (r: seq<int>)
    requires |ys| == |eq| && |c| == |eq|
    ensures |r| == |ys|
  {
    seq(|ys|, k requires 0 <= k < |ys| => if off <= k && !eq[k] then (if c[k] then 0 else 1) else ys[k])
  }

  /** Every completion of the differing positions from `off` on is balanced. */
  ghost predicate AllBalanced(f: seq<bool>, rank: nat, eq: seq<bool>, xs: seq<int>, ys: seq<int>, off: nat)
    requires |f| == 32 && 2 <= rank <= 5 && |xs| == |eq| && |ys| == |eq|
  {
    forall c: seq<bool> | |c| == |eq| ::
      Balanced(f, rank, eq, CompleteX(eq, xs, off, c), CompleteY(eq, ys, off, c))
  }

  /** `family` accepts exactly when every completion of the differing positions
      from `off` on, x and y set opposite there, gives a balanced family. */
  lemma {:induction false} FamilyOKMeaning(f: seq<bool>, rank: nat, eq: seq<bool>, xs: seq<int>, ys: seq<int>, off: nat)
    requires |f| == 32 && 2 <= rank <= 5 && |xs| == |eq| && |ys| == |eq| && off <= |eq|
    ensures FamilyOK(f, rank, eq, xs, ys, off) <==> AllBalanced(f, rank, eq, xs, ys, off)
    decreases |eq| - off, 1
  {
    if off == |eq| {
      forall c: seq<bool> | |c| == |eq|
        ensures CompleteX(eq, xs, off, c) == xs && CompleteY(eq, ys, off, c) == ys
      {
      }
      var c0 := seq(|eq|, _ => false);
      assert CompleteX(eq, xs, off, c0) == xs && CompleteY(eq, ys, off, c0) == ys;
    } else if eq[off] {
      FamilyOKMeaning(f, rank, eq, xs, ys, off + 1);
      forall c: seq<bool> | |c| == |eq|
        ensures CompleteX(eq, xs, off, c) == CompleteX(eq, xs, off + 1, c)
        ensures CompleteY(eq, ys, off, c) == CompleteY(eq, ys, off + 1, c)
      {
      }
    } else {
      FamilyOKMeaningBranch(f, rank, eq, xs, ys, off);
    }
  }

  /** The step of FamilyOKMeaning at a differing position: a completion
      chooses (0, 1) or (1, 0) there, the two branches `family` explores. */
  lemma {:induction false} FamilyOKMeaningBranch(f: seq<bool>, rank: nat, eq: seq<bool>, xs: seq<int>, ys: seq<int>, off: nat)
    requires |f| == 32 && 2 <= rank <= 5 && |xs| == |eq| && |ys| == |eq| && off < |eq| && !eq[off]
    ensures FamilyOK(f, rank, eq, xs, ys, off) <==> AllBalanced(f, rank, eq, xs, ys, off)
    decreases |eq| - off, 0
  {
    FamilyOKMeaning(f, rank, eq, xs[off := 0], ys[off := 1], off + 1);
    FamilyOKMeaning(f, rank, eq, xs[off := 1], ys[off := 0], off + 1);
    AllBalancedSplit(f, rank, eq, xs, ys, off);
  }

  /** Every completion from `off` is balanced exactly when every completion
      from off + 1 is, with (0, 1) and with (1, 0) at the differing position off. */
  lemma AllBalancedSplit(f: seq<bool>, rank: nat, eq: seq<bool>, xs: seq<int>, ys: seq<int>, off: nat)
    requires |f| == 32 && 2 <= rank <= 5 && |xs| == |eq| && |ys| == |eq| && off < |eq| && !eq[off]
    ensures AllBalanced(f, rank, eq, xs, ys, off) <==>
            AllBalanced(f, rank, eq, xs[off := 0], ys[off := 1], off + 1)
            && AllBalanced(f, rank, eq, xs[off := 1], ys[off := 0], off + 1)
  {
    var x0, y0, x1, y1 := xs[off := 0], ys[off := 1], xs[off := 1], ys[off := 0];
    if AllBalanced(f, rank, eq, x0, y0, off + 1) && AllBalanced(f, rank, eq, x1, y1, off + 1) {
      forall c: seq<bool> | |c| == |eq|
        ensures Balanced(f, rank, eq, CompleteX(eq, xs, off, c), CompleteY(eq, ys, off, c))
      {
        CompleteAt(eq, xs, ys, off, c);
      }
    }
    if AllBalanced(f, rank, eq, xs, ys, off) {
      forall c: seq<bool> | |c| == |eq|
        ensures Balanced(f, rank, eq, CompleteX(eq, x0, off + 1, c), CompleteY(eq, y0, off + 1, c))
        ensures Balanced(f, rank, eq, CompleteX(eq, x1, off + 1, c), CompleteY(eq, y1, off + 1, c))
      {
        CompleteAt(eq, xs, ys, off, c[off := false]);
        CompleteAt(eq, xs, ys, off, c[off := true]);
        CompleteIgnoresChoiceAt(eq, x0, y0, off, c);
        CompleteIgnoresChoiceAt(eq, x1, y1, off, c);
      }
    }
  }

  /** A completion from a differing position `off` is the completion from
      off + 1 of x and y with the choice at off written in. */
  lemma CompleteAt(eq: seq<bool>, xs: seq<int>, ys: seq<int>, off: nat, c: seq<bool>)
    requires |xs| == |eq| && |ys| == |eq| && |c| == |eq| && off < |eq| && !eq[off]
    ensures c[off] ==>
              CompleteX(eq, xs, off, c) == CompleteX(eq, xs[off := 1], off + 1, c)
              && CompleteY(eq, ys, off, c) == CompleteY(eq, ys[off := 0], off + 1, c)
    ensures !c[off] ==>
              CompleteX(eq, xs, off, c) == CompleteX(eq, xs[off := 0], off + 1, c)
              && CompleteY(eq, ys, off, c) == CompleteY(eq, ys[off := 1], off + 1, c)
  {
  }

  /** A completion from off + 1 does not read the choice at off. */
  lemma CompleteIgnoresChoiceAt(eq: seq<bool>, xs: seq<int>, ys: seq<int>, off: nat, c: seq<bool>)
    requires |xs| == |eq| && |ys| == |eq| && |c| == |eq| && off < |eq|
    ensures CompleteX(eq, xs, off + 1, c) == CompleteX(eq, xs, off + 1, c[off := false])
                                          == CompleteX(eq, xs, off + 1, c[off := true])
    ensures CompleteY(eq, ys, off + 1, c) == CompleteY(eq, ys, off + 1, c[off := false])
                                          == CompleteY(eq, ys, off + 1, c[off := true])
  {
  }

  /** The pattern `goodFamily` builds for (len, i): x and y differ where bit j
      of i is clear (j < len) and agree on the last `rank` positions. */
  function Pattern(len: nat, i: nat, rank: nat): (eq: seq<bool>)
    ensures |eq| == len + rank
  {
    seq(len + rank, j requires 0 <= j < len + rank => if j < len then NatBit(i, j) else true)
  }

  /** The family `goodFamily` checks for (len, i): starting from x = 0 and
      y = 0 but for y[len] = 1, every completion is balanced. */
  predicate GoodPattern(f: seq<bool>, rank: nat, len: nat, i: nat)
    requires |f| == 32 && 2 <= rank <= 5
  {
    FamilyOK(f, rank, Pattern(len, i, rank), Zeros(len + rank), Zeros(len + rank)[len := 1], 0)
  }

  /** What `goodFamily` decides: the family is balanced for every length
      len < rank and every pattern i < 2^len. */
  predicate GoodFamilySpec(f: seq<bool>, rank: nat)
    requires |f| == 32 && 2 <= rank <= 5
  {
    forall len: nat, i: nat | len < rank && i < Pow(2, len) :: GoodPattern(f, rank, len, i)
  }

  // ---------------------------------------------------------------------------
  // Witnesses of 2- and 4-correlation

  /** The first `m` terms u_0 .. u_{m-1}: the `classes` array of the source. */
  function EvalSeq(f: seq<bool>, rank: nat, m: nat): (s: seq<int>)
    requires |f| == 32 && 2 <= rank <= 5
    ensures |s| == m
    ensures IsDigits(s, 2)
  {
    seq(m, i requires 0 <= i < m => U(f, rank, i))
  }

  /** `has2Correlation(a, classes)`: with blocks of |cls| / 8 indices, one of
      the two parities of u_n + u_{n+a} over in-block pairs occurs more than
      |cls| / 2 times. */
  predicate Has2Holds(cls: seq<int>, a: nat)
  {
    var small, upto := |cls| / 8, Span(|cls|, a);
    Max(PairCount(cls, a, small, 1, 2, 0, upto), PairCount(cls, a, small, 1, 2, 1, upto)) > |cls| / 2
  }

  /** A witness of 2-correlation needs at least 8 terms and a shift shorter
      than a block: otherwise no pair lies within one block. */
  lemma Has2NeedsRoom(cls: seq<int>, a: nat)
    ensures Has2Holds(cls, a) ==> 8 <= |cls| && a < |cls| / 8
  {
    var small, upto := |cls| / 8, Span(|cls|, a);
    if small == 0 || small <= a {
      NoPairWhenBlockTooShort(cls, a, small, 1, 2, 0, upto);
      NoPairWhenBlockTooShort(cls, a, small, 1, 2, 1, upto);
    }
  }

  /** Some shift a in [kmin, kmax) gives a witness on the terms cls. */
  predicate Has2AnyShift(cls: seq<int>, kmin: nat, kmax: int)
  {
    exists a: nat | kmin <= a < kmax :: Has2Holds(cls, a)
  }

  /** `has2Correlation(Nmax, Kmin, Kmax)`: some m in [2, Nmax) and a in
      [Kmin, Kmax) give a witness on the first 2^m terms. */
  predicate Has2ScanSpec(f: seq<bool>, rank: nat, nmax: int, kmin: nat, kmax: int)
    requires |f| == 32 && 2 <= rank <= 5
  {
    exists m: nat {:trigger EvalSeq(f, rank, Pow(2, m))} | 2 <= m < nmax :: Has2AnyShift(EvalSeq(f, rank, Pow(2, m)), kmin, kmax)
  }

  /** The count in tab[i][j][k] of `has4Correlation(a, b, c, classes)`: the n
      below `upto` with n, n + b in one block and parities (i, j, k) of
      u_n + u_{n+a}, u_n + u_{n+b}, u_n + u_{n+c}. */
  function Count4(cls: seq<int>, a: nat, b: nat, c: nat, small: nat, i: int, j: int, k: int, upto: nat): (r: nat)
    requires a <= c && b <= c && (upto == 0 || upto + c <= |cls|)
    ensures r <= upto
  {
    if upto == 0 then 0
    else
      var n := upto - 1;
      Count4(cls, a, b, c, small, i, j, k, n)
      + (if SameBlock(n, b, small) && (cls[n] + cls[n + a]) % 2 == i && (cls[n] + cls[n + b]) % 2 == j
            && (cls[n] + cls[n + c]) % 2 == k then 1 else 0)
  }

  /** `has4Correlation(a, b, c, classes)`: with blocks of |cls| / 16 indices,
      one of the eight parity patterns occurs more than |cls| / 8 times. */
  predicate Has4Holds(cls: seq<int>, a: nat, b: nat, c: nat)
    requires a <= c && b <= c
  {
    exists i: int, j: int, k: int | 0 <= i < 2 && 0 <= j < 2 && 0 <= k < 2 ::
      Count4(cls, a, b, c, |cls| / 16, i, j, k, Span(|cls|, c)) > |cls| / 8
  }

  lemma Count4Step(cls: seq<int>, a: nat, b: nat, c: nat, small: nat, i: int, j: int, k: int, n: nat)
    requires a <= c && b <= c && n + c < |cls|
    ensures Count4(cls, a, b, c, small, i, j, k, n + 1)
         == Count4(cls, a, b, c, small, i, j, k, n)
            + (if SameBlock(n, b, small) && (cls[n] + cls[n + a]) % 2 == i && (cls[n] + cls[n + b]) % 2 == j
                  && (cls[n] + cls[n + c]) % 2 == k then 1 else 0)
  {
  }

  lemma {:induction false} NoTripleWhenBlockTooShort(cls: seq<int>, a: nat, b: nat, c: nat, small: nat,
                                                     i: int, j: int, k: int, upto: nat)
    requires a <= c && b <= c && (upto == 0 || upto + c <= |cls|)
    requires small == 0 || small <= b
    ensures Count4(cls, a, b, c, small, i, j, k, upto) == 0
  {
    if upto > 0 {
      NoTripleWhenBlockTooShort(cls, a, b, c, small, i, j, k, upto - 1);
      if small > 0 {
        DivAtLeastOneMore(upto - 1, b, small);
      }
    }
  }

  /** A witness of 4-correlation needs at least 16 terms and a middle shift b
      shorter than a block. */
  lemma Has4NeedsRoom(cls: seq<int>, a: nat, b: nat, c: nat)
    requires a <= c && b <= c
    ensures Has4Holds(cls, a, b, c) ==> 16 <= |cls| && b < |cls| / 16
  {
    var small, upto := |cls| / 16, Span(|cls|, c);
    if small == 0 || small <= b {
      forall i: int, j: int, k: int ensures Count4(cls, a, b, c, small, i, j, k, upto) == 0 {
        NoTripleWhenBlockTooShort(cls, a, b, c, small, i, j, k, upto);
      }
    }
  }

  /** Some shifts 1 <= a < b < c < kk give a witness on the terms cls. */
  predicate Has4AnyShift(cls: seq<int>, kk: int)
  {
    exists a: nat, b: nat, c: nat | 1 <= a < b < c < kk :: Has4Holds(cls, a, b, c)
  }

  /** `has4Correlation(max, K)` from n on: some n' in [n, max] and
      1 <= a < b < c < K give a witness on the first 2^n' terms. */
  predicate Has4ScanSpec(f: seq<bool>, rank: nat, n: nat, max: int, kk: int)
    requires |f| == 32 && 2 <= rank <= 5
    decreases max - n
  {
    n <= max && (Has4AnyShift(EvalSeq(f, rank, Pow(2, n)), kk) || Has4ScanSpec(f, rank, n + 1, max, kk))
  }

  // ---------------------------------------------------------------------------
  // The shifts and the classification of a whole rank

  /** The source's SHIFTS. XOR-ing a parameter with one flips table entries at
      the unit tuples 1, 2, 4, 8 and 16: it adds projections x_j to f. */
  const Shifts: seq<int> := [0, 2, 4, 6, 16, 18, 20, 22, 256, 258, 260, 262, 272, 274, 276, 278,
                             65536, 65538, 65540, 65542, 65552, 65554, 65556, 65558,
                             65792, 65794, 65796, 65798, 65808, 65810, 65812, 65814]

  /** The same values widened to `long`, as `parameter ^= i` uses them. */
  const ShiftWords: seq<bv64> := [0, 2, 4, 6, 16, 18, 20, 22, 256, 258, 260, 262, 272, 274, 276, 278,
                                  65536, 65538, 65540, 65542, 65552, 65554, 65556, 65558,
                                  65792, 65794, 65796, 65798, 65808, 65810, 65812, 65814]

  lemma ShiftWordsAgree(k: nat)
    requires k < 32
    ensures ShiftWords[k] as int == Shifts[k]
  {
    if k < 16 {
      if k < 8 {
        if k < 4 {} else {}
      } else {
        if k < 12 {} else {}
      }
    } else {
      if k < 24 {
        if k < 20 {} else {}
      } else {
        if k < 28 {} else {}
      }
    }
  }

  /** Shift number b0 + 2 b1 + 4 b2 + 8 b3 + 16 b4 sets exactly the bits 2^j
      with b_j == 1: it is the sum of 2^(2^j) = 2, 4, 16, 256, 65536 over them. */
  lemma ShiftsAreSubsetSums(b0: int, b1: int, b2: int, b3: int, b4: int)
    requires 0 <= b0 <= 1 && 0 <= b1 <= 1 && 0 <= b2 <= 1 && 0 <= b3 <= 1 && 0 <= b4 <= 1
    ensures Shifts[b0 + 2 * b1 + 4 * b2 + 8 * b3 + 16 * b4] == 2 * b0 + 4 * b1 + 16 * b2 + 256 * b3 + 65536 * b4
  {
    if b4 == 0 {
      if b3 == 0 {} else {}
    } else {
      if b3 == 0 {} else {}
    }
  }

  lemma ShiftsIncreasing(k: nat)
    requires k < 31
    ensures 0 <= Shifts[k] < Shifts[k + 1] < 0x2_0000
  {
  }

  lemma ShiftsEven(k: nat)
    requires k < 32
    ensures 0 <= Shifts[k] < 0x2_0000 && Shifts[k] % 2 == 0
  {
  }

  lemma {:induction false} ShiftsMonotone(i: nat, j: nat)
    requires i < j < 32
    ensures Shifts[i] < Shifts[j]
    decreases j - i
  {
    ShiftsIncreasing(i);
    if i + 1 < j {
      ShiftsMonotone(i + 1, j);
    }
  }

  /** The Java int `1 << s` for 0 <= s < 32: 2^s wrapped to 32 bits. */
  function JavaIntShl(s: nat): (r: int)
    requires s < 32
    ensures -0x8000_0000 <= r < 0x8000_0000 && (Pow(2, s) - r) % 0x1_0000_0000 == 0
  {
    PowTwo31();
    PowGrows(s, 31);
    if s == 31 then -0x8000_0000 else Pow(2, s)
  }

  lemma PowTwo31()
    ensures Pow(2, 3) == 8 && Pow(2, 7) == 128 && Pow(2, 15) == 0x8000 && Pow(2, 31) == 0x8000_0000
  {
    PowTwo11();
    PowAdd(2, 4, 3);
    PowAdd(2, 4, 11);
    PowAdd(2, 15, 16);
  }

  lemma {:induction false} PowGrows(j: nat, k: nat)
    requires j <= k
    ensures Pow(2, j) <= Pow(2, k)
    decreases k - j
  {
    if j < k {
      PowGrows(j, k - 1);
    }
  }

  /** The source's guard `i < (1 << mask)` on a shift, as written: an int shift. */
  predicate ShiftTestedAsWritten(shift: int, mask: nat)
    requires mask < 32
  {
    shift < JavaIntShl(mask)
  }

  /** The guard as intended: the shift only touches bits below 2^mask, the
      entries of a block function of rank r when mask == 2^r - 1. */
  predicate ShiftTested(shift: int, mask: nat)
  {
    shift < Pow(2, mask)
  }

  /** For ranks 2, 3 and 4 the guard as written is the intended one. */
  lemma ShiftTestAgrees(shift: int, mask: nat)
    requires mask < 31
    ensures ShiftTestedAsWritten(shift, mask) <==> ShiftTested(shift, mask)
  {
  }

  /** For rank 5 (mask 31), `1 << 31` is negative: the guard as written lets
      no shift through, not even 0, and the 4-correlation of the good
      functions of rank 5 goes unchecked; the intended guard admits all 32. */
  lemma ShiftGuardAtRankFive(k: nat)
    requires k < 32
    ensures !ShiftTestedAsWritten(Shifts[k], 31)
    ensures ShiftTested(Shifts[k], 31)
  {
    PowTwo31();
    ShiftsEven(k);
  }

  /** The intended guard admits exactly the first 2^rank shifts: those that
      flip unit tuples of length rank only. */
  lemma ShiftsTestedForRank(rank: nat, mask: nat, k: nat)
    requires 2 <= rank <= 5 && mask == Pow(2, rank) - 1 && k < 32
    ensures ShiftTested(Shifts[k], mask) <==> k < Pow(2, rank)
  {
    PowTwoRank(rank);
    PowTwo31();
    var t := Pow(2, rank);
    if rank < 5 {
      if k < t {
        if k < t - 1 {
          ShiftsMonotone(k, t - 1);
        }
      } else if k > t {
        ShiftsMonotone(t, k);
      }
    } else {
      ShiftGuardAtRankFive(k);
    }
  }

  /** The guard as written admits exactly the first 2^rank shifts for ranks
      2, 3 and 4, and none at rank 5. */
  lemma ShiftsAdmittedAsWritten(rank: nat, mask: nat, k: nat)
    requires 2 <= rank <= 5 && mask == Pow(2, rank) - 1 && k < 32
    ensures mask < 32
    ensures ShiftTestedAsWritten(Shifts[k], mask) <==> rank < 5 && k < Pow(2, rank)
  {
    PowTwoRank(rank);
    if rank < 5 {
      ShiftTestAgrees(Shifts[k], mask);
      ShiftsTestedForRank(rank, mask, k);
    } else {
      ShiftGuardAtRankFive(k);
    }
  }

  /** A shift is even, so XOR-ing it leaves entry 0, f(0, ..., 0), alone. */
  lemma ShiftKeepsOrigin(w: bv64, k: nat)
    requires k < 32
    ensures ParamBit(w ^ ShiftWords[k], 0) == ParamBit(w, 0)
  {
    assert ShiftWords[k] & 1 == 0;
    XorEvenLowBit(w, ShiftWords[k]);
    assert JavaIntOne(0) == 1;
  }

  /** The parameters `countGoodFunctions` enumerates: GetParameter(p) for p < n. */
  function Candidates(n: nat): (ws: seq<bv64>)
    requires n <= 0x400_0000
    ensures |ws| == n
  {
    seq(n, p requires 0 <= p < n => GetParameter(p as bv64))
  }

  /** Shift k turns w into a parameter that shows a witness of 4-correlation. */
  predicate Shifted4Correlated(w: bv64, rank: nat, k: nat)
    requires 2 <= rank <= 5 && k < 32
  {
    Has4ScanSpec(Table(w ^ ShiftWords[k]), rank, 6, 10, 7)
  }

  /** Shift k passes the test of the shift loop as written: the guard
      `i < (1 << mask)` admits the first 2^rank shifts for ranks below 5 and
      none at rank 5 (ShiftsAdmittedAsWritten); an admitted shift must show
      4-correlation. */
  predicate ShiftCorrelated(w: bv64, rank: nat, k: nat)
    requires 2 <= rank <= 5 && k < 32
  {
    rank < 5 && k < Pow(2, rank) ==> Shifted4Correlated(w, rank, k)
  }

  /** Shift k passes the test with the intended guard, which admits the first
      2^rank shifts at every rank (ShiftsTestedForRank). */
  predicate IntendedShiftCorrelated(w: bv64, rank: nat, k: nat)
    requires 2 <= rank <= 5 && k < 32
  {
    k < Pow(2, rank) ==> Shifted4Correlated(w, rank, k)
  }

  /** The first k shifts all pass. */
  predicate ShiftsCorrelated(w: bv64, rank: nat, k: nat)
    requires 2 <= rank <= 5 && k <= 32
  {
    forall j | 0 <= j < k :: ShiftCorrelated(w, rank, j)
  }

  lemma ShiftsCorrelatedStep(w: bv64, rank: nat, k: nat)
    requires 2 <= rank <= 5 && k < 32
    requires ShiftsCorrelated(w, rank, k) && ShiftCorrelated(w, rank, k)
    ensures ShiftsCorrelated(w, rank, k + 1)
  {
  }

  /** Every shift passes the test with the intended guard. */
  predicate IntendedShiftsCorrelated(w: bv64, rank: nat)
    requires 2 <= rank <= 5
  {
    forall j | 0 <= j < 32 :: IntendedShiftCorrelated(w, rank, j)
  }

  /** No witness of 2-correlation is found, by either scan of the source. */
  predicate Uncorrelated2(rank: nat, w: bv64)
    requires 2 <= rank <= 5
  {
    !Has2ScanSpec(Table(w), rank, 15, 1, 8) && !Has2ScanSpec(Table(w), rank, 15, 8, 18)
  }

  /** A candidate the source as written rejects: a good one with an admitted
      shift that shows no 4-correlation, or one that is not good and shows no
      2-correlation. */
  predicate Misclassified(rank: nat, w: bv64)
    requires 2 <= rank <= 5
  {
    if Good(rank, w) then !ShiftsCorrelated(w, rank, 32) else Uncorrelated2(rank, w)
  }

  /** A candidate rejected with the intended shift guard. */
  predicate IntendedMisclassified(rank: nat, w: bv64)
    requires 2 <= rank <= 5
  {
    if Good(rank, w) then !IntendedShiftsCorrelated(w, rank) else Uncorrelated2(rank, w)
  }

  const Uncorrelated4Message := "Classification problem: 4-uncorrelated function!"
  const Correlated2Message := "Classification problem!"

  /** The message the source throws for a misclassified candidate. */
  function ProblemMessage(rank: nat, w: bv64): string
    requires 2 <= rank <= 5
  {
    if Good(rank, w) then Uncorrelated4Message else Correlated2Message
  }

  /** Whether `goodFamily` accepts the block function of parameter w. */
  predicate Good(rank: nat, w: bv64)
    requires 2 <= rank <= 5
  {
    GoodFamilySpec(Table(w), rank)
  }

  /** What `countGoodFunctions` decides about one candidate: the exception it
      throws, or whether the candidate is counted as good. */
  function Verdict(rank: nat, w: bv64): Outcome<bool>
    requires 2 <= rank <= 5
  {
    if Misclassified(rank, w) then ClassificationProblem(ProblemMessage(rank, w)) else Completed(Good(rank, w))
  }

  /** The verdict with the intended shift guard. */
  function IntendedVerdict(rank: nat, w: bv64): Outcome<bool>
    requires 2 <= rank <= 5
  {
    if IntendedMisclassified(rank, w) then ClassificationProblem(ProblemMessage(rank, w)) else Completed(Good(rank, w))
  }

  /** For ranks 2, 3 and 4 the verdict as written is the intended one. */
  lemma VerdictAgreesBelowFive(rank: nat, w: bv64)
    requires 2 <= rank <= 4
    ensures Verdict(rank, w) == IntendedVerdict(rank, w)
  {
    assert ShiftsCorrelated(w, rank, 32) <==> IntendedShiftsCorrelated(w, rank) by {
      forall j | 0 <= j < 32 ensures ShiftCorrelated(w, rank, j) <==> IntendedShiftCorrelated(w, rank, j) {
      }
    }
  }

  /** At rank 5 the guard as written lets no shift through: every candidate
      passes the shift loop, so a rejection is never the 4-uncorrelated one. */
  lemma RankFiveShiftsUnchecked(w: bv64)
    ensures ShiftsCorrelated(w, 5, 32)
    ensures Verdict(5, w) != ClassificationProblem(Uncorrelated4Message)
  {
    PowTwoRank(5);
    if Good(5, w) {
      assert !Misclassified(5, w);
    }
  }

  /** At rank 5, `countGoodFunctions` as written never throws the
      4-uncorrelated exception, whatever the candidates. */
  lemma RankFiveNeverUncorrelated4(ws: seq<bv64>)
    ensures ClassifyCandidates(5, ws) != ClassificationProblem(Uncorrelated4Message)
  {
    if !ClassifyCandidates(5, ws).Completed? {
      ClassifyCandidatesFirstProblem(5, ws);
      var i :| 0 <= i < |ws| && Misclassified(5, ws[i]) && ClassifyCandidates(5, ws).message == ProblemMessage(5, ws[i]);
      RankFiveShiftsUnchecked(ws[i]);
    }
  }

  /** The verdicts on a sequence of candidates, in order. */
  function Verdicts(rank: nat, ws: seq<bv64>): (vs: seq<Outcome<bool>>)
    requires 2 <= rank <= 5
    ensures |vs| == |ws| && forall i | 0 <= i < |ws| :: vs[i] == Verdict(rank, ws[i])
  {
    seq(|ws|, i requires 0 <= i < |ws| => Verdict(rank, ws[i]))
  }

  /** The loop of `countGoodFunctions` over the verdicts still to come, with
      `good` counted so far: the first exception, or the good count times `scale`. */
  function CountFrom(vs: seq<Outcome<bool>>, good: nat, scale: nat): Outcome<int>
  {
    if vs == [] then Completed(good * scale)
    else match vs[0]
      case ClassificationProblem(m) => ClassificationProblem(m)
      case Completed(g) => CountFrom(vs[1..], if g then good + 1 else good, scale)
  }

  /** The number of verdicts that count a candidate as good. */
  function GoodCount(vs: seq<Outcome<bool>>): (n: nat)
    ensures n <= |vs|
  {
    if vs == [] then 0 else (if vs[0] == Completed(true) then 1 else 0) + GoodCount(vs[1..])
  }

  /** The number of candidates of a rank: 2^(2^rank - 1 - rank), at most 2^26. */
  function CandidateCount(rank: nat): (n: nat)
    requires 2 <= rank <= 5
    ensures n <= 0x400_0000
  {
    PowTwoRank(rank);
    PowTwo26();
    PowGrows(Pow(2, rank) - 1 - rank, 26);
    Pow(2, Pow(2, rank) - 1 - rank)
  }

  /** The verdict at position p of the enumeration is the verdict on GetParameter(p). */
  lemma CandidateVerdict(rank: nat, n: nat, p: nat)
    requires 2 <= rank <= 5 && p < n <= 0x400_0000
    ensures Verdicts(rank, Candidates(n))[p] == Verdict(rank, GetParameter(p as bv64))
  {
  }

  /** The outcome of classifying the candidates ws in turn. */
  function ClassifyCandidates(rank: nat, ws: seq<bv64>): Outcome<int>
    requires 2 <= rank <= 5
  {
    CountFrom(Verdicts(rank, ws), 0, Pow(2, rank))
  }

  /** The outcome of `countGoodFunctions(rank)`. */
  function GoodFunctionsOutcome(rank: nat): Outcome<int>
    requires 2 <= rank <= 5
  {
    ClassifyCandidates(rank, Candidates(CandidateCount(rank)))
  }

  /** The tally succeeds exactly when no verdict is an exception, and then
      returns the number of good verdicts times the scale. */
  lemma {:induction false} CountFromMeaning(vs: seq<Outcome<bool>>, good: nat, scale: nat)
    ensures CountFrom(vs, good, scale).Completed? <==> forall i | 0 <= i < |vs| :: vs[i].Completed?
    ensures CountFrom(vs, good, scale).Completed? ==> CountFrom(vs, good, scale).value == (good + GoodCount(vs)) * scale
  {
    if vs != [] && vs[0].Completed? {
      CountFromMeaning(vs[1..], if vs[0].value then good + 1 else good, scale);
      assert forall i | 1 <= i < |vs| :: vs[i] == vs[1..][i - 1];
    }
  }

  /** A failed tally reports the first exception among the verdicts. */
  lemma {:induction false} CountFromFirstProblem(vs: seq<Outcome<bool>>, good: nat, scale: nat)
    requires !CountFrom(vs, good, scale).Completed?
    ensures exists i | 0 <= i < |vs| :: FirstProblem(vs, i) && CountFrom(vs, good, scale).message == vs[i].message
  {
    if vs[0].ClassificationProblem? {
      assert FirstProblem(vs, 0);
    } else {
      var good' := if vs[0].value then good + 1 else good;
      CountFromFirstProblem(vs[1..], good', scale);
      var i :| 0 <= i < |vs| - 1 && FirstProblem(vs[1..], i) && CountFrom(vs[1..], good', scale).message == vs[1..][i].message;
      assert FirstProblem(vs, i + 1) by {
        assert forall j | 1 <= j <= i + 1 :: vs[j] == vs[1..][j - 1];
      }
    }
  }

  /** vs[i] is an exception and no verdict before it is. */
  predicate FirstProblem(vs: seq<Outcome<bool>>, i: nat)
    requires i < |vs|
  {
    vs[i].ClassificationProblem? && forall j | 0 <= j < i :: vs[j].Completed?
  }

  /** One step of the loop, at position p of the verdicts. */
  lemma CountFromStep(vs: seq<Outcome<bool>>, p: nat, good: nat, scale: nat)
    requires p < |vs|
    ensures vs[p].ClassificationProblem? ==> CountFrom(vs[p..], good, scale) == ClassificationProblem(vs[p].message)
    ensures vs[p].Completed? ==>
            CountFrom(vs[p..], good, scale) == CountFrom(vs[p + 1..], if vs[p].value then good + 1 else good, scale)
  {
    assert vs[p..][0] == vs[p] && vs[p..][1..] == vs[p + 1..];
  }

  /** Classifying candidates ws succeeds exactly when none is misclassified,
      and then returns the number of good ones times 2^rank. */
  lemma ClassifyCandidatesMeaning(rank: nat, ws: seq<bv64>)
    requires 2 <= rank <= 5
    ensures ClassifyCandidates(rank, ws).Completed? <==> forall i | 0 <= i < |ws| :: !Misclassified(rank, ws[i])
    ensures ClassifyCandidates(rank, ws).Completed? ==>
            ClassifyCandidates(rank, ws).value == GoodCount(Verdicts(rank, ws)) * Pow(2, rank)
  {
    var vs := Verdicts(rank, ws);
    CountFromMeaning(vs, 0, Pow(2, rank));
    assert forall i | 0 <= i < |ws| :: vs[i].Completed? <==> !Misclassified(rank, ws[i]);
  }

  /** A failed classification carries the message of the first misclassified candidate. */
  lemma ClassifyCandidatesFirstProblem(rank: nat, ws: seq<bv64>)
    requires 2 <= rank <= 5 && !ClassifyCandidates(rank, ws).Completed?
    ensures exists i | 0 <= i < |ws| :: Misclassified(rank, ws[i]) && (forall j | 0 <= j < i :: !Misclassified(rank, ws[j]))
                                      && ClassifyCandidates(rank, ws).message == ProblemMessage(rank, ws[i])
  {
    var vs := Verdicts(rank, ws);
    CountFromFirstProblem(vs, 0, Pow(2, rank));
    var i :| 0 <= i < |vs| && FirstProblem(vs, i) && CountFrom(vs, 0, Pow(2, rank)).message == vs[i].message;
    assert forall j | 0 <= j < i :: !Misclassified(rank, ws[j]) by {
      forall j | 0 <= j < i ensures !Misclassified(rank, ws[j]) {
        assert vs[j].Completed?;
      }
    }
  }

  /** XOR-ing a shift twice restores the parameter. */
  lemma XorTwice(w: bv64, v: bv64)
    ensures (w ^ v) ^ v == w
  {
  }

  lemma XorEvenLowBit(w: bv64, v: bv64)
    requires v & 1 == 0
    ensures (w ^ v) & 1 == w & 1
  {
  }

  // ---------------------------------------------------------------------------
  // The imperative search

  /** The tally of `has2Correlation(a, classes)`. */
  method Has2Correlation(a: nat, classes: array<int>) returns (r: bool)
    requires IsDigits(classes[..], 2)
    ensures r == Has2Holds(classes[..], a)
  {
    var tab := new int[2](_ => 0);
    var small := classes.Length / 8;
    ghost var cls := classes[..];
    var n := 0;
    while n + a < classes.Length
      invariant n == 0 || n + a <= classes.Length
      invariant tab[0] == PairCount(cls, a, small, 1, 2, 0, n)
      invariant tab[1] == PairCount(cls, a, small, 1, 2, 1, n)
    {
      if SameBlock(n, a, small) {
        var k := (classes[n] + classes[n + a]) % 2;
        assert k == Residue(cls, n, a, 1, 2);
        tab[k] := tab[k] + 1;
      }
      n := n + 1;
    }
    assert n == Span(classes.Length, a);
    r := Max(tab[0], tab[1]) > classes.Length / 2;
  }

  /** The entries of the 2 x 2 x 2 tally before position `upto` in the order
      the source scans them are at most `bound`. */
  ghost predicate NoneAbove(tab: array3<int>, bound: int, upto: int)
    reads tab
    requires tab.Length0 == 2 && tab.Length1 == 2 && tab.Length2 == 2
  {
    forall i, j, k :: 0 <= i < 2 && 0 <= j < 2 && 0 <= k < 2 && 4 * i + 2 * j + k < upto ==> tab[i, j, k] <= bound
  }

  /** The counting loop of `has4Correlation(a, b, c, classes)`: tab[i, j, k]
      ends as the count of the parity pattern (i, j, k). The source divides by
      |classes| / 16 whenever the loop runs, hence the precondition. */
  method Has4Tally(a: nat, b: nat, c: nat, classes: array<int>) returns (tab: array3<int>)
    requires IsDigits(classes[..], 2) && a <= c && b <= c && (classes.Length >= 16 || c >= classes.Length)
    ensures tab.Length0 == 2 && tab.Length1 == 2 && tab.Length2 == 2
    ensures forall i, j, k :: 0 <= i < 2 && 0 <= j < 2 && 0 <= k < 2 ==>
              tab[i, j, k] == Count4(classes[..], a, b, c, classes.Length / 16, i, j, k, Span(classes.Length, c))
  {
    tab := new int[2, 2, 2]((_, _, _) => 0);
    var small := classes.Length / 16;
    ghost var cls := classes[..];
    var n := 0;
    while n + c < classes.Length
      invariant n == 0 || n + c <= classes.Length
      invariant forall i, j, k :: 0 <= i < 2 && 0 <= j < 2 && 0 <= k < 2 ==>
                  tab[i, j, k] == Count4(cls, a, b, c, small, i, j, k, n)
    {
      if n / small == (n + b) / small {
        var i, j, k := (classes[n] + classes[n + a]) % 2, (classes[n] + classes[n + b]) % 2,
                       (classes[n] + classes[n + c]) % 2;
        tab[i, j, k] := tab[i, j, k] + 1;
      }
      forall i, j, k | 0 <= i < 2 && 0 <= j < 2 && 0 <= k < 2
        ensures tab[i, j, k] == Count4(cls, a, b, c, small, i, j, k, n + 1)
      {
        Count4Step(cls, a, b, c, small, i, j, k, n);
      }
      n := n + 1;
    }
    assert n == Span(classes.Length, c);
  }

  /** The scanning loops of `has4Correlation(a, b, c, classes)`: whether some
      entry of the 2 x 2 x 2 tally is above the bound. */
  method AnyAbove(tab: array3<int>, bound: int) returns (r: bool)
    requires tab.Length0 == 2 && tab.Length1 == 2 && tab.Length2 == 2
    ensures r <==> exists i, j, k :: 0 <= i < 2 && 0 <= j < 2 && 0 <= k < 2 && tab[i, j, k] > bound
  {
    var i := 0;
    while i < 2
      invariant 0 <= i <= 2
      invariant NoneAbove(tab, bound, 4 * i)
    {
      var j := 0;
      while j < 2
        invariant 0 <= j <= 2
        invariant NoneAbove(tab, bound, 4 * i + 2 * j)
      {
        var k := 0;
        while k < 2
          invariant 0 <= k <= 2
          invariant NoneAbove(tab, bound, 4 * i + 2 * j + k)
        {
          if tab[i, j, k] > bound {
            return true;
          }
          k := k + 1;
        }
        j := j + 1;
      }
      i := i + 1;
    }
    return false;
  }

  /** `has4Correlation(a, b, c, classes)`: the count, then the scan of the
      eight entries for one above |classes| / 8. */
  method Has4Correlation(a: nat, b: nat, c: nat, classes: array<int>) returns (r: bool)
    requires IsDigits(classes[..], 2) && a <= c && b <= c && (classes.Length >= 16 || c >= classes.Length)
    ensures r == Has4Holds(classes[..], a, b, c)
  {
    var tab := Has4Tally(a, b, c, classes);
    r := AnyAbove(tab, classes.Length / 8);
  }

  /** The loop over a in `has2Correlation(Nmax, Kmin, Kmax)`, for one array of terms. */
  method Has2AtLength(classes: array<int>, kmin: nat, kmax: int) returns (r: bool)
    requires IsDigits(classes[..], 2)
    ensures r == Has2AnyShift(classes[..], kmin, kmax)
  {
    var a := kmin;
    while a < kmax
      invariant kmin <= a
      invariant forall a': nat :: kmin <= a' < a ==> !Has2Holds(classes[..], a')
    {
      var found := Has2Correlation(a, classes);
      if found {
        return true;
      }
      a := a + 1;
    }
    return false;
  }

  /** The loops over c, b and a in `has4Correlation(max, K)`, for one array of
      at least 16 terms. */
  method Has4AtLength(classes: array<int>, kk: int) returns (r: bool)
    requires IsDigits(classes[..], 2) && classes.Length >= 16
    ensures r == Has4AnyShift(classes[..], kk)
  {
    var c := 3;
    while c < kk
      invariant 3 <= c
      invariant forall a: nat, b: nat, c': nat :: 1 <= a < b < c' < c ==> !Has4Holds(classes[..], a, b, c')
    {
      var found := Has4WithLast(classes, c);
      if found {
        return true;
      }
      c := c + 1;
    }
    return false;
  }

  /** The loops over b and a for one largest shift c. */
  method Has4WithLast(classes: array<int>, c: nat) returns (r: bool)
    requires IsDigits(classes[..], 2) && classes.Length >= 16 && c >= 3
    ensures r == exists a: nat, b: nat | 1 <= a < b < c :: Has4Holds(classes[..], a, b, c)
  {
    var b := 2;
    while b < c
      invariant 2 <= b <= c
      invariant forall a: nat, b': nat :: 1 <= a < b' < b ==> !Has4Holds(classes[..], a, b', c)
    {
      var found := Has4WithPair(classes, b, c);
      if found {
        return true;
      }
      b := b + 1;
    }
    return false;
  }

  /** The loop over a for shifts b < c. */
  method Has4WithPair(classes: array<int>, b: nat, c: nat) returns (r: bool)
    requires IsDigits(classes[..], 2) && classes.Length >= 16 && 2 <= b < c
    ensures r == exists a: nat | 1 <= a < b :: Has4Holds(classes[..], a, b, c)
  {
    var a := 1;
    while a < b
      invariant 1 <= a <= b
      invariant forall a': nat :: 1 <= a' < a ==> !Has4Holds(classes[..], a', b, c)
    {
      r := Has4Correlation(a, b, c, classes);
      if r {
        return;
      }
      a := a + 1;
    }
    return false;
  }

  /** The static state of the source: the block function under test, its
      rank and the mask 2^rank - 1 that `eval` applies. */
  class Classification {
    var parameter: bv64
    var rank: int
    var mask: int
    /** The table of the block function that `parameter` encodes. */
    ghost var table: seq<bool>

    ghost predicate Valid()
      reads this
    {
      2 <= rank <= 5 && mask == Pow(2, rank) - 1 && Tabulates(parameter, table)
    }

    /** The fields as the JVM initialises them, before any rank is set. */
    constructor ()
      ensures parameter == 0 && rank == 0 && mask == 0 && table == Table(0)
    {
      parameter, rank, mask := 0, 0, 0;
      table := Table(0);
      TableTabulates(0);
    }

    /** `f(a, b, c, d, e)`: the source's bit test agrees with the table entry. */
    function F(a: int, b: int, c: int, d: int, e: int): (r: int)
      reads this
      ensures r == Block(Table(parameter), a, b, c, d, e)
    {
      if ParamBit(parameter, (a + 2 * b + 4 * c + 8 * d + 16 * e) % 32) then 1 else 0
    }

    /** `eval(n)`: the term u_n. */
    method Eval(n: nat) returns (r: int)
      requires Valid()
      ensures r == U(table, rank, n)
    {
      PowTwoRank(rank);
      ghost var f := table;
      var result := 0;
      var m := n;
      while m > 0
        invariant 0 <= m
        invariant result + EvalCount(f, rank, m) == EvalCount(f, rank, n)
      {
        if ParamBit(parameter, m % (mask + 1)) {
          result := result + 1;
        }
        m := m / 2;
      }
      r := result % 2;
    }

    /** `value(xBuffer)`: the block function summed over every window. */
    method Value(x: array<int>) returns (sum: int)
      requires Valid()
      ensures sum == WindowSum(table, rank, x[..])
    {
      ghost var f := table;
      TabulatesUnique(parameter, f);
      sum := 0;
      var i := 0;
      while i + rank <= x.Length
        invariant 0 <= i <= x.Length
        invariant sum + WindowSum(f, rank, x[i..]) == WindowSum(f, rank, x[..])
      {
        assert x[i..][1..] == x[i + 1..];
        sum := sum + F(x[i], x[i + 1], if rank > 2 then x[i + 2] else 0, if rank > 3 then x[i + 3] else 0,
                       if rank > 4 then x[i + 4] else 0);
        i := i + 1;
      }
    }

    /** `fill(eq, xBuffer, yBuffer, offset, tab)`: adds to tab the even and odd
        counts of every completion of the forced positions from `offset` on,
        and leaves those positions at 1. Each branch of the source is a method
        of its own below, so that each proof stays small. */
    method Fill(eq: array<bool>, x: array<int>, y: array<int>, offset: nat, tab: array<int>)
      requires Valid() && x != y && x != tab && y != tab && tab.Length == 2
      requires x.Length == eq.Length && y.Length == eq.Length && offset <= eq.Length
      modifies x, y, tab
      ensures tab[0] == old(tab[0]) + FillTally(table, rank, eq[..], old(x[..]), old(y[..]), offset).0
      ensures tab[1] == old(tab[1]) + FillTally(table, rank, eq[..], old(x[..]), old(y[..]), offset).1
      ensures forall k :: 0 <= k < eq.Length ==> x[k] == if offset <= k && eq[k] && k != eq.Length - rank then 1 else old(x[k])
      ensures forall k :: 0 <= k < eq.Length ==> y[k] == if offset <= k && eq[k] && k != eq.Length - rank then 1 else old(y[k])
      decreases eq.Length - offset, 2
    {
      if offset == eq.Length {
        FillAtEnd(eq, x, y, tab);
      } else if offset != eq.Length - rank && eq[offset] {
        FillForced(eq, x, y, offset, tab);
      } else {
        FillSkip(eq, x, y, offset, tab);
      }
    }

    /** The end of `fill`: one more completion, counted under the parity of
        value(x) + value(y). */
    method FillAtEnd(eq: array<bool>, x: array<int>, y: array<int>, tab: array<int>)
      requires Valid() && x != y && x != tab && y != tab && tab.Length == 2
      requires x.Length == eq.Length && y.Length == eq.Length
      modifies tab
      ensures tab[0] == old(tab[0]) + FillTally(table, rank, eq[..], x[..], y[..], eq.Length).0
      ensures tab[1] == old(tab[1]) + FillTally(table, rank, eq[..], x[..], y[..], eq.Length).1
    {
      var vx := Value(x);
      var vy := Value(y);
      var k := (vx + vy) % 2;
      tab[k] := tab[k] + 1;
      FillLeaf(table, rank, eq[..], x[..], y[..]);
    }

    /** A position `fill` does not enumerate: move on to the next one. */
    method FillSkip(eq: array<bool>, x: array<int>, y: array<int>, offset: nat, tab: array<int>)
      requires Valid() && x != y && x != tab && y != tab && tab.Length == 2
      requires x.Length == eq.Length && y.Length == eq.Length && offset < eq.Length
      requires !(offset != eq.Length - rank && eq[offset])
      modifies x, y, tab
      ensures tab[0] == old(tab[0]) + FillTally(table, rank, eq[..], old(x[..]), old(y[..]), offset).0
      ensures tab[1] == old(tab[1]) + FillTally(table, rank, eq[..], old(x[..]), old(y[..]), offset).1
      ensures forall k :: 0 <= k < eq.Length ==> x[k] == if offset <= k && eq[k] && k != eq.Length - rank then 1 else old(x[k])
      ensures forall k :: 0 <= k < eq.Length ==> y[k] == if offset <= k && eq[k] && k != eq.Length - rank then 1 else old(y[k])
      decreases eq.Length - offset, 1
    {
      FillStep(table, rank, eq[..], x[..], y[..], offset);
      Fill(eq, x, y, offset + 1, tab);
    }

    /** A forced position: enumerate the rest with it at (0, 0), then at (1, 1). */
    method FillForced(eq: array<bool>, x: array<int>, y: array<int>, offset: nat, tab: array<int>)
      requires Valid() && x != y && x != tab && y != tab && tab.Length == 2
      requires x.Length == eq.Length && y.Length == eq.Length && offset < eq.Length
      requires offset != eq.Length - rank && eq[offset]
      modifies x, y, tab
      ensures tab[0] == old(tab[0]) + FillTally(table, rank, eq[..], old(x[..]), old(y[..]), offset).0
      ensures tab[1] == old(tab[1]) + FillTally(table, rank, eq[..], old(x[..]), old(y[..]), offset).1
      ensures forall k :: 0 <= k < eq.Length ==> x[k] == if offset <= k && eq[k] && k != eq.Length - rank then 1 else old(x[k])
      ensures forall k :: 0 <= k < eq.Length ==> y[k] == if offset <= k && eq[k] && k != eq.Length - rank then 1 else old(y[k])
      decreases eq.Length - offset, 1
    {
      ghost var f, e, x0, y0 := table, eq[..], x[..], y[..];
      FillStep(f, rank, e, x0, y0, offset);
      FillBranch(eq, x, y, offset, 0, tab);
      ghost var x1, y1 := x[..], y[..];
      FillBranch(eq, x, y, offset, 1, tab);
      FillFrame(f, rank, e, x1[offset := 1], y1[offset := 1], x0[offset := 1], y0[offset := 1], offset + 1);
    }

    /** The stanza `fill` repeats for the values 0 and 1 at a forced position:
        set it in both vectors and enumerate the positions after it. */
    method FillBranch(eq: array<bool>, x: array<int>, y: array<int>, offset: nat, v: int, tab: array<int>)
      requires Valid() && x != y && x != tab && y != tab && tab.Length == 2
      requires x.Length == eq.Length && y.Length == eq.Length && offset < eq.Length
      modifies x, y, tab
      ensures tab[0] == old(tab[0]) + FillTally(table, rank, eq[..], old(x[..])[offset := v], old(y[..])[offset := v], offset + 1).0
      ensures tab[1] == old(tab[1]) + FillTally(table, rank, eq[..], old(x[..])[offset := v], old(y[..])[offset := v], offset + 1).1
      ensures forall k :: 0 <= k < eq.Length ==> x[k] == if offset < k && eq[k] && k != eq.Length - rank then 1 else if k == offset then v else old(x[k])
      ensures forall k :: 0 <= k < eq.Length ==> y[k] == if offset < k && eq[k] && k != eq.Length - rank then 1 else if k == offset then v else old(y[k])
      decreases eq.Length - offset, 0
    {
      x[offset] := v;
      y[offset] := v;
      Fill(eq, x, y, offset + 1, tab);
    }

    /** `family(eq, xBuffer, yBuffer, offset)`: explores the differing positions
        from `offset` on, stopping at the first unbalanced family. Positions it
        reads before writing are left as they were. */
    method Family(eq: array<bool>, x: array<int>, y: array<int>, offset: nat) returns (r: bool)
      requires Valid() && x != y && x.Length == eq.Length && y.Length == eq.Length && offset <= eq.Length
      modifies x, y
      ensures r == FamilyOK(table, rank, eq[..], old(x[..]), old(y[..]), offset)
      ensures forall k :: 0 <= k < eq.Length && Kept(eq[..], rank, offset, k) ==> x[k] == old(x[k]) && y[k] == old(y[k])
      decreases eq.Length - offset
    {
      ghost var f, e, x0, y0 := table, eq[..], x[..], y[..];
      if offset == eq.Length {
        var tab := new int[2](_ => 0);
        Fill(eq, x, y, 0, tab);
        return tab[0] == tab[1];
      }
      if eq[offset] {
        r := Family(eq, x, y, offset + 1);
        return;
      }
      x[offset] := 0;
      y[offset] := 1;
      r := Family(eq, x, y, offset + 1);
      if !r {
        return false;
      }
      x[offset] := 1;
      y[offset] := 0;
      FamilyFrame(f, rank, e, x[..], y[..], x0[offset := 1], y0[offset := 0], offset + 1);
      r := Family(eq, x, y, offset + 1);
    }

    /** The buffers `goodFamily` allocates for (len, i): eq holds the bits of
        i and then `rank` trues, x is all 0 and y is all 0 but y[len] == 1. */
    method Buffers(len: nat, i: nat) returns (eq: array<bool>, x: array<int>, y: array<int>)
      requires Valid() && len < rank
      ensures fresh(eq) && fresh(x) && fresh(y) && x != y
      ensures eq[..] == Pattern(len, i, rank)
      ensures x[..] == Zeros(len + rank) && y[..] == Zeros(len + rank)[len := 1]
    {
      eq := new bool[len + rank];
      x := new int[len + rank](_ => 0);
      y := new int[len + rank](_ => 0);
      var j := 0;
      while j < len
        modifies eq
        invariant 0 <= j <= len
        invariant forall k :: 0 <= k < j ==> eq[k] == NatBit(i, k)
      {
        eq[j] := NatBit(i, j);
        j := j + 1;
      }
      while j < len + rank
        modifies eq
        invariant len <= j <= len + rank
        invariant forall k :: 0 <= k < len ==> eq[k] == NatBit(i, k)
        invariant forall k :: len <= k < j ==> eq[k]
      {
        eq[j] := true;
        j := j + 1;
      }
      y[len] := 1;
      assert eq[..] == Pattern(len, i, rank);
      assert x[..] == Zeros(len + rank);
      assert y[..] == Zeros(len + rank)[len := 1];
    }

    /** `goodFamily()`: the block function is (rank-2, rank)-strongly
        2-uncorrelated, checked pattern by pattern. */
    method GoodFamily() returns (r: bool)
      requires Valid()
      ensures r == GoodFamilySpec(table, rank)
    {
      var len := 0;
      while len < rank
        invariant 0 <= len <= rank
        invariant forall l: nat, i: nat :: l < len && i < Pow(2, l) ==> GoodPattern(table, rank, l, i)
      {
        var i := 0;
        while i < Pow(2, len)
          invariant 0 <= i
          invariant forall l: nat, i': nat :: l < len && i' < Pow(2, l) ==> GoodPattern(table, rank, l, i')
          invariant forall i': nat :: i' < i ==> GoodPattern(table, rank, len, i')
        {
          var eq, x, y := Buffers(len, i);
          var ok := Family(eq, x, y, 0);
          if !ok {
            assert !GoodPattern(table, rank, len, i);
            return false;
          }
          i := i + 1;
        }
        len := len + 1;
      }
      return true;
    }

    /** The array `classes` the scans fill with u_0 .. u_{m-1}. */
    method EvalPrefix(m: nat) returns (classes: array<int>)
      requires Valid()
      ensures fresh(classes)
      ensures classes[..] == EvalSeq(table, rank, m)
    {
      classes := new int[m];
      var i := 0;
      while i < m
        invariant 0 <= i <= m
        invariant forall j :: 0 <= j < i ==> classes[j] == U(table, rank, j)
      {
        classes[i] := Eval(i);
        i := i + 1;
      }
    }

    /** `has2Correlation(Nmax, Kmin, Kmax)`. The array size 1 << m stays a
        positive int only while m <= 30, hence the bound on nmax. */
    method Has2CorrelationScan(nmax: int, kmin: nat, kmax: int) returns (r: bool)
      requires Valid() && nmax <= 31
      ensures r == Has2ScanSpec(table, rank, nmax, kmin, kmax)
    {
      var m := 2;
      while m < nmax
        invariant 2 <= m
        invariant forall m': nat :: 2 <= m' < m ==> !Has2AnyShift(EvalSeq(table, rank, Pow(2, m')), kmin, kmax)
      {
        var classes := EvalPrefix(Pow(2, m));
        var found := Has2AtLength(classes, kmin, kmax);
        if found {
          return true;
        }
        m := m + 1;
      }
      return false;
    }

    /** `has4Correlation(max, K)`. Here too 1 << n must stay a positive int. */
    method Has4CorrelationScan(max: int, kk: int) returns (r: bool)
      requires Valid() && max <= 30
      ensures r == Has4ScanSpec(table, rank, 6, max, kk)
    {
      var n := 6;
      while n <= max
        invariant 6 <= n
        invariant Has4ScanSpec(table, rank, 6, max, kk) == Has4ScanSpec(table, rank, n, max, kk)
      {
        PowAdd(2, 4, n - 4);
        PowPositive(2, n - 4);
        var classes := EvalPrefix(Pow(2, n));
        var found := Has4AtLength(classes, kk);
        if found {
          return true;
        }
        n := n + 1;
      }
      return false;
    }

    /** The shift loop of `countGoodFunctions` for a good block function:
        every shift the guard admits must turn the parameter into one that
        shows a witness of 4-correlation. */
    method CheckShifts() returns (ok: bool)
      requires Valid()
      modifies this
      ensures Valid() && rank == old(rank) && mask == old(mask)
      ensures ok == ShiftsCorrelated(old(parameter), rank, 32)
      ensures ok ==> parameter == old(parameter) && table == old(table)
    {
      ghost var w0, t0 := parameter, table;
      var k := 0;
      while k < |Shifts|
        invariant 0 <= k <= 32
        invariant parameter == w0 && table == t0 && rank == old(rank) && mask == old(mask)
        invariant ShiftsCorrelated(w0, rank, k)
      {
        var passed := ShiftStanza(k);
        if !passed {
          return false;
        }
        ShiftsCorrelatedStep(w0, rank, k);
        k := k + 1;
      }
      return true;
    }

    /** The loop body for shift k: the guard, then the stanza it guards. */
    method ShiftStanza(k: nat) returns (passed: bool)
      requires Valid() && k < 32
      modifies this
      ensures Valid() && rank == old(rank) && mask == old(mask)
      ensures passed == ShiftCorrelated(old(parameter), rank, k)
      ensures passed ==> parameter == old(parameter) && table == old(table)
    {
      passed := true;
      ShiftsAdmittedAsWritten(rank, mask, k);
      if ShiftTestedAsWritten(Shifts[k], mask) {
        passed := ShiftedCorrelated(k);
      }
    }

    /** The guarded stanza of the shift loop: XOR shift k into the parameter,
        look for a witness of 4-correlation, and XOR it out again if found. */
    method ShiftedCorrelated(k: nat) returns (correlated: bool)
      requires Valid() && k < 32
      modifies this
      ensures Valid() && rank == old(rank) && mask == old(mask)
      ensures correlated == Has4ScanSpec(Table(old(parameter) ^ ShiftWords[k]), rank, 6, 10, 7)
      ensures correlated ==> parameter == old(parameter) && table == old(table)
    {
      ghost var w0, t0 := parameter, table;
      parameter := parameter ^ ShiftWords[k];
      table := Table(parameter);
      TableTabulates(parameter);
      correlated := Has4CorrelationScan(10, 7);
      if correlated {
        parameter := parameter ^ ShiftWords[k];
        XorTwice(w0, ShiftWords[k]);
        table := t0;
      }
    }

    /** One pass of the loop body of `countGoodFunctions`: the verdict on the
        current parameter. */
    method ClassifyCurrent() returns (v: Outcome<bool>)
      requires Valid()
      modifies this
      ensures rank == old(rank) && mask == old(mask)
      ensures v == Verdict(rank, old(parameter))
    {
      ghost var w := parameter;
      TabulatesUnique(parameter, table);
      var isGood := GoodFamily();
      if isGood {
        var ok := CheckShifts();
        v := if ok then Completed(true) else ClassificationProblem(Uncorrelated4Message);
      } else {
        var correlated := Has2CorrelationScan(15, 1, 8);
        if !correlated {
          correlated := Has2CorrelationScan(15, 8, 18);
        }
        v := if correlated then Completed(false) else ClassificationProblem(Correlated2Message);
      }
    }

    /** The first statement of the loop body: `parameter = getParameter(p)`,
        with the table of the new parameter. */
    method Load(p: nat)
      requires 2 <= rank <= 5 && mask == Pow(2, rank) - 1 && p < 0x400_0000
      modifies this
      ensures Valid() && rank == old(rank) && mask == old(mask)
      ensures parameter == GetParameter(p as bv64)
    {
      parameter := GetParameter(p as bv64);
      table := Table(parameter);
      TableTabulates(parameter);
    }

    /** `countGoodFunctions(r)`: classifies every candidate of rank r and
        returns the number of good ones times 2^r, or the source's exception. */
    method CountGoodFunctions(r: int) returns (res: Outcome<int>)
      requires 2 <= r <= 5
      modifies this
      ensures rank == r && mask == Pow(2, r) - 1
      ensures res == GoodFunctionsOutcome(r)
    {
      var good := 0;
      rank := r;
      mask := Pow(2, rank) - 1;
      PowTwoRank(rank);
      var max := Pow(2, mask - rank);
      assert max == CandidateCount(r);
      ghost var vs := Verdicts(r, Candidates(max));
      var p := 0;
      while p < max
        invariant 0 <= p <= max && rank == r && mask == Pow(2, r) - 1
        invariant CountFrom(vs[p..], good, Pow(2, r)) == CountFrom(vs, 0, Pow(2, r))
      {
        Load(p);
        var v := ClassifyCurrent();
        CandidateVerdict(r, max, p);
        CountFromStep(vs, p, good, Pow(2, r));
        if v.ClassificationProblem? {
          return ClassificationProblem(v.message);
        }
        if v.value {
          good := good + 1;
        }
        p := p + 1;
      }
      return Completed(good * Pow(2, r));
    }
  }
}
