/** The rank-5 case. A block function of rank 3 over the alphabet {0, 1, 2}
    splits into a high part H, given by its values on tuples (a, b, c) with
    a != 0 (the 18 entries of FUNCTION), and a low part L, given by its values
    on tuples starting with 0 (the 9 entries of LOWFUNCTION). h_n and l_n are
    the terms they generate. For every high part, the search looks for a
    3-correlation witness among the shifts (0, 9a, 9b); failing that, for
    every low part, among the shifts (0, a, b) of h + l. */
module Case5 {
  import opened Arith
  import opened Odometer
  import opened Tally
  import opened Outcomes

  /** The number of terms the tables cover: the integers with 8 base-9 digits
      stored, all below 9^4. */
  const NTerms := 6561

  /** A cap of 2 on every entry: FUNCTION and LOWFUNCTION are plain base-3 counters. */
  function Twos(k: nat): (s: seq<int>)
    ensures |s| == k && ValidCaps(s)
    ensures forall i :: 0 <= i < k ==> s[i] == 2
  {
    seq(k, _ => 2)
  }

  lemma TwosAreDigits(p: seq<int>)
    ensures WithinCaps(p, Twos(|p|)) <==> IsDigits(p, 3)
  {
  }

  // ---------------------------------------------------------------------------
  // The block function and the tables derived from it

  /** A table of the high part: 18 base-3 digits. */
  predicate HighTable(fn: seq<int>)
  {
    |fn| == 18 && IsDigits(fn, 3)
  }

  /** A table of the low part: 9 base-3 digits. */
  predicate LowTable(lf: seq<int>)
  {
    |lf| == 9 && IsDigits(lf, 3)
  }

  /** `eval(a, b, c)`: the high part on (a, b, c), read from entry
      9 (a - 1) + 3 b + c of FUNCTION; 0 when a == 0. */
  function HighBlock(fn: seq<int>, a: int, b: int, c: int): (r: int)
    requires HighTable(fn) && 0 <= a < 3 && 0 <= b < 3 && 0 <= c < 3
    ensures 0 <= r <= 2
    ensures a == 0 ==> r == 0
    ensures a != 0 ==> 0 <= 9 * (a - 1) + 3 * b + c < 18 && r == fn[9 * (a - 1) + 3 * b + c]
  {
    if a == 0 then 0 else fn[9 * (a - 1) + 3 * b + c]
  }

  /** The entry FASTFUNCTION[x][y]: the base-9 digits x and y stand for the
      base-3 digits (x % 3, x / 3, y % 3, y / 3), and the entry is H summed
      over the two windows of three among them. */
  function FastEntry(fn: seq<int>, x: int, y: int): (r: int)
    requires HighTable(fn) && 0 <= x < 9 && 0 <= y < 9
    ensures 0 <= r <= 4
  {
    HighBlock(fn, x % 3, x / 3, y % 3) + HighBlock(fn, x / 3, y % 3, y / 3)
  }

  /** `initFastFunction` stores eval(a, b, c) + eval(b, c, d) at [a + 3 b][c + 3 d]. */
  lemma FastEntryOfDigits(fn: seq<int>, a: int, b: int, c: int, d: int)
    requires HighTable(fn) && 0 <= a < 3 && 0 <= b < 3 && 0 <= c < 3 && 0 <= d < 3
    ensures 0 <= a + 3 * b < 9 && 0 <= c + 3 * d < 9
    ensures FastEntry(fn, a + 3 * b, c + 3 * d) == HighBlock(fn, a, b, c) + HighBlock(fn, b, c, d)
  {
    DivModUnique(a + 3 * b, 3, b, a);
    DivModUnique(c + 3 * d, 3, d, c);
  }

  // ---------------------------------------------------------------------------
  // The terms h_n and l_n

  /** FASTFUNCTION summed over the first i pairs of consecutive base-9 digits of s. */
  function PairSum(fn: seq<int>, s: seq<int>, i: nat): (r: int)
    requires HighTable(fn) && IsDigits(s, 9) && i < |s|
    ensures 0 <= r <= 4 * i
  {
    if i == 0 then 0 else PairSum(fn, s, i - 1) + FastEntry(fn, s[i - 1], s[i])
  }

  /** `high(n)`: FASTFUNCTION over the 7 pairs of consecutive stored base-9
      digits of n, mod 3. */
  function HighTerm(fn: seq<int>, n: nat): (r: int)
    requires HighTable(fn)
    ensures 0 <= r < 3
  {
    PairSum(fn, ToDigits(n, 9, 8), 7) % 3
  }

  /** `low(n)`: with the base-9 digits d0, d1 of n, 0 unless 3 divides d0, and
      otherwise LOWFUNCTION at 3 (d0 / 3) + d1 % 3 plus LOWFUNCTION at d0 / 3. */
  function LowTerm(lf: seq<int>, n: nat): (r: int)
    requires LowTable(lf)
    ensures 0 <= r <= 4
  {
    var d := ToDigits(n, 9, 8);
    if d[0] % 3 == 0 then lf[3 * (d[0] / 3) + d[1] % 3] + lf[d[0] / 3] else 0
  }

  /** The base-3 digits that a sequence of base-9 digits stands for, two per digit. */
  function Expand(s: seq<int>): (t: seq<int>)
    requires IsDigits(s, 9)
    ensures |t| == 2 * |s| && IsDigits(t, 3)
  {
    if s == [] then [] else [s[0] % 3, s[0] / 3] + Expand(s[1..])
  }

  lemma {:induction false} ExpandAt(s: seq<int>, k: nat)
    requires IsDigits(s, 9) && k < |s|
    ensures Expand(s)[2 * k] == s[k] % 3 && Expand(s)[2 * k + 1] == s[k] / 3
  {
    if k > 0 {
      ExpandAt(s[1..], k - 1);
    }
  }

  /** H summed over the windows of three consecutive base-3 digits of t that
      start before position j. */
  function WindowSum(fn: seq<int>, t: seq<int>, j: nat): (r: int)
    requires HighTable(fn) && IsDigits(t, 3) && j + 2 <= |t|
    ensures 0 <= r <= 2 * j
  {
    if j == 0 then 0 else WindowSum(fn, t, j - 1) + HighBlock(fn, t[j - 1], t[j], t[j + 1])
  }

  /** The FASTFUNCTION shortcut is the window sum: the i pairs of base-9
      digits cover the 2 i windows of three base-3 digits. */
  lemma {:induction false} PairSumIsWindowSum(fn: seq<int>, s: seq<int>, i: nat)
    requires HighTable(fn) && IsDigits(s, 9) && i < |s|
    ensures PairSum(fn, s, i) == WindowSum(fn, Expand(s), 2 * i)
  {
    if i > 0 {
      PairSumIsWindowSum(fn, s, i - 1);
      ExpandAt(s, i - 1);
      ExpandAt(s, i);
    }
  }

  /** The base-3 digits of n, two for each of its base-9 digits. */
  lemma {:induction false} ExpandDigits(n: nat, k: nat)
    ensures Expand(ToDigits(n, 9, k)) == ToDigits(n, 3, 2 * k)
  {
    if k > 0 {
      ExpandDigits(n / 9, k - 1);
      var q, r := n / 9, n % 9;
      DivModUnique(n, 3, 3 * q + r / 3, r % 3);
      DivModUnique(3 * q + r / 3, 3, q, r / 3);
      assert ToDigits(n, 3, 2 * k) == [n % 3] + ([(n / 3) % 3] + ToDigits(n / 3 / 3, 3, 2 * k - 2));
    }
  }

  /** h_n is the high part summed over the 14 windows of three consecutive
      digits among the 16 stored base-3 digits of n, mod 3. */
  lemma HighIsWindowSum(fn: seq<int>, n: nat)
    requires HighTable(fn)
    ensures HighTerm(fn, n) == WindowSum(fn, ToDigits(n, 3, 16), 14) % 3
  {
    PairSumIsWindowSum(fn, ToDigits(n, 9, 8), 7);
    ExpandDigits(n, 8);
  }

  /** h_0 == 0: every window of the zero expansion starts with 0. */
  lemma {:induction false} HighOfZero(fn: seq<int>)
    requires HighTable(fn)
    ensures HighTerm(fn, 0) == 0
  {
    var z := ToDigits(0, 9, 8);
    forall i | 0 <= i < 8
      ensures z[i] == 0
    {
      ToDigitsAt(0, 9, 8, i);
    }
    PairSumOfZeros(fn, z, 7);
  }

  lemma {:induction false} PairSumOfZeros(fn: seq<int>, s: seq<int>, i: nat)
    requires HighTable(fn) && IsDigits(s, 9) && i < |s|
    requires forall k :: 0 <= k <= i ==> s[k] == 0
    ensures PairSum(fn, s, i) == 0
  {
    if i > 0 {
      PairSumOfZeros(fn, s, i - 1);
    }
  }

  /** l_n vanishes unless 3 divides n: the least base-9 digit of n is n % 9,
      and n % 9 and n have the same residue mod 3. */
  lemma LowVanishes(lf: seq<int>, n: nat)
    requires LowTable(lf)
    ensures n % 3 != 0 ==> LowTerm(lf, n) == 0
  {
    var q, r := n / 9, n % 9;
    DivModUnique(n, 3, 3 * q + r / 3, r % 3);
  }

  // ---------------------------------------------------------------------------
  // The 3-correlation scan

  /** Java's `%`: the remainder takes the sign of the dividend. */
  function JavaRem(x: int, d: int): (r: int)
    requires d > 0
    ensures -d < r < d
    ensures x >= 0 ==> r == x % d
  {
    if x >= 0 then x % d else -((-x) % d)
  }

  /** The terms the scan compares: h_n, plus l_n when the low part counts. */
  function Combined(rs: seq<int>, ls: seq<int>, low: bool): (ts: seq<int>)
    requires |rs| == |ls|
    ensures |ts| == |rs|
    ensures forall i :: 0 <= i < |ts| ==> ts[i] == rs[i] + (if low then ls[i] else 0)
  {
    seq(|rs|, i requires 0 <= i < |rs| => rs[i] + (if low then ls[i] else 0))
  }

  /** The cell (u, v) index i falls in under the shifts (0, a, b): the
      differences of the terms at i + a and at i + b from the one at i, plus
      6, under Java's remainder by 3. */
  function Cell(ts: seq<int>, a: nat, b: nat, i: nat): (int, int)
    requires a < b && i + b < |ts|
  {
    (JavaRem(ts[i + a] - ts[i] + 6, 3), JavaRem(ts[i + b] - ts[i] + 6, 3))
  }

  /** Terms of the sizes the tables hold: h_n in 0..2 and l_n in 0..4. */
  predicate SmallTerms(ts: seq<int>)
  {
    forall i :: 0 <= i < |ts| ==> 0 <= ts[i] <= 6
  }

  /** With such terms the dividend is never negative, so both residues are in 0..2. */
  lemma CellInRange(ts: seq<int>, a: nat, b: nat, i: nat)
    requires a < b && i + b < |ts| && SmallTerms(ts)
    ensures var c := Cell(ts, a, b, i); 0 <= c.0 < 3 && 0 <= c.1 < 3
    ensures Cell(ts, a, b, i) == ((ts[i + a] - ts[i] + 6) % 3, (ts[i + b] - ts[i] + 6) % 3)
  {
  }

  /** How many i < upto with i and i + b in one block of `size` fall in cell (u, v). */
  function CellCount(ts: seq<int>, a: nat, b: nat, size: nat, u: int, v: int, upto: nat): (r: nat)
    requires a < b && (upto == 0 || upto + b <= |ts|)
    ensures r <= upto
  {
    if upto == 0 then 0
    else
      var i := upto - 1;
      CellCount(ts, a, b, size, u, v, i) + (if SameBlock(i, b, size) && Cell(ts, a, b, i) == (u, v) then 1 else 0)
  }

  /** The tallies only grow as the scan goes on. */
  lemma {:induction false} CellCountMonotone(ts: seq<int>, a: nat, b: nat, size: nat, u: int, v: int, i: nat, j: nat)
    requires a < b && i <= j && (j == 0 || j + b <= |ts|)
    ensures CellCount(ts, a, b, size, u, v, i) <= CellCount(ts, a, b, size, u, v, j)
    decreases j - i
  {
    if i < j {
      CellCountMonotone(ts, a, b, size, u, v, i, j - 1);
    }
  }

  /** `has3Correlation(a, b, m, low)` returns true: over the first m terms,
      cut into blocks of m / 9, no cell holds more than m / 9 in-block
      indices. The name of the source's method says the opposite: it returns
      false when it has found a witness. */
  predicate Spread(ts: seq<int>, a: nat, b: nat, m: nat)
    requires 9 <= m <= |ts| && a < b
  {
    forall u, v :: 0 <= u < 3 && 0 <= v < 3 ==> CellCount(ts, a, b, m / 9, u, v, Span(m, b)) <= m / 9
  }

  /** With fewer than b terms there is no index to tally, and no witness. */
  lemma SpreadWhenShort(ts: seq<int>, a: nat, b: nat, m: nat)
    requires 9 <= m <= |ts| && a < b && m <= b
    ensures Spread(ts, a, b, m)
  {
  }

  /** The shifts (0, k a, k b): k is 9 on the high part alone and 1 with the low part. */
  predicate SpreadScaled(ts: seq<int>, k: nat, a: nat, b: nat, m: nat)
    requires 9 <= m <= |ts| && a < b
  {
    MulStrict(k, a, b);
    k == 0 || Spread(ts, k * a, k * b, m)
  }

  lemma MulStrict(k: nat, a: nat, b: nat)
    requires a < b
    ensures k * a <= k * b && (k > 0 ==> k * a < k * b)
  {
    if k > 0 {
      MulBound(k, b - a);
    }
  }

  /** `has3Correlation(v, m, low)` returns true: some 1 <= a < b < v makes the
      scan of the shifts (0, k a, k b) find a witness. */
  predicate Witness(ts: seq<int>, k: nat, w: int, m: nat)
    requires 9 <= m <= |ts|
  {
    exists a: nat, b: nat {:trigger SpreadScaled(ts, k, a, b, m)} :: 1 <= a < b < w && !SpreadScaled(ts, k, a, b, m)
  }

  /** The first m terms h_n, and the first m terms h_n + l_n. */
  function HighSeq(fn: seq<int>, m: nat): (s: seq<int>)
    requires HighTable(fn)
    ensures |s| == m && SmallTerms(s)
  {
    seq(m, i requires 0 <= i < m => HighTerm(fn, i))
  }

  function LowSeq(lf: seq<int>, m: nat): (s: seq<int>)
    requires LowTable(lf)
    ensures |s| == m
  {
    seq(m, i requires 0 <= i < m => LowTerm(lf, i))
  }

  function MixedSeq(fn: seq<int>, lf: seq<int>, m: nat): (s: seq<int>)
    requires HighTable(fn) && LowTable(lf)
    ensures |s| == m && SmallTerms(s)
  {
    seq(m, i requires 0 <= i < m => HighTerm(fn, i) + LowTerm(lf, i))
  }

  // ---------------------------------------------------------------------------
  // The classification of one high part

  /** The three scans of the high part alone, on 729, 2187 and 6561 terms with
      the shifts (0, 9a, 9b), b < u, all find no witness. */
  predicate HighFails(fn: seq<int>, u: int)
    requires HighTable(fn)
  {
    !Witness(HighSeq(fn, 729), 9, u, 729) && !Witness(HighSeq(fn, 2187), 9, u, 2187)
    && !Witness(HighSeq(fn, NTerms), 9, u, NTerms)
  }

  /** The low parts the search visits: LOWFUNCTION[0] stays 0 throughout. */
  predicate LowCandidate(lf: seq<int>)
  {
    LowTable(lf) && lf[0] == 0
  }

  /** The three scans of h + l, on 81, 243 and 729 terms with the shifts (0, a, b), b < v, all find no witness. */
  predicate LowFails(fn: seq<int>, lf: seq<int>, v: int)
    requires HighTable(fn) && LowTable(lf)
  {
    !Witness(MixedSeq(fn, lf, 81), 1, v, 81) && !Witness(MixedSeq(fn, lf, 243), 1, v, 243)
    && !Witness(MixedSeq(fn, lf, 729), 1, v, 729)
  }

  /** `allDefect(u, v)` raises the classification problem: the high part finds
      no witness, and some low part then finds none either. */
  ghost predicate DefectProblem(fn: seq<int>, u: int, v: int)
    requires HighTable(fn)
  {
    HighFails(fn, u) && exists lf {:trigger LowFails(fn, lf, v)} :: LowCandidate(lf) && LowFails(fn, lf, v)
  }

  // ---------------------------------------------------------------------------
  // The enumerations

  /** `next()` moves FUNCTION on to the next table whose least nonzero entry
      is 1: strictly forward, skipping no such table, and reports exhaustion
      only with every entry back at 0, so the all-zero table is never yielded. */
  lemma HighEnumeration(p: seq<int>)
    requires HighTable(p)
    ensures var (more, q) := Advance(p, Twos(18));
            HighTable(q) && (more ==> q != Zeros(18) && LeastNonzero(q) == 1 && ToNat(q) > ToNat(p))
            && (!more ==> q == Zeros(18))
    ensures forall s {:trigger Canonical(s, Twos(18))} :: Canonical(s, Twos(18)) && ToNat(p) < ToNat(s)
              ==> Advance(p, Twos(18)).0 && ToNat(Advance(p, Twos(18)).1) <= ToNat(s)
  {
    var caps := Twos(18);
    TwosAreDigits(p);
    AdvanceWithinCaps(p, caps);
    AdvanceYield(p, caps);
    AdvanceExhausted(p, caps);
    var q := Advance(p, caps).1;
    TwosAreDigits(q);
    if Advance(p, caps).0 {
      assert LeastNonzero(Zeros(18)) == 0 by { LeastNonzeroOfZeros(18); }
    }
    forall s | Canonical(s, caps) && ToNat(p) < ToNat(s)
      ensures Advance(p, caps).0 && ToNat(Advance(p, caps).1) <= ToNat(s)
    {
      AdvanceLeast(p, s, caps);
    }
  }

  lemma {:induction false} LeastNonzeroOfZeros(k: nat)
    ensures LeastNonzero(Zeros(k)) == 0
  {
    if k > 0 {
      assert Zeros(k)[1..] == Zeros(k - 1);
      LeastNonzeroOfZeros(k - 1);
    }
  }

  lemma {:induction false} ToNatOfZeros(k: nat)
    ensures ToNat(Zeros(k)) == 0
  {
    if k > 0 {
      assert Zeros(k)[1..] == Zeros(k - 1);
      ToNatOfZeros(k - 1);
    }
  }

  /** After its first call, `lowNext()` counts LOWFUNCTION[1..8] up in base 3:
      strictly forward, skipping no vector, and reports exhaustion only with
      every entry back at 0. */
  lemma LowEnumeration(p: seq<int>)
    requires |p| == 8 && IsDigits(p, 3)
    ensures var (more, q) := Succ(p, Twos(8));
            IsDigits(q, 3) && (more ==> ToNat(q) > ToNat(p)) && (!more ==> q == Zeros(8))
    ensures forall s {:trigger ToNat(s)} :: |s| == 8 && IsDigits(s, 3) && ToNat(p) < ToNat(s)
              ==> Succ(p, Twos(8)).0 && ToNat(Succ(p, Twos(8)).1) <= ToNat(s)
  {
    var caps := Twos(8);
    TwosAreDigits(p);
    SuccFacts(p, caps);
    TwosAreDigits(Succ(p, caps).1);
    forall s | |s| == 8 && IsDigits(s, 3) && ToNat(p) < ToNat(s)
      ensures Succ(p, caps).0 && ToNat(Succ(p, caps).1) <= ToNat(s)
    {
      TwosAreDigits(s);
      SuccImmediate(p, s, caps);
    }
  }

  lemma SuccDigits(p: seq<int>)
    requires |p| == 8 && IsDigits(p, 3)
    ensures IsDigits(Succ(p, Twos(8)).1, 3)
  {
    TwosAreDigits(p);
    SuccFacts(p, Twos(8));
    TwosAreDigits(Succ(p, Twos(8)).1);
  }

  /** The loop of `lowNext()` after its first call: entries 1..8 of t as a
      base-3 counter, entry 0 untouched. */
  method CountUp(t: array<int>) returns (more: bool)
    requires t.Length == 9 && IsDigits(t[1..], 3)
    modifies t
    ensures t[0] == old(t[0]) && (more, t[1..]) == Succ(old(t[1..]), Twos(8))
  {
    ghost var p0 := t[..];
    var i := 1;
    while i < 9
      invariant 1 <= i <= 9 && CarriedTo(p0, i) && t[..] == Reset(p0, i)
    {
      ResetAt(p0, i);
      if t[i] == 0 || t[i] == 1 {
        t[i] := t[i] + 1;
        CountUpYield(p0, i);
        return true;
      } else {
        t[i] := 0;
        CountUpCarry(p0, i);
      }
      i := i + 1;
    }
    CountUpEnd(p0);
    return false;
  }

  /** Entries 1 .. i-1 of p were all 2. */
  predicate CarriedTo(p: seq<int>, i: nat)
  {
    |p| == 9 && 1 <= i <= 9 && IsDigits(p[1..], 3) && forall k :: 1 <= k < i ==> p[k] == 2
  }

  /** The loop state of `lowNext()` at entry i: entries 1 .. i-1 wrapped to 0. */
  function Reset(p: seq<int>, i: nat): (s: seq<int>)
    requires |p| == 9 && 1 <= i <= 9
    ensures |s| == 9
  {
    [p[0]] + Zeros(i - 1) + p[i..]
  }

  lemma ResetAt(p: seq<int>, i: nat)
    requires CarriedTo(p, i) && i < 9
    ensures Reset(p, i)[i] == p[i] && 0 <= p[i] < 3
  {
    assert p[i] == p[1..][i - 1];
  }

  lemma CountUpCarry(p: seq<int>, i: nat)
    requires CarriedTo(p, i) && i < 9 && p[i] == 2
    ensures CarriedTo(p, i + 1) && Reset(p, i)[i := 0] == Reset(p, i + 1)
  {
    assert Reset(p, i)[i := 0] == [p[0]] + Zeros(i) + p[i + 1..];
  }

  lemma CountUpYield(p: seq<int>, i: nat)
    requires CarriedTo(p, i) && i < 9 && p[i] != 2
    ensures var s := Reset(p, i)[i := p[i] + 1];
            s[0] == p[0] && (true, s[1..]) == Succ(p[1..], Twos(8))
  {
    var q := p[1..];
    assert q[i - 1] == p[i];
    SuccAt(q, Twos(8), i - 1);
    var s := Reset(p, i)[i := p[i] + 1];
    assert s[1..] == Zeros(i - 1) + [q[i - 1] + 1] + q[i..];
  }

  lemma CountUpEnd(p: seq<int>)
    requires CarriedTo(p, 9)
    ensures Reset(p, 9)[0] == p[0] && (false, Reset(p, 9)[1..]) == Succ(p[1..], Twos(8))
  {
    var q := p[1..];
    assert forall k :: 0 <= k < 8 ==> q[k] == p[k + 1];
    SuccAt(q, Twos(8), 8);
    assert Reset(p, 9)[1..] == Zeros(8);
  }

  /** One turn of the loop of `digits()`: the digit m % 9 is the next stored digit. */
  lemma DigitsStep(s: seq<nat>, i: nat, m: nat)
    requires i < |s| && s[i..] == ToDigits(m, 9, |s| - i)
    ensures s[i] == m % 9 && s[i + 1..] == ToDigits(m / 9, 9, |s| - i - 1)
  {
    assert s[i..][1..] == s[i + 1..];
  }

  /** The inner loop of `digits()`: row n of DIGITS gets the 8 base-9 digits of n. */
  method WriteRow(d: array2<int>, n: nat)
    requires n < d.Length0 && d.Length1 == 8
    modifies d
    ensures forall i :: 0 <= i < 8 ==> d[n, i] == ToDigits(n, 9, 8)[i]
    ensures forall r, i :: 0 <= r < d.Length0 && 0 <= i < 8 && r != n ==> d[r, i] == old(d[r, i])
  {
    ghost var s := ToDigits(n, 9, 8);
    assert |s| == 8;
    var m: nat := n;
    var i := 0;
    while i < 8
      invariant 0 <= i <= 8 && s[i..] == ToDigits(m, 9, |s| - i)
      invariant forall j :: 0 <= j < i ==> d[n, j] == s[j]
      invariant forall r, j :: 0 <= r < d.Length0 && 0 <= j < 8 && r != n ==> d[r, j] == old(d[r, j])
    {
      DigitsStep(s, i, m);
      d[n, i] := m % 9;
      m := m / 9;
      i := i + 1;
    }
  }

  /** The stored digits are those of n: below 9, and n is their value in base 9. */
  lemma DigitsRoundTrip(n: nat)
    requires n < NTerms
    ensures IsDigits(ToDigits(n, 9, 8), 9) && FromDigits(ToDigits(n, 9, 8), 9) == n
  {
    PowAdd(9, 4, 4);
    assert Pow(9, 4) == NTerms;
    FromToDigitsExact(n, 9, 8);
  }

  /** The cells `initFastFunction` has written once its loops reach (a, b, c, d):
      those whose digits (x % 3, x / 3, y % 3, y / 3) come first in
      lexicographic order. */
  ghost predicate Before(x: int, y: int, a: int, b: int, c: int, d: int)
  {
    x % 3 < a || (x % 3 == a && (x / 3 < b || (x / 3 == b && (y % 3 < c || (y % 3 == c && y / 3 < d)))))
  }

  lemma BeforeStep(x: int, y: int, a: int, b: int, c: int, d: int)
    requires 0 <= x < 9 && 0 <= y < 9 && 0 <= a < 3 && 0 <= b < 3 && 0 <= c < 3 && 0 <= d < 3
    ensures Before(x, y, a, b, c, d + 1) <==> Before(x, y, a, b, c, d) || (x == a + 3 * b && y == c + 3 * d)
  {
    DivModUnique(a + 3 * b, 3, b, a);
    DivModUnique(c + 3 * d, 3, d, c);
    DivModUnique(x, 3, x / 3, x % 3);
    DivModUnique(y, 3, y / 3, y % 3);
  }

  /** classes[u, v] holds the tally of cell (u, v) over the indices below i. */
  ghost predicate Tallied(classes: array2<int>, ts: seq<int>, a: int, b: int, size: nat, i: nat)
    reads classes
  {
    classes.Length0 == 3 && classes.Length1 == 3 && 0 <= a < b && (i == 0 || i + b <= |ts|)
    && forall u, v :: 0 <= u < 3 && 0 <= v < 3 ==> classes[u, v] == CellCount(ts, a, b, size, u, v, i)
  }

  /** `classes[u][v]++` for an index i in one block with i + b. */
  method Bump(classes: array2<int>, ghost ts: seq<int>, a: int, b: int, size: nat, i: nat, u: int, v: int)
    requires Tallied(classes, ts, a, b, size, i) && i + b < |ts|
    requires SameBlock(i, b, size) && Cell(ts, a, b, i) == (u, v) && 0 <= u < 3 && 0 <= v < 3
    modifies classes
    ensures Tallied(classes, ts, a, b, size, i + 1)
    ensures classes[u, v] == old(classes[u, v]) + 1
    ensures forall u', v' :: 0 <= u' < 3 && 0 <= v' < 3 && (u', v') != (u, v) ==> classes[u', v'] == old(classes[u', v'])
    ensures old(Within(classes, size)) && classes[u, v] <= size ==> Within(classes, size)
  {
    classes[u, v] := classes[u, v] + 1;
  }

  /** An index whose pair crosses a block boundary leaves every tally as it is. */
  lemma NoBump(classes: array2<int>, ts: seq<int>, a: int, b: int, size: nat, i: nat)
    requires Tallied(classes, ts, a, b, size, i) && i + b < |ts| && !SameBlock(i, b, size)
    ensures Tallied(classes, ts, a, b, size, i + 1)
  {
  }

  /** The residues u and v of index i, as the source computes them from
      RESULT and LOWRESULT. */
  method ReadCell(rs: array<int>, ls: array<int>, ghost ts: seq<int>, a: int, b: int, m: int, low: bool, i: int)
    returns (u: int, v: int)
    requires 0 <= a < b && m <= rs.Length && m <= ls.Length && 0 <= i && i + b < m
    requires ts == Combined(rs[..m], ls[..m], low) && SmallTerms(ts)
    ensures (u, v) == Cell(ts, a, b, i) && 0 <= u < 3 && 0 <= v < 3
  {
    u := JavaRem(rs[i + a] - rs[i] + (if low then ls[i + a] - ls[i] else 0) + 6, 3);
    v := JavaRem(rs[i + b] - rs[i] + (if low then ls[i + b] - ls[i] else 0) + 6, 3);
    assert ts[i] == rs[i] + (if low then ls[i] else 0);
    assert ts[i + a] == rs[i + a] + (if low then ls[i + a] else 0);
    assert ts[i + b] == rs[i + b] + (if low then ls[i + b] else 0);
    CellInRange(ts, a, b, i);
  }

  /** No tally above the bound. */
  ghost predicate Within(classes: array2<int>, size: nat)
    reads classes
  {
    classes.Length0 == 3 && classes.Length1 == 3
    && forall u, v :: 0 <= u < 3 && 0 <= v < 3 ==> classes[u, v] <= size
  }

  /** One index of the loop of `has3Correlation(a, b, m, low)`: tally index i
      when i and i + b lie in one block, and report whether a cell went
      above m / 9, in which case the whole scan has that cell above m / 9. */
  method ScanStep(rs: array<int>, ls: array<int>, ghost ts: seq<int>, a: int, b: int, m: int, low: bool,
                  classes: array2<int>, size: int, i: int)
    returns (over: bool, ghost u: int, ghost v: int)
    requires 0 <= a < b && 9 <= m <= rs.Length && m <= ls.Length && size == m / 9
    requires ts == Combined(rs[..m], ls[..m], low) && SmallTerms(ts)
    requires 0 <= i < m - b && Tallied(classes, ts, a, b, size, i) && Within(classes, size)
    modifies classes
    ensures over ==> 0 <= u < 3 && 0 <= v < 3 && CellCount(ts, a, b, size, u, v, Span(m, b)) > size
    ensures !over ==> Tallied(classes, ts, a, b, size, i + 1) && Within(classes, size)
  {
    if i / size == (i + b) / size {
      var x, y := ReadCell(rs, ls, ts, a, b, m, low, i);
      over := TallyCell(classes, ts, a, b, m, size, i, x, y);
      return over, x, y;
    } else {
      NoBump(classes, ts, a, b, size, i);
      return false, 0, 0;
    }
  }

  /** `classes[u][v]++` for an index i whose pair lies in one block, and
      whether that cell went above m / 9. */
  method TallyCell(classes: array2<int>, ghost ts: seq<int>, a: int, b: int, m: int, size: nat, i: nat, u: int, v: int)
    returns (over: bool)
    requires 0 <= a < b && 9 <= m <= |ts| && i + b < m
    requires Tallied(classes, ts, a, b, size, i) && Within(classes, size)
    requires SameBlock(i, b, size) && Cell(ts, a, b, i) == (u, v) && 0 <= u < 3 && 0 <= v < 3
    modifies classes
    ensures over ==> CellCount(ts, a, b, size, u, v, Span(m, b)) > size
    ensures !over ==> Tallied(classes, ts, a, b, size, i + 1) && Within(classes, size)
  {
    Bump(classes, ts, a, b, size, i, u, v);
    if classes[u, v] > size {
      CellCountMonotone(ts, a, b, size, u, v, i + 1, Span(m, b));
      return true;
    }
    return false;
  }

  /** The loop of `has3Correlation(a, b, m, low)` over the terms ts of rs and
      ls: tallies the cells of the indices i < m - b with i and i + b in one
      block of m / 9, and returns false as soon as a cell holds more than
      m / 9 of them. */
  method ScanCells(rs: array<int>, ls: array<int>, ghost ts: seq<int>, a: int, b: int, m: int, low: bool)
    returns (r: bool)
    requires 0 <= a < b && 9 <= m <= rs.Length && m <= ls.Length
    requires ts == Combined(rs[..m], ls[..m], low) && SmallTerms(ts)
    ensures r == Spread(ts, a, b, m)
  {
    var size := m / 9;
    var classes := new int[3, 3]((_, _) => 0);
    var i := 0;
    while i < m - b
      invariant 0 <= i <= Span(m, b)
      invariant Tallied(classes, ts, a, b, size, i) && Within(classes, size)
    {
      var over, u, v := ScanStep(rs, ls, ts, a, b, m, low, classes, size, i);
      if over {
        return false;
      }
      i := i + 1;
    }
    assert i == Span(m, b);
    return true;
  }

  /** The cells done at the end of a loop of `initFastFunction()` are those
      done at the start of the next turn of the enclosing loop. */
  lemma BeforeCarry(a: int, b: int, c: int)
    ensures forall x, y :: 0 <= x < 9 && 0 <= y < 9 && Before(x, y, a, b, c + 1, 0) ==> Before(x, y, a, b, c, 3)
    ensures c == 3 ==> forall x, y :: 0 <= x < 9 && 0 <= y < 9 && Before(x, y, a, b + 1, 0, 0) ==> Before(x, y, a, b, c, 0)
    ensures b == 3 && c == 3 ==> forall x, y :: 0 <= x < 9 && 0 <= y < 9 && Before(x, y, a + 1, 0, 0, 0) ==> Before(x, y, a, b, 0, 0)
  {
  }

  lemma LowCandidateSplit(l: seq<int>)
    requires |l| == 9 && l[0] == 0 && IsDigits(l[1..], 3)
    ensures LowCandidate(l)
  {
    assert forall k :: 1 <= k < 9 ==> l[k] == l[1..][k - 1];
  }

  /** The mixed terms the scans of `allDefect` see: RESULT still holds the
      6561 terms of the high part, LOWRESULT the first m terms of the low part. */
  lemma MixedOfHigh(fn: seq<int>, lf: seq<int>, m: nat)
    requires HighTable(fn) && LowTable(lf) && m <= NTerms
    ensures Combined(HighSeq(fn, NTerms)[..m], LowSeq(lf, m), true) == MixedSeq(fn, lf, m)
  {
    var hs, ls := HighSeq(fn, NTerms)[..m], LowSeq(lf, m);
    var c := Combined(hs, ls, true);
    forall i | 0 <= i < m
      ensures c[i] == MixedSeq(fn, lf, m)[i]
    {
      assert c[i] == hs[i] + ls[i];
    }
  }

  /** Writing t at index i of a sequence whose first i entries are pre. */
  lemma Overwrite(s: seq<int>, pre: seq<int>, p: seq<int>, i: nat, t: int)
    requires |pre| == i < |p| && s == (pre + p[i..])[i := t]
    ensures s == (pre + [t]) + p[i + 1..]
  {
    assert s[i + 1..] == p[i + 1..];
  }

  lemma HighSeqSnoc(fn: seq<int>, i: nat)
    requires HighTable(fn)
    ensures HighSeq(fn, i + 1) == HighSeq(fn, i) + [HighTerm(fn, i)]
  {
    var s, t := HighSeq(fn, i + 1), HighSeq(fn, i);
    forall k | 0 <= k < i
      ensures s[k] == t[k]
    {
      assert s[k] == HighTerm(fn, k) == t[k];
    }
    assert s[i] == HighTerm(fn, i);
  }

  lemma LowSeqSnoc(lf: seq<int>, i: nat)
    requires LowTable(lf)
    ensures LowSeq(lf, i + 1) == LowSeq(lf, i) + [LowTerm(lf, i)]
  {
    var s, t := LowSeq(lf, i + 1), LowSeq(lf, i);
    forall k | 0 <= k < i
      ensures s[k] == t[k]
    {
      assert s[k] == LowTerm(lf, k) == t[k];
    }
    assert s[i] == LowTerm(lf, i);
  }

  /** The shifts (0, a', b) already scanned, a' < a, together with a. */
  lemma SpreadBelow(ts: seq<int>, k: nat, a: nat, b: nat, m: nat)
    requires 9 <= m <= |ts| && 1 <= a < b
    requires forall a': nat :: 1 <= a' < a ==> SpreadScaled(ts, k, a', b, m)
    requires SpreadScaled(ts, k, a, b, m)
    ensures forall a': nat :: 1 <= a' < a + 1 ==> SpreadScaled(ts, k, a', b, m)
  {
  }

  /** The pairs (a', b') already scanned, b' < b, together with those of b. */
  lemma ShiftsBelow(ts: seq<int>, k: nat, b: nat, m: nat)
    requires 9 <= m <= |ts| && 2 <= b
    requires forall a': nat, b': nat :: 1 <= a' < b' < b ==> SpreadScaled(ts, k, a', b', m)
    requires forall a': nat :: 1 <= a' < b ==> SpreadScaled(ts, k, a', b, m)
    ensures forall a': nat, b': nat :: 1 <= a' < b' < b + 1 ==> SpreadScaled(ts, k, a', b', m)
  {
  }

  /** Every low part visited before position `bound` of the count over
      LOWFUNCTION[1..8] had one of its three scans find a witness. */
  ghost predicate LowChecked(fn: seq<int>, v: int, bound: int)
    requires HighTable(fn)
  {
    forall lf {:trigger LowFails(fn, lf, v)} :: LowCandidate(lf) && ToNat(lf[1..]) < bound ==> !LowFails(fn, lf, v)
  }

  /** No low part lies below position 0. */
  lemma LowCheckedAtZero(fn: seq<int>, v: int)
    requires HighTable(fn)
    ensures LowChecked(fn, v, 0)
  {
    forall lf | LowCandidate(lf)
      ensures ToNat(lf[1..]) >= 0
    {
      TwosAreDigits(lf[1..]);
      CappedBound(lf[1..], Twos(8));
    }
  }

  /** One turn of the loop of `allDefect` over the low parts: once the
      current part l has passed, `lowNext()` moves on to a position below which
      every part has passed, and when it reports exhaustion every part has. */
  lemma {:induction false} LowCheckedStep(fn: seq<int>, v: int, l: seq<int>, more: bool, q: seq<int>)
    requires HighTable(fn) && LowCandidate(l) && LowChecked(fn, v, ToNat(l[1..])) && !LowFails(fn, l, v)
    requires (more, q) == Succ(l[1..], Twos(8))
    ensures more ==> LowChecked(fn, v, ToNat(q)) && ToNat(l[1..]) < ToNat(q) < Pow(3, 8)
    ensures !more ==> forall lf {:trigger LowFails(fn, lf, v)} :: LowCandidate(lf) ==> !LowFails(fn, lf, v)
  {
    var p := l[1..];
    assert IsDigits(p, 3);
    LowEnumeration(p);
    forall lf | LowCandidate(lf) && (!more || ToNat(lf[1..]) < ToNat(q))
      ensures !LowFails(fn, lf, v)
    {
      var s := lf[1..];
      assert |s| == 8 && IsDigits(s, 3);
      assert ToNat(s) <= ToNat(p);
      if ToNat(s) == ToNat(p) {
        TwosAreDigits(s);
        TwosAreDigits(p);
        ToNatInjective(s, p, Twos(8));
        assert lf == [lf[0]] + s && l == [l[0]] + p;
      }
    }
    if more {
      TwosAreDigits(q);
      CappedBound(q, Twos(8));
    }
  }

  // ---------------------------------------------------------------------------
  // The static state of the search

  class Search {
    /** FUNCTION, FASTFUNCTION, LOWFUNCTION, RESULT, LOWRESULT and DIGITS. */
    const highTable: array<int>
    const fast: array2<int>
    const lowTable: array<int>
    const result: array<int>
    const lowResult: array<int>
    const digitTable: array2<int>
    var start: bool

    ghost predicate Valid()
      reads highTable, lowTable, result, lowResult
    {
      Shape() && HighTable(highTable[..]) && LowCandidate(lowTable[..]) && ResultsBounded()
    }

    /** The sizes of the arrays, and no two of them the same. */
    predicate Shape()
    {
      highTable.Length == 18 && lowTable.Length == 9 && result.Length == NTerms && lowResult.Length == NTerms
      && fast.Length0 == 9 && fast.Length1 == 9 && digitTable.Length0 == NTerms && digitTable.Length1 == 8
      && highTable != lowTable && highTable != result && highTable != lowResult
      && lowTable != result && lowTable != lowResult && result != lowResult && fast != digitTable
    }

    /** RESULT holds values of h (0..2) and LOWRESULT values of l (0..4). */
    ghost predicate ResultsBounded()
      reads result, lowResult
    {
      result.Length == NTerms && lowResult.Length == NTerms
      && (forall k :: 0 <= k < NTerms ==> 0 <= result[k] <= 2)
      && (forall k :: 0 <= k < NTerms ==> 0 <= lowResult[k] <= 4)
    }

    /** DIGITS holds the 8 base-9 digits of every n < 6561. */
    ghost predicate DigitsReady()
      reads digitTable
    {
      digitTable.Length0 == NTerms && digitTable.Length1 == 8
      && forall n, i :: 0 <= n < NTerms && 0 <= i < 8 ==> digitTable[n, i] == ToDigits(n, 9, 8)[i]
    }

    /** FASTFUNCTION holds the cells of the current high part. */
    ghost predicate FastReady()
      reads fast, highTable
    {
      fast.Length0 == 9 && fast.Length1 == 9 && HighTable(highTable[..])
      && forall x, y :: 0 <= x < 9 && 0 <= y < 9 ==> fast[x, y] == FastEntry(highTable[..], x, y)
    }

    /** The fields as the JVM initialises them. */
    constructor ()
      ensures Valid() && start
      ensures highTable[..] == Zeros(18) && lowTable[..] == Zeros(9)
      ensures fresh(highTable) && fresh(fast) && fresh(lowTable) && fresh(result) && fresh(lowResult) && fresh(digitTable)
    {
      highTable := new int[18](_ => 0);
      fast := new int[9, 9]((_, _) => 0);
      lowTable := new int[9](_ => 0);
      result := new int[NTerms](_ => 0);
      lowResult := new int[NTerms](_ => 0);
      digitTable := new int[NTerms, 8]((_, _) => 0);
      start := true;
      new;
      assert highTable[..] == Zeros(18);
      assert lowTable[..] == Zeros(9);
    }

    /** `next()`: the next high part whose least nonzero entry is 1, or false
        with every entry back at 0. */
    method Next() returns (more: bool)
      requires Valid()
      modifies highTable
      ensures Valid()
      ensures (more, highTable[..]) == Advance(old(highTable[..]), Twos(18))
      decreases Pow(3, 18) - ToNat(highTable[..])
    {
      ghost var p0 := highTable[..];
      ghost var caps := Twos(18);
      TwosAreDigits(p0);
      var i := 0;
      while i < 18
        invariant 0 <= i <= 18
        invariant forall k :: 0 <= k < i ==> p0[k] == 2
        invariant highTable[..] == Zeros(i) + p0[i..]
      {
        assert highTable[i] == p0[i];
        if highTable[i] == 0 {
          highTable[i] := 1;
          AdvanceAtYield(p0, caps, i);
          Spliced(highTable[..], p0, i, 1);
          HighEnumeration(p0);
          return true;
        } else if highTable[i] == 1 {
          highTable[i] := 2;
          AdvanceAtCarry(p0, caps, i);
          Spliced(highTable[..], p0, i, 2);
          TwosAreDigits(highTable[..]);
          more := Next();
          return;
        } else {
          highTable[i] := 0;
          Spliced(highTable[..], p0, i, 0);
        }
        i := i + 1;
      }
      AdvanceAtEnd(p0, caps);
      assert highTable[..] == Zeros(18);
      HighEnumeration(p0);
      return false;
    }

    /** `init()`: the low part back at 0, and the next `lowNext()` a first call. */
    method Init()
      requires Valid()
      modifies this, lowTable
      ensures Valid() && start && lowTable[..] == Zeros(9)
    {
      start := true;
      var i := 0;
      ghost var p0 := lowTable[..];
      while i < 9
        invariant 0 <= i <= 9 && start && lowTable[..] == Zeros(i) + p0[i..]
      {
        lowTable[i] := 0;
        Spliced(lowTable[..], p0, i, 0);
        i := i + 1;
      }
      assert lowTable[..] == Zeros(9);
    }

    /** `lowNext()`: a first call yields the low part as it stands; every
        later call increments LOWFUNCTION[1..8] as a base-3 counter and
        leaves LOWFUNCTION[0] alone. */
    method LowNext() returns (more: bool)
      requires Valid()
      modifies this, lowTable
      ensures Valid() && !start
      ensures old(start) ==> more && lowTable[..] == old(lowTable[..])
      ensures !old(start) ==> lowTable[0] == old(lowTable[0])
                              && (more, lowTable[1..]) == Succ(old(lowTable[1..]), Twos(8))
    {
      if start {
        start := false;
        return true;
      }
      ghost var q0 := lowTable[1..];
      assert IsDigits(q0, 3);
      more := CountUp(lowTable);
      SuccDigits(q0);
      LowCandidateSplit(lowTable[..]);
    }

    /** `digits()`: DIGITS[n] holds the 8 base-9 digits of n, for every n < 6561. */
    method Digits()
      requires Valid()
      modifies digitTable
      ensures Valid() && DigitsReady()
    {
      var n := 0;
      while n < NTerms
        invariant 0 <= n <= NTerms
        invariant forall n', i :: 0 <= n' < n && 0 <= i < 8 ==> digitTable[n', i] == ToDigits(n', 9, 8)[i]
      {
        WriteRow(digitTable, n);
        n := n + 1;
      }
    }

    /** `eval(a, b, c)`: the high part on (a, b, c), read from FUNCTION. */
    function Eval(a: int, b: int, c: int): (r: int)
      reads highTable
      requires highTable.Length == 18 && HighTable(highTable[..]) && 0 <= a < 3 && 0 <= b < 3 && 0 <= c < 3
      ensures r == HighBlock(highTable[..], a, b, c)
    {
      if a == 0 then 0 else highTable[9 * (a - 1) + 3 * b + c]
    }

    /** The cells of FASTFUNCTION written once the loops of
        `initFastFunction()` reach (a, b, c, d) hold their entries. */
    ghost predicate FastUpTo(a: int, b: int, c: int, d: int)
      reads fast, highTable
    {
      fast.Length0 == 9 && fast.Length1 == 9 && HighTable(highTable[..])
      && forall x, y :: 0 <= x < 9 && 0 <= y < 9 && Before(x, y, a, b, c, d) ==> fast[x, y] == FastEntry(highTable[..], x, y)
    }

    /** `initFastFunction()`: FASTFUNCTION[a + 3b][c + 3d] == eval(a, b, c) + eval(b, c, d). */
    method InitFastFunction()
      requires Valid()
      modifies fast
      ensures Valid() && FastReady()
    {
      var a := 0;
      while a < 3
        invariant 0 <= a <= 3 && FastUpTo(a, 0, 0, 0)
      {
        var b := 0;
        while b < 3
          invariant 0 <= b <= 3 && FastUpTo(a, b, 0, 0)
        {
          var c := 0;
          while c < 3
            invariant 0 <= c <= 3 && FastUpTo(a, b, c, 0)
          {
            FastCells(a, b, c);
            BeforeCarry(a, b, c);
            c := c + 1;
          }
          BeforeCarry(a, b, 3);
          b := b + 1;
        }
        BeforeCarry(a, 3, 3);
        a := a + 1;
      }
      assert forall x, y :: 0 <= x < 9 && 0 <= y < 9 ==> Before(x, y, 3, 0, 0, 0);
    }

    /** The innermost loop of `initFastFunction()`: the three cells [a + 3b][c + 3d]. */
    method FastCells(a: int, b: int, c: int)
      requires 0 <= a < 3 && 0 <= b < 3 && 0 <= c < 3 && FastUpTo(a, b, c, 0)
      modifies fast
      ensures FastUpTo(a, b, c, 3)
    {
      ghost var fn := highTable[..];
      var d := 0;
      while d < 3
        invariant 0 <= d <= 3 && FastUpTo(a, b, c, d)
      {
        FastEntryOfDigits(fn, a, b, c, d);
        fast[a + b * 3, c + d * 3] := Eval(a, b, c) + Eval(b, c, d);
        forall x, y | 0 <= x < 9 && 0 <= y < 9 && Before(x, y, a, b, c, d + 1)
          ensures fast[x, y] == FastEntry(fn, x, y)
        {
          BeforeStep(x, y, a, b, c, d);
        }
        d := d + 1;
      }
    }

    /** `high(n)`: the term h_n, read through DIGITS and FASTFUNCTION. */
    method High(n: int) returns (r: int)
      requires Valid() && DigitsReady() && FastReady() && 0 <= n < NTerms
      ensures r == HighTerm(highTable[..], n)
    {
      ghost var s := ToDigits(n, 9, 8);
      var sum := 0;
      var i := 0;
      while i < 7
        invariant 0 <= i <= 7 && sum == PairSum(highTable[..], s, i)
      {
        sum := sum + fast[digitTable[n, i], digitTable[n, i + 1]];
        i := i + 1;
      }
      return sum % 3;
    }

    /** `low(n)`: the term l_n, read through DIGITS and LOWFUNCTION. */
    function Low(n: int): (r: int)
      reads highTable, lowTable, result, lowResult, digitTable
      requires Valid() && DigitsReady() && 0 <= n < NTerms
      ensures r == LowTerm(lowTable[..], n)
    {
      var d0, d1 := digitTable[n, 0], digitTable[n, 1];
      if d0 % 3 == 0 then lowTable[3 * (d0 / 3) + d1 % 3] + lowTable[d0 / 3] else 0
    }

    /** `has3Correlation(a, b, m, low)` on RESULT and LOWRESULT. */
    method Has3CorrelationAt(a: int, b: int, m: int, low: bool) returns (r: bool)
      requires Valid() && 0 <= a < b && 9 <= m <= NTerms
      ensures r == Spread(Combined(result[..m], lowResult[..m], low), a, b, m)
    {
      ghost var ts := Combined(result[..m], lowResult[..m], low);
      assert SmallTerms(ts);
      r := ScanCells(result, lowResult, ts, a, b, m, low);
    }

    /** The first loop of `has3Correlation(v, m, low)`: LOWRESULT[i] = l_i
        (low) or RESULT[i] = h_i (high) for every i < m, the rest as it was. */
    method Refill(m: int, low: bool)
      requires Valid() && DigitsReady() && FastReady() && 0 <= m <= NTerms
      modifies result, lowResult
      ensures Valid() && DigitsReady() && FastReady()
      ensures low ==> lowResult[..] == LowSeq(lowTable[..], m) + old(lowResult[m..]) && result[..] == old(result[..])
      ensures !low ==> result[..] == HighSeq(highTable[..], m) + old(result[m..]) && lowResult[..] == old(lowResult[..])
    {
      ghost var fn, lf, r0, l0 := highTable[..], lowTable[..], result[..], lowResult[..];
      var i := 0;
      while i < m
        invariant 0 <= i <= m && Valid()
        invariant low ==> lowResult[..] == LowSeq(lf, i) + l0[i..] && result[..] == r0
        invariant !low ==> result[..] == HighSeq(fn, i) + r0[i..] && lowResult[..] == l0
      {
        if low {
          StoreLow(i, l0);
        } else {
          StoreHigh(i, r0);
        }
        i := i + 1;
      }
    }

    /** LOWRESULT[i] = low(i), after the first i entries were written. */
    method StoreLow(i: int, ghost l0: seq<int>)
      requires Valid() && DigitsReady() && 0 <= i < NTerms
      requires |l0| == NTerms && lowResult[..] == LowSeq(lowTable[..], i) + l0[i..]
      modifies lowResult
      ensures Valid() && lowResult[..] == LowSeq(lowTable[..], i + 1) + l0[i + 1..]
    {
      ghost var lf := lowTable[..];
      var t := Low(i);
      lowResult[i] := t;
      Overwrite(lowResult[..], LowSeq(lf, i), l0, i, t);
      LowSeqSnoc(lf, i);
    }

    /** RESULT[i] = high(i), after the first i entries were written. */
    method StoreHigh(i: int, ghost r0: seq<int>)
      requires Valid() && DigitsReady() && FastReady() && 0 <= i < NTerms
      requires |r0| == NTerms && result[..] == HighSeq(highTable[..], i) + r0[i..]
      modifies result
      ensures Valid() && result[..] == HighSeq(highTable[..], i + 1) + r0[i + 1..]
    {
      ghost var fn := highTable[..];
      var t := High(i);
      result[i] := t;
      Overwrite(result[..], HighSeq(fn, i), r0, i, t);
      HighSeqSnoc(fn, i);
    }

    /** The two loops of `has3Correlation(v, m, low)` over the shifts: true
        as soon as some (a, b), 1 <= a < b < v, scaled by 9 for the high part,
        shows too many indices in one cell. */
    method ScanShifts(v: int, m: int, low: bool) returns (r: bool)
      requires Valid() && 9 <= m <= NTerms
      ensures r == Witness(Combined(result[..m], lowResult[..m], low), if low then 1 else 9, v, m)
    {
      ghost var ts := Combined(result[..m], lowResult[..m], low);
      ghost var k: nat := if low then 1 else 9;
      var b := 2;
      while b < v
        invariant 2 <= b && (b <= v || b == 2)
        invariant forall a': nat, b': nat :: 1 <= a' < b' < b ==> SpreadScaled(ts, k, a', b', m)
      {
        var found, a := ScanFirst(ts, k, b, m, low);
        if found {
          assert !SpreadScaled(ts, k, a, b, m);
          return true;
        }
        ShiftsBelow(ts, k, b, m);
        b := b + 1;
      }
      return false;
    }

    /** The inner loop of `has3Correlation(v, m, low)`: the shifts (0, a, b)
        for 1 <= a < b and this b, scaled by 9 for the high part, until one
        shows too many indices in one cell. */
    method ScanFirst(ghost ts: seq<int>, ghost k: nat, b: int, m: int, low: bool) returns (found: bool, ghost a0: nat)
      requires Valid() && 9 <= m <= NTerms && 2 <= b && ts == Combined(result[..m], lowResult[..m], low)
      requires k == if low then 1 else 9
      ensures found ==> 1 <= a0 < b && !SpreadScaled(ts, k, a0, b, m)
      ensures !found ==> forall a': nat :: 1 <= a' < b ==> SpreadScaled(ts, k, a', b, m)
    {
      var a := 1;
      while a < b
        invariant 1 <= a <= b
        invariant forall a': nat :: 1 <= a' < a ==> SpreadScaled(ts, k, a', b, m)
      {
        var sa, sb := if low then a else 9 * a, if low then b else 9 * b;
        assert sa == k * a && sb == k * b;
        var spread := Has3CorrelationAt(sa, sb, m, low);
        assert spread == SpreadScaled(ts, k, a, b, m);
        if !spread {
          return true, a;
        }
        SpreadBelow(ts, k, a, b, m);
        a := a + 1;
      }
      return false, 0;
    }

    /** `has3Correlation(v, m, low)`: refill the terms, then look for a
        witness among the shifts (0, a, b), 1 <= a < b < v, scaled by 9 for
        the high part. */
    method Has3Correlation(v: int, m: int, low: bool) returns (r: bool)
      requires Valid() && DigitsReady() && FastReady() && 9 <= m <= NTerms
      modifies result, lowResult
      ensures Valid() && DigitsReady() && FastReady()
      ensures low ==> lowResult[..] == LowSeq(lowTable[..], m) + old(lowResult[m..]) && result[..] == old(result[..])
                      && r == Witness(Combined(result[..m], LowSeq(lowTable[..], m), true), 1, v, m)
      ensures !low ==> result[..] == HighSeq(highTable[..], m) + old(result[m..])
                       && r == Witness(HighSeq(highTable[..], m), 9, v, m)
    {
      Refill(m, low);
      r := ScanShifts(v, m, low);
      if low {
        assert lowResult[..m] == LowSeq(lowTable[..], m);
      } else {
        assert result[..m] == HighSeq(highTable[..], m);
        assert Combined(result[..m], lowResult[..m], false) == result[..m];
      }
    }

    /** The first condition of `allDefect(u, v)`: the three high scans, on
        729, 2187 and 6561 terms, stopping at the first that finds a witness. */
    method HighScans(u: int) returns (fails: bool)
      requires Valid() && DigitsReady() && FastReady()
      modifies result, lowResult
      ensures Valid() && DigitsReady() && FastReady()
      ensures fails == HighFails(highTable[..], u)
      ensures fails ==> result[..] == HighSeq(highTable[..], NTerms)
    {
      var w := Has3Correlation(u, 729, false);
      if w {
        return false;
      }
      w := Has3Correlation(u, 2187, false);
      if w {
        return false;
      }
      w := Has3Correlation(u, NTerms, false);
      return !w;
    }

    /** The condition inside the loop of `allDefect(u, v)`: the three scans
        of h + l, on 81, 243 and 729 terms, stopping at the first that finds a
        witness. */
    method LowScans(v: int) returns (fails: bool)
      requires Valid() && DigitsReady() && FastReady() && result[..] == HighSeq(highTable[..], NTerms)
      modifies result, lowResult
      ensures Valid() && DigitsReady() && FastReady() && result[..] == old(result[..])
      ensures fails == LowFails(highTable[..], lowTable[..], v)
    {
      ghost var fn, lf := highTable[..], lowTable[..];
      MixedOfHigh(fn, lf, 81);
      MixedOfHigh(fn, lf, 243);
      MixedOfHigh(fn, lf, 729);
      var w := Has3Correlation(v, 81, true);
      assert result[..81] == HighSeq(fn, NTerms)[..81];
      if w {
        return false;
      }
      w := Has3Correlation(v, 243, true);
      assert result[..243] == HighSeq(fn, NTerms)[..243];
      if w {
        return false;
      }
      w := Has3Correlation(v, 729, true);
      assert result[..729] == HighSeq(fn, NTerms)[..729];
      return !w;
    }

    /** One turn of the loop of `allDefect(u, v)`: the low scans of the
        current low part, then `lowNext()` when they find a witness. */
    method LowTurn(v: int, ghost fn: seq<int>) returns (problem: bool, more: bool)
      requires !start && Valid() && DigitsReady() && FastReady() && highTable[..] == fn
      requires result[..] == HighSeq(fn, NTerms) && LowChecked(fn, v, ToNat(lowTable[1..]))
      modifies this, lowTable, result, lowResult
      ensures !start && Valid() && DigitsReady() && FastReady() && result[..] == HighSeq(fn, NTerms)
      ensures problem ==> LowFails(fn, lowTable[..], v)
      ensures !problem && more ==> LowChecked(fn, v, ToNat(lowTable[1..]))
                                   && old(ToNat(lowTable[1..])) < ToNat(lowTable[1..]) < Pow(3, 8)
      ensures !problem && !more ==> forall lf {:trigger LowFails(fn, lf, v)} :: LowCandidate(lf) ==> !LowFails(fn, lf, v)
    {
      ghost var l := lowTable[..];
      problem := LowScans(v);
      if problem {
        return true, true;
      }
      more := LowNext();
      LowCheckedStep(fn, v, l, more, lowTable[1..]);
    }

    /** `allDefect(u, v)`: the classification problem is raised exactly when
        the high part finds no witness and then some low part finds none
        either. */
    method AllDefect(u: int, v: int) returns (res: Outcome<()>)
      requires Valid() && DigitsReady() && FastReady()
      modifies this, lowTable, result, lowResult
      ensures Valid() && DigitsReady() && FastReady() && highTable[..] == old(highTable[..])
      ensures res.ClassificationProblem? <==> DefectProblem(highTable[..], u, v)
    {
      ghost var fn := highTable[..];
      var high := HighScans(u);
      if !high {
        return Completed(());
      }
      Init();
      var more := LowNext();
      ToNatOfZeros(8);
      assert lowTable[1..] == Zeros(8);
      LowCheckedAtZero(fn, v);
      while more
        invariant !start && Valid() && DigitsReady() && FastReady() && highTable[..] == fn && result[..] == HighSeq(fn, NTerms)
        invariant more ==> LowChecked(fn, v, ToNat(lowTable[1..])) && ToNat(lowTable[1..]) < Pow(3, 8)
        invariant !more ==> forall lf {:trigger LowFails(fn, lf, v)} :: LowCandidate(lf) ==> !LowFails(fn, lf, v)
        decreases (if more then 1 else 0), Pow(3, 8) - ToNat(lowTable[1..])
      {
        var problem;
        problem, more := LowTurn(v, fn);
        if problem {
          return ClassificationProblem("Classification problem!");
        }
      }
      return Completed(());
    }
  }
}