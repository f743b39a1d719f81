/** Natural-number helpers shared by the three cases: powers, little-endian
    base-b digit expansions and the bit of a natural number. */
module Arith {

  function Pow(b: nat, k: nat): (r: nat)
    ensures b > 0 ==> r > 0
  {
    if k == 0 then 1 else b * Pow(b, k - 1)
  }

  lemma {:induction false} PowPositive(b: nat, k: nat)
    requires b > 0
    ensures Pow(b, k) > 0
  {
    if k > 0 {
      PowPositive(b, k - 1);
    }
  }

  lemma {:induction false} PowAdd(b: nat, j: nat, k: nat)
    ensures Pow(b, j + k) == Pow(b, j) * Pow(b, k)
  {
    if j > 0 {
      PowAdd(b, j - 1, k);
      assert Pow(b, j + k) == b * Pow(b, j - 1 + k);
    }
  }

  lemma MulBound(d: int, x: int)
    requires d > 0
    ensures x >= 1 ==> d * x >= d
    ensures x <= -1 ==> d * x <= -d
  {
  }

  /** Division and remainder are determined by any decomposition n == d * q + r with 0 <= r < d. */
  lemma DivModUnique(n: int, d: int, q: int, r: int)
    requires d > 0 && 0 <= r < d && n == d * q + r
    ensures n / d == q && n % d == r
  {
    var q', r' := n / d, n % d;
    assert n == d * q' + r';
    assert d * (q - q') == r' - r;
    MulBound(d, q - q');
  }

  /** n / (b * c) == (n / b) / c and n % (b * c) == n % b + b * ((n / b) % c). */
  lemma DivModSplit(n: nat, b: nat, c: nat)
    requires b > 0 && c > 0
    ensures n / (b * c) == (n / b) / c
    ensures n % (b * c) == n % b + b * ((n / b) % c)
  {
    var q1, r1 := n / b, n % b;
    var q2, r2 := q1 / c, q1 % c;
    MulRegroup(b, c, q2, r2);
    RemainderBound(b, c, r1, r2);
    DivModUnique(n, b * c, q2, b * r2 + r1);
  }

  lemma MulRegroup(b: int, c: int, q: int, r: int)
    ensures b * (c * q + r) == (b * c) * q + b * r
  {
  }

  lemma RemainderBound(b: int, c: int, r1: int, r2: int)
    requires 0 <= r1 < b && 0 <= r2 < c
    ensures 0 <= b * r2 + r1 < b * c
  {
    MulBound(b, c - r2);
    assert b * (c - r2) == b * c - b * r2;
    MulBound(b, r2 + 1);
  }

  /** The k least significant base-b digits of n, least significant first
      (the loop `d[i] = n % b; n /= b` of the source). */
  function ToDigits(n: nat, b: nat, k: nat): (s: seq<nat>)
    requires b > 1
    ensures |s| == k
    ensures forall i :: 0 <= i < k ==> s[i] < b
    decreases k
  {
    if k == 0 then [] else [n % b] + ToDigits(n / b, b, k - 1)
  }

  /** The value of a little-endian digit sequence. */
  function FromDigits(s: seq<int>, b: nat): int
  {
    if s == [] then 0 else s[0] + b * FromDigits(s[1..], b)
  }

  predicate IsDigits(s: seq<int>, b: nat)
  {
    forall i :: 0 <= i < |s| ==> 0 <= s[i] < b
  }

  /** Reading back k digits of n gives n modulo b^k; in particular n itself when n < b^k. */
  lemma {:induction false} FromToDigits(n: nat, b: nat, k: nat)
    requires b > 1
    decreases k
    ensures FromDigits(ToDigits(n, b, k), b) == n % Pow(b, k)
  {
    if k > 0 {
      var s := ToDigits(n, b, k);
      assert s[1..] == ToDigits(n / b, b, k - 1);
      FromToDigits(n / b, b, k - 1);
      PowPositive(b, k - 1);
      DivModSplit(n, b, Pow(b, k - 1));
    }
  }

  lemma FromToDigitsExact(n: nat, b: nat, k: nat)
    requires b > 1 && n < Pow(b, k)
    ensures FromDigits(ToDigits(n, b, k), b) == n
  {
    FromToDigits(n, b, k);
    DivModUnique(n, Pow(b, k), 0, n);
  }

  lemma DigitStep(d: int, t: int, b: int, p: int)
    requires 0 <= d < b && 0 <= t < p
    ensures 0 <= d + b * t < b * p
  {
    MulBound(b, p - t);
    assert b * (p - t) == b * p - b * t;
  }

  lemma {:induction false} FromDigitsBound(s: seq<int>, b: nat)
    requires b > 1 && IsDigits(s, b)
    ensures 0 <= FromDigits(s, b) < Pow(b, |s|)
  {
    if s != [] {
      var tail := s[1..];
      assert IsDigits(tail, b) by {
        forall i | 0 <= i < |tail| ensures 0 <= tail[i] < b {
          assert tail[i] == s[i + 1];
        }
      }
      FromDigitsBound(tail, b);
      DigitStep(s[0], FromDigits(tail, b), b, Pow(b, |tail|));
    }
  }

  /** A digit sequence is recovered from its value: the expansion is canonical. */
  lemma {:induction false} ToFromDigits(s: seq<int>, b: nat)
    requires b > 1 && IsDigits(s, b)
    ensures 0 <= FromDigits(s, b)
    ensures ToDigits(FromDigits(s, b), b, |s|) == s
  {
    if s != [] {
      var tail := s[1..];
      assert IsDigits(tail, b) by {
        forall i | 0 <= i < |tail| ensures 0 <= tail[i] < b {
          assert tail[i] == s[i + 1];
        }
      }
      ToFromDigits(tail, b);
      FromDigitsBound(tail, b);
      FromDigitsBound(s, b);
      var v, t := FromDigits(s, b), FromDigits(tail, b);
      DivModUnique(v, b, t, s[0]);
      assert ToDigits(v, b, |s|) == [s[0]] + ToDigits(t, b, |tail|);
      assert [s[0]] + tail == s;
    }
  }

  /** Digit i of n, as the i-th element of the expansion. */
  lemma ToDigitsAt(n: nat, b: nat, k: nat, i: nat)
    requires b > 1 && i < k
    ensures ToDigits(n, b, k)[i] == (n / Pow(b, i)) % b
  {
    ToDigitsSuffix(n, b, k, i);
    assert ToDigits(n, b, k)[i] == ToDigits(n, b, k)[i..][0];
  }

  /** The first j digits of a k-digit expansion are the j-digit expansion. */
  lemma {:induction false} ToDigitsPrefix(n: nat, b: nat, k: nat, j: nat)
    requires b > 1 && j <= k
    decreases k
    ensures ToDigits(n, b, k)[..j] == ToDigits(n, b, j)
  {
    if j > 0 {
      ToDigitsPrefix(n / b, b, k - 1, j - 1);
      assert ToDigits(n, b, k)[..j] == [n % b] + ToDigits(n / b, b, k - 1)[..j - 1];
    }
  }

  /** Dropping the first j digits of the expansion of n gives the expansion of n / b^j. */
  lemma {:induction false} ToDigitsSuffix(n: nat, b: nat, k: nat, j: nat)
    requires b > 1 && j <= k
    decreases k
    ensures Pow(b, j) > 0
    ensures ToDigits(n, b, k)[j..] == ToDigits(n / Pow(b, j), b, k - j)
  {
    PowPositive(b, j);
    if j > 0 {
      ToDigitsSuffix(n / b, b, k - 1, j - 1);
      PowPositive(b, j - 1);
      DivModSplit(n, b, Pow(b, j - 1));
      assert ToDigits(n, b, k)[j..] == ToDigits(n / b, b, k - 1)[j - 1..];
    }
  }

  function Zeros(k: nat): (z: seq<int>)
    ensures |z| == k && forall i :: 0 <= i < k ==> z[i] == 0
  {
    seq(k, _ => 0)
  }

  /** Bit j of n: `(n >> j) & 1` for a non-negative n. */
  function NatBit(n: nat, j: nat): bool
  {
    (n / Pow(2, j)) % 2 == 1
  }
}
