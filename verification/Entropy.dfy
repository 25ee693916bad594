/** Shannon entropy of a byte string: a 256-entry histogram, then the sum of -p log2 p, rounded to four decimals. */
module Entropy {

  type Byte = n: nat | n < 256

  function Product(x: real, y: real): real { x * y }

  /** All that is used of the base-2 logarithm: products become sums, log2 2 = 1, and the graph lies
      strictly below its tangent at 1, whose slope is `slope`. */
  ghost predicate IsLog2(log: real -> real, slope: real) {
    && (forall x, y {:trigger Product(x, y)} :: x > 0.0 && y > 0.0 ==> log(Product(x, y)) == log(x) + log(y))
    && log(2.0) == 1.0
    && slope > 0.0
    && (forall x :: x > 0.0 && x != 1.0 ==> log(x) < slope * (x - 1.0))
  }

  // ---- The computation ----

  /** The fraction of the input that a byte makes up. */
  function Share(count: nat, length: nat): (p: real)
    requires length > 0
    ensures p * length as real == count as real
  {
    count as real / length as real
  }

  function Term(count: nat, length: nat, log: real -> real): real
    requires length > 0
  {
    if count == 0 then 0.0
    else
      var p := Share(count, length);
      -(p * log(p))
  }

  function TermSum(m: multiset<Byte>, k: nat, log: real -> real): real
    requires k <= 256 && |m| > 0
  {
    if k == 0 then 0.0 else TermSum(m, k - 1, log) + Term(m[k - 1], |m|, log)
  }

  /** The entropy in bits per byte; it depends on the multiset of bytes only. */
  function Bits(m: multiset<Byte>, log: real -> real): real {
    if |m| == 0 then 0.0 else TermSum(m, 256, log)
  }

  /** Round half to even. */
  function Nearest(x: real): int {
    var f := x.Floor;
    var d := x - f as real;
    if d < 0.5 || (d == 0.5 && f % 2 == 0) then f else f + 1
  }

  function Round4(x: real): real { Nearest(x * 10000.0) as real / 10000.0 }

  method ShannonEntropy(data: seq<Byte>, log: real -> real) returns (h: real)
    ensures h == Round4(Bits(multiset(data), log))
  {
    if data == [] { return 0.0; }
    var counts := new nat[256](_ => 0);
    var i := 0;
    while i < |data|
      invariant 0 <= i <= |data|
      invariant forall b: Byte :: counts[b] == multiset(data[..i])[b]
    {
      counts[data[i]] := counts[data[i]] + 1;
      assert data[..i + 1] == data[..i] + [data[i]];
      i := i + 1;
    }
    assert data[..i] == data;
    var length := |data|;
    ghost var m := multiset(data);
    assert |m| == length;
    var entropy := 0.0;
    var k := 0;
    while k < 256
      invariant 0 <= k <= 256
      invariant entropy == TermSum(m, k, log)
    {
      var b: Byte := k;
      assert counts[b] == m[b];
      if counts[k] != 0 {
        var p := Share(counts[k], length);
        entropy := entropy - p * log(p);
      }
      k := k + 1;
    }
    h := Round4(entropy);
  }

  // ---- The counts ----

  function CountSum(m: multiset<Byte>, k: nat): nat
    requires k <= 256
  {
    if k == 0 then 0 else CountSum(m, k - 1) + m[k - 1]
  }

  lemma {:induction false} CountSumRemove(m: multiset<Byte>, x: Byte, k: nat)
    requires k <= 256 && x in m
    ensures CountSum(m, k) == CountSum(m - multiset{x}, k) + if x < k then 1 else 0
  {
    if k > 0 { CountSumRemove(m, x, k - 1); }
  }

  lemma {:induction false} CountSumEmpty(k: nat)
    requires k <= 256
    ensures CountSum(multiset{}, k) == 0
  {
    if k > 0 { CountSumEmpty(k - 1); }
  }

  /** The 256 counts sum to the length. */
  lemma {:induction false} CountsAddUp(m: multiset<Byte>)
    ensures CountSum(m, 256) == |m|
    decreases |m|
  {
    if m == multiset{} {
      CountSumEmpty(256);
    } else {
      var x :| x in m;
      CountSumRemove(m, x, 256);
      CountsAddUp(m - multiset{x});
    }
  }

  // ---- Bounds on one term ----

  lemma Log256(log: real -> real, slope: real)
    requires IsLog2(log, slope)
    ensures log(1.0) == 0.0 && log(1.0 / 256.0) == -8.0
  {
    assert Product(1.0, 2.0) == 2.0;
    assert Product(2.0, 2.0) == 4.0;
    assert Product(4.0, 4.0) == 16.0;
    assert Product(16.0, 16.0) == 256.0;
    assert Product(256.0, 1.0 / 256.0) == 1.0;
  }

  lemma TangentGap(log: real -> real, slope: real, p: real)
    requires IsLog2(log, slope) && 0.0 < p <= 1.0
    ensures -(p * log(p)) >= 0.0
    ensures -(p * log(p)) == 0.0 <==> p == 1.0
    ensures -(p * log(p)) <= 8.0 * p + slope * (1.0 / 256.0 - p)
    ensures -(p * log(p)) == 8.0 * p + slope * (1.0 / 256.0 - p) <==> p == 1.0 / 256.0
  {
    Log256(log, slope);
    if p < 1.0 {
      assert log(p) < 0.0 by { assert slope * (p - 1.0) < 0.0; }
      assert p * log(p) < 0.0;
    }
    var q := 1.0 / 256.0 / p;
    assert q > 0.0;
    assert Product(p, q) == 1.0 / 256.0;
    assert log(q) == -8.0 - log(p);
    assert p * q == 1.0 / 256.0;
    if q != 1.0 {
      var gap := slope * (q - 1.0) - log(q);
      assert gap > 0.0;
      assert p * gap > 0.0;
      assert p * gap == slope * (1.0 / 256.0 - p) + 8.0 * p + p * log(p) by {
        assert p * gap == slope * (p * q - p) - p * log(q);
      }
      assert p != 1.0 / 256.0;
    } else {
      assert p == 1.0 / 256.0;
      assert log(p) == -8.0;
    }
  }

  lemma ShareFacts(count: nat, length: nat)
    requires count <= length && length > 0
    ensures var p := Share(count, length);
      && 0.0 <= p <= 1.0
      && (p == 0.0 <==> count == 0)
      && (p == 1.0 <==> count == length)
      && (p == 1.0 / 256.0 <==> 256 * count == length)
  {
    RatioFacts(Share(count, length), length as real, count as real);
    assert 256 * count == length <==> 256.0 * count as real == length as real;
  }

  lemma Cancel(d: real, n: real)
    requires n > 0.0 && d * n >= 0.0
    ensures d >= 0.0
  {
    assert d == (d * n) / n;
  }

  lemma RatioFacts(p: real, n: real, c: real)
    requires n > 0.0 && 0.0 <= c <= n && p * n == c
    ensures 0.0 <= p <= 1.0
    ensures p == 0.0 <==> c == 0.0
    ensures p == 1.0 <==> c == n
    ensures p == 1.0 / 256.0 <==> 256.0 * c == n
  {
    assert (1.0 - p) * n == n - c;
    Cancel(p, n);
    Cancel(1.0 - p, n);
    assert (p - 1.0) * n == c - n;
    if p != 1.0 { assert (p - 1.0) * n != 0.0; }
    var d := 256.0 * p - 1.0;
    assert d * n == 256.0 * c - n;
    if d > 0.0 { assert d * n > 0.0; }
    if d < 0.0 { assert d * n < 0.0; }
  }

  function Cap(p: real, slope: real): real { 8.0 * p + slope * (1.0 / 256.0 - p) }

  lemma TermBounds(count: nat, length: nat, log: real -> real, slope: real)
    requires IsLog2(log, slope) && count <= length && length > 0
    ensures 0.0 <= Term(count, length, log) <= Cap(Share(count, length), slope)
    ensures Term(count, length, log) == 0.0 <==> count == 0 || count == length
    ensures Term(count, length, log) == Cap(Share(count, length), slope) <==> 256 * count == length
  {
    ShareFacts(count, length);
    if count > 0 {
      TangentGap(log, slope, Share(count, length));
    } else {
      assert Cap(0.0, slope) == slope * (1.0 / 256.0) > 0.0;
    }
  }

  /** The tangent bound summed over the bytes seen so far. */
  function CapSum(m: multiset<Byte>, k: nat, slope: real): real
    requires k <= 256 && |m| > 0
  {
    if k == 0 then 0.0 else CapSum(m, k - 1, slope) + Cap(Share(m[k - 1], |m|), slope)
  }

  function CapLine(x: real, k: nat, slope: real): real { 8.0 * x + slope * (k as real / 256.0 - x) }

  lemma CapStep(x: real, y: real, k: nat, slope: real)
    ensures CapLine(x, k, slope) + Cap(y, slope) == CapLine(x + y, k + 1, slope)
  {
    var a, b := k as real / 256.0 - x, 1.0 / 256.0 - y;
    assert slope * a + slope * b == slope * (a + b);
    assert a + b == (k + 1) as real / 256.0 - (x + y);
  }

  lemma ShareAdd(s: nat, c: nat, n: nat)
    requires n > 0
    ensures Share(s + c, n) == Share(s, n) + Share(c, n)
  {
  }

  lemma {:induction false} CapSumIs(m: multiset<Byte>, k: nat, slope: real)
    requires k <= 256 && |m| > 0
    ensures CapSum(m, k, slope) == CapLine(Share(CountSum(m, k), |m|), k, slope)
  {
    if k > 0 {
      CapSumIs(m, k - 1, slope);
      ShareAdd(CountSum(m, k - 1), m[k - 1], |m|);
      CapStep(Share(CountSum(m, k - 1), |m|), Share(m[k - 1], |m|), k - 1, slope);
    } else {
      assert Share(0, |m|) == 0.0;
    }
  }

  lemma CountAtMost(m: multiset<Byte>, b: Byte)
    ensures m[b] <= |m|
  {
    assert multiset{}[b := m[b]] <= m;
    assert |m| == |m - multiset{}[b := m[b]]| + |multiset{}[b := m[b]]|;
  }

  ghost predicate Constant(m: multiset<Byte>) { exists b: Byte :: m[b] == |m| }

  ghost predicate Uniform(m: multiset<Byte>) { forall b: Byte :: 256 * m[b] == |m| }

  lemma {:induction false} SumBounds(m: multiset<Byte>, k: nat, log: real -> real, slope: real)
    requires IsLog2(log, slope) && k <= 256 && |m| > 0
    ensures 0.0 <= TermSum(m, k, log) <= CapSum(m, k, slope)
    ensures TermSum(m, k, log) == 0.0 <==> forall b: Byte :: b < k ==> m[b] == 0 || m[b] == |m|
    ensures TermSum(m, k, log) == CapSum(m, k, slope) <==> forall b: Byte :: b < k ==> 256 * m[b] == |m|
  {
    if k > 0 {
      SumBounds(m, k - 1, log, slope);
      CountAtMost(m, k - 1);
      TermBounds(m[k - 1], |m|, log, slope);
      assert forall b: Byte :: b < k && (b < k - 1 ==> m[b] == 0 || m[b] == |m|) && b != k - 1 ==> m[b] == 0 || m[b] == |m|;
    }
  }

  // ---- Main results ----

  /** Between 0 and 8 bits; 0 exactly when at most one distinct byte occurs, 8 exactly when all 256 occur
      equally often. */
  lemma EntropyBounds(m: multiset<Byte>, log: real -> real, slope: real)
    requires IsLog2(log, slope) && |m| > 0
    ensures 0.0 <= Bits(m, log) <= 8.0
    ensures Bits(m, log) == 0.0 <==> Constant(m)
    ensures Bits(m, log) == 8.0 <==> Uniform(m)
  {
    SumBounds(m, 256, log, slope);
    CountsAddUp(m);
    CapSumIs(m, 256, slope);
    assert Share(|m|, |m|) == 1.0 by { ShareFacts(|m|, |m|); }
    assert CapSum(m, 256, slope) == 8.0;
    ConstantIff(m);
  }

  lemma ConstantIff(m: multiset<Byte>)
    requires |m| > 0
    ensures Constant(m) <==> forall b: Byte :: m[b] == 0 || m[b] == |m|
  {
    if forall b: Byte :: m[b] == 0 || m[b] == |m| {
      var x :| x in m;
      assert m[x] == |m|;
    }
    if Constant(m) {
      var x: Byte :| m[x] == |m|;
      forall b: Byte ensures m[b] == 0 || m[b] == |m| {
        if b != x { PairAtMost(m, x, b); }
      }
    }
  }

  lemma PairAtMost(m: multiset<Byte>, x: Byte, y: Byte)
    requires x != y
    ensures m[x] + m[y] <= |m|
  {
    var pair := multiset{}[x := m[x]][y := m[y]];
    assert pair <= m;
    assert |m| == |m - pair| + |pair|;
  }

  /** The rounded result lies in the same range, and is 0 exactly when the entropy is at most 1/20000. */
  lemma RoundedBounds(x: real)
    requires 0.0 <= x <= 8.0
    ensures 0.0 <= Round4(x) <= 8.0
    ensures Round4(x) == 0.0 <==> x <= 0.00005
    ensures x == 0.0 ==> Round4(x) == 0.0
  {
  }

  // ---- When the rounded result hides a second byte value ----

  lemma LogBelow(log: real -> real, slope: real, p: real, q: real)
    requires IsLog2(log, slope) && 0.0 < p < q
    ensures log(p) < log(q)
  {
    var r := p / q;
    assert r * q == p && (1.0 - r) * q == q - p > 0.0;
    Cancel(r, q);
    Cancel(1.0 - r, q);
    assert 0.0 < r < 1.0;
    assert Product(q, r) == p;
    assert slope * (r - 1.0) < 0.0;
  }

  lemma LogPowers(log: real -> real, slope: real)
    requires IsLog2(log, slope)
    ensures log(0.5) == -1.0 && log(1.0 / 16384.0) == -14.0 && log(1.0 / 1048576.0) == -20.0
  {
    Log256(log, slope);
    assert Product(2.0, 0.5) == 1.0;
    assert Product(0.5, 0.5) == 0.25;
    assert Product(0.25, 0.25) == 0.0625;
    assert Product(1.0 / 256.0, 0.25) == 1.0 / 1024.0;
    assert Product(1.0 / 1024.0, 0.0625) == 1.0 / 16384.0;
    assert Product(1.0 / 1024.0, 1.0 / 1024.0) == 1.0 / 1048576.0;
  }

  lemma Scale(p: real, a: real, b: real)
    requires p > 0.0 && a <= b
    ensures p * a <= p * b
  {
    assert p * (b - a) >= 0.0;
  }

  lemma ShareRange(count: nat, length: nat)
    requires 0 < count && 2 * count <= length <= 262144 * count
    ensures 1.0 / 262144.0 <= Share(count, length) <= 0.5
  {
    var p, n := Share(count, length), length as real;
    assert (0.5 - p) * n == 0.5 * n - p * n >= 0.0;
    Cancel(0.5 - p, n);
    assert length as real <= 262144.0 * count as real;
    assert (p - 1.0 / 262144.0) * n == p * n - n / 262144.0 >= 0.0;
    Cancel(p - 1.0 / 262144.0, n);
  }

  /** A byte that makes up at most half of the data, but at least one in 256 KiB, contributes more than the
      rounding can hide. */
  lemma RareTermVisible(count: nat, length: nat, log: real -> real, slope: real)
    requires IsLog2(log, slope) && 0 < count && 2 * count <= length <= 262144 * count
    ensures Term(count, length, log) > 0.00005
  {
    LogPowers(log, slope);
    ShareRange(count, length);
    var p := Share(count, length);
    if p < 1.0 / 16384.0 {
      LogBelow(log, slope, p, 1.0 / 16384.0);
      Scale(p, 14.0, -log(p));
    } else {
      if p < 0.5 { LogBelow(log, slope, p, 0.5); }
      Scale(p, 1.0, -log(p));
    }
    assert p * -log(p) == -(p * log(p));
  }

  lemma {:induction false} TermInSum(m: multiset<Byte>, b: Byte, k: nat, log: real -> real, slope: real)
    requires IsLog2(log, slope) && b < k <= 256 && |m| > 0
    ensures TermSum(m, k, log) >= Term(m[b], |m|, log)
  {
    CountAtMost(m, k - 1);
    TermBounds(m[k - 1], |m|, log, slope);
    if b < k - 1 {
      TermInSum(m, b, k - 1, log, slope);
    } else {
      SumBounds(m, k - 1, log, slope);
    }
  }

  /** The reported entropy is 0 exactly when the entropy is at most 1/20000, for data of any size. */
  lemma ReportedZero(m: multiset<Byte>, log: real -> real, slope: real)
    requires IsLog2(log, slope) && |m| > 0
    ensures Round4(Bits(m, log)) == 0.0 <==> Bits(m, log) <= 0.00005
    ensures Constant(m) ==> Round4(Bits(m, log)) == 0.0
  {
    EntropyBounds(m, log, slope);
    RoundedBounds(Bits(m, log));
  }

  /** Some value that occurs is rarer than one byte in 256 KiB; never so in data of at most that size. */
  predicate HasRareValue(m: multiset<Byte>) { exists b :: b in m && |m| > 262144 * m[b] }

  /** One value occurs exactly when the reported entropy is 0 and no value is that rare. */
  lemma ReportedZeroIff(m: multiset<Byte>, log: real -> real, slope: real)
    requires IsLog2(log, slope) && |m| > 0
    ensures Constant(m) <==> Round4(Bits(m, log)) == 0.0 && !HasRareValue(m)
    ensures |m| <= 262144 ==> !HasRareValue(m)
  {
    EntropyBounds(m, log, slope);
    RoundedBounds(Bits(m, log));
    if Constant(m) {
      var x :| m[x] == |m|;
      forall b | b in m ensures b == x { if b != x { PairAtMost(m, x, b); } }
    } else if !HasRareValue(m) {
      var b := RareByte(m);
      RareTermVisible(m[b], |m|, log, slope);
      TermInSum(m, b, 256, log, slope);
    }
  }

  lemma RareByte(m: multiset<Byte>) returns (b: Byte)
    requires |m| > 0 && !Constant(m)
    ensures b in m && 2 * m[b] <= |m|
  {
    b :| b in m;
    if 2 * m[b] > |m| {
      var x := b;
      var rest := m[x := 0];
      assert m == rest + multiset{}[x := m[x]];
      assert m[x] != |m|;
      b :| b in rest;
      PairAtMost(m, x, b);
    }
  }

  /** Larger files can hide a second value: one odd byte in a mebibyte is reported as entropy 0. */
  lemma RareByteIsRoundedAway(m: multiset<Byte>, log: real -> real, slope: real)
    requires IsLog2(log, slope)
    requires m == multiset{}[0 := 1048575][1 := 1]
    ensures !Constant(m) && Bits(m, log) > 0.0 && Round4(Bits(m, log)) == 0.0
  {
    assert |m| == 1048576;
    forall b: Byte ensures m[b] != |m| { }
    assert m[0] == 1048575 && m[1] == 1 && forall b: Byte :: b >= 2 ==> m[b] == 0;
    EntropyBounds(m, log, slope);
    RoundedBounds(Bits(m, log));
    LogPowers(log, slope);
    TwoValues(m, 256, log);
    var p, q := Share(1, 1048576), Share(1048575, 1048576);
    assert p == 1.0 / 1048576.0 && q == 1.0 - p;
    assert Term(1, 1048576, log) == 20.0 * p;
    assert slope <= 2.0;
    var r := 1.0 / q;
    assert Product(q, r) == 1.0;
    Log256(log, slope);
    assert log(r) < slope * (r - 1.0);
    assert q * log(r) <= q * (slope * (r - 1.0)) == slope * (1.0 - q) by {
      assert q * r == 1.0;
      assert q * (slope * (r - 1.0)) == slope * (q * r - q);
    }
    assert Term(1048575, 1048576, log) == q * log(r) by { assert log(q) == -log(r); }
    assert slope * p <= 2.0 * p;
  }

  lemma {:induction false} TwoValues(m: multiset<Byte>, k: nat, log: real -> real)
    requires 2 <= k <= 256 && |m| > 0
    requires forall b: Byte :: b >= 2 ==> m[b] == 0
    ensures TermSum(m, k, log) == Term(m[0], |m|, log) + Term(m[1], |m|, log)
  {
    if k == 2 {
      assert TermSum(m, 1, log) == TermSum(m, 0, log) + Term(m[0], |m|, log);
    } else {
      TwoValues(m, k - 1, log);
      var b: Byte := k - 1;
      assert m[b] == 0;
    }
  }
}
