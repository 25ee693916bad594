/** Internet addresses as the code uses them: dotted-quad parsing, networks, and membership (RFC 4632, section 3.1). */
module Ip {
  import opened Common
  import opened Text

  // ---- Splitting text ----

  /** `s.split(c)`. */
  function Split(s: string, c: char): (parts: seq<string>)
    ensures parts != []
  {
    if s == "" then [""]
    else if s[0] == c then [""] + Split(s[1..], c)
    else
      var rest := Split(s[1..], c);
      [[s[0]] + rest[0]] + rest[1..]
  }

  /** `c.join(parts)`. */
  function Join(parts: seq<string>, c: char): string
    requires parts != []
  {
    if |parts| == 1 then parts[0] else parts[0] + [c] + Join(parts[1..], c)
  }

  lemma {:induction false} SplitConcat(x: string, c: char, y: string)
    ensures Split(x + [c] + y, c) == Split(x, c) + Split(y, c)
    decreases |x|
  {
    if x == "" {
      assert x + [c] + y == [c] + y && ([c] + y)[1..] == y;
    } else {
      assert (x + [c] + y)[1..] == x[1..] + [c] + y;
      SplitConcat(x[1..], c, y);
    }
  }

  lemma {:induction false} JoinSplit(s: string, c: char)
    ensures Join(Split(s, c), c) == s
    decreases |s|
  {
    if s != "" {
      JoinSplit(s[1..], c);
      var rest := Split(s[1..], c);
      if s[0] == c {
        assert Split(s, c)[1..] == rest;
      } else {
        assert Split(s, c)[1..] == rest[1..];
      }
    }
  }

  lemma {:induction false} JoinConcat(a: seq<string>, b: seq<string>, c: char)
    requires a != [] && b != []
    ensures Join(a + b, c) == Join(a, c) + [c] + Join(b, c)
    decreases |a|
  {
    if |a| == 1 {
      assert (a + b)[1..] == b;
    } else {
      assert (a + b)[1..] == a[1..] + b;
      JoinConcat(a[1..], b, c);
    }
  }

  // ---- IPv4 text ----

  /** An octet: one to three digits, no leading zero, at most 255. */
  function ParseOctet(s: string): Option<nat> {
    if AllDigits(s) && |s| <= 3 && (|s| == 1 || s[0] != '0') && ParseNat(s) <= 255 then Some(ParseNat(s)) else None
  }

  function ParseIp4(s: string): (r: Option<nat>)
    ensures r.Some? ==> r.value < 0x1_0000_0000
  {
    var parts := Split(s, '.');
    if |parts| != 4 then None
    else
      match (ParseOctet(parts[0]), ParseOctet(parts[1]), ParseOctet(parts[2]), ParseOctet(parts[3]))
      case (Some(a), Some(b), Some(c), Some(d)) => Some(((a * 256 + b) * 256 + c) * 256 + d)
      case _ => None
  }

  function Pow2(n: nat): (p: nat)
    ensures p > 0
  {
    if n == 0 then 1 else 2 * Pow2(n - 1)
  }

  /** The prefix length a dotted mask stands for: a netmask, or else a host mask. */
  function MaskLength(n: nat, len: nat): Option<nat>
    requires len <= 32
  {
    if n == Pow2(32) - Pow2(32 - len) then Some(len)
    else if len == 0 then None
    else MaskLength(n, len - 1)
  }

  function PrefixLength(mask: string): Option<nat> {
    if AllDigits(mask) && ParseNat(mask) <= 32 then Some(ParseNat(mask))
    else
      match ParseIp4(mask)
      case None => None
      case Some(n) =>
        if MaskLength(n, 32).Some? then MaskLength(n, 32)
        else if n < Pow2(32) then MaskLength(Pow2(32) - 1 - n, 32)
        else None
  }

  function ParseNet4(s: string): Option<(nat, nat)> {
    var parts := Split(s, '/');
    if |parts| > 2 then None
    else
      match ParseIp4(parts[0])
      case None => None
      case Some(base) =>
        if |parts| == 1 then Some((base, 32))
        else
          match PrefixLength(parts[1])
          case None => None
          case Some(len) => Some((base, len))
  }

  // ---- Addresses of both families ----

  /** IPv6 text is left to the library: its address and network parsers, and the canonical text of an address. */
  datatype Ip6 = Ip6(address: string -> Option<nat>, network: string -> Option<(nat, nat)>, canonical: nat -> string)

  datatype Address = V4(n: nat) | V6(n: nat)

  datatype Network = Net4(base: nat, len: nat) | Net6(base: nat, len: nat)

  function ParseAddress(s: string, six: Ip6): Option<Address> {
    match ParseIp4(s)
    case Some(n) => Some(V4(n))
    case None => match six.address(s) case Some(n) => Some(V6(n)) case None => None
  }

  function ParseNetwork(s: string, six: Ip6): Option<Network> {
    match ParseNet4(s)
    case Some((base, len)) => Some(Net4(base, len))
    case None => match six.network(s) case Some((base, len)) => Some(Net6(base, len)) case None => None
  }

  /** n & netmask, for the netmask that clears the low `h` bits. */
  function Masked(n: nat, h: nat): nat { Floor(n, Pow2(h)) }

  /** The largest multiple of d that is at most n. */
  function Floor(n: nat, d: nat): (r: nat)
    requires d > 0
    ensures r <= n < r + d
  {
    DivRange(n, d);
    n / d * d
  }

  lemma DivRange(n: nat, d: nat)
    requires d > 0
    ensures 0 <= n / d * d <= n < n / d * d + d
  {
    assert n == n / d * d + n % d;
  }

  function HostBits(net: Network): nat {
    var width := if net.Net4? then 32 else 128;
    if net.len <= width then width - net.len else 0
  }

  /** `address in network`. */
  predicate Contains(net: Network, a: Address) {
    net.Net4? == a.V4? && Masked(a.n, HostBits(net)) == Masked(net.base, HostBits(net))
  }

  // ---- Prefix bits, intervals and subnets ----

  lemma Times(a: int, b: int, d: int)
    requires d > 0
    ensures a <= b ==> a * d <= b * d
    ensures a < b ==> a * d + d <= b * d
  {
    assert (b - a) * d == b * d - a * d;
    if a < b { assert (b - a - 1) * d >= 0; }
    if a == b { assert a * d == b * d; }
  }

  /** The quotient is the q with q * d <= n < q * d + d. */
  lemma QuotientIs(n: nat, q: nat, d: nat)
    requires d > 0 && q * d <= n < q * d + d
    ensures n / d == q
  {
    DivRange(n, d);
    Times(n / d, q, d);
    Times(q, n / d, d);
  }

  lemma QuotientOf(q: nat, r: nat, d: nat)
    requires r < d
    ensures (q * d + r) / d == q
  {
    QuotientIs(q * d + r, q, d);
  }

  lemma FloorEqual(n: nat, m: nat, d: nat)
    requires d > 0
    ensures Floor(n, d) == Floor(m, d) <==> n / d == m / d
    ensures Floor(n, d) == Floor(m, d) <==> Floor(m, d) <= n < Floor(m, d) + d
  {
    var q := m / d;
    DivRange(n, d);
    DivRange(m, d);
    if q * d <= n < q * d + d { QuotientIs(n, q, d); }
  }

  /** The masked values agree exactly when n lies in the block of 2^h addresses that starts at the masked base. */
  lemma MaskedIsInterval(n: nat, base: nat, h: nat)
    ensures Masked(n, h) == Masked(base, h) <==> Masked(base, h) <= n < Masked(base, h) + Pow2(h)
  {
    FloorEqual(n, base, Pow2(h));
  }

  function Bit(n: nat, i: nat): nat { n / Pow2(i) % 2 }

  lemma QuotientTwice(n: nat, c: nat, d: nat)
    requires c > 0 && d > 0
    ensures n / (c * d) == n / d / c
  {
    var q := n / d / c;
    DivRange(n, d);
    DivRange(n / d, c);
    Times(q * c, n / d, d);
    Times(n / d, q * c + c - 1, d);
    Regroup(q, c, d);
    QuotientIs(n, q, c * d);
  }

  lemma Regroup(q: int, c: int, d: int)
    ensures q * c * d == q * (c * d)
    ensures (q * c + c - 1) * d == q * (c * d) + c * d - d
  {
    assert q * c * d == q * (c * d);
    var x := q * c;
    assert (x + c - 1) * d == x * d + c * d - d;
  }

  lemma HalveQuotient(n: nat, i: nat)
    ensures n / Pow2(i + 1) == n / Pow2(i) / 2
  {
    QuotientTwice(n, 2, Pow2(i));
  }

  lemma {:induction false} SameHighBits(n: nat, m: nat, h: nat, w: nat)
    requires h <= w && n < Pow2(w) && m < Pow2(w)
    ensures n / Pow2(h) == m / Pow2(h) <==> forall i :: h <= i < w ==> Bit(n, i) == Bit(m, i)
    decreases w - h
  {
    if h == w {
      QuotientIs(n, 0, Pow2(w));
      QuotientIs(m, 0, Pow2(w));
    } else {
      SameHighBits(n, m, h + 1, w);
      HalveQuotient(n, h);
      HalveQuotient(m, h);
      var a, b := n / Pow2(h), m / Pow2(h);
      assert a == b <==> a / 2 == b / 2 && a % 2 == b % 2;
      assert Bit(n, h) == a % 2 && Bit(m, h) == b % 2;
    }
  }

  /** Membership is equality of the first `len` bits. */
  lemma ContainsIffPrefixBits(net: Network, a: Address)
    requires net.Net4? == a.V4?
    requires var w := if net.Net4? then 32 else 128; net.len <= w && a.n < Pow2(w) && net.base < Pow2(w)
    ensures var w := if net.Net4? then 32 else 128;
      Contains(net, a) <==> forall i :: w - net.len <= i < w ==> Bit(a.n, i) == Bit(net.base, i)
  {
    var w := if net.Net4? then 32 else 128;
    SameHighBits(a.n, net.base, HostBits(net), w);
    FloorEqual(a.n, net.base, Pow2(HostBits(net)));
  }

  lemma {:induction false} Pow2Grows(a: nat, b: nat) returns (c: nat)
    requires a <= b
    ensures c > 0 && Pow2(b) == c * Pow2(a)
    ensures a < b ==> Pow2(a) < Pow2(b)
    decreases b - a
  {
    if a < b {
      var k := Pow2Grows(a, b - 1);
      c := 2 * k;
      Times(1, k, Pow2(a));
      assert 2 * (k * Pow2(a)) == (2 * k) * Pow2(a);
    } else {
      c := 1;
    }
  }

  /** A network's addresses all lie in another exactly when its prefix is at least as long and its base lies there. */
  lemma SubnetIff(sub: Network, super: Network)
    requires sub.Net4? == super.Net4?
    requires var w := if sub.Net4? then 32 else 128; sub.len <= w && super.len <= w
    ensures (forall a :: Contains(sub, a) ==> Contains(super, a))
      <==> sub.len >= super.len && Contains(super, if sub.Net4? then V4(sub.base) else V6(sub.base))
  {
    var h, k := HostBits(sub), HostBits(super);
    var lo := Masked(sub.base, h);
    var hi := lo + Pow2(h) - 1;
    var first, last, base := Same(sub, lo), Same(sub, hi), Same(sub, sub.base);
    MaskedIsInterval(lo, sub.base, h);
    MaskedIsInterval(hi, sub.base, h);
    MaskedIsInterval(lo, super.base, k);
    MaskedIsInterval(hi, super.base, k);
    assert Contains(sub, base) && Contains(sub, first) && Contains(sub, last);
    if forall a :: Contains(sub, a) ==> Contains(super, a) {
      assert Contains(super, base) && Contains(super, first) && Contains(super, last);
      if h > k { var c := Pow2Grows(k, h); }
    }
    if h <= k && Contains(super, base) {
      forall a | Contains(sub, a) ensures Contains(super, a) {
        MaskCoarser(a.n, h, k);
        MaskCoarser(sub.base, h, k);
      }
    }
  }

  function Same(net: Network, n: nat): Address { if net.Net4? then V4(n) else V6(n) }

  /** Masking fewer bits first makes no difference. */
  lemma MaskCoarser(n: nat, h: nat, k: nat)
    requires h <= k
    ensures Masked(n, k) == Masked(Masked(n, h), k)
  {
    var d := Pow2(h);
    var c := Pow2Grows(h, k);
    QuotientTwice(n, c, d);
    QuotientTwice(Floor(n, d), c, d);
    QuotientOf(n / d, 0, d);
    FloorEqual(n, Floor(n, d), Pow2(k));
  }
}
