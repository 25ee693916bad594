/** Canonical forms of addresses and domain names. */
module Normalization {
  import opened Common
  import opened Text
  import opened Ip

  // ---- Addresses ----

  function DigitChar(d: nat): char
    requires d < 10
  {
    '0' + d as char
  }

  /** The decimal text of an octet. */
  function OctetText(n: nat): string
    requires n < 256
  {
    if n < 10 then [DigitChar(n)]
    else if n < 100 then [DigitChar(n / 10), DigitChar(n % 10)]
    else [DigitChar(n / 100), DigitChar(n / 10 % 10), DigitChar(n % 10)]
  }

  function Dotted(n: nat): string
    requires n < 0x1_0000_0000
  {
    OctetText(n / 0x100_0000) + "." + OctetText(n / 0x1_0000 % 256) + "." + OctetText(n / 0x100 % 256) + "." + OctetText(n % 256)
  }

  function DigitValue(c: char): nat
    requires IsDigit(c)
  {
    c as int - '0' as int
  }

  lemma NatOfDigits(s: string)
    requires AllDigits(s)
    ensures |s| == 1 ==> ParseNat(s) == DigitValue(s[0])
    ensures |s| == 2 ==> ParseNat(s) == 10 * DigitValue(s[0]) + DigitValue(s[1])
    ensures |s| == 3 ==> ParseNat(s) == 100 * DigitValue(s[0]) + 10 * DigitValue(s[1]) + DigitValue(s[2])
  {
    assert ParseNat("") == 0;
    if |s| == 1 {
      assert s[..0] == "";
    } else if |s| == 2 {
      assert s[..1][..0] == "";
      assert ParseNat(s[..1]) == DigitValue(s[0]);
    } else if |s| == 3 {
      assert s[..2][..1] == s[..1] && s[..1][..0] == "";
      assert ParseNat(s[..1]) == DigitValue(s[0]);
      assert ParseNat(s[..2]) == 10 * DigitValue(s[0]) + DigitValue(s[1]);
    }
  }

  lemma DigitsOf(a: nat, b: nat, c: nat)
    requires a < 10 && b < 10 && c < 10
    ensures (10 * a + b) / 10 == a && (10 * a + b) % 10 == b
    ensures var n := 100 * a + 10 * b + c; n / 100 == a && n / 10 % 10 == b && n % 10 == c
  {
    assert (100 * a + 10 * b + c) / 10 == 10 * a + b;
  }

  /** Octets are read in one way only, so their text is already canonical. */
  lemma OctetIsCanonical(s: string)
    requires ParseOctet(s).Some?
    ensures ParseOctet(s).value < 256 && OctetText(ParseOctet(s).value) == s && AllDigits(s)
  {
    NatOfDigits(s);
    hide ParseNat;
    if |s| == 1 {
      assert s == [s[0]];
    } else if |s| == 2 {
      DigitsOf(DigitValue(s[0]), DigitValue(s[1]), 0);
      assert s == [s[0], s[1]];
    } else {
      DigitsOf(DigitValue(s[0]), DigitValue(s[1]), DigitValue(s[2]));
      assert s == [s[0], s[1], s[2]];
    }
  }

  /** A valid dotted quad is its own canonical text. */
  lemma DottedIsCanonical(s: string)
    requires ParseIp4(s).Some?
    ensures ParseIp4(s).value < 0x1_0000_0000 && Dotted(ParseIp4(s).value) == s
    ensures s != "" && IsDigit(s[|s|-1]) && ':' !in s && SpaceFree(s)
  {
    hide ParseOctet, OctetText, Split, Join, AllDigits, IsSpace;
    var parts := Split(s, '.');
    OctetIsCanonical(parts[0]);
    OctetIsCanonical(parts[1]);
    OctetIsCanonical(parts[2]);
    OctetIsCanonical(parts[3]);
    var a, b, c, d := ParseOctet(parts[0]).value, ParseOctet(parts[1]).value, ParseOctet(parts[2]).value, ParseOctet(parts[3]).value;
    QuadParts(a, b, c, d);
    JoinSplit(s, '.');
    JoinFour(parts);
    QuadChars(parts[0], parts[1], parts[2], parts[3]);
  }

  lemma QuadChars(p: string, q: string, r: string, t: string)
    requires AllDigits(p) && AllDigits(q) && AllDigits(r) && AllDigits(t)
    ensures var s := p + "." + q + "." + r + "." + t;
      s != "" && IsDigit(s[|s|-1]) && ':' !in s && SpaceFree(s)
  {
    var s := p + "." + q + "." + r + "." + t;
    forall c | c in s ensures IsDigit(c) || c == '.' {
      assert c in p || c in q || c in r || c in t || c == '.';
    }
    forall i | 0 <= i < |s| ensures !IsSpace(s[i]) { assert s[i] in s; }
    assert s[|s|-1] == t[|t|-1];
  }

  lemma QuadParts(a: nat, b: nat, c: nat, d: nat)
    requires a < 256 && b < 256 && c < 256 && d < 256
    ensures var n := ((a * 256 + b) * 256 + c) * 256 + d;
      n < 0x1_0000_0000 && n / 0x100_0000 == a && n / 0x1_0000 % 256 == b && n / 0x100 % 256 == c && n % 256 == d
  {
  }

  lemma JoinFour(parts: seq<string>)
    requires |parts| == 4
    ensures Join(parts, '.') == parts[0] + "." + parts[1] + "." + parts[2] + "." + parts[3]
  {
    var p := parts;
    assert Join(p[3..], '.') == p[3];
    assert p[2..][1..] == p[3..] && p[1..][1..] == p[2..];
    assert Join(p[2..], '.') == p[2] + "." + p[3];
    assert Join(p[1..], '.') == p[1] + "." + (p[2] + "." + p[3]);
    assert Join(p, '.') == p[0] + "." + (p[1] + "." + (p[2] + "." + p[3]));
  }

  /** `str(ipaddress.ip_address(value.strip()))`; IPv6 text is left to `six`, which gives its canonical text. */
  function NormalizeIp(value: string, six: string -> Option<string>): Option<string> {
    var v := Strip(value);
    match ParseIp4(v)
    case Some(n) => Some(Dotted(n))
    case None => six(v)
  }

  /** The text of an IPv6 address contains a colon. */
  ghost predicate ColonText(six: string -> Option<string>) {
    forall s :: six(s).Some? ==> ':' in six(s).value
  }

  // ---- Domain names ----

  function RStripDots(s: string): string {
    if s != "" && s[|s|-1] == '.' then RStripDots(s[..|s|-1]) else s
  }

  predicate LowerLetter(c: char) { 'a' <= c <= 'z' }

  predicate InnerLabel(l: string) {
    && 1 <= |l| <= 63
    && (forall i :: 0 <= i < |l| ==> LowerLetter(l[i]) || IsDigit(l[i]) || l[i] == '-')
    && l[0] != '-' && l[|l|-1] != '-'
  }

  predicate TopLabel(l: string) { 2 <= |l| && forall i :: 0 <= i < |l| ==> LowerLetter(l[i]) }

  /** The pattern of the source: inner labels, each followed by a dot, then a top-level label of letters. */
  predicate IsDomain(d: string) {
    var labels := Split(d, '.');
    && 1 <= |d| <= 253
    && 2 <= |labels|
    && (forall i :: 0 <= i < |labels| - 1 ==> InnerLabel(labels[i]))
    && TopLabel(labels[|labels| - 1])
  }

  function NormalizeDomain(value: string): Option<string> {
    var d := Lower(RStripDots(Strip(value)));
    if IsDomain(d) then Some(d) else None
  }

  /** Every character of a text is a separator or belongs to a part. */
  lemma {:induction false} CharsOfSplit(s: string, c: char, p: char -> bool)
    requires forall i, j :: 0 <= i < |Split(s, c)| && 0 <= j < |Split(s, c)[i]| ==> p(Split(s, c)[i][j])
    ensures forall i :: 0 <= i < |s| ==> s[i] == c || p(s[i])
    decreases |s|
  {
    if s != "" {
      var parts, rest := Split(s, c), Split(s[1..], c);
      forall i, j | 0 <= i < |rest| && 0 <= j < |rest[i]| ensures p(rest[i][j]) {
        if s[0] == c {
          assert parts[i + 1] == rest[i];
        } else if i > 0 {
          assert parts[i] == rest[i];
        } else {
          assert parts[0][j + 1] == rest[0][j];
        }
      }
      CharsOfSplit(s[1..], c, p);
      if s[0] != c { assert parts[0][0] == s[0]; }
    }
  }

  lemma {:induction false} JoinLast(parts: seq<string>, c: char)
    requires parts != [] && parts[|parts|-1] != ""
    ensures var s, last := Join(parts, c), parts[|parts|-1]; s != "" && s[|s|-1] == last[|last|-1]
    decreases |parts|
  {
    if |parts| > 1 {
      JoinLast(parts[1..], c);
      var rest := Join(parts[1..], c);
      var s := parts[0] + [c] + rest;
      assert s[|s|-1] == rest[|rest|-1];
    }
  }

  predicate DomainChar(c: char) { LowerLetter(c) || IsDigit(c) || c == '-' }

  /** A domain name ends in a letter and has only letters, digits, hyphens and dots: it is no address. */
  lemma DomainShape(d: string)
    requires IsDomain(d)
    ensures LowerLetter(d[|d|-1]) && ':' !in d && SpaceFree(d) && Lower(d) == d
  {
    var labels := Split(d, '.');
    forall i, j | 0 <= i < |labels| && 0 <= j < |labels[i]| ensures DomainChar(labels[i][j]) {
      if i < |labels| - 1 { assert InnerLabel(labels[i]); } else { assert TopLabel(labels[i]); }
    }
    CharsOfSplit(d, '.', DomainChar);
    JoinSplit(d, '.');
    JoinLast(labels, '.');
    hide Split, InnerLabel, TopLabel;
    forall i | 0 <= i < |d| ensures d[i] != ':' && !IsSpace(d[i]) && LowerChar(d[i]) == d[i] {
      assert d[i] == '.' || DomainChar(d[i]);
    }
    assert Lower(d) == d;
  }

  /** Four octets with dots between are read as the address they spell. */
  lemma QuadParses(a: nat, b: nat, c: nat, d: nat)
    requires a < 256 && b < 256 && c < 256 && d < 256
    ensures var s := OctetText(a) + "." + OctetText(b) + "." + OctetText(c) + "." + OctetText(d);
      ParseIp4(s) == Some(a * 0x100_0000 + b * 0x1_0000 + c * 0x100 + d)
  {
    OctetParses(a);
    OctetParses(b);
    OctetParses(c);
    OctetParses(d);
    hide OctetText, ParseOctet;
    SplitFour(OctetText(a), OctetText(b), OctetText(c), OctetText(d));
    QuadValue(a, b, c, d);
    hide Split;
  }

  lemma QuadValue(a: nat, b: nat, c: nat, d: nat)
    ensures ((a * 256 + b) * 256 + c) * 256 + d == a * 0x100_0000 + b * 0x1_0000 + c * 0x100 + d
  {
  }

  /** The text of an octet is decimal, without leading zeros, and reads as its value. */
  lemma OctetParses(n: nat)
    requires n < 256
    ensures ParseOctet(OctetText(n)) == Some(n) && AllDigits(OctetText(n)) && ParseNat(OctetText(n)) == n
    ensures '.' !in OctetText(n) && '/' !in OctetText(n)
    ensures |OctetText(n)| > 1 ==> OctetText(n)[0] != '0'
  {
    var t := OctetText(n);
    NatOfDigits(t);
    OctetDigits(n);
    hide ParseNat;
  }

  lemma OctetDigits(n: nat)
    requires n < 256
    ensures n < 100 ==> n == 10 * (n / 10) + n % 10 && n / 10 < 10
    ensures n / 100 < 10 && n == 100 * (n / 100) + 10 * (n / 10 % 10) + n % 10
    ensures n >= 100 ==> n / 100 > 0
    ensures n >= 10 ==> n / 10 > 0
  {
    var q := n / 10;
    assert n == 10 * q + n % 10 && q == 10 * (q / 10) + q % 10 && q / 10 == n / 100;
  }

  lemma SplitFour(p: string, q: string, r: string, t: string)
    requires '.' !in p && '.' !in q && '.' !in r && '.' !in t
    ensures Split(p + "." + q + "." + r + "." + t, '.') == [p, q, r, t]
  {
    NoSplit(p, '.');
    NoSplit(q, '.');
    NoSplit(r, '.');
    NoSplit(t, '.');
    hide Split;
    SplitConcat(p + "." + q + "." + r, '.', t);
    SplitConcat(p + "." + q, '.', r);
    SplitConcat(p, '.', q);
    assert p + ['.'] + q == p + "." + q;
    assert (p + "." + q) + ['.'] + r == p + "." + q + "." + r;
    assert (p + "." + q + "." + r) + ['.'] + t == p + "." + q + "." + r + "." + t;
  }

  lemma {:induction false} NoSplit(s: string, c: char)
    requires c !in s
    ensures Split(s, c) == [s]
    decreases |s|
  {
    if s != "" {
      NoSplit(s[1..], c);
      assert [s[0]] + s[1..] == s;
    }
  }

  /** A quad alone is a network of one address; with a number up to 32 behind a slash, that is the prefix length. */
  lemma QuadNetwork(s: string, digits: string)
    requires ParseIp4(s).Some? && AllDigits(digits) && ParseNat(digits) <= 32
    ensures ParseNet4(s) == Some((ParseIp4(s).value, 32))
    ensures ParseNet4(s + "/" + digits) == Some((ParseIp4(s).value, ParseNat(digits)))
  {
    QuadText(s);
    assert forall i :: 0 <= i < |digits| ==> IsDigit(digits[i]);
    NoSplit(s, '/');
    NoSplit(digits, '/');
    SplitConcat(s, '/', digits);
    assert s + ['/'] + digits == s + "/" + digits;
    hide Split, ParseIp4, ParseNat;
    assert [s] + [digits] == [s, digits];
  }

  lemma QuadText(s: string)
    requires ParseIp4(s).Some?
    ensures '/' !in s
  {
    var parts := Split(s, '.');
    forall i, j | 0 <= i < 4 && 0 <= j < |parts[i]| ensures parts[i][j] != '/' { assert IsDigit(parts[i][j]); }
    CharsOfSplit(s, '.', c => c != '/');
  }

  /** White space around a name, dots behind it, and capitals do not matter. */
  lemma VariantsAgree(d: string, v: string, left: string, dots: string, right: string)
    requires IsDomain(d) && Lower(v) == d
    requires (forall i :: 0 <= i < |left| ==> IsSpace(left[i])) && (forall i :: 0 <= i < |right| ==> IsSpace(right[i]))
    requires forall i :: 0 <= i < |dots| ==> dots[i] == '.'
    ensures NormalizeDomain(left + v + dots + right) == Some(d)
  {
    DomainShape(d);
    assert |v| == |d|;
    forall i | 0 <= i < |v| ensures !IsSpace(v[i]) { assert LowerChar(v[i]) == d[i] && !IsSpace(d[i]); LowerSpace(v[i]); }
    var core := v + dots;
    forall i | 0 <= i < |core| ensures !IsSpace(core[i]) { if i >= |v| { assert core[i] == dots[i - |v|]; } }
    forall c | c in left + right ensures IsSpace(c) { assert c in left || c in right; }
    assert v != "";
    StripAround(left, core, right);
    assert left + v + dots + right == left + core + right;
    assert LowerChar(v[|v|-1]) == d[|d|-1] && v[|v|-1] != '.';
    DropDots(v, dots);
    hide IsDomain, Strip;
  }

  lemma LowerSpace(c: char)
    ensures IsSpace(c) <==> IsSpace(LowerChar(c))
  {
  }

  lemma {:induction false} DropDots(v: string, dots: string)
    requires v != "" && v[|v|-1] != '.' && forall i :: 0 <= i < |dots| ==> dots[i] == '.'
    ensures RStripDots(v + dots) == v
    decreases |dots|
  {
    var s := v + dots;
    if dots == "" {
      assert s == v;
    } else {
      assert s[|s|-1] == dots[|dots|-1];
      assert s[..|s|-1] == v + dots[..|dots|-1];
      DropDots(v, dots[..|dots|-1]);
    }
  }

  lemma StripAround(left: string, core: string, right: string)
    requires core != "" && !IsSpace(core[0]) && !IsSpace(core[|core|-1])
    requires forall c :: c in left + right ==> IsSpace(c)
    ensures Strip(left + core + right) == core
  {
    assert forall c :: c in left ==> c in left + right;
    assert forall c :: c in right ==> c in left + right;
    SkipLeft(left, core + right);
    assert left + core + right == left + (core + right);
    SkipRight(core, right);
  }

  lemma {:induction false} SkipLeft(left: string, s: string)
    requires s != "" && !IsSpace(s[0]) && forall c :: c in left ==> IsSpace(c)
    ensures LStrip(left + s) == s
    decreases |left|
  {
    if left == "" {
      assert left + s == s;
    } else {
      assert left[0] in left && (left + s)[1..] == left[1..] + s;
      SkipLeft(left[1..], s);
    }
  }

  lemma {:induction false} SkipRight(s: string, right: string)
    requires s != "" && !IsSpace(s[|s|-1]) && forall c :: c in right ==> IsSpace(c)
    ensures RStrip(s + right) == s
    decreases |right|
  {
    var t := s + right;
    if right == "" {
      assert t == s;
    } else {
      assert t[|t|-1] == right[|right|-1] && right[|right|-1] in right;
      assert t[..|t|-1] == s + right[..|right|-1];
      SkipRight(s, right[..|right|-1]);
    }
  }

  /** A name as it occurs in practice. */
  lemma NameAccepted()
    ensures NormalizeDomain("WWW.example-1.com. ") == Some("www.example-1.com")
  {
    var d, v := "www.example-1.com", "WWW.example-1.com";
    Spelled();
    ThreeLabels("www", "example-1", "com");
    assert IsSpace(" "[0]);
    hide *;
    LowerSpelled(d, v);
    VariantsAgree(d, v, "", ".", " ");
  }

  lemma LowerSpelled(d: string, v: string)
    requires d == "www.example-1.com" && v == "WWW.example-1.com"
    ensures Lower(v) == d
  {
    assert v[3..] == d[3..];
    assert forall i :: 3 <= i < |v| ==> LowerChar(v[i]) == v[i];
  }

  lemma Spelled()
    ensures "www" + "." + "example-1" + "." + "com" == "www.example-1.com"
    ensures "" + "WWW.example-1.com" + "." + " " == "WWW.example-1.com. "
  {
  }

  lemma ThreeLabels(p: string, q: string, r: string)
    requires p == "www" && q == "example-1" && r == "com"
    ensures IsDomain(p + "." + q + "." + r)
  {
    SplitThree(p, q, r);
    assert InnerLabel(p) && InnerLabel(q) && TopLabel(r);
    hide Split, InnerLabel, TopLabel;
  }

  lemma SplitThree(p: string, q: string, r: string)
    requires '.' !in p && '.' !in q && '.' !in r
    ensures Split(p + "." + q + "." + r, '.') == [p, q, r]
  {
    NoSplit(p, '.');
    NoSplit(q, '.');
    NoSplit(r, '.');
    hide Split;
    SplitConcat(p + "." + q, '.', r);
    SplitConcat(p, '.', q);
    assert p + ['.'] + q == p + "." + q;
    assert (p + "." + q) + ['.'] + r == p + "." + q + "." + r;
  }

  /** Normalizing a normalized name changes nothing. */
  lemma DomainIdempotent(value: string)
    ensures NormalizeDomain(value).Some? ==> NormalizeDomain(NormalizeDomain(value).value) == NormalizeDomain(value)
  {
    if NormalizeDomain(value).Some? {
      var d := NormalizeDomain(value).value;
      DomainShape(d);
      StripSpaceFree(d);
      assert RStripDots(d) == d;
    }
  }

  lemma Ip4Idempotent(value: string, six: string -> Option<string>)
    requires ParseIp4(Strip(value)).Some?
    ensures NormalizeIp(value, six) == Some(Strip(value))
    ensures NormalizeIp(Strip(value), six) == Some(Strip(value))
  {
    DottedIsCanonical(Strip(value));
    StripSpaceFree(Strip(value));
  }

  /** The key under which the asset registry files a text. */
  function Key(text: string): string { Lower(Strip(text)) }

  predicate AddressKey(key: string) { ':' in key || (key != "" && IsDigit(key[|key|-1])) }

  predicate NameKey(key: string) { key != "" && ':' !in key && LowerLetter(key[|key|-1]) }

  lemma AddressKeys(value: string, six: string -> Option<string>)
    requires ColonText(six) && NormalizeIp(value, six).Some?
    ensures AddressKey(Key(NormalizeIp(value, six).value))
  {
    hide ParseIp4;
    var x := NormalizeIp(value, six).value;
    if ParseIp4(Strip(value)).Some? {
      DottedIsCanonical(Strip(value));
      StripSpaceFree(x);
    } else {
      ColonSurvives(x);
    }
  }

  lemma NameKeys(value: string)
    requires NormalizeDomain(value).Some?
    ensures NameKey(Key(NormalizeDomain(value).value))
  {
    hide Split;
    var d := NormalizeDomain(value).value;
    DomainShape(d);
    StripSpaceFree(d);
  }

  /** An address and a domain name are never filed under the same key, and no key is empty. */
  lemma FormsDisjoint(ip: string, name: string, six: string -> Option<string>)
    requires ColonText(six) && NormalizeIp(ip, six).Some? && NormalizeDomain(name).Some?
    ensures Key(NormalizeIp(ip, six).value) != Key(NormalizeDomain(name).value)
    ensures Key(NormalizeIp(ip, six).value) != "" && Key(NormalizeDomain(name).value) != ""
  {
    hide NormalizeIp, NormalizeDomain, Key;
    AddressKeys(ip, six);
    NameKeys(name);
  }

  lemma ColonSurvives(s: string)
    requires ':' in s
    ensures ':' in Lower(Strip(s))
  {
    var left, right := StripSplits(s);
    var t := Strip(s);
    assert ':' in left + t + right;
    assert ':' in left + right || ':' in t;
    var j :| 0 <= j < |t| && t[j] == ':';
    assert Lower(t)[j] == ':';
  }
}
