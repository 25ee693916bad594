/** The forms in which a host is written (RFC 3986, section 3.2), names and IPv6 literals, and which of them are
    reduced to one target. */
module Hosts {
  import opened Common
  import opened Text
  import opened Ip
  import opened Scope

  /** A name or IPv4 address, or an IPv6 address, which is put in brackets where a port may follow. */
  datatype Host = Named(name: string) | Literal(address: string)

  predicate LiteralText(a: string) {
    Colons(a) >= 2 && forall i :: 0 <= i < |a| ==> HostChar(a[i]) || a[i] == ':'
  }

  predicate Proper(h: Host) {
    match h
    case Named(name) => PlainHost(name)
    case Literal(address) => LiteralText(address)
  }

  function Bare(h: Host): string {
    match h
    case Named(name) => name
    case Literal(address) => address
  }

  function Bracketed(h: Host): string {
    match h
    case Named(name) => name
    case Literal(address) => "[" + address + "]"
  }

  /** Nothing, or a colon and digits. */
  predicate PortPart(port: string) { port == "" || (port[0] == ':' && AllDigits(port[1..])) }

  function Url(scheme: string, h: Host, port: string, tail: string): string {
    scheme + "://" + (Bracketed(h) + port) + tail
  }

  // ---- Texts without white space ----

  predicate Visible(s: string) { forall i :: 0 <= i < |s| ==> !IsSpace(s[i]) && s[i] > ' ' }

  lemma VisibleConcat(x: string, y: string)
    requires Visible(x) && Visible(y)
    ensures Visible(x + y)
  {
    hide IsSpace;
  }

  lemma LiteralVisible(a: string)
    requires LiteralText(a)
    ensures Visible(a) && '/' !in a && ']' !in a && '[' !in a && '@' !in a && Ascii(a) && a != ""
  {
    assert forall i :: 0 <= i < |a| ==> HostChar(a[i]) || a[i] == ':';
  }

  lemma PortVisible(port: string)
    requires PortPart(port)
    ensures Visible(port) && '/' !in port && '@' !in port && ']' !in port && '[' !in port && Ascii(port) && Lower(port) == port
  {
    if port != "" {
      assert port == ":" + port[1..];
      assert forall i :: 0 < i < |port| ==> port[i] == port[1..][i - 1] && IsDigit(port[1..][i - 1]);
    }
  }

  lemma {:induction false} LowerColons(s: string)
    ensures Colons(Lower(s)) == Colons(s)
    decreases |s|
  {
    if s != "" {
      assert Lower(s)[1..] == Lower(s[1..]);
      LowerColons(s[1..]);
    }
  }

  lemma LowerLiteral(a: string)
    requires LiteralText(a)
    ensures LiteralText(Lower(a))
  {
    LowerColons(a);
    forall i | 0 <= i < |a| ensures HostChar(Lower(a)[i]) || Lower(a)[i] == ':' { assert HostChar(a[i]) || a[i] == ':'; }
  }

  /** Two or more colons and no slash: the text is neither a URL nor host and port. */
  lemma Unreduced(text: string, lib: Lib)
    requires Visible(text) && '/' !in text && Colons(text) >= 2
    ensures NormalizeTarget(text, lib) == Lower(text)
  {
    var t := Lower(text);
    LowerColons(text);
    StripNothing(text);
    forall i | 0 <= i < |t| ensures !IsSpace(t[i]) && t[i] > ' ' && t[i] != '/' {
      assert !IsSpace(text[i]) && text[i] > ' ' && text[i] != '/';
    }
    DeleteNothing(t);
    assert t != "";
    SkipNothing(t);
    NoSlashes(t);
    hide Colons, First, IsSpace, SchemeChar, IsLetter;
  }

  lemma NoSlashes(t: string)
    requires t != "" && '/' !in t && SkipControls(Delete(t)) == t
    ensures Authority(t) == None
  {
    var i := First(t, Colon());
    assert "//"[0] == '/';
    assert forall k :: 0 <= k < |t| ==> t[k] != '/';
    assert i + 1 < |t| ==> t[i + 1..][0] == t[i + 1];
  }

  lemma BracketColons(a: string, port: string)
    ensures Colons("[" + a + "]" + port) == Colons(a) + Colons(port)
  {
    ColonsConcat("[" + a + "]", port);
    ColonsConcat("[" + a, "]");
    ColonsConcat("[", a);
    assert Colons("[") == 0 && Colons("]") == 0 by { assert "["[1..] == "" && "]"[1..] == ""; }
  }

  /** In brackets, with or without a port, a literal stays as it is written. */
  lemma BracketsStay(a: string, port: string, lib: Lib)
    requires LiteralText(a) && PortPart(port)
    ensures NormalizeTarget("[" + a + "]" + port, lib) == Lower("[" + a + "]" + port)
  {
    LiteralVisible(a);
    PortVisible(port);
    BracketsVisible(a, port);
    BracketColons(a, port);
    Unreduced("[" + a + "]" + port, lib);
  }

  predicate AuthorityText(s: string) {
    forall i :: 0 <= i < |s| ==> s[i] < '\U{0080}' && s[i] != '@' && !IsSpace(s[i]) && !AuthorityEnd()(s[i])
  }

  lemma AuthorityConcat(x: string, y: string)
    requires AuthorityText(x) && AuthorityText(y)
    ensures AuthorityText(x + y)
  {
    hide IsSpace;
  }

  lemma AuthorityPieces(a: string, port: string)
    requires LiteralText(a) && PortPart(port)
    ensures AuthorityText("[" + a + "]" + port)
  {
    assert AuthorityText(a) by { assert forall i :: 0 <= i < |a| ==> HostChar(a[i]) || a[i] == ':'; }
    assert AuthorityText(port) by {
      if port != "" { assert forall i :: 0 < i < |port| ==> port[i] == port[1..][i - 1] && IsDigit(port[1..][i - 1]); }
    }
    assert AuthorityText("[") && AuthorityText("]");
    hide AuthorityText;
    AuthorityConcat("[", a);
    AuthorityConcat("[" + a, "]");
    AuthorityConcat("[" + a + "]", port);
  }

  /** What stands between the brackets. */
  lemma BetweenBrackets(a: string, port: string)
    requires ']' !in a
    ensures var s := "[" + a + "]" + port;
      && First(s, (c: char) => c == '[') == 0
      && s[1..][..First(s[1..], (c: char) => c == ']')] == a
  {
    var s := "[" + a + "]" + port;
    assert s[0] == '[';
    FirstIs(s, (c: char) => c == '[', 0);
    var rest := s[1..];
    assert rest == a + "]" + port && rest[|a|] == ']';
    FirstIs(rest, (c: char) => c == ']', |a|);
  }

  /** The host of an authority in brackets. */
  lemma LiteralAuthority(a: string, port: string, lib: Lib)
    requires LiteralText(a) && PortPart(port)
    ensures var authority := "[" + a + "]" + port;
      && HostOf(authority, lib) == (if lib.bracketsOk(authority) then Some(a) else None)
      && authority != "" && forall i :: 0 <= i < |authority| ==> !IsSpace(authority[i]) && !AuthorityEnd()(authority[i])
  {
    var s := "[" + a + "]" + port;
    LiteralVisible(a);
    AuthorityPieces(a, port);
    BetweenBrackets(a, port);
    assert s[0] == '[' && s[|a| + 1] == ']';
    hide IsSpace, First, LiteralText, PortPart;
    assert AfterAt(s) == s;
  }

  lemma LowerBrackets(a: string, port: string)
    requires PortPart(port)
    ensures Lower("[" + a + "]" + port) == "[" + Lower(a) + "]" + port
  {
    PortVisible(port);
    LowerConcat("[" + a + "]", port);
    LowerConcat("[" + a, "]");
    LowerConcat("[", a);
    assert Lower("[") == "[" && Lower("]") == "]";
  }

  lemma BracketsVisible(a: string, port: string)
    requires LiteralText(a) && PortPart(port)
    ensures Visible("[" + a + "]" + port)
  {
    LiteralVisible(a);
    PortVisible(port);
    assert Visible("[") && Visible("]");
    hide Visible;
    VisibleConcat("[", a);
    VisibleConcat("[" + a, "]");
    VisibleConcat("[" + a + "]", port);
  }

  /** The text of a URL on a literal. */
  lemma LiteralUrlText(scheme: string, a: string, port: string, tail: string)
    requires Scheme(scheme) && LiteralText(a) && PortPart(port) && Tail(tail)
    ensures var url := Url(scheme, Literal(a), port, tail);
      && Strip(url) == url && Lower(url) == Url(Lower(scheme), Literal(Lower(a)), port, Lower(tail))
      && (forall i :: 0 <= i < |url| ==> !IsSpace(url[i])) && Colons(url) >= 2 && |url| > |a|
  {
    var authority := "[" + a + "]" + port;
    BracketsVisible(a, port);
    BracketColons(a, port);
    LowerBrackets(a, port);
    UrlIs(scheme, a, port, tail);
    UrlIs(Lower(scheme), Lower(a), port, Lower(tail));
    hide Visible, IsSpace, Url, PortPart, Scheme, Tail;
    SpaceFreeParts(scheme, authority, tail);
    StripNothing(scheme + "://" + authority + tail);
    UrlColons(scheme, authority, tail);
    LowerParts3(scheme, authority, tail);
  }

  lemma UrlColons(scheme: string, authority: string, tail: string)
    ensures Colons(scheme + "://" + authority + tail) >= Colons(authority)
  {
    ColonsConcat(scheme + "://" + authority, tail);
    ColonsConcat(scheme + "://", authority);
  }

  lemma LowerParts3(scheme: string, authority: string, tail: string)
    ensures Lower(scheme + "://" + authority + tail) == Lower(scheme) + "://" + Lower(authority) + Lower(tail)
  {
    LowerConcat(scheme + "://" + authority, tail);
    LowerConcat(scheme + "://", authority);
    LowerConcat(scheme, "://");
    assert Lower("://") == "://";
  }

  lemma SpaceFreeParts(scheme: string, authority: string, tail: string)
    requires Scheme(scheme) && Visible(authority) && Tail(tail)
    ensures var t := scheme + "://" + authority + tail; forall i :: 0 <= i < |t| ==> !IsSpace(t[i])
  {
    var t := scheme + "://" + authority + tail;
    forall i | 0 <= i < |t| ensures !IsSpace(t[i]) {
      var a, b := |scheme| + 3, |scheme| + 3 + |authority|;
      assert i < |scheme| ==> t[i] == scheme[i] && SchemeChar(scheme[i]);
      assert a <= i < b ==> t[i] == authority[i - a];
      assert b <= i ==> t[i] == tail[i - b];
    }
  }

  /** A URL on a literal reduces to the address, if `urlsplit` accepts its brackets, and else stays. */
  lemma LiteralUrl(scheme: string, a: string, port: string, tail: string, lib: Lib)
    requires Scheme(scheme) && LiteralText(a) && PortPart(port) && Tail(tail)
    ensures var url := Url(scheme, Literal(a), port, tail);
      NormalizeTarget(url, lib)
        == if lib.bracketsOk("[" + Lower(a) + "]" + port) then Lower(a) else Lower(url)
  {
    hide *;
    var url, l := Url(scheme, Literal(a), port, tail), Lower(a);
    LiteralUrlText(scheme, a, port, tail);
    LowerLiteral(a);
    LowerParts(scheme, tail);
    LiteralUrlText(Lower(scheme), l, port, Lower(tail));
    LiteralAuthority(l, port, lib);
    UrlIs(Lower(scheme), l, port, Lower(tail));
    AuthorityParts(Lower(scheme), "[" + l + "]" + port, Lower(tail));
    if lib.bracketsOk("[" + l + "]" + port) {
      UrlTarget(url, "[" + l + "]" + port, l, lib);
    } else {
      UrlRefused(url, "[" + l + "]" + port, lib);
    }
  }

  lemma UrlIs(scheme: string, a: string, port: string, tail: string)
    ensures Url(scheme, Literal(a), port, tail) == scheme + "://" + ("[" + a + "]" + port) + tail
  {
  }

  lemma UrlRefused(target: string, authority: string, lib: Lib)
    requires var t := Lower(Strip(target)); Authority(t) == Some(authority) && Colons(t) != 1
    requires HostOf(authority, lib) == None
    ensures NormalizeTarget(target, lib) == Lower(Strip(target))
  {
  }

  // ---- Which forms are one target ----

  lemma BareForm(h: Host, lib: Lib)
    requires Proper(h)
    ensures NormalizeTarget(Bare(h), lib) == Lower(Bare(h))
  {
    match h
    case Named(name) => BareHost(name, lib);
    case Literal(a) =>
      LiteralVisible(a);
      Unreduced(a, lib);
  }

  /** For every host, plain or in brackets: the form with a port is the bare host's target exactly for plain hosts,
      and a URL is exactly for plain hosts and for the literals that `urlsplit` accepts. */
  lemma FormsReduceIff(h: Host, digits: string, scheme: string, port: string, tail: string, lib: Lib)
    requires Proper(h) && AllDigits(digits) && Scheme(scheme) && PortPart(port) && Tail(tail)
    ensures var target := NormalizeTarget(Bare(h), lib);
      && (NormalizeTarget(Bracketed(h) + ":" + digits, lib) == target <==> h.Named?)
      && (NormalizeTarget(Bracketed(h), lib) == target <==> h.Named?)
      && (NormalizeTarget(Url(scheme, h, port, tail), lib) == target <==>
            h.Named? || lib.bracketsOk("[" + Lower(h.address) + "]" + port))
  {
    BareForm(h, lib);
    match h
    case Named(name) =>
      HostPort(name, digits, lib);
      UrlForm(scheme, name, port, tail, lib);
    case Literal(a) => LiteralForms(a, digits, scheme, port, tail, lib);
  }

  lemma LiteralForms(a: string, digits: string, scheme: string, port: string, tail: string, lib: Lib)
    requires LiteralText(a) && AllDigits(digits) && Scheme(scheme) && PortPart(port) && Tail(tail)
    ensures NormalizeTarget("[" + a + "]" + ":" + digits, lib) != Lower(a)
    ensures NormalizeTarget("[" + a + "]", lib) != Lower(a)
    ensures NormalizeTarget(Url(scheme, Literal(a), port, tail), lib) == Lower(a)
      <==> lib.bracketsOk("[" + Lower(a) + "]" + port)
  {
    PortOfDigits(digits);
    hide *;
    assert "[" + a + "]" + "" == "[" + a + "]";
    assert "[" + a + "]" + (":" + digits) == "[" + a + "]" + ":" + digits;
    EmptyPort();
    BracketsStay(a, ":" + digits, lib);
    BracketsStay(a, "", lib);
    LiteralUrl(scheme, a, port, tail, lib);
    LiteralUrlText(scheme, a, port, tail);
    assert |Lower("[" + a + "]" + ":" + digits)| > |Lower(a)| && |Lower("[" + a + "]")| > |Lower(a)|;
  }

  lemma EmptyPort()
    ensures PortPart("")
  {
  }

  lemma PortOfDigits(digits: string)
    requires AllDigits(digits)
    ensures PortPart(":" + digits)
  {
    assert (":" + digits)[1..] == digits;
  }

  // ---- What that means for patterns ----

  predicate TwoSlashes(s: string) { exists i, j :: 0 <= i < j < |s| && s[i] == '/' && s[j] == '/' }

  /** `ipaddress` takes no text that starts with a bracket or has two slashes. (Brackets inside it does take: they
      may occur in the zone of an address, as in "fe80::1%[".) */
  ghost predicate IpSyntax(lib: Lib) {
    forall s: string :: s != "" && (s[0] == '[' || TwoSlashes(s)) ==> lib.six.address(s) == None && lib.six.network(s) == None
  }

  /** Text that is neither IPv4 nor a pattern with a special start. */
  predicate Worded(s: string) { s != "" && !IsDigit(s[0]) && s[0] != '.' && s[0] != '/' && s[0] != '*' }

  lemma WordIsNoIp4(s: string)
    requires Worded(s)
    ensures ParseIp4(s) == None && ParseNet4(s) == None
  {
    var first := Split(s, '/')[0];
    assert first[0] == s[0];
    FirstOctet(s);
    FirstOctet(first);
    hide Split, ParseOctet;
  }

  lemma FirstOctet(s: string)
    requires s != "" && !IsDigit(s[0]) && s[0] != '.'
    ensures ParseOctet(Split(s, '.')[0]) == None
  {
    assert Split(s, '.')[0][0] == s[0];
  }

  lemma NoAddressText(s: string, lib: Lib)
    requires IpSyntax(lib) && Worded(s) && (s[0] == '[' || TwoSlashes(s))
    ensures ParseAddress(s, lib.six) == None && ParseNetwork(s, lib.six) == None
  {
    WordIsNoIp4(s);
    hide ParseIp4, ParseNet4;
  }

  /** The target that a literal in brackets with a port is taken for. */
  function PortTarget(a: string, digits: string): string { "[" + Lower(a) + "]" + ":" + digits }

  lemma PortTargetIs(a: string, digits: string, lib: Lib)
    requires LiteralText(a) && AllDigits(digits)
    ensures NormalizeTarget("[" + a + "]" + ":" + digits, lib) == PortTarget(a, digits)
    ensures Lower(Strip(PortTarget(a, digits))) == PortTarget(a, digits)
    ensures '/' !in PortTarget(a, digits)
  {
    var l, port := Lower(a), ":" + digits;
    assert ("[" + a + "]") + (":" + digits) == "[" + a + "]" + ":" + digits;
    assert "[" + l + "]" + port == PortTarget(a, digits);
    hide *;
    PortOfDigits(digits);
    BracketsStay(a, port, lib);
    LowerBrackets(a, port);
    LowerLiteral(a);
    LowerBrackets(l, port);
    LowerTwice(a);
    BracketsPlain(l, port);
  }

  lemma BracketsPlain(a: string, port: string)
    requires LiteralText(a) && PortPart(port)
    ensures var t := "[" + a + "]" + port; Strip(t) == t && '/' !in t
  {
    BracketsVisible(a, port);
    LiteralVisible(a);
    PortVisible(port);
    hide LiteralText, PortPart;
    StripNothing("[" + a + "]" + port);
  }

  lemma LowerTwice(s: string)
    ensures Lower(Lower(s)) == Lower(s)
  {
  }

  /** The form is taken for t, which as a pattern matches the form and not the bare host. */
  ghost predicate Apart(form: string, h: Host, t: string, lib: Lib) {
    TargetMatches(form, t, lib) && !TargetMatches(Bare(h), t, lib)
  }

  lemma OwnPatternOnly(form: string, h: Host, t: string, lib: Lib)
    requires Proper(h) && NormalizeTarget(form, lib) == t == Lower(Strip(t))
    requires Worded(t) && (t[0] == '[' || TwoSlashes(t)) && IpSyntax(lib) && |t| > |Bare(h)|
    ensures Apart(form, h, t, lib)
  {
    assert t != "" && |t| > |Lower(Bare(h))|;
    hide *;
    BareForm(h, lib);
    NoAddressText(t, lib);
    MatchesIs(form, t, lib);
    MatchesIs(Bare(h), t, lib);
    MatchesItself(t, lib);
    TooLong(Lower(Bare(h)), t, lib);
    ApartIs(form, h, t, lib);
  }

  lemma ApartIs(form: string, h: Host, t: string, lib: Lib)
    ensures Apart(form, h, t, lib) <==> TargetMatches(form, t, lib) && !TargetMatches(Bare(h), t, lib)
  {
  }

  lemma MatchesItself(t: string, lib: Lib)
    requires t != ""
    ensures Matches(t, t, lib)
  {
  }

  /** A name pattern matches no shorter target. */
  lemma TooLong(t: string, p: string, lib: Lib)
    requires |p| > |t| && Worded(p) && ParseNetwork(p, lib.six) == None
    ensures !Matches(t, p, lib)
  {
    hide ParseNetwork, ParseAddress;
    assert "*"[0] == '*' && "*."[0] == '*' && "."[0] == '.';
  }

  lemma MatchesIs(target: string, pattern: string, lib: Lib)
    ensures TargetMatches(target, pattern, lib) == Matches(NormalizeTarget(target, lib), Lower(Strip(pattern)), lib)
  {
  }

  lemma PortFormApart(a: string, digits: string, lib: Lib)
    requires LiteralText(a) && AllDigits(digits) && IpSyntax(lib)
    ensures Apart("[" + a + "]" + ":" + digits, Literal(a), PortTarget(a, digits), lib)
  {
    var t := PortTarget(a, digits);
    assert t[0] == '[' && |t| > |a|;
    assert Worded(t);
    hide LiteralText, PortTarget, Apart, NormalizeTarget, IpSyntax;
    PortTargetIs(a, digits, lib);
    OwnPatternOnly("[" + a + "]" + ":" + digits, Literal(a), t, lib);
  }

  lemma RefusedUrlApart(scheme: string, a: string, port: string, tail: string, lib: Lib)
    requires Scheme(scheme) && LiteralText(a) && PortPart(port) && Tail(tail) && IpSyntax(lib)
    requires !lib.bracketsOk("[" + Lower(a) + "]" + port)
    ensures Apart(Url(scheme, Literal(a), port, tail), Literal(a), Lower(Url(scheme, Literal(a), port, tail)), lib)
  {
    hide *;
    var url := Url(scheme, Literal(a), port, tail);
    LiteralUrl(scheme, a, port, tail, lib);
    LiteralUrlText(scheme, a, port, tail);
    LowerLiteral(a);
    LowerParts(scheme, tail);
    LiteralUrlText(Lower(scheme), Lower(a), port, Lower(tail));
    LowerTwice(url);
    UrlWorded(Lower(scheme), Lower(a), port, Lower(tail));
    BareIs(a);
    OwnPatternOnly(url, Literal(a), Lower(url), lib);
  }

  lemma BareIs(a: string)
    ensures Bare(Literal(a)) == a && (LiteralText(a) ==> Proper(Literal(a)))
  {
  }

  lemma UrlWorded(scheme: string, a: string, port: string, tail: string)
    requires Scheme(scheme)
    ensures Worded(Url(scheme, Literal(a), port, tail)) && TwoSlashes(Url(scheme, Literal(a), port, tail))
  {
    var url := Url(scheme, Literal(a), port, tail);
    assert url[0] == scheme[0] && url[|scheme| + 1] == '/' && url[|scheme| + 2] == '/';
  }

  /** The form with a port matches the same patterns as the bare host exactly for plain hosts. */
  lemma PortFormMatchesIff(h: Host, digits: string, lib: Lib)
    requires Proper(h) && AllDigits(digits) && IpSyntax(lib)
    ensures (forall pattern :: TargetMatches(Bracketed(h) + ":" + digits, pattern, lib) == TargetMatches(Bare(h), pattern, lib))
      <==> h.Named?
  {
    match h
    case Named(name) =>
      BareHost(name, lib);
      HostPort(name, digits, lib);
      hide NormalizeTarget, Matches;
    case Literal(a) =>
      PortFormApart(a, digits, lib);
      hide TargetMatches, LiteralText, PortTarget, IpSyntax;
  }

  /** A URL matches the same patterns as the bare host exactly for plain hosts and for the literals that
      `urlsplit` accepts. */
  lemma UrlMatchesIff(h: Host, scheme: string, port: string, tail: string, lib: Lib)
    requires Proper(h) && Scheme(scheme) && PortPart(port) && Tail(tail) && IpSyntax(lib)
    ensures (forall pattern :: TargetMatches(Url(scheme, h, port, tail), pattern, lib) == TargetMatches(Bare(h), pattern, lib))
      <==> h.Named? || lib.bracketsOk("[" + Lower(h.address) + "]" + port)
  {
    match h
    case Named(name) =>
      BareHost(name, lib);
      UrlForm(scheme, name, port, tail, lib);
      hide NormalizeTarget, Matches;
    case Literal(a) =>
      if lib.bracketsOk("[" + Lower(a) + "]" + port) {
        BareForm(h, lib);
        LiteralUrl(scheme, a, port, tail, lib);
        hide NormalizeTarget, Matches, LiteralText, IpSyntax, Url;
      } else {
        RefusedUrlApart(scheme, a, port, tail, lib);
        hide TargetMatches, LiteralText, IpSyntax, Url;
      }
  }

  /** The pattern is a network with a prefix length that holds the address. */
  predicate HeldBy(a: string, pattern: string, lib: Lib) {
    var p := Lower(Strip(pattern));
    && '/' in p && !StartsWith(p, "*.")
    && ParseNetwork(p, lib.six).Some? && ParseAddress(Lower(a), lib.six).Some?
    && Contains(ParseNetwork(p, lib.six).value, ParseAddress(Lower(a), lib.six).value)
  }

  /** The bare address and a URL on it are matched by every network that holds it; in brackets with a port it is
      matched by no network that is written with a prefix length. */
  lemma NetworkMissesPortForm(a: string, digits: string, scheme: string, port: string, tail: string, pattern: string, lib: Lib)
    requires LiteralText(a) && AllDigits(digits) && Scheme(scheme) && PortPart(port) && Tail(tail) && IpSyntax(lib)
    requires lib.bracketsOk("[" + Lower(a) + "]" + port)
    requires HeldBy(a, pattern, lib)
    ensures TargetMatches(a, pattern, lib)
    ensures TargetMatches(Url(scheme, Literal(a), port, tail), pattern, lib)
    ensures !TargetMatches("[" + a + "]" + ":" + digits, pattern, lib)
  {
    BareForm(Literal(a), lib);
    var p, t := Lower(Strip(pattern)), PortTarget(a, digits);
    LiteralVisible(a);
    assert t[0] == '[' && Lower(a) != "";
    assert Worded(t);
    assert '/' in p && !StartsWith(p, "*.")
      && ParseNetwork(p, lib.six).Some? && ParseAddress(Lower(a), lib.six).Some?
      && Contains(ParseNetwork(p, lib.six).value, ParseAddress(Lower(a), lib.six).value);
    hide *;
    LiteralUrl(scheme, a, port, tail, lib);
    PortTargetIs(a, digits, lib);
    NoAddressText(t, lib);
    MatchesIs(a, pattern, lib);
    MatchesIs(Url(scheme, Literal(a), port, tail), pattern, lib);
    MatchesIs("[" + a + "]" + ":" + digits, pattern, lib);
    HeldByNetwork(Lower(a), p, lib);
    NotHeldByText(t, p, lib);
  }

  lemma HeldByNetwork(t: string, p: string, lib: Lib)
    requires t != "" && p != "" && !StartsWith(p, "*.")
    requires ParseNetwork(p, lib.six).Some? && ParseAddress(t, lib.six).Some?
    requires Contains(ParseNetwork(p, lib.six).value, ParseAddress(t, lib.six).value)
    ensures Matches(t, p, lib)
  {
    hide ParseNetwork, ParseAddress, Contains;
  }

  lemma NotHeldByText(t: string, p: string, lib: Lib)
    requires '/' in p && '/' !in t && !StartsWith(p, "*.") && ParseAddress(t, lib.six) == None
    ensures !Matches(t, p, lib)
  {
    hide ParseNetwork, ParseAddress;
    SlashIsNoEnd(t, p);
  }

  lemma SlashIsNoEnd(t: string, p: string)
    requires '/' in p && '/' !in t
    ensures t != p && !EndsWith(t, p) && !EndsWith(t, "." + p) && p != "" && p != "*"
  {
    var i :| 0 <= i < |p| && p[i] == '/';
    assert |p| <= |t| ==> t[|t| - |p|..][i] in t;
    if |p| < |t| { assert t[|t| - |p| - 1..][i + 1] in t && ("." + p)[i + 1] == '/'; }
    assert "*"[0] == '*';
  }

  // ---- User information ----

  /** What may stand before the '@' of an authority. */
  predicate UserInfo(user: string) {
    forall i :: 0 <= i < |user| ==>
      ' ' < user[i] < '\U{0080}' && !IsSpace(user[i]) && !AuthorityEnd()(user[i]) && user[i] != '[' && user[i] != ']'
  }

  lemma {:induction false} AfterLastAt(user: string, rest: string)
    requires '@' !in rest
    ensures AfterAt(user + "@" + rest) == rest
    decreases |user|
  {
    hide *;
    var s := user + "@" + rest;
    var i := First(s, At());
    AfterNext(s);
    FirstAtParts(user, rest);
    if i < |user| { AfterLastAt(user[i + 1..], rest); } else { AfterNext(rest); }
  }

  lemma FirstAtParts(user: string, rest: string)
    ensures var s := user + "@" + rest;
      var i := First(s, At());
      && '@' in s && i <= |user|
      && s[i + 1..] == if i < |user| then user[i + 1..] + "@" + rest else rest
  {
    hide First;
    var s := user + "@" + rest;
    assert s[|user|] == '@';
  }

  lemma AfterNext(s: string)
    ensures AfterAt(s) == if '@' in s then AfterAt(s[First(s, At()) + 1..]) else s
  {
  }

  lemma UserAuthority(user: string, h: string, port: string, lib: Lib)
    requires UserInfo(user) && PlainHost(h) && PortPart(port)
    ensures var authority := user + "@" + (h + port);
      && HostOf(authority, lib) == Some(h)
      && authority != "" && forall i :: 0 <= i < |authority| ==> !IsSpace(authority[i]) && !AuthorityEnd()(authority[i])
  {
    var rest, authority := h + port, user + "@" + (h + port);
    PlainRest(h, port);
    AfterLastAt(user, rest);
    forall i | 0 <= i < |authority|
      ensures authority[i] < '\U{0080}' && authority[i] != '[' && authority[i] != ']'
        && !IsSpace(authority[i]) && !AuthorityEnd()(authority[i])
    {
      assert i < |user| ==> authority[i] == user[i];
      assert i > |user| ==> authority[i] == rest[i - |user| - 1];
    }
    FirstIs(rest, Colon(), |h|);
    assert rest[..|h|] == h;
  }

  lemma PlainRest(h: string, port: string)
    requires PlainHost(h) && PortPart(port)
    ensures var rest := h + port;
      && '@' !in rest && (forall i :: 0 <= i < |h| ==> rest[i] != ':') && (|h| < |rest| ==> rest[|h|] == ':')
      && forall i :: 0 <= i < |rest| ==>
           rest[i] < '\U{0080}' && rest[i] != '[' && rest[i] != ']' && !IsSpace(rest[i]) && !AuthorityEnd()(rest[i])
  {
    PortVisible(port);
    var rest := h + port;
    forall i | 0 <= i < |rest|
      ensures rest[i] < '\U{0080}' && rest[i] != '[' && rest[i] != ']' && rest[i] != '@'
        && !IsSpace(rest[i]) && !AuthorityEnd()(rest[i])
    {
      assert i < |h| ==> rest[i] == h[i] && HostChar(h[i]);
      assert i > |h| ==> rest[i] == port[1..][i - |h| - 1] && IsDigit(port[1..][i - |h| - 1]);
    }
    assert forall i :: 0 <= i < |h| ==> rest[i] == h[i] && HostChar(h[i]);
  }

  /** A URL with user information reduces to its host all the same. */
  lemma UserUrl(scheme: string, user: string, h: string, port: string, tail: string, lib: Lib)
    requires Scheme(scheme) && UserInfo(user) && PlainHost(h) && PortPart(port) && Tail(tail)
    ensures NormalizeTarget(scheme + "://" + (user + "@" + (h + port)) + tail, lib) == Lower(h)
  {
    var authority, url := user + "@" + (h + port), scheme + "://" + (user + "@" + (h + port)) + tail;
    var l := Lower(user) + "@" + (Lower(h) + port);
    assert Visible("@");
    UserVisible(user);
    PlainVisible(h);
    PortVisible(port);
    LowerUser(user);
    LowerHost(h);
    assert Lower("@") == "@";
    hide *;
    VisibleConcat(h, port);
    VisibleConcat(user, "@");
    VisibleConcat(user + "@", h + port);
    SpaceFreeParts(scheme, authority, tail);
    StripNothing(url);
    LowerParts3(scheme, authority, tail);
    LowerConcat(user + "@", h + port);
    LowerConcat(user, "@");
    LowerConcat(h, port);
    LowerParts(scheme, tail);
    UserAuthority(Lower(user), Lower(h), port, lib);
    LowerVisible(authority);
    SpaceFreeParts(Lower(scheme), l, Lower(tail));
    AuthorityParts(Lower(scheme), l, Lower(tail));
    UrlTarget(url, l, Lower(h), lib);
  }

  lemma UserVisible(user: string)
    requires UserInfo(user)
    ensures Visible(user)
  {
  }

  lemma PlainVisible(h: string)
    requires PlainHost(h)
    ensures Visible(h)
  {
    assert forall i :: 0 <= i < |h| ==> HostChar(h[i]);
  }

  lemma LowerUser(user: string)
    requires UserInfo(user)
    ensures UserInfo(Lower(user))
  {
    hide IsSpace;
    forall i | 0 <= i < |user| ensures !IsSpace(Lower(user)[i]) { LowerSpace(user[i]); }
  }

  lemma LowerSpace(c: char)
    ensures IsSpace(LowerChar(c)) <==> IsSpace(c)
  {
  }

  lemma LowerVisible(s: string)
    requires Visible(s)
    ensures Visible(Lower(s))
  {
    forall i | 0 <= i < |s| ensures !IsSpace(Lower(s)[i]) && Lower(s)[i] > ' ' { LowerSpace(s[i]); }
  }
}
