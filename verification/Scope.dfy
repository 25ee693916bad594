/** Reducing a target to its host, and matching it against a scope pattern. */
module Scope {
  import opened Common
  import opened Text
  import opened Ip

  /** What is left to the libraries: IPv6 text, and which authorities `urlsplit` accepts, of those with brackets
      and of those with characters outside ASCII. */
  datatype Lib = Lib(six: Ip6, bracketsOk: string -> bool, normalFormOk: string -> bool)

  // ---- urlsplit (RFC 3986, section 3) ----

  /** `urlsplit` deletes these, and skips control characters and blanks at the front. */
  predicate Deleted(c: char) { c == '\t' || c == '\r' || c == '\n' }

  function Delete(s: string): string {
    if s == "" then "" else (if Deleted(s[0]) then "" else [s[0]]) + Delete(s[1..])
  }

  function SkipControls(s: string): string {
    if s != "" && s[0] <= ' ' then SkipControls(s[1..]) else s
  }

  predicate IsLetter(c: char) { 'a' <= c <= 'z' || 'A' <= c <= 'Z' }

  predicate SchemeChar(c: char) { IsLetter(c) || IsDigit(c) || c == '+' || c == '-' || c == '.' }

  /** The position of the first character with property p, or the length. */
  function First(s: string, p: char -> bool): (i: nat)
    ensures i <= |s|
    ensures forall j :: 0 <= j < i ==> !p(s[j])
    ensures i < |s| ==> p(s[i])
  {
    if s == "" || p(s[0]) then 0 else 1 + First(s[1..], p)
  }

  function Colon(): char -> bool { c => c == ':' }

  function AuthorityEnd(): char -> bool { c => c == '/' || c == '?' || c == '#' }

  /** What follows "scheme://", up to the path, query or fragment. */
  function Authority(t: string): Option<string> {
    var u := SkipControls(Delete(t));
    var i := First(u, Colon());
    if 0 < i < |u| && IsLetter(u[0]) && (forall j :: 0 <= j < i ==> SchemeChar(u[j])) && StartsWith(u[i + 1..], "//")
    then
      var rest := u[i + 3..];
      Some(rest[..First(rest, AuthorityEnd())])
    else None
  }

  function At(): char -> bool { c => c == '@' }

  /** The part after the last '@'. */
  function AfterAt(s: string): string {
    if '@' in s then AfterAt(s[First(s, At()) + 1..]) else s
  }

  /** The host of an authority, without user information, brackets and port; None where there is none or it is malformed. */
  function HostOf(authority: string, lib: Lib): Option<string> {
    if !Ascii(authority) && !lib.normalFormOk(authority) then None
    else if '[' in authority || ']' in authority then
      if '[' in authority && ']' in authority && lib.bracketsOk(authority) then
        var h := AfterAt(authority);
        var b := First(h, (c: char) => c == '[');
        if b == |h| then NonEmpty(h[..First(h, Colon())])
        else NonEmpty(h[b + 1..][..First(h[b + 1..], (c: char) => c == ']')])
      else None
    else
      var h := AfterAt(authority);
      NonEmpty(h[..First(h, Colon())])
  }

  predicate Ascii(s: string) { forall i :: 0 <= i < |s| ==> s[i] < '\U{0080}' }

  function NonEmpty(s: string): Option<string> { if s == "" then None else Some(s) }

  function UrlHost(t: string, lib: Lib): Option<string> {
    match Authority(t)
    case None => None
    case Some(a) => HostOf(a, lib)
  }

  function Colons(s: string): nat {
    if s == "" then 0 else (if s[0] == ':' then 1 else 0) + Colons(s[1..])
  }

  function NormalizeTarget(target: string, lib: Lib): string {
    var t := Lower(Strip(target));
    match UrlHost(t, lib)
    case Some(h) => h
    case None =>
      if Colons(t) == 1 then
        var i := First(t, Colon());
        if i < |t| && i > 0 && AllDigits(t[i + 1..]) then t[..i] else t
      else t
  }

  // ---- Matching ----

  function TargetMatches(target: string, pattern: string, lib: Lib): bool {
    Matches(NormalizeTarget(target, lib), Lower(Strip(pattern)), lib)
  }

  /** The decision on a normalized target and pattern. */
  function Matches(t: string, p: string, lib: Lib): bool {
    if t == "" || p == "" then false
    else if p == "*" then true
    else if t == p then true
    else
      var q := if StartsWith(p, "*.") then p[1..] else p;
      match (ParseNetwork(q, lib.six), ParseAddress(t, lib.six))
      case (Some(net), Some(a)) => Contains(net, a)
      case _ =>
        if StartsWith(q, ".") then EndsWith(t, q) && t != q[1..]
        else EndsWith(t, "." + q)
  }

  // ---- Labels ----

  function Labels(name: string): seq<string> { Split(name, '.') }

  predicate IsSuffix<T(==)>(x: seq<T>, y: seq<T>) { |x| <= |y| && y[|y| - |x|..] == x }

  lemma EndingHasLabels(t: string, p: string)
    requires EndsWith(t, "." + p)
    ensures IsSuffix(Labels(p), Labels(t)) && |Labels(p)| < |Labels(t)|
  {
    var x := t[..|t| - |p| - 1];
    assert "." + p == ['.'] + p;
    assert t == x + ['.'] + p;
    SplitConcat(x, '.', p);
  }

  lemma LabelsHaveEnding(t: string, p: string)
    requires IsSuffix(Labels(p), Labels(t))
    ensures |Labels(p)| < |Labels(t)| ==> EndsWith(t, "." + p)
    ensures |Labels(p)| == |Labels(t)| ==> t == p
  {
    hide Split, Join;
    var n := |Labels(t)| - |Labels(p)|;
    var front := Labels(t)[..n];
    assert Labels(t) == front + Labels(p);
    JoinSplit(t, '.');
    JoinSplit(p, '.');
    if n > 0 {
      JoinConcat(front, Labels(p), '.');
      assert "." + p == ['.'] + p;
      assert t == Join(front, '.') + ("." + p);
    } else {
      assert Labels(t) == Labels(p);
    }
  }

  /** Ending in "." + p, or being p, is having p's labels last. */
  lemma SuffixIsLabels(t: string, p: string)
    ensures t == p || EndsWith(t, "." + p) <==> IsSuffix(Labels(p), Labels(t))
    ensures EndsWith(t, "." + p) <==> IsSuffix(Labels(p), Labels(t)) && |Labels(p)| < |Labels(t)|
  {
    hide Split, EndsWith;
    if EndsWith(t, "." + p) { EndingHasLabels(t, p); }
    if IsSuffix(Labels(p), Labels(t)) { LabelsHaveEnding(t, p); }
  }

  /** A pattern that is neither a wildcard nor dotted in front. */
  predicate NamePattern(p: string) {
    p != "" && p != "*" && !StartsWith(p, ".") && !StartsWith(p, "*.")
  }

  /** The pair is not decided as an address in a network. */
  predicate AsText(t: string, p: string, lib: Lib) {
    ParseNetwork(p, lib.six) == None || ParseAddress(t, lib.six) == None
  }

  /** A name pattern covers exactly the name itself and everything below it in the label hierarchy. */
  lemma NameMatchIff(t: string, p: string, lib: Lib)
    requires NamePattern(p) && AsText(t, p, lib) && t != ""
    ensures Matches(t, p, lib) <==> IsSuffix(Labels(p), Labels(t))
  {
    SuffixIsLabels(t, p);
  }

  lemma DottedStrings(t: string, name: string)
    ensures ("." + name)[1..] == name && ("*." + name)[1..] == "." + name
    ensures StartsWith("." + name, ".") && StartsWith("*." + name, "*.") && !StartsWith("." + name, "*.")
    ensures "." + name != "*" && "*." + name != "*"
    ensures EndsWith(t, "." + name) ==> t != name
    ensures t == "." + name || t == "*." + name ==> EndsWith(t, "." + name)
  {
    var dotted, starred := "." + name, "*." + name;
    assert |dotted| == |name| + 1 && dotted[0] == '.' && |starred| == |name| + 2 && starred[0] == '*';
    assert dotted[1..] == name && starred[1..] == dotted;
    assert dotted[0..] == dotted;
    assert "*."[0] == '*';
  }

  /** ".name" and "*.name" cover exactly what is strictly below the name. */
  lemma DottedMatchIff(t: string, name: string, lib: Lib)
    requires t != "" && AsText(t, "." + name, lib)
    ensures Matches(t, "." + name, lib) <==> IsSuffix(Labels(name), Labels(t)) && |Labels(name)| < |Labels(t)|
    ensures Matches(t, "*." + name, lib) <==> IsSuffix(Labels(name), Labels(t)) && |Labels(name)| < |Labels(t)|
  {
    hide Labels, IsSuffix, EndsWith, StartsWith, ParseNetwork, ParseAddress, Contains;
    SuffixIsLabels(t, name);
    DottedStrings(t, name);
  }

  /** Scope is inherited: what matches a name that is itself in scope is in scope. */
  lemma MatchTransitive(a: string, b: string, c: string, lib: Lib)
    requires a != "" && NamePattern(b) && NamePattern(c)
    requires AsText(a, b, lib) && AsText(b, c, lib) && AsText(a, c, lib)
    requires Matches(a, b, lib) && Matches(b, c, lib)
    ensures Matches(a, c, lib)
  {
    NameMatchIff(a, b, lib);
    NameMatchIff(b, c, lib);
    NameMatchIff(a, c, lib);
    hide Matches, Labels;
    var x, y, z := Labels(a), Labels(b), Labels(c);
    assert x[|x| - |z|..] == x[|x| - |y|..][|y| - |z|..];
  }

  /** A network pattern decides by membership for every target that is an address. */
  lemma NetworkMatchIff(t: string, p: string, lib: Lib)
    requires ParseNetwork(p, lib.six).Some? && ParseAddress(t, lib.six).Some? && t != p
    requires t != "" && p != "" && p != "*" && !StartsWith(p, "*.")
    ensures var net, a := ParseNetwork(p, lib.six).value, ParseAddress(t, lib.six).value;
      Matches(t, p, lib) <==>
        net.Net4? == a.V4?
        && Masked(net.base, HostBits(net)) <= a.n < Masked(net.base, HostBits(net)) + Pow2(HostBits(net))
  {
    var net, a := ParseNetwork(p, lib.six).value, ParseAddress(t, lib.six).value;
    MaskedIsInterval(a.n, net.base, HostBits(net));
  }

  // ---- Host, host:port and URL forms ----

  /** Characters that can stand in a host name: ASCII, no white space, and none of the delimiters of an authority. */
  predicate HostChar(c: char) {
    !IsSpace(c) && ' ' < c < '\U{0080}' && c != ':' && c != '/' && c != '?' && c != '#' && c != '@' && c != '[' && c != ']'
  }

  predicate PlainHost(h: string) { h != "" && forall i :: 0 <= i < |h| ==> HostChar(h[i]) }

  predicate Scheme(s: string) { s != "" && IsLetter(s[0]) && forall i :: 0 <= i < |s| ==> SchemeChar(s[i]) }

  /** Nothing, or a path, query or fragment without white space. */
  predicate Tail(s: string) {
    (s == "" || s[0] == '/' || s[0] == '?' || s[0] == '#') && forall i :: 0 <= i < |s| ==> !IsSpace(s[i])
  }

  lemma LowerConcat(x: string, y: string)
    ensures Lower(x + y) == Lower(x) + Lower(y)
  {
  }

  lemma StripNothing(s: string)
    requires forall i :: 0 <= i < |s| ==> !IsSpace(s[i])
    ensures Strip(s) == s
  {
    StripSpaceFree(s);
  }

  lemma {:induction false} DeleteNothing(s: string)
    requires forall i :: 0 <= i < |s| ==> !IsSpace(s[i])
    ensures Delete(s) == s
    decreases |s|
  {
    if s != "" {
      DeleteNothing(s[1..]);
      assert s == [s[0]] + s[1..];
      assert !IsSpace(s[0]);
    }
  }

  lemma FirstIs(s: string, p: char -> bool, i: nat)
    requires i <= |s| && (forall j :: 0 <= j < i ==> !p(s[j])) && (i < |s| ==> p(s[i]))
    ensures First(s, p) == i
  {
  }

  lemma {:induction false} ColonsConcat(x: string, y: string)
    ensures Colons(x + y) == Colons(x) + Colons(y)
    decreases |x|
  {
    if x == "" {
      assert x + y == y;
    } else {
      assert (x + y)[1..] == x[1..] + y;
      ColonsConcat(x[1..], y);
    }
  }

  lemma NoColons(s: string)
    requires ':' !in s
    ensures Colons(s) == 0
  {
  }

  lemma LowerHost(h: string)
    requires PlainHost(h)
    ensures PlainHost(Lower(h)) && ':' !in Lower(h) && '@' !in Lower(h) && '[' !in Lower(h) && ']' !in Lower(h)
  {
    forall i | 0 <= i < |h| ensures HostChar(Lower(h)[i]) { assert HostChar(h[i]); }
  }

  lemma LowerDigits(s: string)
    requires AllDigits(s)
    ensures Lower(s) == s
  {
  }

  lemma BareHost(h: string, lib: Lib)
    requires PlainHost(h)
    ensures NormalizeTarget(h, lib) == Lower(h)
  {
    LowerHost(h);
    StripNothing(h);
    var t := Lower(h);
    DeleteNothing(t);
    assert SkipControls(t) == t;
    FirstIs(t, Colon(), |t|);
    NoColons(t);
  }

  lemma HostPort(h: string, port: string, lib: Lib)
    requires PlainHost(h) && AllDigits(port)
    ensures NormalizeTarget(h + ":" + port, lib) == Lower(h)
  {
    LowerHost(h);
    LowerDigits(port);
    StripNothing(h + ":" + port);
    LowerConcat(h + ":", port);
    LowerConcat(h, ":");
    var t := Lower(h) + ":" + port;
    assert Lower(":") == ":";
    assert Lower(h + ":" + port) == t;
    hide PlainHost, Lower, Split;
    HostPortParts(Lower(h), port, lib);
  }

  lemma HostPortParts(h: string, port: string, lib: Lib)
    requires PlainHost(h) && ':' !in h && AllDigits(port)
    ensures var t := h + ":" + port;
      && Authority(t) == None
      && Colons(t) == 1 && First(t, Colon()) == |h| && t[|h| + 1..] == port && t[..|h|] == h
  {
    var t := h + ":" + port;
    forall i | 0 <= i < |t| ensures !IsSpace(t[i]) && t[i] > ' ' {
      assert i < |h| ==> t[i] == h[i];
      assert i > |h| ==> t[i] == port[i - |h| - 1];
    }
    DeleteNothing(t);
    assert SkipControls(t) == t;
    FirstIs(t, Colon(), |h|);
    assert t[|h| + 1..] == port;
    assert !StartsWith(port, "//") by { assert IsDigit(port[0]); }
    ColonsConcat(h + ":", port);
    ColonsConcat(h, ":");
    NoColons(h);
    NoColons(port);
    assert ":"[1..] == "";
  }

  /** The scheme is what stands before the first colon. */
  lemma SchemeParts(s: string, after: string)
    requires Scheme(s)
    ensures var t := s + (":" + after);
      && First(t, Colon()) == |s| && |s| < |t| && IsLetter(t[0]) && t[0] > ' '
      && (forall j :: 0 <= j < |s| ==> SchemeChar(t[j]))
      && t[|s| + 1..] == after
  {
    var t := s + (":" + after);
    forall j | 0 <= j < |s| ensures t[j] != ':' && SchemeChar(t[j]) { assert t[j] == s[j]; }
    assert t[|s|] == ':';
    FirstIs(t, Colon(), |s|);
  }

  lemma AuthorityParts(s: string, host: string, tail: string)
    requires Scheme(s) && Tail(tail) && host != ""
    requires forall i :: 0 <= i < |host| ==> !IsSpace(host[i]) && !AuthorityEnd()(host[i])
    requires forall i :: 0 <= i < |s + "://" + host + tail| ==> !IsSpace((s + "://" + host + tail)[i])
    ensures Authority(s + "://" + host + tail) == Some(host)
  {
    hide SchemeChar, IsLetter, IsSpace, Scheme, First, SkipControls, Delete;
    var t, rest := s + "://" + host + tail, host + tail;
    DeleteNothing(t);
    UrlRegroup(s, host, tail);
    SchemeParts(s, "//" + rest);
    SchemeNonEmpty(s);
    SkipNothing(t);
    FirstIs(rest, AuthorityEnd(), |host|);
  }

  lemma SkipNothing(t: string)
    requires t != "" && t[0] > ' '
    ensures SkipControls(t) == t
  {
  }

  lemma UrlRegroup(s: string, host: string, tail: string)
    ensures var t, rest := s + "://" + host + tail, host + tail;
      && t == s + (":" + ("//" + rest))
      && "//" <= "//" + rest
      && t[|s| + 3..] == rest && rest[..|host|] == host
  {
  }

  lemma SchemeNonEmpty(s: string)
    requires Scheme(s)
    ensures s != ""
  {
  }

  lemma HostOfParts(h: string, port: string, lib: Lib)
    requires PlainHost(h) && ':' !in h && '@' !in h && '[' !in h && ']' !in h
    requires port == "" || (port[0] == ':' && AllDigits(port[1..]))
    ensures HostOf(h + port, lib) == Some(h)
    ensures forall i :: 0 <= i < |h + port| ==> !IsSpace((h + port)[i]) && !AuthorityEnd()((h + port)[i])
  {
    var a := h + port;
    forall i | 0 <= i < |a|
      ensures a[i] < '\U{0080}' && a[i] != '@' && a[i] != '[' && a[i] != ']' && !IsSpace(a[i]) && !AuthorityEnd()(a[i])
    {
      assert i < |h| ==> a[i] == h[i] && HostChar(h[i]);
      assert i > |h| ==> a[i] == port[1..][i - |h| - 1] && IsDigit(port[1..][i - |h| - 1]);
    }
    assert AfterAt(a) == a;
    FirstIs(a, Colon(), |h|);
    assert a[..|h|] == h;
  }

  lemma UrlForm(scheme: string, h: string, port: string, tail: string, lib: Lib)
    requires Scheme(scheme) && PlainHost(h) && Tail(tail)
    requires port == "" || (port[0] == ':' && AllDigits(port[1..]))
    ensures NormalizeTarget(scheme + "://" + (h + port) + tail, lib) == Lower(h)
  {
    hide *;
    var target := scheme + "://" + (h + port) + tail;
    var s, l, e := Lower(scheme), Lower(h), Lower(tail);
    UrlSpaceFree(scheme, h, port, tail);
    StripNothing(target);
    LowerHost(h);
    LowerParts(scheme, tail);
    LowerUrl(scheme, h, port, tail);
    HostOfParts(l, port, lib);
    HostNonEmpty(l, port);
    UrlSpaceFree(s, l, port, e);
    AuthorityParts(s, l + port, e);
    UrlTarget(target, l + port, l, lib);
  }

  lemma HostNonEmpty(h: string, port: string)
    requires PlainHost(h)
    ensures h + port != ""
  {
  }

  lemma UrlTarget(target: string, authority: string, host: string, lib: Lib)
    requires Authority(Lower(Strip(target))) == Some(authority) && HostOf(authority, lib) == Some(host)
    ensures NormalizeTarget(target, lib) == host
  {
  }

  lemma LowerUrl(scheme: string, h: string, port: string, tail: string)
    requires port == "" || (port[0] == ':' && AllDigits(port[1..]))
    ensures Lower(scheme + "://" + (h + port) + tail) == Lower(scheme) + "://" + (Lower(h) + port) + Lower(tail)
  {
    assert Lower(port) == port by {
      if port != "" { LowerConcat(":", port[1..]); LowerDigits(port[1..]); assert port == ":" + port[1..]; }
    }
    LowerConcat(scheme + "://" + (h + port), tail);
    LowerConcat(scheme + "://", h + port);
    LowerConcat(scheme, "://");
    LowerConcat(h, port);
    assert Lower("://") == "://";
  }

  lemma LowerParts(scheme: string, tail: string)
    requires Scheme(scheme) && Tail(tail)
    ensures Scheme(Lower(scheme)) && Tail(Lower(tail))
  {
    forall i | 0 <= i < |scheme| ensures SchemeChar(Lower(scheme)[i]) { assert SchemeChar(scheme[i]); }
    forall i | 0 <= i < |tail| ensures !IsSpace(Lower(tail)[i]) { assert !IsSpace(tail[i]); }
  }

  lemma UrlSpaceFree(scheme: string, h: string, port: string, tail: string)
    requires Scheme(scheme) && PlainHost(h) && Tail(tail)
    requires port == "" || (port[0] == ':' && AllDigits(port[1..]))
    ensures var t := scheme + "://" + (h + port) + tail; forall i :: 0 <= i < |t| ==> !IsSpace(t[i])
  {
    var t := scheme + "://" + (h + port) + tail;
    forall i | 0 <= i < |t| ensures !IsSpace(t[i]) {
      var a, b := |scheme| + 3, |scheme| + 3 + |h|;
      assert i < |scheme| ==> t[i] == scheme[i];
      assert a <= i < b ==> t[i] == h[i - a];
      assert b < i < b + |port| ==> t[i] == port[1..][i - b - 1];
      assert b + |port| <= i ==> t[i] == tail[i - b - |port|];
    }
  }

  /** A name or IPv4 address, the same with a port, and a URL on it, with or without a port, are one target:
      every pattern matches all of them or none. */
  lemma TargetFormsAgree(h: string, port: string, scheme: string, tail: string, pattern: string, lib: Lib)
    requires PlainHost(h) && AllDigits(port) && Scheme(scheme) && Tail(tail)
    ensures var m := TargetMatches(h, pattern, lib);
      && TargetMatches(h + ":" + port, pattern, lib) == m
      && TargetMatches(scheme + "://" + h + tail, pattern, lib) == m
      && TargetMatches(scheme + "://" + (h + ":" + port) + tail, pattern, lib) == m
  {
    hide NormalizeTarget, Matches;
    BareHost(h, lib);
    HostPort(h, port, lib);
    UrlForm(scheme, h, "", tail, lib);
    assert h + "" == h;
    assert (":" + port)[1..] == port;
    UrlForm(scheme, h, ":" + port, tail, lib);
    assert h + (":" + port) == h + ":" + port;
  }
}
