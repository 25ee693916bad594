/** `ksec mode set`: rewriting one key of the `[safety]` table of a config file, line by line. */
module ConfigEdit {
  import opened Common
  import opened Text

  // ---- Lines ----

  predicate IsHeader(line: string) {
    var t := Strip(line);
    StartsWith(t, "[") && EndsWith(t, "]")
  }

  predicate IsSafety(line: string) { Strip(line) == "[safety]" }

  /** The pattern ^\s*key\s*= of the source. */
  predicate IsKeyLine(line: string, key: string) {
    var t := LStrip(line);
    StartsWith(t, key) && StartsWith(LStrip(t[|key|..]), "=")
  }

  /** The keys that can be toggled are of this form: lab_mode, safe_mode, read_only. */
  predicate ValidKey(key: string) {
    key != "" && forall i :: 0 <= i < |key| ==> 'a' <= key[i] <= 'z' || key[i] == '_'
  }

  /** A bare key of a config file. */
  predicate BareKey(key: string) { key != "" && forall i :: 0 <= i < |key| ==> BareChar(key[i]) }

  predicate BareChar(c: char) {
    'a' <= c <= 'z' || 'A' <= c <= 'Z' || '0' <= c <= '9' || c == '_' || c == '-'
  }

  lemma ValidIsBare(key: string)
    requires ValidKey(key)
    ensures BareKey(key)
  {
  }

  function IndexOf(s: string, c: char): (i: nat)
    ensures i <= |s|
    ensures forall j :: 0 <= j < i ==> s[j] != c
    ensures i < |s| ==> s[i] == c
  {
    if s == "" || s[0] == c then 0 else 1 + IndexOf(s[1..], c)
  }

  function Literal(value: bool): string { if value then "true" else "false" }

  /** Everything from the first '=' on is replaced. */
  function Rewrite(line: string, value: bool): string {
    line[..IndexOf(line, '=')] + "= " + Literal(value)
  }

  function Setting(key: string, value: bool): string { key + " = " + Literal(value) }

  /** The first line from `from` on with property p, or the number of lines. */
  function Find(lines: seq<string>, from: nat, p: string -> bool): (r: nat)
    requires from <= |lines|
    ensures from <= r <= |lines|
    ensures forall j :: from <= j < r ==> !p(lines[j])
    ensures r < |lines| ==> p(lines[r])
    decreases |lines| - from
  {
    if from == |lines| || p(lines[from]) then from else Find(lines, from + 1, p)
  }

  /** Header and end of the first [safety] table. */
  function Span(lines: seq<string>): (r: Option<(nat, nat)>)
    ensures r.Some? ==> r.value.0 < r.value.1 <= |lines|
  {
    var s := Find(lines, 0, IsSafety);
    if s == |lines| then None else Some((s, Find(lines, s + 1, IsHeader)))
  }

  predicate HasKey(lines: seq<string>, s: nat, e: nat, key: string)
    requires s <= e <= |lines|
  {
    exists i :: s <= i < e && IsKeyLine(lines[i], key)
  }

  function Rewritten(lines: seq<string>, s: nat, e: nat, key: string, value: bool): (out: seq<string>)
    requires s <= e <= |lines|
    ensures |out| == |lines|
    ensures forall i :: 0 <= i < |out| ==>
      out[i] == if s <= i < e && IsKeyLine(lines[i], key) then Rewrite(lines[i], value) else lines[i]
  {
    seq(|lines|, i requires 0 <= i < |lines| =>
      if s <= i < e && IsKeyLine(lines[i], key) then Rewrite(lines[i], value) else lines[i])
  }

  function Padding(lines: seq<string>): seq<string> {
    if lines != [] && !Blank(lines[|lines|-1]) then [""] else []
  }

  function Toggle(lines: seq<string>, key: string, value: bool): seq<string> {
    match Span(lines)
    case None => lines + Padding(lines) + ["[safety]", Setting(key, value)]
    case Some((s, e)) =>
      if HasKey(lines, s, e, key) then Rewritten(lines, s, e, key, value)
      else lines[..e] + [Setting(key, value)] + lines[e..]
  }

  /** The first loop of `_toggle_config`. */
  method LocateSpan(lines: seq<string>) returns (span: Option<(nat, nat)>)
    ensures span == Span(lines)
  {
    hide Strip;
    var start: Option<nat> := None;
    var i := 0;
    while i < |lines|
      invariant 0 <= i <= |lines|
      invariant start == None ==> Find(lines, 0, IsSafety) == Find(lines, i, IsSafety)
      invariant start.Some? ==> start.value < i && start.value == Find(lines, 0, IsSafety)
      invariant start.Some? ==> Find(lines, start.value + 1, IsHeader) == Find(lines, i, IsHeader)
    {
      var stripped := Strip(lines[i]);
      if StartsWith(stripped, "[") && EndsWith(stripped, "]") {
        if start.Some? { return Some((start.value, i)); }
        if stripped == "[safety]" { start := Some(i); }
      }
      i := i + 1;
    }
    span := if start.Some? then Some((start.value, |lines|)) else None;
  }

  /** The second loop: copy the lines, rewriting those of the key inside the span. */
  method RewriteSpan(lines: seq<string>, s: nat, e: nat, key: string, value: bool) returns (out: seq<string>, found: bool)
    requires s <= e <= |lines|
    ensures found <==> HasKey(lines, s, e, key)
    ensures out == Rewritten(lines, s, e, key, value)
  {
    hide IsKeyLine, Rewrite;
    out, found := [], false;
    var i := 0;
    while i < |lines|
      invariant 0 <= i <= |lines| && |out| == i
      invariant forall j :: 0 <= j < i ==>
        out[j] == if s <= j < e && IsKeyLine(lines[j], key) then Rewrite(lines[j], value) else lines[j]
      invariant found <==> exists j :: s <= j < e && j < i && IsKeyLine(lines[j], key)
    {
      if s <= i < e && IsKeyLine(lines[i], key) {
        out := out + [Rewrite(lines[i], value)];
        found := true;
      } else {
        out := out + [lines[i]];
      }
      i := i + 1;
    }
  }

  method ToggleConfig(lines: seq<string>, key: string, value: bool) returns (out: seq<string>)
    ensures out == Toggle(lines, key, value)
  {
    var span := LocateSpan(lines);
    var found := false;
    out := lines;
    if span.Some? { out, found := RewriteSpan(lines, span.value.0, span.value.1, key, value); }
    if !found {
      if span.Some? {
        assert out == lines;
        out := out[..span.value.1] + [Setting(key, value)] + out[span.value.1..];
      } else {
        if out != [] && Strip(out[|out|-1]) != "" { out := out + [""]; }
        out := out + ["[safety]"];
        out := out + [Setting(key, value)];
      }
    }
  }

  // ---- Key lines and headers ----

  lemma FirstIndex(s: string, c: char, i: nat)
    requires i < |s| && s[i] == c && forall j :: 0 <= j < i ==> s[j] != c
    ensures IndexOf(s, c) == i
  {
  }

  /** White space, the key, white space: what stands before the '=' of a key line. */
  ghost predicate IsHead(head: string, key: string, left: string, gap: string) {
    head == left + key + gap && forall c :: c in left + gap ==> IsSpace(c)
  }

  lemma HeadHasNoEquals(head: string, key: string, left: string, gap: string)
    requires ValidKey(key) && IsHead(head, key, left, gap)
    ensures '=' !in head
  {
    forall c | c in head ensures c != '=' {
      assert c in left + gap || c in key;
    }
  }

  lemma FirstEquals(head: string, rest: string)
    requires '=' !in head
    ensures IndexOf(head + "=" + rest, '=') == |head|
    ensures (head + "=" + rest)[..|head|] == head
    ensures (head + "=" + rest)[|head| + 1..] == rest
  {
    var line := head + "=" + rest;
    assert line[|head|] == '=';
    assert forall j :: 0 <= j < |head| ==> line[j] == head[j];
    FirstIndex(line, '=', |head|);
  }

  /** A key line is a head, '=', and the rest. */
  lemma KeyLineParts(line: string, key: string) returns (head: string, left: string, gap: string, rest: string)
    requires ValidKey(key) && IsKeyLine(line, key)
    ensures IsHead(head, key, left, gap)
    ensures line == head + "=" + rest
  {
    hide LStrip;
    left := LStripSplits(line);
    var t := LStrip(line);
    gap := LStripSplits(t[|key|..]);
    var u := LStrip(t[|key|..]);
    rest := u[1..];
    head := left + key + gap;
    assert t == key + t[|key|..] && u == "=" + rest;
    Regroup(left, key, gap, "=", rest);
  }

  lemma Regroup(a: string, b: string, c: string, d: string, e: string)
    ensures a + (b + (c + (d + e))) == a + b + c + d + e
  {
    assert b + (c + (d + e)) == (b + c) + (d + e);
  }

  lemma LStripPrefix(left: string, s: string)
    requires forall c :: c in left ==> IsSpace(c)
    requires s != "" && !IsSpace(s[0])
    ensures LStrip(left + s) == s
  {
    if left == "" {
      assert left + s == s;
    } else {
      assert (left + s)[1..] == left[1..] + s;
      LStripPrefix(left[1..], s);
    }
  }

  lemma BuildKeyLine(head: string, key: string, left: string, gap: string, rest: string)
    requires ValidKey(key) && IsHead(head, key, left, gap)
    ensures IsKeyLine(head + "=" + rest, key)
  {
    var u := "=" + rest;
    var t := key + (gap + u);
    assert head + "=" + rest == left + t;
    LStripPrefix(left, t);
    assert t[|key|..] == gap + u;
    LStripPrefix(gap, u);
  }

  lemma RewriteParts(head: string, rest: string, v: bool)
    requires '=' !in head
    ensures Rewrite(head + "=" + rest, v) == head + "=" + (" " + Literal(v))
    ensures ValueOf(head + "=" + (" " + Literal(v))) == Literal(v)
  {
    FirstEquals(head, rest);
    FirstEquals(head, " " + Literal(v));
    LStripPrefix(" ", Literal(v));
  }

  /** Rewriting a key line gives a key line of the same key, and only the last rewrite shows. */
  lemma RewriteKeyLine(line: string, key: string, v: bool, w: bool)
    requires ValidKey(key) && IsKeyLine(line, key)
    ensures IsKeyLine(Rewrite(line, v), key)
    ensures Rewrite(Rewrite(line, v), w) == Rewrite(line, w)
    ensures ValueOf(Rewrite(line, v)) == Literal(v)
  {
    hide *;
    var head, left, gap, rest := KeyLineParts(line, key);
    HeadHasNoEquals(head, key, left, gap);
    RewriteParts(head, rest, v);
    RewriteParts(head, rest, w);
    RewriteParts(head, " " + Literal(v), w);
    BuildKeyLine(head, key, left, gap, " " + Literal(v));
  }

  lemma SettingIsKeyLine(key: string, v: bool, w: bool)
    requires ValidKey(key)
    ensures IsKeyLine(Setting(key, v), key)
    ensures Rewrite(Setting(key, v), w) == Setting(key, w)
    ensures ValueOf(Setting(key, v)) == Literal(v)
  {
    hide *;
    SettingParts(key, v);
    SettingParts(key, w);
    HeadHasNoEquals(key + " ", key, "", " ");
    RewriteParts(key + " ", " " + Literal(v), w);
    RewriteParts(key + " ", " " + Literal(v), v);
    BuildKeyLine(key + " ", key, "", " ", " " + Literal(v));
  }

  lemma SettingParts(key: string, v: bool)
    ensures Setting(key, v) == (key + " ") + "=" + (" " + Literal(v))
    ensures IsHead(key + " ", key, "", " ")
  {
  }

  lemma KeyLineIsNoHeader(line: string, key: string)
    requires ValidKey(key) && IsKeyLine(line, key)
    ensures !IsHeader(line) && !IsSafety(line)
  {
    var t := LStrip(line);
    assert t[0] == key[0];
    var right := RStripSplits(t);
    if RStrip(t) == "" { assert t[0] in right; } else { assert RStrip(t)[0] == t[0]; }
  }

  lemma OneKeyPerLine(line: string, k: string, l: string)
    requires BareKey(k) && BareKey(l) && IsKeyLine(line, k) && IsKeyLine(line, l)
    ensures k == l
  {
    KeyFromParts(line, k, l);
    KeyFromParts(line, l, k);
    assert k == LStrip(line)[..|k|] && l == LStrip(line)[..|l|];
  }

  /** The character after the key is no key character, so a longer key cannot match there. */
  lemma KeyFromParts(line: string, k: string, l: string)
    requires BareKey(k) && BareKey(l) && IsKeyLine(line, k) && IsKeyLine(line, l)
    ensures |l| <= |k|
  {
    var t := LStrip(line);
    var gap := LStripSplits(t[|k|..]);
    var c := t[|k|..][0];
    assert IsSpace(c) || c == '=' by { if gap != "" { assert c == gap[0] && gap[0] in gap; } }
    assert forall i :: 0 <= i < |l| ==> t[i] == l[i] && BareChar(l[i]);
    assert !BareChar(c);
  }

  lemma SafetyHeader()
    ensures Strip("[safety]") == "[safety]" && IsHeader("[safety]") && IsSafety("[safety]")
    ensures !IsHeader("") && !IsSafety("")
  {
    StripSpaceFree("[safety]");
  }

  lemma SafetyIsHeader(line: string)
    requires IsSafety(line)
    ensures IsHeader(line)
  {
  }

  // ---- The three parts of a file ----

  /** Everything up to and including the header of the table; the header the edit would add, if there is none. */
  function Lead(lines: seq<string>): seq<string> {
    match Span(lines)
    case None => lines + Padding(lines) + ["[safety]"]
    case Some((s, _)) => lines[..s + 1]
  }

  function Body(lines: seq<string>): seq<string> {
    match Span(lines)
    case None => []
    case Some((s, e)) => lines[s + 1..e]
  }

  /** The next header and all that follows. */
  function Rest(lines: seq<string>): seq<string> {
    match Span(lines)
    case None => []
    case Some((_, e)) => lines[e..]
  }

  predicate Sets(body: seq<string>, key: string) {
    exists i :: 0 <= i < |body| && IsKeyLine(body[i], key)
  }

  /** The edit, seen from the table. */
  function EditBody(body: seq<string>, key: string, value: bool): (r: seq<string>)
    ensures Sets(body, key) ==> |r| == |body| && forall i :: 0 <= i < |r| ==>
      r[i] == if IsKeyLine(body[i], key) then Rewrite(body[i], value) else body[i]
    ensures !Sets(body, key) ==> r == body + [Setting(key, value)]
  {
    if Sets(body, key) then
      seq(|body|, i requires 0 <= i < |body| => if IsKeyLine(body[i], key) then Rewrite(body[i], value) else body[i])
    else body + [Setting(key, value)]
  }

  ghost predicate ProperLead(lead: seq<string>) {
    && lead != [] && IsSafety(lead[|lead|-1])
    && forall i :: 0 <= i < |lead|-1 ==> !IsSafety(lead[i])
  }

  ghost predicate ProperBody(body: seq<string>) {
    forall i :: 0 <= i < |body| ==> !IsHeader(body[i]) && !IsSafety(body[i])
  }

  ghost predicate ProperRest(rest: seq<string>) { rest != [] ==> IsHeader(rest[0]) }

  lemma FindIs(lines: seq<string>, from: nat, p: string -> bool, r: nat)
    requires from <= r <= |lines|
    requires forall j :: from <= j < r ==> !p(lines[j])
    requires r < |lines| ==> p(lines[r])
    ensures Find(lines, from, p) == r
  {
  }

  lemma SpanFacts(lines: seq<string>)
    ensures Span(lines) == None ==> forall i :: 0 <= i < |lines| ==> !IsSafety(lines[i])
    ensures Span(lines).Some? ==>
      var (s, e) := Span(lines).value;
      && IsSafety(lines[s]) && (forall i :: 0 <= i < s ==> !IsSafety(lines[i]))
      && (forall i :: s < i < e ==> !IsHeader(lines[i])) && (e < |lines| ==> IsHeader(lines[e]))
  {
    hide IsHeader, IsSafety;
  }

  lemma PartsOfFile(lines: seq<string>)
    ensures ProperLead(Lead(lines)) && ProperBody(Body(lines)) && ProperRest(Rest(lines))
    ensures Span(lines).Some? ==> lines == Lead(lines) + Body(lines) + Rest(lines)
  {
    SafetyHeader();
    SpanFacts(lines);
    hide IsHeader, IsSafety, Find, Span;
    if Span(lines).Some? {
      forall i | 0 <= i < |Body(lines)| ensures !IsSafety(Body(lines)[i]) {
        if IsSafety(Body(lines)[i]) { SafetyIsHeader(Body(lines)[i]); }
      }
      SplitIn3(lines, Span(lines).value.0 + 1, Span(lines).value.1);
    }
  }

  lemma PartsDetermined(lead: seq<string>, body: seq<string>, rest: seq<string>)
    requires ProperLead(lead) && ProperBody(body) && ProperRest(rest)
    ensures var out := lead + body + rest;
      Span(out).Some? && Lead(out) == lead && Body(out) == body && Rest(out) == rest
  {
    hide IsHeader, IsSafety;
    var out := lead + body + rest;
    FindIs(out, 0, IsSafety, |lead| - 1);
    FindIs(out, |lead|, IsHeader, |lead| + |body|);
    assert out[..|lead|] == lead && out[|lead|..|lead| + |body|] == body && out[|lead| + |body|..] == rest;
  }

  lemma HasKeyIff(lines: seq<string>, s: nat, e: nat, key: string)
    requires s < e <= |lines| && !IsKeyLine(lines[s], key)
    ensures HasKey(lines, s, e, key) <==> Sets(lines[s + 1..e], key)
  {
    hide IsKeyLine;
    var body := lines[s + 1..e];
    if HasKey(lines, s, e, key) {
      var i :| s <= i < e && IsKeyLine(lines[i], key);
      assert body[i - s - 1] == lines[i];
    }
    if Sets(body, key) {
      var i :| 0 <= i < |body| && IsKeyLine(body[i], key);
      assert lines[s + 1 + i] == body[i];
    }
  }

  lemma EditBodyProper(body: seq<string>, key: string, value: bool)
    requires ValidKey(key) && ProperBody(body)
    ensures ProperBody(EditBody(body, key, value))
  {
    hide IsKeyLine, IsHeader, IsSafety, Rewrite, Setting;
    var r := EditBody(body, key, value);
    SettingIsKeyLine(key, value, value);
    KeyLineIsNoHeader(Setting(key, value), key);
    forall i | 0 <= i < |r| ensures !IsHeader(r[i]) && !IsSafety(r[i]) {
      if Sets(body, key) && IsKeyLine(body[i], key) {
        RewriteKeyLine(body[i], key, value, value);
        KeyLineIsNoHeader(r[i], key);
      }
    }
  }

  lemma RewrittenParts(lines: seq<string>, s: nat, e: nat, key: string, value: bool)
    requires s < e <= |lines| && !IsKeyLine(lines[s], key) && Sets(lines[s + 1..e], key)
    ensures Rewritten(lines, s, e, key, value) == lines[..s + 1] + EditBody(lines[s + 1..e], key, value) + lines[e..]
  {
    hide IsKeyLine, Rewrite, Rewritten, EditBody, Sets;
    var out, body := Rewritten(lines, s, e, key, value), lines[s + 1..e];
    var mid, edited := out[s + 1..e], EditBody(body, key, value);
    forall i | 0 <= i < |body| ensures mid[i] == edited[i] {
      assert lines[s + 1 + i] == body[i] && mid[i] == out[s + 1 + i];
    }
    assert mid == edited;
    assert forall i :: 0 <= i <= s ==> out[i] == lines[i];
    SplitIn3(out, s + 1, e);
    assert out[..s + 1] == lines[..s + 1] && out[e..] == lines[e..];
  }

  lemma SplitIn3(lines: seq<string>, a: nat, b: nat)
    requires a <= b <= |lines|
    ensures lines == lines[..a] + lines[a..b] + lines[b..]
  {
  }

  lemma InsertedParts(lines: seq<string>, s: nat, e: nat, line: string)
    requires s < e <= |lines|
    ensures lines[..e] + [line] + lines[e..] == lines[..s + 1] + (lines[s + 1..e] + [line]) + lines[e..]
  {
    assert lines[..e] == lines[..s + 1] + lines[s + 1..e];
  }

  lemma AppendedParts(lines: seq<string>, header: string, line: string)
    ensures lines + [header, line] == (lines + [header]) + ([] + [line]) + []
  {
  }

  lemma TogglePart(lines: seq<string>, key: string, value: bool)
    requires ValidKey(key)
    ensures Toggle(lines, key, value) == Lead(lines) + EditBody(Body(lines), key, value) + Rest(lines)
  {
    hide IsKeyLine, IsHeader, IsSafety, Rewrite, Setting, Find, Span, Rewritten, EditBody, HasKey, Sets, Padding;
    if Span(lines).Some? {
      var (s, e) := Span(lines).value;
      HeaderSetsNothing(lines, key);
      HasKeyIff(lines, s, e, key);
      if Sets(Body(lines), key) {
        RewrittenParts(lines, s, e, key, value);
      } else {
        InsertedParts(lines, s, e, Setting(key, value));
      }
    } else {
      NothingSets(key);
      AppendedParts(lines + Padding(lines), "[safety]", Setting(key, value));
    }
  }

  lemma HeaderSetsNothing(lines: seq<string>, key: string)
    requires ValidKey(key) && Span(lines).Some?
    ensures !IsKeyLine(lines[Span(lines).value.0], key)
  {
    hide IsKeyLine, IsHeader, IsSafety;
    PartsOfFile(lines);
    var s := Span(lines).value.0;
    assert lines[s] == Lead(lines)[s];
    if IsKeyLine(lines[s], key) { KeyLineIsNoHeader(lines[s], key); }
  }

  lemma NothingSets(key: string)
    ensures !Sets([], key)
  {
  }

  /** The edit changes the table only, and finds the same table again in its own output. */
  lemma ToggleShape(lines: seq<string>, key: string, value: bool)
    requires ValidKey(key)
    ensures var out := Toggle(lines, key, value);
      && Span(out).Some?
      && Lead(out) == Lead(lines)
      && Body(out) == EditBody(Body(lines), key, value)
      && Rest(out) == Rest(lines)
  {
    hide *;
    PartsOfFile(lines);
    TogglePart(lines, key, value);
    EditBodyProper(Body(lines), key, value);
    PartsDetermined(Lead(lines), EditBody(Body(lines), key, value), Rest(lines));
  }

  // ---- Read after write, and the frame ----

  function ValueOf(line: string): string {
    var i := IndexOf(line, '=');
    if i == |line| then "" else Strip(line[i + 1..])
  }

  /** The value of the first line that sets the key. */
  function FirstValue(body: seq<string>, key: string): Option<string> {
    if body == [] then None
    else if IsKeyLine(body[0], key) then Some(ValueOf(body[0]))
    else FirstValue(body[1..], key)
  }

  /** What the lines that the editor takes for the [safety] table say about a key. */
  function Lookup(lines: seq<string>, key: string): Option<string> { FirstValue(Body(lines), key) }

  /** The lines that do not set the key. */
  function Without(body: seq<string>, key: string): seq<string> {
    if body == [] then []
    else (if IsKeyLine(body[0], key) then [] else [body[0]]) + Without(body[1..], key)
  }

  lemma {:induction false} FirstValueIs(body: seq<string>, key: string, value: string)
    requires forall i :: 0 <= i < |body| && IsKeyLine(body[i], key) ==> ValueOf(body[i]) == value
    requires Sets(body, key)
    ensures FirstValue(body, key) == Some(value)
    decreases |body|
  {
    hide IsKeyLine, ValueOf;
    if !IsKeyLine(body[0], key) {
      var i :| 0 <= i < |body| && IsKeyLine(body[i], key);
      assert body[1..][i - 1] == body[i];
      FirstValueIs(body[1..], key, value);
    }
  }

  lemma EditBodyValues(body: seq<string>, key: string, value: bool)
    requires ValidKey(key)
    ensures var r := EditBody(body, key, value);
      Sets(r, key) && forall i :: 0 <= i < |r| && IsKeyLine(r[i], key) ==> ValueOf(r[i]) == Literal(value)
  {
    hide IsKeyLine, Rewrite, Setting, ValueOf;
    var r := EditBody(body, key, value);
    SettingIsKeyLine(key, value, value);
    forall i | 0 <= i < |body| && IsKeyLine(body[i], key)
      ensures IsKeyLine(Rewrite(body[i], value), key) && ValueOf(Rewrite(body[i], value)) == Literal(value)
    {
      RewriteKeyLine(body[i], key, value, value);
    }
    if Sets(body, key) {
      var i :| 0 <= i < |body| && IsKeyLine(body[i], key);
      assert IsKeyLine(r[i], key);
    } else {
      assert IsKeyLine(r[|body|], key);
    }
  }

  /** After the edit the key is set in the editor's span, and every line there that sets it has the new value. */
  lemma ReadAfterWrite(lines: seq<string>, key: string, value: bool)
    requires ValidKey(key)
    ensures var out := Toggle(lines, key, value);
      && Lookup(out, key) == Some(Literal(value))
      && forall i :: 0 <= i < |Body(out)| && IsKeyLine(Body(out)[i], key) ==> ValueOf(Body(out)[i]) == Literal(value)
  {
    hide *;
    ToggleShape(lines, key, value);
    EditBodyValues(Body(lines), key, value);
    var body := Body(Toggle(lines, key, value));
    FirstValueIs(body, key, Literal(value));
    assert Lookup(Toggle(lines, key, value), key) == FirstValue(body, key) by { LookupIs(Toggle(lines, key, value), key); }
  }

  lemma LookupIs(lines: seq<string>, key: string)
    ensures Lookup(lines, key) == FirstValue(Body(lines), key)
  {
  }

  lemma {:induction false} WithoutSame(xs: seq<string>, ys: seq<string>, key: string)
    requires |xs| == |ys|
    requires forall i :: 0 <= i < |xs| ==> ys[i] == xs[i] || (IsKeyLine(xs[i], key) && IsKeyLine(ys[i], key))
    ensures Without(xs, key) == Without(ys, key)
    decreases |xs|
  {
    hide IsKeyLine;
    if xs != [] { WithoutSame(xs[1..], ys[1..], key); }
  }

  lemma {:induction false} WithoutAppend(xs: seq<string>, line: string, key: string)
    requires IsKeyLine(line, key)
    ensures Without(xs + [line], key) == Without(xs, key)
    decreases |xs|
  {
    hide IsKeyLine;
    if xs == [] {
      assert xs + [line] == [line] && [line][1..] == [];
    } else {
      assert (xs + [line])[1..] == xs[1..] + [line];
      WithoutAppend(xs[1..], line, key);
    }
  }

  lemma EditBodyFrame(body: seq<string>, key: string, value: bool)
    requires ValidKey(key)
    ensures Without(EditBody(body, key, value), key) == Without(body, key)
  {
    hide IsKeyLine, Rewrite, Setting;
    if Sets(body, key) {
      forall i | 0 <= i < |body| && IsKeyLine(body[i], key) ensures IsKeyLine(Rewrite(body[i], value), key) {
        RewriteKeyLine(body[i], key, value, value);
      }
      WithoutSame(body, EditBody(body, key, value), key);
    } else {
      SettingIsKeyLine(key, value, value);
      WithoutAppend(body, Setting(key, value), key);
    }
  }

  /** Everything but the key's own lines is preserved verbatim and in order: all lines up to and including the
      table's header, the other lines of the table, and all lines from the next header on. A file without a
      [safety] table is kept whole, and the new table, holding nothing else, follows it. */
  lemma EditFrame(lines: seq<string>, key: string, value: bool)
    requires ValidKey(key)
    ensures var out := Toggle(lines, key, value);
      && out == Lead(out) + Body(out) + Rest(out)
      && Without(Body(out), key) == Without(Body(lines), key)
      && (Span(lines).Some? ==>
            lines == Lead(out) + Body(lines) + Rest(out))
      && (Span(lines) == None ==>
            && Lead(out) == lines + (if lines != [] && Strip(lines[|lines|-1]) != "" then [""] else []) + ["[safety]"]
            && Body(out) == [key + " = " + if value then "true" else "false"] && Rest(out) == [])
  {
    hide *;
    ToggleShape(lines, key, value);
    PartsOfFile(lines);
    PartsOfFile(Toggle(lines, key, value));
    EditBodyFrame(Body(lines), key, value);
    if Span(lines) == None { NewParts(lines, key, value); }
  }

  lemma NewParts(lines: seq<string>, key: string, value: bool)
    requires ValidKey(key) && Span(lines) == None
    ensures Lead(lines) == lines + (if lines != [] && Strip(lines[|lines|-1]) != "" then [""] else []) + ["[safety]"]
    ensures EditBody(Body(lines), key, value) == [key + " = " + if value then "true" else "false"] && Rest(lines) == []
  {
    NothingSets(key);
    hide Strip, IsKeyLine;
    assert [] + [Setting(key, value)] == [Setting(key, value)];
  }

  lemma {:induction false} FirstValueWithout(body: seq<string>, key: string, other: string)
    requires BareKey(key) && BareKey(other) && key != other
    ensures FirstValue(Without(body, key), other) == FirstValue(body, other)
    decreases |body|
  {
    if body != [] {
      hide IsKeyLine, ValueOf;
      FirstValueWithout(body[1..], key, other);
      if IsKeyLine(body[0], key) {
        if IsKeyLine(body[0], other) { OneKeyPerLine(body[0], key, other); }
        assert Without(body, key) == [] + Without(body[1..], key) == Without(body[1..], key);
      } else {
        assert ([body[0]] + Without(body[1..], key))[1..] == Without(body[1..], key);
      }
    }
  }

  lemma OtherKeysKept(lines: seq<string>, key: string, value: bool, other: string)
    requires ValidKey(key) && BareKey(other) && key != other
    ensures Lookup(Toggle(lines, key, value), other) == Lookup(lines, other)
  {
    hide *;
    var out := Toggle(lines, key, value);
    ToggleShape(lines, key, value);
    EditBodyFrame(Body(lines), key, value);
    ValidIsBare(key);
    FirstValueWithout(Body(out), key, other);
    FirstValueWithout(Body(lines), key, other);
    LookupIs(out, other);
    LookupIs(lines, other);
  }

  /** Edits of two different keys commute on the span's lines for every key, and outside the span. */
  lemma EditsCommute(lines: seq<string>, k: string, v: bool, l: string, w: bool, key: string)
    requires ValidKey(k) && ValidKey(l) && k != l && BareKey(key)
    ensures var a, b := Toggle(Toggle(lines, k, v), l, w), Toggle(Toggle(lines, l, w), k, v);
      Lookup(a, key) == Lookup(b, key) && Lead(a) == Lead(b) && Rest(a) == Rest(b)
  {
    hide *;
    var a, b := Toggle(lines, k, v), Toggle(lines, l, w);
    ToggleShape(lines, k, v);
    ToggleShape(lines, l, w);
    ToggleShape(a, l, w);
    ToggleShape(b, k, v);
    ReadAfterWrite(lines, k, v);
    ReadAfterWrite(lines, l, w);
    ReadAfterWrite(a, l, w);
    ReadAfterWrite(b, k, v);
    ValidIsBare(k);
    ValidIsBare(l);
    if key != l { OtherKeysKept(a, l, w, key); OtherKeysKept(lines, l, w, key); }
    if key != k { OtherKeysKept(b, k, v, key); OtherKeysKept(lines, k, v, key); }
  }

  // ---- Last write wins ----

  lemma EditBodyTwice(body: seq<string>, key: string, v: bool, w: bool)
    requires ValidKey(key)
    ensures EditBody(EditBody(body, key, v), key, w) == EditBody(body, key, w)
  {
    hide IsKeyLine, Rewrite, Setting;
    var once := EditBody(body, key, v);
    EditBodyValues(body, key, v);
    SettingIsKeyLine(key, v, w);
    if Sets(body, key) {
      forall i | 0 <= i < |body| && IsKeyLine(body[i], key)
        ensures IsKeyLine(once[i], key) && Rewrite(once[i], w) == Rewrite(body[i], w)
      {
        RewriteKeyLine(body[i], key, v, w);
      }
    } else {
      assert once[|body|] == Setting(key, v);
      assert forall i :: 0 <= i < |body| ==> once[i] == body[i] && !IsKeyLine(body[i], key);
    }
  }

  /** Setting a key twice leaves exactly the lines that setting it to the second value alone leaves. */
  lemma LastWriteWins(lines: seq<string>, key: string, v: bool, w: bool)
    requires ValidKey(key)
    ensures Toggle(Toggle(lines, key, v), key, w) == Toggle(lines, key, w)
  {
    hide *;
    var out := Toggle(lines, key, v);
    ToggleShape(lines, key, v);
    TogglePart(out, key, w);
    TogglePart(lines, key, w);
    EditBodyTwice(Body(lines), key, v, w);
  }

  // ---- The file as text ----

  /** The characters at which `str.splitlines` ends a line. */
  predicate IsBreak(c: char) {
    '\U{000A}' <= c <= '\U{000D}' || '\U{001C}' <= c <= '\U{001E}' || c == '\U{0085}'
    || c == '\U{2028}' || c == '\U{2029}'
  }

  predicate BreakFree(s: string) { forall i :: 0 <= i < |s| ==> !IsBreak(s[i]) }

  function LineEnd(text: string): (i: nat)
    ensures i <= |text| && BreakFree(text[..i])
    ensures i < |text| ==> IsBreak(text[i])
  {
    if text == "" || IsBreak(text[0]) then 0
    else
      var i := 1 + LineEnd(text[1..]);
      assert text[..i] == [text[0]] + text[1..][..i - 1];
      i
  }

  function SplitLines(text: string): (lines: seq<string>)
    ensures forall i :: 0 <= i < |lines| ==> BreakFree(lines[i])
    decreases |text|
  {
    if text == "" then []
    else
      var i := LineEnd(text);
      if i == |text| then [text]
      else
        var next := if text[i] == '\r' && i + 1 < |text| && text[i + 1] == '\n' then i + 2 else i + 1;
        [text[..i]] + SplitLines(text[next..])
  }

  function JoinLines(lines: seq<string>): string {
    if lines == [] then "" else if |lines| == 1 then lines[0] else lines[0] + "\n" + JoinLines(lines[1..])
  }

  /** The text that `_toggle_config` writes; a missing file reads as no lines. */
  function ToggleText(text: Option<string>, key: string, value: bool): string {
    var lines := match text case None => [] case Some(t) => SplitLines(t);
    JoinLines(Toggle(lines, key, value)) + "\n"
  }

  const SAFETY_KEYS := map["lab" := "lab_mode", "safe" := "safe_mode", "read-only" := "read_only"]

  lemma SafetyKeysValid()
    ensures forall name :: name in SAFETY_KEYS ==> ValidKey(SAFETY_KEYS[name])
  {
    assert ValidKey("lab_mode") && ValidKey("safe_mode") && ValidKey("read_only");
  }

  lemma Switches(name: string)
    ensures name in SAFETY_KEYS <==> name == "lab" || name == "safe" || name == "read-only"
    ensures SAFETY_KEYS["lab"] == "lab_mode" && SAFETY_KEYS["safe"] == "safe_mode" && SAFETY_KEYS["read-only"] == "read_only"
  {
  }

  /** `ksec mode set <name> on|off`: the new text of the config file, or a refusal of the name. */
  method ModeSet(text: Option<string>, name: string, on: bool) returns (r: Result<string>)
    ensures r.Ok? <==> name in SAFETY_KEYS
    ensures r.Ok? ==> ValidKey(SAFETY_KEYS[name]) && r.value == ToggleText(text, SAFETY_KEYS[name], on)
    ensures r.Ok? <==> name == "lab" || name == "safe" || name == "read-only"
    ensures name == "lab" ==> r.value == ToggleText(text, "lab_mode", on)
    ensures name == "safe" ==> r.value == ToggleText(text, "safe_mode", on)
    ensures name == "read-only" ==> r.value == ToggleText(text, "read_only", on)
  {
    Switches(name);
    hide Toggle, SplitLines, JoinLines;
    if name !in SAFETY_KEYS { return Err("unknown safety mode"); }
    SafetyKeysValid();
    var lines := match text case None => [] case Some(t) => SplitLines(t);
    var out := ToggleConfig(lines, SAFETY_KEYS[name], on);
    return Ok(JoinLines(out) + "\n");
  }

  lemma {:induction false} LineEndIs(line: string, tail: string)
    requires BreakFree(line) && (tail == "" || IsBreak(tail[0]))
    ensures LineEnd(line + tail) == |line|
    decreases |line|
  {
    if line == "" {
      assert line + tail == tail;
    } else {
      assert (line + tail)[1..] == line[1..] + tail;
      LineEndIs(line[1..], tail);
    }
  }

  lemma SplitFirst(line: string, rest: string)
    requires BreakFree(line)
    ensures SplitLines(line + ("\n" + rest)) == [line] + SplitLines(rest)
  {
    hide BreakFree;
    var text := line + ("\n" + rest);
    LineEndIs(line, "\n" + rest);
    assert text[|line|] == '\n' && text[..|line|] == line && text[|line| + 1..] == rest;
  }

  /** Reading back what was written gives the written lines. */
  lemma {:induction false} SplitJoin(lines: seq<string>)
    requires lines != [] && forall i :: 0 <= i < |lines| ==> BreakFree(lines[i])
    ensures SplitLines(JoinLines(lines) + "\n") == lines
    decreases |lines|
  {
    hide BreakFree, SplitLines;
    if |lines| == 1 {
      SplitFirst(lines[0], "");
      assert SplitLines("") == [] by { SplitNothing(); }
      assert lines[0] + ("\n" + "") == JoinLines(lines) + "\n";
    } else {
      SplitJoin(lines[1..]);
      SplitFirst(lines[0], JoinLines(lines[1..]) + "\n");
      assert lines[0] + ("\n" + (JoinLines(lines[1..]) + "\n")) == JoinLines(lines) + "\n";
    }
  }

  lemma SplitNothing()
    ensures SplitLines("") == []
  {
  }

  lemma NewLinesBreakFree(key: string, value: bool)
    requires ValidKey(key)
    ensures BreakFree(Setting(key, value)) && BreakFree("[safety]") && BreakFree("")
  {
  }

  lemma RewriteBreakFree(line: string, value: bool)
    requires BreakFree(line)
    ensures BreakFree(Rewrite(line, value))
  {
  }

  ghost predicate AllBreakFree(lines: seq<string>) { forall i :: 0 <= i < |lines| ==> BreakFree(lines[i]) }

  lemma ToggleBreakFree(lines: seq<string>, key: string, value: bool)
    requires ValidKey(key) && AllBreakFree(lines)
    ensures Toggle(lines, key, value) != [] && AllBreakFree(Toggle(lines, key, value))
  {
    hide BreakFree, Rewrite, Setting, IsKeyLine, Find, IsHeader, IsSafety, Blank, ValidKey, Span;
    NewLinesBreakFree(key, value);
    forall line | BreakFree(line) ensures BreakFree(Rewrite(line, value)) { RewriteBreakFree(line, value); }
    match Span(lines) {
      case None =>
      case Some((s, e)) =>
        var inserted := lines[..e] + [Setting(key, value)] + lines[e..];
        assert AllBreakFree(inserted);
        assert AllBreakFree(Rewritten(lines, s, e, key, value));
    }
  }

  /** The same file, byte for byte, whether the key is set twice or only to the last value. */
  lemma TextLastWriteWins(text: Option<string>, key: string, v: bool, w: bool)
    requires ValidKey(key)
    ensures ToggleText(Some(ToggleText(text, key, v)), key, w) == ToggleText(text, key, w)
  {
    hide Toggle, BreakFree, JoinLines, SplitLines;
    var lines := match text case None => [] case Some(t) => SplitLines(t);
    ToggleBreakFree(lines, key, v);
    SplitJoin(Toggle(lines, key, v));
    LastWriteWins(lines, key, v, w);
  }

  // ---- "Preserved verbatim", as text ----

  function Unlines(lines: seq<string>): string {
    if lines == [] then "" else lines[0] + ("\n" + Unlines(lines[1..]))
  }

  /** Every line ends with a line feed, and there is no other line break. */
  predicate PlainText(text: string) {
    && (text != "" ==> text[|text|-1] == '\n')
    && forall i :: 0 <= i < |text| && IsBreak(text[i]) ==> text[i] == '\n'
  }

  lemma {:induction false} UnlinesConcat(xs: seq<string>, ys: seq<string>)
    ensures Unlines(xs + ys) == Unlines(xs) + Unlines(ys)
    decreases |xs|
  {
    if xs == [] {
      assert xs + ys == ys;
    } else {
      assert (xs + ys)[1..] == xs[1..] + ys;
      UnlinesConcat(xs[1..], ys);
    }
  }

  lemma {:induction false} UnlinesIsJoin(lines: seq<string>)
    requires lines != []
    ensures Unlines(lines) == JoinLines(lines) + "\n"
    decreases |lines|
  {
    if |lines| == 1 {
      assert lines[1..] == [] && "\n" + "" == "\n";
    } else {
      UnlinesIsJoin(lines[1..]);
    }
  }

  lemma {:induction false} UnlinesPlain(lines: seq<string>)
    requires AllBreakFree(lines)
    ensures PlainText(Unlines(lines))
    decreases |lines|
  {
    if lines != [] {
      UnlinesPlain(lines[1..]);
      var rest := Unlines(lines[1..]);
      PlainCons(lines[0], rest);
    }
  }

  lemma PlainCons(line: string, rest: string)
    requires BreakFree(line)
    ensures PlainText(line + ("\n" + rest)) <==> PlainText(rest)
  {
    assert IsBreak('\n');
    hide IsBreak;
    var text := line + ("\n" + rest);
    forall i | 0 <= i < |rest| ensures text[|line| + 1 + i] == rest[i] { }
    assert text[|line|] == '\n' && forall i :: 0 <= i < |line| ==> text[i] == line[i];
    if rest != "" { assert text[|text|-1] == rest[|rest|-1]; }
  }

  /** Splitting and joining gives the text back exactly for plain texts. */
  lemma {:induction false} SplitIsLosslessIff(text: string)
    ensures Unlines(SplitLines(text)) == text <==> PlainText(text)
    decreases |text|
  {
    UnlinesPlain(SplitLines(text));
    if PlainText(text) && text != "" {
      var i := LineEnd(text);
      assert IsBreak('\n');
      assert text[..|text|] == text && IsBreak(text[|text|-1]);
      var rest := text[i + 1..];
      assert text == text[..i] + ("\n" + rest);
      PlainCons(text[..i], rest);
      SplitIsLosslessIff(rest);
      SplitFirst(text[..i], rest);
      assert ([text[..i]] + SplitLines(rest))[1..] == SplitLines(rest);
    }
  }

  /** The text that is written: the file's own text with the table's part edited (or the new table behind it) if
      and only if the text is plain; any other line break comes out as a line feed, and a missing one is added. */
  lemma TextFrameIff(text: string, key: string, value: bool)
    requires ValidKey(key)
    ensures var lines := SplitLines(text);
      var lead, body, rest := Unlines(Lead(lines)), Body(lines), Unlines(Rest(lines));
      && ToggleText(Some(text), key, value) == lead + Unlines(EditBody(body, key, value)) + rest
      && (Span(lines).Some? ==> (text == lead + Unlines(body) + rest <==> PlainText(text)))
      && (Span(lines) == None ==>
            var added := Unlines(Padding(lines) + ["[safety]"]);
            lead == Unlines(lines) + added && (lead == text + added <==> PlainText(text)))
  {
    hide *;
    var lines := SplitLines(text);
    WrittenText(text, key, value);
    UnlinesParts(lines, EditBody(Body(lines), key, value));
    SplitIsLosslessIff(text);
    if Span(lines).Some? {
      PartsOfFile(lines);
      UnlinesParts(lines, Body(lines));
    } else {
      NewLead(lines);
      SamePrefix(Unlines(lines), text, Unlines(Padding(lines) + ["[safety]"]));
    }
  }

  lemma SamePrefix(x: string, y: string, z: string)
    ensures x + z == y + z <==> x == y
  {
    if x + z == y + z {
      assert |x| == |y|;
      assert x == (x + z)[..|x|] && y == (y + z)[..|y|];
    }
  }

  lemma NewLead(lines: seq<string>)
    requires Span(lines) == None
    ensures Unlines(Lead(lines)) == Unlines(lines) + Unlines(Padding(lines) + ["[safety]"])
  {
    var p := Padding(lines);
    hide Unlines, Padding, Find;
    UnlinesConcat(lines, p + ["[safety]"]);
    assert lines + p + ["[safety]"] == lines + (p + ["[safety]"]);
  }

  lemma UnlinesParts(lines: seq<string>, body: seq<string>)
    ensures Unlines(Lead(lines) + body + Rest(lines)) == Unlines(Lead(lines)) + Unlines(body) + Unlines(Rest(lines))
  {
    hide *;
    UnlinesConcat(Lead(lines) + body, Rest(lines));
    UnlinesConcat(Lead(lines), body);
  }

  lemma WrittenText(text: string, key: string, value: bool)
    requires ValidKey(key)
    ensures var lines := SplitLines(text);
      ToggleText(Some(text), key, value) == Unlines(Lead(lines) + EditBody(Body(lines), key, value) + Rest(lines))
  {
    hide Toggle, BreakFree, JoinLines, SplitLines, Unlines, Lead, Body, Rest, EditBody;
    var lines := SplitLines(text);
    ToggleBreakFree(lines, key, value);
    TogglePart(lines, key, value);
    UnlinesIsJoin(Toggle(lines, key, value));
  }

  // ---- How many [safety] headers a TOML reader sees ----

  /** A table header may have white space inside the brackets and a comment after them. */
  predicate IsTomlSafety(line: string) {
    var t := LStrip(line);
    && StartsWith(t, "[")
    && var u := LStrip(t[1..]);
       && StartsWith(u, "safety")
       && var w := LStrip(u[6..]);
          && StartsWith(w, "]")
          && var c := LStrip(w[1..]);
             c == "" || c[0] == '#'
  }

  function Tables(lines: seq<string>): nat {
    if lines == [] then 0 else (if IsTomlSafety(lines[0]) then 1 else 0) + Tables(lines[1..])
  }

  lemma LStripAll(s: string)
    requires forall c :: c in s ==> IsSpace(c)
    ensures LStrip(s) == ""
  {
  }

  lemma PlainHeaderIsToml(line: string)
    requires IsSafety(line)
    ensures IsTomlSafety(line)
  {
    var t := LStrip(line);
    var right := RStripSplits(t);
    assert t == "[safety]" + right;
    assert t[1..] == "safety]" + right && t[1..][6..] == "]" + right && t[1..][6..][1..] == right;
    LStripAll(right);
  }

  lemma KeyLineIsNoTable(line: string, key: string)
    requires ValidKey(key) && IsKeyLine(line, key)
    ensures !IsTomlSafety(line)
  {
    assert LStrip(line)[0] == key[0];
  }

  lemma {:induction false} TablesConcat(xs: seq<string>, ys: seq<string>)
    ensures Tables(xs + ys) == Tables(xs) + Tables(ys)
    decreases |xs|
  {
    hide IsTomlSafety;
    if xs == [] {
      assert xs + ys == ys;
    } else {
      assert (xs + ys)[1..] == xs[1..] + ys;
      TablesConcat(xs[1..], ys);
    }
  }

  lemma {:induction false} TablesSame(xs: seq<string>, ys: seq<string>)
    requires |xs| == |ys|
    requires forall i :: 0 <= i < |xs| ==> (IsTomlSafety(xs[i]) <==> IsTomlSafety(ys[i]))
    ensures Tables(xs) == Tables(ys)
    decreases |xs|
  {
    hide IsTomlSafety;
    if xs != [] { TablesSame(xs[1..], ys[1..]); }
  }

  lemma OneLine(line: string)
    ensures Tables([line]) == if IsTomlSafety(line) then 1 else 0
  {
    assert [line][1..] == [];
  }

  lemma EditBodyTables(body: seq<string>, key: string, value: bool)
    requires ValidKey(key)
    ensures Tables(EditBody(body, key, value)) == Tables(body)
  {
    hide IsKeyLine, IsTomlSafety, Rewrite, Setting, Tables;
    if Sets(body, key) {
      forall i | 0 <= i < |body| && IsKeyLine(body[i], key)
        ensures !IsTomlSafety(body[i]) && !IsTomlSafety(Rewrite(body[i], value))
      {
        RewriteKeyLine(body[i], key, value, value);
        KeyLineIsNoTable(body[i], key);
        KeyLineIsNoTable(Rewrite(body[i], value), key);
      }
      TablesSame(body, EditBody(body, key, value));
    } else {
      SettingIsKeyLine(key, value, value);
      KeyLineIsNoTable(Setting(key, value), key);
      TablesConcat(body, [Setting(key, value)]);
      OneLine(Setting(key, value));
    }
  }

  lemma PaddingIsNoTable(lines: seq<string>)
    ensures Tables(Padding(lines)) == 0
  {
    OneLine("");
  }

  /** The edit adds a table exactly when no line strips to "[safety]". */
  lemma TablesAfterEdit(lines: seq<string>, key: string, value: bool)
    requires ValidKey(key)
    ensures Tables(Toggle(lines, key, value)) == Tables(lines) + if Span(lines) == None then 1 else 0
  {
    SafetyHeader();
    PlainHeaderIsToml("[safety]");
    OneLine("[safety]");
    hide *;
    var lead, body, rest := Lead(lines), Body(lines), Rest(lines);
    TogglePart(lines, key, value);
    EditBodyTables(body, key, value);
    TablesConcat(lead + EditBody(body, key, value), rest);
    TablesConcat(lead, EditBody(body, key, value));
    TablesConcat(lead + body, rest);
    TablesConcat(lead, body);
    PartsOfFile(lines);
    if Span(lines) == None { NewTable(lines); }
  }

  lemma NewTable(lines: seq<string>)
    requires Span(lines) == None
    ensures Tables(Lead(lines)) == Tables(lines) + 1 && Tables(Body(lines)) == 0 && Tables(Rest(lines)) == 0
  {
    SafetyHeader();
    PlainHeaderIsToml("[safety]");
    hide IsTomlSafety, Padding;
    OneLine("[safety]");
    PaddingIsNoTable(lines);
    TablesConcat(lines + Padding(lines), ["[safety]"]);
    TablesConcat(lines, Padding(lines));
  }

  const COMMENTED := "[safety] # flags"

  lemma CommentedHeader()
    ensures IsTomlSafety(COMMENTED) && !IsSafety(COMMENTED)
  {
    var t := COMMENTED;
    StripSpaceFree(t);
    assert |t| != |"[safety]"|;
    assert t[1..] == "safety] # flags" && t[1..][6..] == "] # flags" && t[1..][6..][1..] == " # flags";
    assert " # flags"[1..] == "# flags";
  }

  lemma CommentedHeaderIsOverlooked()
    ensures Tables([COMMENTED]) == 1 && Tables(Toggle([COMMENTED], "lab_mode", true)) == 2
  {
    CommentedHeader();
    hide IsSafety, IsHeader, IsTomlSafety, Toggle;
    OneLine(COMMENTED);
    SpanFacts([COMMENTED]);
    TablesAfterEdit([COMMENTED], "lab_mode", true);
  }
}
