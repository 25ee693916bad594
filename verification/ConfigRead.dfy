/** What a TOML reader finds in the config file before and after an edit, table by table. */
module ConfigRead {
  import opened Common
  import opened Text
  import opened ConfigEdit

  // ---- Reading ----

  /** A table header: a line whose first visible character is '[', with any white space inside the brackets and
      any comment behind them. (Settings start with a key, so a reader takes no other line that starts so.) */
  predicate OpensTable(line: string) { StartsWith(LStrip(line), "[") }

  /** The headers of a file, in order; table n is the one below header n - 1, table 0 stands before the first. */
  function Headers(lines: seq<string>): (r: seq<string>)
    ensures |r| <= |lines|
  {
    if lines == [] then [] else (if OpensTable(lines[0]) then [lines[0]] else []) + Headers(lines[1..])
  }

  /** `true` and `false` may have a comment behind them; any other value is kept as its text. */
  datatype Value = Flag(on: bool) | Other(text: string)

  predicate Spells(text: string, word: string) {
    StartsWith(text, word) && var tail := LStrip(text[|word|..]); tail == "" || tail[0] == '#'
  }

  function Meaning(text: string): Value {
    if Spells(text, "true") then Flag(true) else if Spells(text, "false") then Flag(false) else Other(text)
  }

  /** The line sets the key, or something below it ("key.x = ..."). */
  predicate Mentions(line: string, key: string) {
    var t := LStrip(line);
    StartsWith(t, key) && var u := LStrip(t[|key|..]); StartsWith(u, "=") || StartsWith(u, ".")
  }

  /** The lines of table n that mention a key. */
  function Entries(lines: seq<string>, n: nat, key: string): seq<string>
    decreases |lines|
  {
    if lines == [] then []
    else if OpensTable(lines[0]) then (if n == 0 then [] else Entries(lines[1..], n - 1, key))
    else (if n == 0 && Mentions(lines[0], key) then [lines[0]] else []) + Entries(lines[1..], n, key)
  }

  /** Nothing, a table below the key, a value, or a contradiction, which a reader refuses. */
  datatype Reading = Missing | Inside | Is(value: Value) | Clash

  predicate NoneSets(entries: seq<string>, key: string) {
    forall i :: 0 <= i < |entries| ==> !IsKeyLine(entries[i], key)
  }

  function ReadingOf(entries: seq<string>, key: string): Reading {
    if entries == [] then Missing
    else if NoneSets(entries, key) then Inside
    else if |entries| == 1 then Is(Meaning(ValueOf(entries[0])))
    else Clash
  }

  /** What table n says about a key. */
  function Read(lines: seq<string>, n: nat, key: string): Reading { ReadingOf(Entries(lines, n, key), key) }

  // ---- The safety table ----

  function BehindFrom(s: string, words: seq<string>): Option<string>
    decreases |words|
  {
    if words == [] then Some(s)
    else if StartsWith(s, words[0]) then BehindFrom(LStrip(s[|words[0]|..]), words[1..])
    else None
  }

  /** What follows the words on the line, white space between them being ignored. */
  function Behind(line: string, words: seq<string>): Option<string> { BehindFrom(LStrip(line), words) }

  predicate IsSafetyArray(line: string) {
    var c := Behind(line, ["[[", "safety", "]]"]);
    c.Some? && (c.value == "" || c.value[0] == '#')
  }

  predicate Below(c: Option<string>) { c.Some? && c.value != "" && (c.value[0] == '.' || c.value[0] == ']') }

  /** A header of the table safety.key, or of one below it. */
  predicate IsBelow(line: string, key: string) {
    Below(Behind(line, ["[", "safety", ".", key])) || Below(Behind(line, ["[[", "safety", ".", key]))
  }

  predicate HasArray(headers: seq<string>) { exists i :: 0 <= i < |headers| && IsSafetyArray(headers[i]) }

  predicate HasBelow(headers: seq<string>, key: string) { exists i :: 0 <= i < |headers| && IsBelow(headers[i], key) }

  /** How often a file declares safety: each [safety] header, all [[safety]] headers together, and all
      assignments to safety before the first header ("safety.x = ...", "safety = ...") together. A reader
      refuses a file that declares it more than once. */
  function Declared(lines: seq<string>): nat {
    Tables(lines) + (if HasArray(Headers(lines)) then 1 else 0) + (if Entries(lines, 0, "safety") != [] then 1 else 0)
  }

  function SafetyAt(headers: seq<string>): (n: nat)
    ensures n <= |headers|
  {
    if headers == [] || IsTomlSafety(headers[0]) then 0 else 1 + SafetyAt(headers[1..])
  }

  /** What a reader finds under the one [safety] header of a file. */
  function ReadSafety(lines: seq<string>, key: string): Reading {
    if Declared(lines) > 1 then Clash
    else if Tables(lines) == 0 then Missing
    else
      var r := Read(lines, SafetyAt(Headers(lines)) + 1, key);
      if !HasBelow(Headers(lines), key) then r else if r.Missing? then Inside else Clash
  }

  // ---- Concatenation ----

  lemma {:induction false} HeadersConcat(xs: seq<string>, ys: seq<string>)
    ensures Headers(xs + ys) == Headers(xs) + Headers(ys)
    decreases |xs|
  {
    hide OpensTable;
    if xs == [] {
      assert xs + ys == ys;
    } else {
      assert (xs + ys)[1..] == xs[1..] + ys;
      HeadersConcat(xs[1..], ys);
      Assoc(if OpensTable(xs[0]) then [xs[0]] else [], Headers(xs[1..]), Headers(ys));
    }
  }

  lemma {:induction false} EntriesConcat(xs: seq<string>, ys: seq<string>, n: nat, key: string)
    ensures n < |Headers(xs)| ==> Entries(xs + ys, n, key) == Entries(xs, n, key)
    ensures n == |Headers(xs)| ==> Entries(xs + ys, n, key) == Entries(xs, n, key) + Entries(ys, 0, key)
    ensures n > |Headers(xs)| ==> Entries(xs + ys, n, key) == Entries(ys, n - |Headers(xs)|, key) && Entries(xs, n, key) == []
    decreases |xs|
  {
    hide OpensTable, Mentions;
    if xs == [] {
      assert xs + ys == ys;
    } else {
      assert (xs + ys)[1..] == xs[1..] + ys;
      if OpensTable(xs[0]) {
        if n > 0 { EntriesConcat(xs[1..], ys, n - 1, key); }
      } else {
        EntriesConcat(xs[1..], ys, n, key);
        Assoc(if n == 0 && Mentions(xs[0], key) then [xs[0]] else [], Entries(xs[1..], n, key), Entries(ys, 0, key));
      }
    }
  }

  lemma KeyLineOpensNothing(line: string, key: string)
    requires ValidKey(key) && IsKeyLine(line, key)
    ensures !OpensTable(line)
  {
    assert LStrip(line)[0] == key[0];
  }

  lemma HeaderOpens(line: string)
    ensures IsHeader(line) || IsTomlSafety(line) ==> OpensTable(line)
  {
    var t := LStrip(line);
    var right := RStripSplits(t);
    if IsHeader(line) { assert t[0] == Strip(line)[0]; }
  }

  lemma LiteralMeans(value: bool)
    ensures Meaning(Literal(value)) == Flag(value)
  {
    assert "true"[4..] == "" && "false"[5..] == "";
    assert !StartsWith("false", "true") by { assert "false"[0] != "true"[0]; }
  }

  // ---- Lines and keys ----

  lemma OneMention(line: string, k: string, l: string)
    requires BareKey(k) && BareKey(l) && Mentions(line, k) && Mentions(line, l)
    ensures k == l
  {
    NoLonger(line, k, l);
    NoLonger(line, l, k);
    assert k == LStrip(line)[..|k|] && l == LStrip(line)[..|l|];
  }

  /** The character after the key is no key character, so a longer key cannot match there. */
  lemma NoLonger(line: string, k: string, l: string)
    requires BareKey(k) && BareKey(l) && Mentions(line, k) && Mentions(line, l)
    ensures |l| <= |k|
  {
    var t := LStrip(line);
    var gap := LStripSplits(t[|k|..]);
    var c := t[|k|..][0];
    assert IsSpace(c) || c == '=' || c == '.' by { if gap != "" { assert c == gap[0] && gap[0] in gap; } }
    assert !BareChar(c);
    assert forall i :: 0 <= i < |l| ==> t[i] == l[i] && BareChar(l[i]);
  }

  lemma KeyLineMentions(line: string, key: string)
    ensures IsKeyLine(line, key) ==> Mentions(line, key)
  {
  }

  lemma LineRewritten(line: string, key: string, value: bool, k: string)
    requires ValidKey(key) && BareKey(k)
    ensures IsKeyLine(line, key) ==>
      var r := Rewrite(line, value);
      && !OpensTable(line) && !OpensTable(r) && IsKeyLine(r, key) && Meaning(ValueOf(r)) == Flag(value)
      && (Mentions(line, k) <==> k == key) && (Mentions(r, k) <==> k == key)
  {
    if IsKeyLine(line, key) {
      var r := Rewrite(line, value);
      RewriteKeyLine(line, key, value, value);
      KeyLineOpensNothing(line, key);
      KeyLineOpensNothing(r, key);
      LiteralMeans(value);
      ValidIsBare(key);
      hide *;
      KeyLineMentions(line, key);
      KeyLineMentions(r, key);
      if Mentions(line, k) { OneMention(line, key, k); }
      if Mentions(r, k) { OneMention(r, key, k); }
    }
  }

  lemma NewLine(key: string, value: bool, k: string)
    requires ValidKey(key) && BareKey(k)
    ensures var line := Setting(key, value);
      && !OpensTable(line) && IsKeyLine(line, key) && Meaning(ValueOf(line)) == Flag(value)
      && (Mentions(line, k) <==> k == key)
  {
    var line := Setting(key, value);
    SettingIsKeyLine(key, value, value);
    KeyLineOpensNothing(line, key);
    LiteralMeans(value);
    ValidIsBare(key);
    hide *;
    KeyLineMentions(line, key);
    if Mentions(line, k) { OneMention(line, key, k); }
  }

  // ---- The edit, table by table ----

  lemma OneLineReads(line: string, n: nat, key: string)
    ensures Headers([line]) == if OpensTable(line) then [line] else []
    ensures Entries([line], n, key) == if n == 0 && !OpensTable(line) && Mentions(line, key) then [line] else []
  {
    assert [line][1..] == [];
  }

  function RewriteAll(xs: seq<string>, key: string, value: bool): (ys: seq<string>)
    ensures |ys| == |xs|
    ensures forall i :: 0 <= i < |xs| ==> ys[i] == if IsKeyLine(xs[i], key) then Rewrite(xs[i], value) else xs[i]
  {
    seq(|xs|, i requires 0 <= i < |xs| => if IsKeyLine(xs[i], key) then Rewrite(xs[i], value) else xs[i])
  }

  lemma RewriteConcat(xs: seq<string>, ys: seq<string>, key: string, value: bool)
    ensures RewriteAll(xs + ys, key, value) == RewriteAll(xs, key, value) + RewriteAll(ys, key, value)
  {
    hide IsKeyLine, Rewrite;
  }

  lemma RewriteRest(xs: seq<string>, key: string, value: bool)
    requires xs != []
    ensures RewriteAll(xs, key, value) != [] && RewriteAll(xs, key, value)[1..] == RewriteAll(xs[1..], key, value)
    ensures RewriteAll(xs, key, value)[0] == if IsKeyLine(xs[0], key) then Rewrite(xs[0], value) else xs[0]
    ensures RewriteAll([xs[0]], key, value) == [RewriteAll(xs, key, value)[0]] && RewriteAll([], key, value) == []
  {
    hide IsKeyLine, Rewrite;
  }

  /** Rewriting the key's lines in place. */
  lemma {:induction false} RewrittenHeaders(xs: seq<string>, key: string, value: bool)
    requires ValidKey(key)
    ensures Headers(RewriteAll(xs, key, value)) == Headers(xs)
    decreases |xs|
  {
    if xs != [] {
      ValidIsBare(key);
      LineRewritten(xs[0], key, value, key);
      RewriteRest(xs, key, value);
      hide OpensTable, IsKeyLine, Mentions, Rewrite, RewriteAll, BareKey, ValidKey;
      RewrittenHeaders(xs[1..], key, value);
    }
  }

  lemma {:induction false} RewrittenReads(xs: seq<string>, key: string, value: bool, n: nat, k: string)
    requires ValidKey(key) && BareKey(k)
    ensures Entries(RewriteAll(xs, key, value), n, k)
      == if k == key then RewriteAll(Entries(xs, n, k), key, value) else Entries(xs, n, k)
    decreases |xs|
  {
    if xs != [] {
      LineRewritten(xs[0], key, value, k);
      RewriteRest(xs, key, value);
      hide OpensTable, IsKeyLine, Mentions, Rewrite, RewriteAll, BareKey, ValidKey;
      if OpensTable(xs[0]) {
        if n > 0 { RewrittenReads(xs[1..], key, value, n - 1, k); }
      } else {
        RewrittenReads(xs[1..], key, value, n, k);
        RewriteConcat(if n == 0 && Mentions(xs[0], k) then [xs[0]] else [], Entries(xs[1..], n, k), key, value);
      }
    }
  }

  /** Rewriting changes the value and nothing else about a reading. */
  lemma RewrittenReading(es: seq<string>, key: string, value: bool)
    requires ValidKey(key)
    ensures var r := ReadingOf(es, key);
      ReadingOf(RewriteAll(es, key, value), key) == if r.Is? then Is(Flag(value)) else r
  {
    ValidIsBare(key);
    forall i | 0 <= i < |es| ensures IsKeyLine(RewriteAll(es, key, value)[i], key) <==> IsKeyLine(es[i], key) {
      LineRewritten(es[i], key, value, key);
    }
    if |es| == 1 { LineRewritten(es[0], key, value, key); }
    hide IsKeyLine, Meaning, ValueOf, Rewrite;
    if !NoneSets(es, key) {
      var i :| 0 <= i < |es| && IsKeyLine(es[i], key);
      assert IsKeyLine(RewriteAll(es, key, value)[i], key);
    }
  }

  lemma {:induction false} NothingSet(xs: seq<string>, n: nat, key: string)
    requires !Sets(xs, key)
    ensures NoneSets(Entries(xs, n, key), key)
    decreases |xs|
  {
    if xs != [] {
      hide OpensTable, IsKeyLine, Mentions;
      assert !Sets(xs[1..], key) by {
        assert forall i :: 0 <= i < |xs| - 1 ==> xs[1..][i] == xs[i + 1];
      }
      NothingSet(xs[1..], n, key);
      if n > 0 { NothingSet(xs[1..], n - 1, key); }
      assert !IsKeyLine(xs[0], key);
    }
  }

  /** The edit of the lines of the editor's span, key by key and table by table. */
  lemma EditEntries(body: seq<string>, key: string, value: bool, n: nat, k: string)
    requires ValidKey(key) && BareKey(k)
    ensures var r := EditBody(body, key, value);
      && Headers(r) == Headers(body)
      && (k != key ==> Entries(r, n, k) == Entries(body, n, k))
      && (k == key && Sets(body, key) ==> Entries(r, n, k) == RewriteAll(Entries(body, n, k), key, value))
      && (k == key && !Sets(body, key) ==>
            Entries(r, n, k) == Entries(body, n, k) + if n == |Headers(body)| then [Setting(key, value)] else [])
  {
    hide *;
    if Sets(body, key) {
      EditIsRewrite(body, key, value);
      RewrittenHeaders(body, key, value);
      RewrittenReads(body, key, value, n, k);
    } else {
      EditBodyAppends(body, key, value);
      AppendedEntries(body, key, value, n, k);
    }
  }

  lemma EditIsRewrite(body: seq<string>, key: string, value: bool)
    requires Sets(body, key)
    ensures EditBody(body, key, value) == RewriteAll(body, key, value)
  {
    hide IsKeyLine, Rewrite, Sets;
  }

  lemma AppendedEntries(body: seq<string>, key: string, value: bool, n: nat, k: string)
    requires ValidKey(key) && BareKey(k)
    ensures var line := Setting(key, value);
      && Headers(body + [line]) == Headers(body)
      && Entries(body + [line], n, k) == Entries(body, n, k) + if n == |Headers(body)| && k == key then [line] else []
  {
    hide *;
    var line := Setting(key, value);
    NewLine(key, value, k);
    OneLineReads(line, 0, k);
    HeadersConcat(body, [line]);
    EntriesConcat(body, [line], n, k);
    if n > |Headers(body)| { OneLineReads(line, n - |Headers(body)|, k); }
    assert Headers(body) + [] == Headers(body) && Entries(body, n, k) + [] == Entries(body, n, k);
  }

  /** The same for readings of the edited key. */
  lemma EditReads(body: seq<string>, key: string, value: bool, n: nat)
    requires ValidKey(key)
    ensures var before, after := Read(body, n, key), Read(EditBody(body, key, value), n, key);
      && Headers(EditBody(body, key, value)) == Headers(body)
      && (before.Is? ==> Sets(body, key) && after == Is(Flag(value)))
      && (!before.Is? && (Sets(body, key) || n != |Headers(body)|) ==> after == before)
      && (!before.Is? && !Sets(body, key) && n == |Headers(body)| ==>
            before != Clash && after == if before.Missing? then Is(Flag(value)) else Clash)
  {
    ValidIsBare(key);
    EditEntries(body, key, value, n, key);
    hide Headers, Entries, Sets, EditBody, ValidKey, BareKey;
    var es := Entries(body, n, key);
    if Sets(body, key) {
      RewrittenReading(es, key, value);
    } else {
      NothingSet(body, n, key);
      NewLine(key, value, key);
      hide IsKeyLine, Meaning, ValueOf, Setting;
      var more := es + [Setting(key, value)];
      assert IsKeyLine(more[|es|], key);
      assert es + [] == es;
    }
  }

  /** The tables opened within the span: the editor stops only at a line that ends in ']'. */
  function Within(lines: seq<string>): nat { |Headers(Body(lines))| }

  /** The number of the table that the editor takes for [safety]. */
  function EditedAt(lines: seq<string>): nat { |Headers(Lead(lines))| }

  lemma WithinIs(lines: seq<string>)
    ensures Within(lines) == |Headers(Body(lines))| && EditedAt(lines) == |Headers(Lead(lines))|
  {
  }

  lemma LastReadsNothing(last: string, n: nat, key: string)
    requires OpensTable(last)
    ensures Entries([last], n, key) == []
  {
    assert [last][1..] == [];
  }

  lemma LeadReads(lead: seq<string>, n: nat, key: string)
    requires lead != [] && OpensTable(lead[|lead|-1])
    ensures |Headers(lead)| > 0 && Headers(lead)[|Headers(lead)|-1] == lead[|lead|-1]
    ensures n >= |Headers(lead)| ==> Entries(lead, n, key) == []
  {
    var front, last := lead[..|lead|-1], lead[|lead|-1];
    assert lead == front + [last];
    hide OpensTable, Entries, Headers, Mentions;
    OneLineReads(last, 0, key);
    HeadersConcat(front, [last]);
    EntriesConcat(front, [last], n, key);
    if n > |Headers(front)| { LastReadsNothing(last, n - |Headers(front)|, key); }
  }

  lemma RestReads(rest: seq<string>, key: string)
    requires rest != [] ==> OpensTable(rest[0])
    ensures Entries(rest, 0, key) == []
  {
  }

  /** Reading lead, span and rest, when the rest starts with a header. */
  lemma PartsRead(lead: seq<string>, body: seq<string>, rest: seq<string>, n: nat, key: string)
    requires lead != [] && OpensTable(lead[|lead|-1])
    requires rest != [] ==> OpensTable(rest[0])
    ensures var l, h := |Headers(lead)|, |Headers(body)|;
      Entries(lead + body + rest, n, key) ==
        if n < l then Entries(lead, n, key)
        else if n <= l + h then Entries(body, n - l, key)
        else Entries(rest, n - l - h, key)
  {
    hide OpensTable, Entries, Headers;
    LeadReads(lead, n, key);
    RestReads(rest, key);
    HeadersConcat(lead, body);
    EntriesConcat(lead + body, rest, n, key);
    EntriesConcat(lead, body, n, key);
    assert [] + Entries(body, 0, key) == Entries(body, 0, key);
    if n >= |Headers(lead)| {
      assert Entries(body, n - |Headers(lead)|, key) + [] == Entries(body, n - |Headers(lead)|, key);
    }
  }

  lemma ProperOpens(lines: seq<string>)
    ensures Lead(lines) != [] && OpensTable(Lead(lines)[|Lead(lines)|-1])
    ensures Rest(lines) != [] ==> OpensTable(Rest(lines)[0])
  {
    PartsOfFile(lines);
    var last := Lead(lines)[|Lead(lines)|-1];
    SafetyIsHeader(last);
    HeaderOpens(last);
    if Rest(lines) != [] { HeaderOpens(Rest(lines)[0]); }
  }

  /** What the edited file says, table by table, in terms of the parts of the file. */
  lemma ToggleReads(lines: seq<string>, key: string, value: bool, n: nat, k: string)
    requires ValidKey(key)
    ensures var at, h := EditedAt(lines), Within(lines);
      Entries(Toggle(lines, key, value), n, k) ==
        if n < at then Entries(Lead(lines), n, k)
        else if n <= at + h then Entries(EditBody(Body(lines), key, value), n - at, k)
        else Entries(Rest(lines), n - at - h, k)
  {
    hide *;
    ValidIsBare(key);
    ProperOpens(lines);
    TogglePart(lines, key, value);
    EditEntries(Body(lines), key, value, 0, key);
    PartsRead(Lead(lines), EditBody(Body(lines), key, value), Rest(lines), n, k);
    WithinIs(lines);
  }

  /** The same for the file as it was: a missing table says nothing. */
  lemma FileReads(lines: seq<string>, n: nat, k: string)
    requires BareKey(k)
    ensures var at, h := EditedAt(lines), Within(lines);
      Entries(lines, n, k) ==
        if n < at then Entries(Lead(lines), n, k)
        else if n <= at + h then Entries(Body(lines), n - at, k)
        else Entries(Rest(lines), n - at - h, k)
  {
    ProperOpens(lines);
    PartsOfFile(lines);
    hide OpensTable, Entries, Headers, Find, IsSafety, IsHeader;
    if Span(lines).Some? {
      PartsRead(Lead(lines), Body(lines), Rest(lines), n, k);
    } else {
      NoSpanReads(lines, n, k);
      EmptyReads(k);
    }
  }

  lemma NoSpanReads(lines: seq<string>, n: nat, k: string)
    requires BareKey(k)
    ensures var lead := lines + Padding(lines) + ["[safety]"];
      && Headers(lead) == Headers(lines) + ["[safety]"]
      && (n < |Headers(lead)| ==> Entries(lines, n, k) == Entries(lead, n, k))
      && (n >= |Headers(lead)| ==> Entries(lines, n, k) == [])
  {
    SafetyHeader();
    HeaderOpens("[safety]");
    var p, last := Padding(lines), "[safety]";
    BlankReads(lines, k);
    LastReadsNothing(last, 0, k);
    OneLineReads(last, 0, k);
    hide OpensTable, Entries, Headers, Padding, Mentions;
    HeadersConcat(lines + p, [last]);
    HeadersConcat(lines, p);
    assert Headers(lines) + [] == Headers(lines);
    EntriesConcat(lines + p, [last], n, k);
    EntriesConcat(lines, p, n, k);
    assert Entries(lines, n, k) + [] == Entries(lines, n, k);
  }

  lemma EmptyReads(k: string)
    ensures Headers([]) == [] && forall n :: Entries([], n, k) == []
  {
  }

  lemma BlankReads(lines: seq<string>, k: string)
    requires BareKey(k)
    ensures Headers(Padding(lines)) == [] && Entries(Padding(lines), 0, k) == []
  {
    OneLineReads("", 0, k);
  }

  // ---- Other keys and other tables ----

  /** A key other than the edited one stands on the same lines as before in every table of the file. */
  lemma OtherKeysRead(lines: seq<string>, key: string, value: bool, other: string, n: nat)
    requires ValidKey(key) && BareKey(other) && key != other
    ensures Entries(Toggle(lines, key, value), n, other) == Entries(lines, n, other)
    ensures Read(Toggle(lines, key, value), n, other) == Read(lines, n, other)
  {
    ReadIs(Toggle(lines, key, value), n, other);
    ReadIs(lines, n, other);
    hide *;
    ToggleReads(lines, key, value, n, other);
    FileReads(lines, n, other);
    var at := EditedAt(lines);
    if n >= at { EditEntries(Body(lines), key, value, n - at, other); }
  }

  lemma ReadIs(lines: seq<string>, n: nat, key: string)
    ensures Read(lines, n, key) == ReadingOf(Entries(lines, n, key), key)
  {
  }

  /** Every table but the one taken for [safety] reads as before. */
  ghost predicate OthersKept(lines: seq<string>, out: seq<string>) {
    forall n: nat, k :: BareKey(k) && n != EditedAt(lines) ==> Read(out, n, k) == Read(lines, n, k)
  }

  /** No table opened within the span is touched: there is none, or the key occurs in the span, and every such
      table that has it already has the new value. */
  ghost predicate SpareOthers(body: seq<string>, key: string, value: bool) {
    |Headers(body)| > 0 ==>
      && Sets(body, key)
      && forall m :: 1 <= m <= |Headers(body)| && Read(body, m, key).Is? ==> Read(body, m, key) == Is(Flag(value))
  }

  /** "Other keys are preserved": exactly when no table hidden in the span has the key or receives it. */
  lemma OtherTablesIff(lines: seq<string>, key: string, value: bool)
    requires ValidKey(key)
    ensures OthersKept(lines, Toggle(lines, key, value)) <==> SpareOthers(Body(lines), key, value)
  {
    hide *;
    SpareIff(Body(lines), key, value);
    if WithinKept(Body(lines), key, value) { KeptOutside(lines, key, value); }
    if OthersKept(lines, Toggle(lines, key, value)) { KeptWithin(lines, key, value); }
  }

  lemma KeptOutside(lines: seq<string>, key: string, value: bool)
    requires ValidKey(key) && WithinKept(Body(lines), key, value)
    ensures OthersKept(lines, Toggle(lines, key, value))
  {
    var out := Toggle(lines, key, value);
    hide Toggle, Body, EditedAt, Read, WithinKept, ValidKey, BareKey;
    forall n: nat, k | BareKey(k) && n != EditedAt(lines) ensures Read(out, n, k) == Read(lines, n, k) {
      ReadsKept(lines, key, value, n, k);
    }
  }

  lemma KeptWithin(lines: seq<string>, key: string, value: bool)
    requires ValidKey(key) && OthersKept(lines, Toggle(lines, key, value))
    ensures WithinKept(Body(lines), key, value)
  {
    var body := Body(lines);
    hide Toggle, Body, EditedAt, Read, Headers, ValidKey, BareKey, KeptAt;
    forall m | 1 <= m <= |Headers(body)| ensures KeptAt(body, key, value, m) { KeptThere(lines, key, value, m); }
  }

  lemma OthersKeptAt(lines: seq<string>, out: seq<string>, n: nat, k: string)
    requires OthersKept(lines, out) && BareKey(k) && n != EditedAt(lines)
    ensures Read(out, n, k) == Read(lines, n, k)
  {
    hide Read, EditedAt, BareKey;
  }

  lemma KeptThere(lines: seq<string>, key: string, value: bool, m: nat)
    requires ValidKey(key) && OthersKept(lines, Toggle(lines, key, value)) && 1 <= m <= |Headers(Body(lines))|
    ensures KeptAt(Body(lines), key, value, m)
  {
    var n := EditedAt(lines) + m;
    hide *;
    ValidIsBare(key);
    OthersKeptAt(lines, Toggle(lines, key, value), n, key);
    OthersAt(lines, key, value, n, key);
    assert n - EditedAt(lines) == m;
  }

  lemma ReadsKept(lines: seq<string>, key: string, value: bool, n: nat, k: string)
    requires ValidKey(key) && BareKey(k) && n != EditedAt(lines) && WithinKept(Body(lines), key, value)
    ensures Read(Toggle(lines, key, value), n, k) == Read(lines, n, k)
  {
    hide Toggle, Body, EditedAt, Read, Headers, ValidKey, BareKey, KeptAt;
    OthersAt(lines, key, value, n, k);
  }

  predicate KeptAt(body: seq<string>, key: string, value: bool, m: nat) {
    Read(EditBody(body, key, value), m, key) == Read(body, m, key)
  }

  ghost predicate WithinKept(body: seq<string>, key: string, value: bool) {
    forall m :: 1 <= m <= |Headers(body)| ==> KeptAt(body, key, value, m)
  }

  lemma SpareIff(body: seq<string>, key: string, value: bool)
    requires ValidKey(key)
    ensures SpareOthers(body, key, value) <==> WithinKept(body, key, value)
  {
    hide Read, Headers, Sets, EditBody;
    forall m | 1 <= m <= |Headers(body)|
      ensures KeptAt(body, key, value, m) <==>
        if Read(body, m, key).Is? then Read(body, m, key) == Is(Flag(value)) else Sets(body, key) || m != |Headers(body)|
      ensures Read(body, m, key).Is? ==> Sets(body, key)
    {
      EditReads(body, key, value, m);
    }
    hide KeptAt;
    if |Headers(body)| > 0 && !Sets(body, key) { assert !KeptAt(body, key, value, |Headers(body)|); }
  }

  lemma OthersAt(lines: seq<string>, key: string, value: bool, n: nat, k: string)
    requires ValidKey(key) && BareKey(k) && n != EditedAt(lines)
    ensures var at, body := EditedAt(lines), Body(lines);
      var inside := k == key && at < n <= at + |Headers(body)|;
      && (!inside ==> Read(Toggle(lines, key, value), n, k) == Read(lines, n, k))
      && (inside ==> (Read(Toggle(lines, key, value), n, k) == Read(lines, n, k) <==> KeptAt(body, key, value, n - at)))
  {
    WithinIs(lines);
    hide Toggle, Body, EditedAt, Entries, Headers, Sets, EditBody, Lead, Rest, Within, ReadingOf;
    ToggleReads(lines, key, value, n, k);
    FileReads(lines, n, k);
    if k != key { OtherKeysRead(lines, key, value, k, n); }
  }

  // ---- How often safety is declared ----

  lemma SafetyIsNoArray(key: string)
    ensures OpensTable("[safety]") && !IsSafetyArray("[safety]") && !IsBelow("[safety]", key)
  {
    var line := "[safety]";
    assert LStrip(line) == line && line[1] == 's' && "[["[1] == '[';
    assert line[1..] == "safety]" && "safety]"[6..] == "]" && LStrip("safety]") == "safety]" && LStrip("]") == "]";
    var words := ["[", "safety", ".", key];
    assert words[1..] == ["safety", ".", key] && words[1..][1..] == [".", key];
    assert BehindFrom("]", [".", key]) == None;
    assert BehindFrom("safety]", ["safety", ".", key]) == None;
  }

  lemma EditHeaders(lines: seq<string>, key: string, value: bool)
    requires ValidKey(key)
    ensures Headers(Toggle(lines, key, value)) == Headers(lines) + if Span(lines) == None then ["[safety]"] else []
  {
    hide *;
    TogglePart(lines, key, value);
    ValidIsBare(key);
    EditEntries(Body(lines), key, value, 0, key);
    HeadersOfParts(Lead(lines), EditBody(Body(lines), key, value), Rest(lines));
    HeadersOfParts(Lead(lines), Body(lines), Rest(lines));
    FileHeaders(lines);
  }

  lemma HeadersOfParts(lead: seq<string>, body: seq<string>, rest: seq<string>)
    ensures Headers(lead + body + rest) == Headers(lead) + Headers(body) + Headers(rest)
  {
    hide Headers;
    HeadersConcat(lead + body, rest);
    HeadersConcat(lead, body);
  }

  lemma FileHeaders(lines: seq<string>)
    ensures Headers(Lead(lines)) + Headers(Body(lines)) + Headers(Rest(lines))
         == Headers(lines) + if Span(lines) == None then ["[safety]"] else []
  {
    PartsOfFile(lines);
    hide Headers, Padding, Find, ProperLead, ProperBody, ProperRest;
    if Span(lines) == None {
      EmptyReads("k");
      NoSpanReads(lines, 0, "k");
      assert Headers(Lead(lines)) + [] + [] == Headers(Lead(lines));
    } else {
      HeadersOfParts(Lead(lines), Body(lines), Rest(lines));
      assert Headers(lines) + [] == Headers(lines);
    }
  }

  lemma HeadersKept(headers: seq<string>, key: string)
    ensures HasArray(headers + ["[safety]"]) <==> HasArray(headers)
    ensures HasBelow(headers + ["[safety]"], key) <==> HasBelow(headers, key)
  {
    SafetyIsNoArray(key);
    hide IsSafetyArray, IsBelow;
    var more := headers + ["[safety]"];
    assert forall i :: 0 <= i < |headers| ==> more[i] == headers[i];
  }

  lemma {:induction false} SafetyHeaders(lines: seq<string>)
    ensures Tables(Headers(lines)) == Tables(lines)
    decreases |lines|
  {
    if lines != [] {
      HeaderOpens(lines[0]);
      hide IsTomlSafety, OpensTable;
      SafetyHeaders(lines[1..]);
      if OpensTable(lines[0]) {
        assert Headers(lines)[1..] == Headers(lines[1..]);
      } else {
        assert Headers(lines) == Headers(lines[1..]);
      }
    }
  }

  lemma EditBelow(lines: seq<string>, key: string, value: bool)
    requires ValidKey(key)
    ensures HasArray(Headers(Toggle(lines, key, value))) <==> HasArray(Headers(lines))
    ensures HasBelow(Headers(Toggle(lines, key, value)), key) <==> HasBelow(Headers(lines), key)
  {
    hide *;
    EditHeaders(lines, key, value);
    HeadersKept(Headers(lines), key);
    assert Headers(lines) + [] == Headers(lines);
  }

  lemma LeadOpens(lines: seq<string>)
    ensures EditedAt(lines) > 0
  {
    ProperOpens(lines);
    hide Headers, Lead;
    LeadReads(Lead(lines), 0, "");
  }

  lemma DeclaredIs(lines: seq<string>)
    ensures Declared(lines) ==
      Tables(lines) + (if HasArray(Headers(lines)) then 1 else 0) + (if Entries(lines, 0, "safety") != [] then 1 else 0)
    ensures BareKey("safety")
  {
  }

  /** The edit adds a declaration exactly when no line strips to "[safety]". */
  lemma DeclaredAfterEdit(lines: seq<string>, key: string, value: bool)
    requires ValidKey(key)
    ensures Declared(Toggle(lines, key, value)) == Declared(lines) + if Span(lines) == None then 1 else 0
  {
    var out := Toggle(lines, key, value);
    DeclaredIs(lines);
    DeclaredIs(out);
    hide *;
    TablesAfterEdit(lines, key, value);
    EditBelow(lines, key, value);
    LeadOpens(lines);
    ToggleReads(lines, key, value, 0, "safety");
    FileReads(lines, 0, "safety");
  }

  /** "No duplicate tables" holds exactly when safety, if it is declared, is so by a plain header: every other
      form is overlooked, and a second declaration is appended. */
  lemma NoDuplicateTableIff(lines: seq<string>, key: string, value: bool)
    requires ValidKey(key) && Declared(lines) <= 1
    ensures Declared(Toggle(lines, key, value)) <= 1
      <==> (Declared(lines) == 1 ==> exists i :: 0 <= i < |lines| && IsSafety(lines[i]))
  {
    hide IsSafety, IsHeader, Declared, Toggle;
    DeclaredAfterEdit(lines, key, value);
    SpanFacts(lines);
    if Span(lines).Some? { PlainIsDeclared(lines); }
  }

  lemma PlainIsDeclared(lines: seq<string>)
    requires Span(lines).Some?
    ensures Tables(lines) > 0 && Declared(lines) > 0
  {
    var s := Span(lines).value.0;
    hide *;
    SpanFacts(lines);
    PlainHeaderIsToml(lines[s]);
    assert lines == lines[..s] + ([lines[s]] + lines[s + 1..]);
    TablesConcat(lines[..s], [lines[s]] + lines[s + 1..]);
    TablesConcat([lines[s]], lines[s + 1..]);
    OneLine(lines[s]);
    DeclaredIs(lines);
  }

  // ---- Read after write ----

  lemma {:induction false} OnlySafety(xs: seq<string>, last: string, ys: seq<string>)
    requires IsTomlSafety(last)
    ensures Tables(xs + [last] + ys) == 1 ==> SafetyAt(xs + [last] + ys) == |xs|
    decreases |xs|
  {
    hide IsTomlSafety;
    var all := xs + [last] + ys;
    if xs != [] {
      assert all[1..] == xs[1..] + [last] + ys;
      TablesConcat(xs[1..] + [last], ys);
      TablesConcat(xs[1..], [last]);
      OneLine(last);
      OnlySafety(xs[1..], last, ys);
    }
  }

  lemma SafetyIsEdited(lines: seq<string>, key: string, value: bool)
    requires ValidKey(key) && Tables(Toggle(lines, key, value)) == 1
    ensures SafetyAt(Headers(Toggle(lines, key, value))) + 1 == EditedAt(lines)
  {
    var out, lead := Toggle(lines, key, value), Lead(lines);
    var tail := EditBody(Body(lines), key, value) + Rest(lines);
    LeadIsSafety(lines);
    hide OpensTable, IsTomlSafety, Entries, Headers, Tables, Toggle, EditBody, IsSafety, Lead, Body, Rest, SafetyAt, ValidKey;
    TogglePart(lines, key, value);
    assert out == lead + tail;
    LeadReads(lead, 0, key);
    HeadersConcat(lead, tail);
    SafetyHeaders(out);
    var hs := Headers(lead);
    assert hs == hs[..|hs|-1] + [lead[|lead|-1]];
    OnlySafety(hs[..|hs|-1], lead[|lead|-1], Headers(tail));
  }

  lemma LeadIsSafety(lines: seq<string>)
    ensures var lead := Lead(lines);
      lead != [] && IsTomlSafety(lead[|lead|-1]) && OpensTable(lead[|lead|-1])
  {
    ProperOpens(lines);
    PartsOfFile(lines);
    PlainHeaderIsToml(Lead(lines)[|Lead(lines)|-1]);
  }

  lemma ReadSafetyIs(lines: seq<string>, key: string)
    ensures ReadSafety(lines, key) ==
      if Declared(lines) > 1 then Clash
      else if Tables(lines) == 0 then Missing
      else if !HasBelow(Headers(lines), key) then Read(lines, SafetyAt(Headers(lines)) + 1, key)
      else if Read(lines, SafetyAt(Headers(lines)) + 1, key).Missing? then Inside
      else Clash
  {
    hide Declared, Tables, HasBelow, Headers, SafetyAt, Read;
  }

  lemma EditedReading(lines: seq<string>, key: string, value: bool)
    requires ValidKey(key) && Declared(Toggle(lines, key, value)) <= 1
    ensures var out := Toggle(lines, key, value);
      Read(out, SafetyAt(Headers(out)) + 1, key) == Read(EditBody(Body(lines), key, value), 0, key)
  {
    ReadIs(Toggle(lines, key, value), EditedAt(lines), key);
    ReadIs(EditBody(Body(lines), key, value), 0, key);
    hide *;
    EditedIsSafety(lines, key, value);
    SafetyIsEdited(lines, key, value);
    ToggleReads(lines, key, value, EditedAt(lines), key);
  }

  /** What a reader finds in the safety table after the edit. */
  lemma SafetyRead(lines: seq<string>, key: string, value: bool)
    requires ValidKey(key)
    ensures var out, r := Toggle(lines, key, value), Read(EditBody(Body(lines), key, value), 0, key);
      ReadSafety(out, key) ==
        if Declared(out) > 1 then Clash
        else if !HasBelow(Headers(lines), key) then r
        else if r.Missing? then Inside
        else Clash
  {
    var out := Toggle(lines, key, value);
    hide *;
    ReadSafetyIs(out, key);
    EditBelow(lines, key, value);
    if Declared(out) <= 1 {
      EditedIsSafety(lines, key, value);
      EditedReading(lines, key, value);
    }
  }

  /** The edited file has a safety table. */
  lemma EditedIsSafety(lines: seq<string>, key: string, value: bool)
    requires ValidKey(key) && Declared(Toggle(lines, key, value)) <= 1
    ensures Tables(Toggle(lines, key, value)) == 1
  {
    DeclaredIs(Toggle(lines, key, value));
    hide Declared, Tables, Toggle, Span;
    TablesAfterEdit(lines, key, value);
    if Span(lines).Some? { PlainIsDeclared(lines); }
  }

  /** Read after write, for a reader of the whole file: safety is declared as the editor sees it, no table stands at
      the key or below it, and in the part of the editor's span before the first other table the key is set once, or
      it is not mentioned and there is no other table. */
  lemma ReadAfterWriteIff(lines: seq<string>, key: string, value: bool)
    requires ValidKey(key)
    ensures ReadSafety(Toggle(lines, key, value), key) == Is(Flag(value)) <==>
      && Declared(lines) == (if Span(lines) == None then 0 else 1)
      && !HasBelow(Headers(lines), key)
      && (Read(Body(lines), 0, key).Is? || (Within(lines) == 0 && Read(Body(lines), 0, key).Missing?))
  {
    hide *;
    SafetyRead(lines, key, value);
    WithinIs(lines);
    DeclaredAfterEdit(lines, key, value);
    EditReads(Body(lines), key, value, 0);
    if Span(lines).Some? { PlainIsDeclared(lines); }
    if Within(lines) == 0 && Sets(Body(lines), key) { SetsIsMentioned(Body(lines), key); }
  }

  /** `mode set`, from the name of the switch and the text of the file to what a reader finds in the written text. */
  lemma ModeReadsBack(text: Option<string>, name: string, key: string, on: bool)
    requires (name == "lab" && key == "lab_mode") || (name == "safe" && key == "safe_mode")
      || (name == "read-only" && key == "read_only")
    ensures var lines := match text case None => [] case Some(t) => SplitLines(t);
      && name in SAFETY_KEYS && SAFETY_KEYS[name] == key
      && (ReadSafety(SplitLines(ToggleText(text, SAFETY_KEYS[name], on)), key) == Is(Flag(on)) <==>
            && Declared(lines) == (if Span(lines) == None then 0 else 1)
            && !HasBelow(Headers(lines), key)
            && (Read(Body(lines), 0, key).Is? || (Within(lines) == 0 && Read(Body(lines), 0, key).Missing?)))
  {
    var lines := match text case None => [] case Some(t) => SplitLines(t);
    Switches(name);
    SafetyKeysValid();
    assert AllBreakFree(lines);
    WrittenLines(lines, text, key, on);
    hide *;
    ReadAfterWriteIff(lines, key, on);
  }

  lemma WrittenLines(lines: seq<string>, text: Option<string>, key: string, on: bool)
    requires ValidKey(key) && AllBreakFree(lines) && lines == match text case None => [] case Some(t) => SplitLines(t)
    ensures SplitLines(ToggleText(text, key, on)) == Toggle(lines, key, on)
  {
    hide Toggle, SplitLines, JoinLines, BreakFree, ValidKey;
    ToggleBreakFree(lines, key, on);
    SplitJoin(Toggle(lines, key, on));
  }

  lemma {:induction false} SetsIsMentioned(body: seq<string>, key: string)
    requires ValidKey(key) && Sets(body, key) && Headers(body) == []
    ensures !Read(body, 0, key).Missing?
    decreases |body|
  {
    KeyLineMentions(body[0], key);
    hide OpensTable, IsKeyLine, Meaning, Mentions;
    if !IsKeyLine(body[0], key) {
      var i :| 0 <= i < |body| && IsKeyLine(body[i], key);
      assert body[1..][i - 1] == body[i];
      SetsIsMentioned(body[1..], key);
    }
  }

  /** Edits of two different keys commute in every table of the file. */
  lemma EditsCommuteEverywhere(lines: seq<string>, k: string, v: bool, l: string, w: bool, n: nat, key: string)
    requires ValidKey(k) && ValidKey(l) && k != l && BareKey(key)
    ensures Read(Toggle(Toggle(lines, k, v), l, w), n, key) == Read(Toggle(Toggle(lines, l, w), k, v), n, key)
  {
    hide *;
    var a, b := Toggle(lines, k, v), Toggle(lines, l, w);
    ValidIsBare(k);
    ValidIsBare(l);
    if key == l {
      EditAfterOther(lines, k, v, l, w, n);
      OtherKeysRead(b, k, v, l, n);
    } else if key == k {
      EditAfterOther(lines, l, w, k, v, n);
      OtherKeysRead(a, l, w, k, n);
    } else {
      OtherKeysRead(a, l, w, key, n);
      OtherKeysRead(b, k, v, key, n);
      OtherKeysRead(lines, k, v, key, n);
      OtherKeysRead(lines, l, w, key, n);
    }
  }

  lemma EditAfterOther(lines: seq<string>, k: string, v: bool, l: string, w: bool, n: nat)
    requires ValidKey(k) && ValidKey(l) && k != l
    ensures Read(Toggle(Toggle(lines, k, v), l, w), n, l) == Read(Toggle(lines, l, w), n, l)
  {
    var a, body, at := Toggle(lines, k, v), Body(lines), EditedAt(lines);
    ReadIs(Toggle(a, l, w), n, l);
    ReadIs(Toggle(lines, l, w), n, l);
    hide *;
    ValidIsBare(l);
    ToggleShape(lines, k, v);
    ToggleReads(a, l, w, n, l);
    ToggleReads(lines, l, w, n, l);
    WithinIs(a);
    WithinIs(lines);
    EditEntries(body, k, v, 0, l);
    if n >= at {
      EditEntries(body, k, v, n - at, l);
      EditEntries(Body(a), l, w, n - at, l);
      EditEntries(body, l, w, n - at, l);
      OtherSets(body, k, v, l);
    }
  }

  lemma OtherSets(body: seq<string>, key: string, value: bool, k: string)
    requires ValidKey(key) && BareKey(k) && k != key
    ensures Sets(EditBody(body, key, value), k) <==> Sets(body, k)
  {
    var r := EditBody(body, key, value);
    NewLine(key, value, k);
    KeyLineMentions(Setting(key, value), k);
    forall i | 0 <= i < |body| ensures IsKeyLine(r[i], k) <==> IsKeyLine(body[i], k) {
      LineRewritten(body[i], key, value, k);
      KeyLineMentions(body[i], k);
      KeyLineMentions(r[i], k);
    }
    hide IsKeyLine, Rewrite, Setting, Mentions;
    if Sets(body, k) {
      var i :| 0 <= i < |body| && IsKeyLine(body[i], k);
      assert IsKeyLine(r[i], k);
    }
  }

  // ---- A table that the editor does not see ----

  const AUDIT := "[audit] # keep"
  const HIDDEN := ["[safety]", AUDIT, "enabled = true"]

  lemma HiddenLines()
    ensures OpensTable(AUDIT) && !IsHeader(AUDIT) && !IsSafety(AUDIT) && !IsTomlSafety(AUDIT)
    ensures var line := "enabled = true";
      !OpensTable(line) && !IsHeader(line) && !IsSafety(line) && !IsTomlSafety(line)
      && !IsKeyLine(line, "lab_mode") && !Mentions(line, "lab_mode")
    ensures !IsKeyLine(AUDIT, "lab_mode") && ValidKey("lab_mode")
  {
    StripSpaceFree(AUDIT);
    StripSpaceFree("enabled = true");
    assert AUDIT[|AUDIT|-1] == 'p' && "[safety]"[1] == 's' && AUDIT[1] == 'a' && "enabled = true"[0] == 'e';
    hide Strip, RStrip;
    assert LStrip(AUDIT[1..])[0] == 'a' && "safety"[0] == 's' && "lab_mode"[0] == 'l';
  }

  lemma HiddenParts()
    ensures Lead(HIDDEN) == ["[safety]"] && Body(HIDDEN) == [AUDIT, "enabled = true"] && Rest(HIDDEN) == []
    ensures Span(HIDDEN).Some? && !Sets(Body(HIDDEN), "lab_mode")
    ensures Headers(Body(HIDDEN)) == [AUDIT] && Headers(Lead(HIDDEN)) == ["[safety]"]
  {
    HiddenLines();
    SafetyHeader();
    HeaderOpens("[safety]");
    assert HIDDEN == ["[safety]", AUDIT, "enabled = true"];
    hide *;
    ThreeLines("[safety]", AUDIT, "enabled = true", "lab_mode");
  }

  /** A safety header, a header that the editor does not see, and a setting. */
  lemma ThreeLines(safety: string, header: string, line: string, key: string)
    requires IsSafety(safety) && OpensTable(safety) && OpensTable(header) && !OpensTable(line)
    requires !IsHeader(header) && !IsSafety(header) && !IsHeader(line) && !IsSafety(line)
    requires !IsKeyLine(header, key) && !IsKeyLine(line, key)
    ensures var lines := [safety, header, line];
      && Span(lines).Some? && Lead(lines) == [safety] && Body(lines) == [header, line] && Rest(lines) == []
      && !Sets(Body(lines), key) && Headers(Body(lines)) == [header] && Headers(Lead(lines)) == [safety]
  {
    hide OpensTable, IsHeader, IsSafety, IsKeyLine, Span, Lead, Body, Rest;
    var lead, body, rest: seq<string> := [safety], [header, line], [];
    HiddenHeaders(header, line);
    OneLineReads(safety, 0, key);
    hide Headers;
    PartsDetermined(lead, body, rest);
    assert [safety, header, line] == lead + body + rest;
  }

  lemma HiddenHeaders(header: string, line: string)
    requires OpensTable(header) && !OpensTable(line)
    ensures Headers([header, line]) == [header]
  {
    hide OpensTable;
    assert [header, line][1..] == [line] && [line][1..] == [];
  }

  /** The setting goes to the last table within the span, and the safety table stays without it. */
  lemma SettingLost(lines: seq<string>, key: string, value: bool)
    requires ValidKey(key) && !Sets(Body(lines), key) && Within(lines) > 0
    ensures var out, last := Toggle(lines, key, value), EditedAt(lines) + Within(lines);
      && Read(out, last, key) == (if Read(Body(lines), Within(lines), key).Missing? then Is(Flag(value)) else Clash)
      && !ReadSafety(out, key).Is?
  {
    hide *;
    LastTableReads(lines, key, value);
    WithinIs(lines);
    SafetyRead(lines, key, value);
    EditReads(Body(lines), key, value, 0);
    EditReads(Body(lines), key, value, Within(lines));
  }

  lemma LastTableReads(lines: seq<string>, key: string, value: bool)
    requires ValidKey(key)
    ensures Read(Toggle(lines, key, value), EditedAt(lines) + Within(lines), key)
         == Read(EditBody(Body(lines), key, value), Within(lines), key)
  {
    hide *;
    LeadOpens(lines);
    var at := EditedAt(lines) + Within(lines);
    assert at - EditedAt(lines) == Within(lines);
    ToggleReads(lines, key, value, at, key);
    ReadIs(Toggle(lines, key, value), at, key);
    ReadIs(EditBody(Body(lines), key, value), Within(lines), key);
  }

  /** The setting lands in the audit table, and the safety table is still without it. */
  lemma LostToggle()
    ensures var out := Toggle(HIDDEN, "lab_mode", true);
      && out == HIDDEN + ["lab_mode = true"]
      && Read(HIDDEN, 2, "lab_mode") == Missing && Read(out, 2, "lab_mode") == Is(Flag(true))
      && !ReadSafety(out, "lab_mode").Is?
  {
    HiddenParts();
    SettingText();
    HiddenReads();
    hide *;
    WithinIs(HIDDEN);
    SettingLost(HIDDEN, "lab_mode", true);
    LostLines();
  }

  lemma HiddenReads()
    ensures Read(HIDDEN, 2, "lab_mode") == Missing && Read([AUDIT, "enabled = true"], 1, "lab_mode") == Missing
  {
    HiddenLines();
    SafetyIsNoArray("");
    hide OpensTable, Mentions;
    var rest := [AUDIT, "enabled = true"];
    assert HIDDEN[1..] == rest && rest[1..] == ["enabled = true"] && rest[1..][1..] == [];
    assert Entries(rest[1..], 0, "lab_mode") == [] + Entries([], 0, "lab_mode");
    assert Entries(rest, 1, "lab_mode") == Entries(rest[1..], 0, "lab_mode");
    assert Entries(HIDDEN, 2, "lab_mode") == Entries(HIDDEN[1..], 1, "lab_mode");
  }

  lemma LostLines()
    ensures Toggle(HIDDEN, "lab_mode", true) == HIDDEN + ["lab_mode = true"]
  {
    HiddenParts();
    SettingText();
    hide *;
    Appended(HIDDEN, "lab_mode", true);
  }

  lemma SettingText()
    ensures Setting("lab_mode", true) == "lab_mode = true" && ValidKey("lab_mode")
  {
  }

  lemma Appended(lines: seq<string>, key: string, value: bool)
    requires ValidKey(key) && Span(lines).Some? && !Sets(Body(lines), key) && Rest(lines) == []
    ensures Toggle(lines, key, value) == lines + [Setting(key, value)]
  {
    hide *;
    TogglePart(lines, key, value);
    PartsOfFile(lines);
    EditBodyAppends(Body(lines), key, value);
    assert (Lead(lines) + Body(lines)) + [] == lines;
    assert Lead(lines) + (Body(lines) + [Setting(key, value)]) + [] == (Lead(lines) + Body(lines)) + [Setting(key, value)];
  }

  lemma EditBodyAppends(body: seq<string>, key: string, value: bool)
    requires !Sets(body, key)
    ensures EditBody(body, key, value) == body + [Setting(key, value)]
  {
  }

  // ---- A table that is declared without a header ----

  const ROOTED := ["safety.lab_mode = false"]

  lemma RootedLine()
    ensures var line := ROOTED[0];
      !OpensTable(line) && !IsTomlSafety(line) && !IsSafety(line) && Mentions(line, "safety") && ValidKey("lab_mode")
  {
    var line := ROOTED[0];
    StripSpaceFree(line);
    assert line[6..] == ".lab_mode = false" && line[0] == 's';
  }

  /** A file that sets safety.lab_mode before any header gets a second declaration, and cannot be read any more. */
  lemma RootedIsDeclaredTwice()
    ensures var out := Toggle(ROOTED, "lab_mode", true);
      Declared(ROOTED) == 1 && Declared(out) == 2 && ReadSafety(out, "lab_mode") == Clash
  {
    RootedLine();
    hide OpensTable, IsTomlSafety, IsSafety, Mentions, Toggle, ValidKey;
    OneLine(ROOTED[0]);
    OneLineReads(ROOTED[0], 0, "safety");
    assert ROOTED == [ROOTED[0]];
    SpanFacts(ROOTED);
    assert Span(ROOTED) == None;
    hide Span, Headers, Entries;
    DeclaredAfterEdit(ROOTED, "lab_mode", true);
  }

  const ARRAY := ["[[safety]]"]

  lemma ArrayLine()
    ensures var line := ARRAY[0];
      OpensTable(line) && IsSafetyArray(line) && !IsTomlSafety(line) && !IsSafety(line) && ValidKey("lab_mode")
  {
    var line := ARRAY[0];
    StripSpaceFree(line);
    assert line[1] == '[' && "[safety]"[1] == 's';
    assert line[1..][0] == '[' && "safety"[0] == 's';
    assert line[2..] == "safety]]" && "safety]]"[6..] == "]]" && "]]"[2..] == "";
    assert LStrip("safety]]") == "safety]]" && LStrip("]]") == "]]";
    var words := ["[[", "safety", "]]"];
    assert words[1..] == ["safety", "]]"] && words[1..][1..] == ["]]"] && words[1..][1..][1..] == [];
    assert BehindFrom("]]", ["]]"]) == Some("");
  }

  /** So does a file with an array of that name. */
  lemma ArrayIsDeclaredTwice()
    ensures var out := Toggle(ARRAY, "lab_mode", true);
      Declared(ARRAY) == 1 && Declared(out) == 2 && ReadSafety(out, "lab_mode") == Clash
  {
    ArrayLine();
    hide OpensTable, IsTomlSafety, IsSafety, IsSafetyArray, Mentions, Toggle, ValidKey;
    OneLine(ARRAY[0]);
    OneLineReads(ARRAY[0], 0, "safety");
    assert ARRAY == [ARRAY[0]] && Headers(ARRAY) == [ARRAY[0]];
    SpanFacts(ARRAY);
    assert Span(ARRAY) == None;
    hide Span, Headers, Entries;
    DeclaredAfterEdit(ARRAY, "lab_mode", true);
  }
}
