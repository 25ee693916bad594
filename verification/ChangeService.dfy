/** The change-detection service: baselines, scans and the walk that fills a drift report. */
module ChangeService {
  import opened Common
  import opened Json
  import opened Text
  import opened Drift
  import Ingestion

  const SCOPES := ["assets", "findings", "jobs", "config"]

  lemma NextKey(path: string, a: Json, b: Json, keys: seq<string>, i: nat)
    requires a.Obj? && b.Obj? && i < |keys|
    requires forall k :: k in keys ==> k in a.fields || k in b.fields
    ensures ToLines(path, DiffKeys(a, b, keys[i..]))
         == ToLines(path, DiffKey(a, b, keys[i])) + ToLines(path, DiffKeys(a, b, keys[i + 1..]))
  {
    assert keys[i..][1..] == keys[i + 1..];
    hide DiffKey;
  }

  lemma LinesOfKey(path: string, a: Json, b: Json, key: string)
    requires a.Obj? && b.Obj? && (key in a.fields || key in b.fields)
    ensures ToLines(path, DiffKey(a, b, key)) ==
      if key !in a.fields then [LineAdded(Extend(path, key), b.fields[key])]
      else if key !in b.fields then [LineRemoved(Extend(path, key), a.fields[key])]
      else ToLines(Extend(path, key), Diff(a.fields[key], b.fields[key]))
  {
    assert [key][1..] == [];
    assert RenderFrom(path, [key]) == Extend(path, key);
    if key in a.fields && key in b.fields { LinesUnder(path, key, Diff(a.fields[key], b.fields[key])); }
  }

  /** The `drift` list that the nested walk appends to. */
  class DriftReport {
    var lines: seq<Line>

    constructor ()
      ensures lines == []
    {
      lines := [];
    }

    /** The body of the walk's loop over the keys of two tables. */
    method WalkKey(a: Json, b: Json, key: string, path: string)
      requires a.Obj? && b.Obj? && (key in a.fields || key in b.fields)
      modifies this
      ensures lines == old(lines) + ToLines(path, DiffKey(a, b, key))
      decreases a, 0
    {
      LinesOfKey(path, a, b, key);
      var sub := if path != "" then path + "." + key else key;
      if key !in a.fields {
        lines := lines + [LineAdded(sub, b.fields[key])];
      } else if key !in b.fields {
        lines := lines + [LineRemoved(sub, a.fields[key])];
      } else {
        Walk(a.fields[key], b.fields[key], sub);
      }
    }

    method WalkKeys(a: Json, b: Json, keys: seq<string>, path: string)
      requires a.Obj? && b.Obj?
      requires forall k :: k in keys ==> k in a.fields || k in b.fields
      modifies this
      ensures lines == old(lines) + ToLines(path, DiffKeys(a, b, keys))
      decreases a, 1
    {
      var i := 0;
      assert keys[0..] == keys;
      while i < |keys|
        invariant 0 <= i <= |keys|
        invariant forall k :: k in keys[i..] ==> k in keys
        invariant lines + ToLines(path, DiffKeys(a, b, keys[i..])) == old(lines) + ToLines(path, DiffKeys(a, b, keys))
      {
        NextKey(path, a, b, keys, i);
        Assoc(lines, ToLines(path, DiffKey(a, b, keys[i])), ToLines(path, DiffKeys(a, b, keys[i + 1..])));
        WalkKey(a, b, keys[i], path);
        i := i + 1;
      }
      assert keys[i..] == [];
    }

    method Walk(a: Json, b: Json, path: string)
      modifies this
      ensures lines == old(lines) + ToLines(path, Diff(a, b))
      decreases a, 2
    {
      if a.Obj? && b.Obj? {
        WalkKeys(a, b, Sorted(a.fields.Keys + b.fields.Keys), path);
        return;
      }
      if a.Arr? && b.Arr? {
        if a != b {
          lines := lines + [LineChanged(if path != "" then path else "(list)", a, b)];
        }
        return;
      }
      if a != b {
        lines := lines + [LineChanged(if path != "" then path else "(value)", a, b)];
      }
    }
  }

  // ---- Snapshots ----

  datatype AssetRow = AssetRow(engagement: Option<int>, target: string, kind: string, criticality: string)

  function Entry(row: AssetRow): Json {
    Obj(map["target" := Str(row.target), "criticality" := Str(row.criticality)])
  }

  /** The entries of one asset type, in row order. */
  function Entries(rows: seq<AssetRow>, kind: string): seq<Json> {
    if rows == [] then []
    else
      var last := rows[|rows|-1];
      Entries(rows[..|rows|-1], kind) + if last.kind == kind then [Entry(last)] else []
  }

  /** Asset type to the list of its entries. */
  function Grouped(rows: seq<AssetRow>): map<string, Json> {
    map kind | kind in (set r | r in rows :: r.kind) :: Arr(Entries(rows, kind))
  }

  function AssetsDoc(rows: seq<AssetRow>): Json {
    Obj(map["assets" := Obj(Grouped(rows))])
  }

  method AssetsSnapshot(rows: seq<AssetRow>) returns (doc: Json)
    ensures doc == AssetsDoc(rows)
  {
    hide Entry, Entries;
    var grouped: map<string, seq<Json>> := map[];
    var i := 0;
    while i < |rows|
      invariant 0 <= i <= |rows|
      invariant grouped.Keys == set r | r in rows[..i] :: r.kind
      invariant forall kind :: kind in grouped ==> grouped[kind] == Entries(rows[..i], kind)
    {
      var row := rows[i];
      assert rows[..i + 1] == rows[..i] + [row];
      EntriesAppend(rows[..i], row);
      if row.kind !in grouped {
        NoEntries(rows[..i], row.kind);
        grouped := grouped[row.kind := []];
      }
      grouped := grouped[row.kind := grouped[row.kind] + [Entry(row)]];
      i := i + 1;
    }
    assert rows[..i] == rows;
    doc := Obj(map["assets" := Obj(map kind | kind in grouped :: Arr(grouped[kind]))]);
    assert doc.fields["assets"].fields == Grouped(rows);
  }

  lemma EntriesAppend(rows: seq<AssetRow>, row: AssetRow)
    ensures forall kind :: Entries(rows + [row], kind) == Entries(rows, kind) + if row.kind == kind then [Entry(row)] else []
  {
    assert (rows + [row])[..|rows|] == rows;
  }

  lemma NoEntries(rows: seq<AssetRow>, kind: string)
    ensures Entries(rows, kind) == [] <==> forall r :: r in rows ==> r.kind != kind
  {
    if rows != [] {
      NoEntries(rows[..|rows|-1], kind);
      assert rows == rows[..|rows|-1] + [rows[|rows|-1]];
    }
  }

  ghost predicate SameEntries(xs: seq<AssetRow>, ys: seq<AssetRow>) {
    forall kind :: Entries(xs, kind) == Entries(ys, kind)
  }

  lemma GroupedKey(rows: seq<AssetRow>, kind: string)
    ensures kind in Grouped(rows) <==> Entries(rows, kind) != []
  {
    NoEntries(rows, kind);
  }

  lemma GroupedEqualIff(xs: seq<AssetRow>, ys: seq<AssetRow>)
    ensures Grouped(xs) == Grouped(ys) <==> SameEntries(xs, ys)
  {
    var a, b := Grouped(xs), Grouped(ys);
    if a == b {
      forall kind ensures Entries(xs, kind) == Entries(ys, kind) {
        GroupedKey(xs, kind);
        GroupedKey(ys, kind);
        if kind in a { assert a[kind] == b[kind]; }
      }
    }
    if SameEntries(xs, ys) {
      forall kind ensures kind in a <==> kind in b {
        GroupedKey(xs, kind);
        GroupedKey(ys, kind);
      }
      forall kind | kind in a ensures a[kind] == b[kind] {
        assert a[kind] == Arr(Entries(xs, kind)) && b[kind] == Arr(Entries(ys, kind));
      }
      assert a == b;
    }
  }

  /** A scan of the inventory is clean exactly when every type lists the same targets and criticalities. */
  lemma InventoryCleanIff(xs: seq<AssetRow>, ys: seq<AssetRow>)
    ensures Diff(AssetsDoc(xs), AssetsDoc(ys)) == [] <==> SameEntries(xs, ys)
  {
    var a, b := AssetsDoc(xs), AssetsDoc(ys);
    CleanIffEqual(a, b);
    GroupedEqualIff(xs, ys);
    assert a.fields["assets"].fields == Grouped(xs);
    assert b.fields["assets"].fields == Grouped(ys);
  }

  const COUNTED := ["users", "sessions", "engagements", "assets", "findings", "alerts", "cases", "reports"]

  datatype FindingRow = FindingRow(title: string, severity: string, status: string, engagement: Option<int>)

  datatype JobCount = JobCount(capability: string, state: string, count: int)

  /** What a snapshot reads: the asset rows in target order, the findings by id, the job counts, the row counts. */
  datatype Platform = Platform(assets: seq<AssetRow>, findings: seq<FindingRow>, jobs: seq<JobCount>, count: string -> int)

  function FindingDoc(r: FindingRow): Json {
    Obj(map["title" := Str(r.title), "severity" := Str(r.severity), "status" := Str(r.status),
            "engagement_id" := if r.engagement.Some? then Num(r.engagement.value) else Null])
  }

  function JobDoc(r: JobCount): Json {
    Obj(map["capability" := Str(r.capability), "state" := Str(r.state), "count" := Num(r.count)])
  }

  function Docs<T>(f: T -> Json, rows: seq<T>): (r: seq<Json>)
    ensures |r| == |rows|
    ensures forall i :: 0 <= i < |r| ==> r[i] == f(rows[i])
  {
    seq(|rows|, i requires 0 <= i < |rows| => f(rows[i]))
  }

  function CountersDoc(count: string -> int): Json {
    Obj(map["counters" := Obj(map t | t in COUNTED :: Num(count(t)))])
  }

  function OfEngagement(rows: seq<AssetRow>, id: int): seq<AssetRow> {
    if rows == [] then []
    else (if rows[0].engagement == Some(id) then [rows[0]] else []) + OfEngagement(rows[1..], id)
  }

  function SelectedAssets(rows: seq<AssetRow>, target: string): seq<AssetRow> {
    if target != "*" && AllDigits(target) then OfEngagement(rows, ParseNat(target)) else rows
  }

  function Snapshot(p: Platform, scope: string, target: string): Json {
    if scope == "assets" then AssetsDoc(SelectedAssets(p.assets, target))
    else if scope == "findings" then Obj(map["findings" := Arr(Docs(FindingDoc, p.findings))])
    else if scope == "jobs" then Obj(map["jobs" := Arr(Docs(JobDoc, p.jobs))])
    else CountersDoc(p.count)
  }

  // ---- What a scan compares ----

  /** An all-digit target selects the assets of one engagement, any other target all of them. */
  predicate Chosen(row: AssetRow, target: string) {
    AllDigits(target) ==> row.engagement == Some(ParseNat(target))
  }

  /** Targets and criticalities of the chosen assets of one type, in row order. */
  function Listed(rows: seq<AssetRow>, target: string, kind: string): seq<(string, string)> {
    if rows == [] then []
    else
      var last := rows[|rows|-1];
      Listed(rows[..|rows|-1], target, kind)
        + if last.kind == kind && Chosen(last, target) then [(last.target, last.criticality)] else []
  }

  /** Nothing that the scope is about differs between the two moments. */
  ghost predicate SameState(p: Platform, q: Platform, scope: string, target: string) {
    if scope == "assets" then SameListed(p.assets, q.assets, target)
    else if scope == "findings" then p.findings == q.findings
    else if scope == "jobs" then p.jobs == q.jobs
    else
      && p.count("users") == q.count("users") && p.count("sessions") == q.count("sessions")
      && p.count("engagements") == q.count("engagements") && p.count("assets") == q.count("assets")
      && p.count("findings") == q.count("findings") && p.count("alerts") == q.count("alerts")
      && p.count("cases") == q.count("cases") && p.count("reports") == q.count("reports")
  }

  /** Of every type, the chosen assets have the same targets and criticalities in the same order. */
  ghost predicate SameListed(p: seq<AssetRow>, q: seq<AssetRow>, target: string) {
    forall kind :: Listed(p, target, kind) == Listed(q, target, kind)
  }

  function PairDoc(pair: (string, string)): Json { Obj(map["target" := Str(pair.0), "criticality" := Str(pair.1)]) }

  lemma DocsInjective<T(!new)>(f: T -> Json, xs: seq<T>, ys: seq<T>)
    requires forall x, y :: f(x) == f(y) ==> x == y
    ensures Docs(f, xs) == Docs(f, ys) <==> xs == ys
  {
    if Docs(f, xs) == Docs(f, ys) {
      assert |xs| == |Docs(f, xs)| == |Docs(f, ys)| == |ys|;
      forall i | 0 <= i < |xs| ensures xs[i] == ys[i] { assert f(xs[i]) == Docs(f, xs)[i] == Docs(f, ys)[i] == f(ys[i]); }
    }
  }

  lemma DocsAppend<T>(f: T -> Json, xs: seq<T>, x: T)
    ensures Docs(f, xs + [x]) == Docs(f, xs) + [f(x)]
  {
  }

  lemma RowDocsInjective()
    ensures forall x, y :: PairDoc(x) == PairDoc(y) ==> x == y
    ensures forall x, y :: FindingDoc(x) == FindingDoc(y) ==> x == y
    ensures forall x, y :: JobDoc(x) == JobDoc(y) ==> x == y
  {
    forall x, y | PairDoc(x) == PairDoc(y) ensures x == y {
      var a, b := PairDoc(x).fields, PairDoc(y).fields;
      assert a["target"] == b["target"] && a["criticality"] == b["criticality"];
    }
    forall x, y | FindingDoc(x) == FindingDoc(y) ensures x == y {
      var a, b := FindingDoc(x).fields, FindingDoc(y).fields;
      assert a["title"] == b["title"] && a["severity"] == b["severity"] && a["status"] == b["status"];
      assert a["engagement_id"] == b["engagement_id"];
    }
    forall x, y | JobDoc(x) == JobDoc(y) ensures x == y {
      var a, b := JobDoc(x).fields, JobDoc(y).fields;
      assert a["capability"] == b["capability"] && a["state"] == b["state"] && a["count"] == b["count"];
    }
  }

  lemma {:induction false} OfEngagementAppend(rows: seq<AssetRow>, row: AssetRow, id: int)
    ensures OfEngagement(rows + [row], id) == OfEngagement(rows, id) + if row.engagement == Some(id) then [row] else []
    decreases |rows|
  {
    if rows == [] {
      assert rows + [row] == [row] && [row][1..] == [];
    } else {
      assert (rows + [row])[1..] == rows[1..] + [row];
      OfEngagementAppend(rows[1..], row, id);
    }
  }

  lemma SelectedAppend(rows: seq<AssetRow>, row: AssetRow, target: string)
    ensures SelectedAssets(rows + [row], target) == SelectedAssets(rows, target) + if Chosen(row, target) then [row] else []
  {
    if AllDigits(target) {
      assert IsDigit(target[0]) && "*"[0] == '*';
      OfEngagementAppend(rows, row, ParseNat(target));
    }
  }

  /** The entries of the snapshot are those of the chosen rows, with target and criticality. */
  lemma {:induction false} EntriesAre(rows: seq<AssetRow>, target: string, kind: string)
    ensures Entries(SelectedAssets(rows, target), kind) == Docs(PairDoc, Listed(rows, target, kind))
    decreases |rows|
  {
    if rows == [] {
      assert SelectedAssets([], target) == [];
    } else {
      var front, last := rows[..|rows|-1], rows[|rows|-1];
      assert rows == front + [last];
      EntriesAre(front, target, kind);
      SelectedAppend(front, last, target);
      EntriesAppend(SelectedAssets(front, target), last);
      var pair := (last.target, last.criticality);
      assert Entry(last) == PairDoc(pair);
      assert Listed(rows, target, kind)
          == Listed(front, target, kind) + if last.kind == kind && Chosen(last, target) then [pair] else [];
      hide SelectedAssets, Entries, Chosen, Entry, PairDoc, Listed;
      if Chosen(last, target) {
        DocsAppend(PairDoc, Listed(front, target, kind), pair);
      } else {
        assert SelectedAssets(front, target) + [] == SelectedAssets(front, target);
      }
      assert Listed(front, target, kind) + [] == Listed(front, target, kind);
      assert Entries(SelectedAssets(front, target), kind) + [] == Entries(SelectedAssets(front, target), kind);
    }
  }

  lemma ListedIff(p: seq<AssetRow>, q: seq<AssetRow>, target: string, kind: string)
    ensures Entries(SelectedAssets(p, target), kind) == Entries(SelectedAssets(q, target), kind)
      <==> Listed(p, target, kind) == Listed(q, target, kind)
  {
    RowDocsInjective();
    EntriesAre(p, target, kind);
    EntriesAre(q, target, kind);
    DocsInjective(PairDoc, Listed(p, target, kind), Listed(q, target, kind));
  }

  lemma AssetsAgreeIff(p: seq<AssetRow>, q: seq<AssetRow>, target: string)
    ensures AssetsDoc(SelectedAssets(p, target)) == AssetsDoc(SelectedAssets(q, target)) <==> SameListed(p, q, target)
  {
    var xs, ys := SelectedAssets(p, target), SelectedAssets(q, target);
    GroupedEqualIff(xs, ys);
    assert AssetsDoc(xs).fields["assets"].fields == Grouped(xs) && AssetsDoc(ys).fields["assets"].fields == Grouped(ys);
    if SameEntries(xs, ys) {
      forall kind ensures Listed(p, target, kind) == Listed(q, target, kind) { ListedIff(p, q, target, kind); }
    }
    if SameListed(p, q, target) {
      forall kind ensures Entries(xs, kind) == Entries(ys, kind) { ListedIff(p, q, target, kind); }
    }
  }

  /** Two snapshots of a scope are equal exactly when nothing differs that the scope is about. */
  lemma SnapshotsAgreeIff(p: Platform, q: Platform, scope: string, target: string)
    ensures Snapshot(p, scope, target) == Snapshot(q, scope, target) <==> SameState(p, q, scope, target)
  {
    var a, b := Snapshot(p, scope, target), Snapshot(q, scope, target);
    RowDocsInjective();
    hide FindingDoc, JobDoc, PairDoc, Listed, SelectedAssets, AssetsDoc;
    if scope == "assets" {
      AssetsAgreeIff(p.assets, q.assets, target);
    } else if scope == "findings" {
      DocsInjective(FindingDoc, p.findings, q.findings);
      assert a == b <==> a.fields["findings"] == b.fields["findings"];
    } else if scope == "jobs" {
      DocsInjective(JobDoc, p.jobs, q.jobs);
      assert a == b <==> a.fields["jobs"] == b.fields["jobs"];
    } else {
      CountersAgreeIff(p.count, q.count);
    }
  }

  lemma CountersAgreeIff(f: string -> int, g: string -> int)
    ensures CountersDoc(f) == CountersDoc(g) <==>
      && f("users") == g("users") && f("sessions") == g("sessions") && f("engagements") == g("engagements")
      && f("assets") == g("assets") && f("findings") == g("findings") && f("alerts") == g("alerts")
      && f("cases") == g("cases") && f("reports") == g("reports")
  {
    CountersEqual(f, g);
    CountedNames();
    hide CountersDoc, COUNTED;
  }

  lemma CountersEqual(f: string -> int, g: string -> int)
    ensures CountersDoc(f) == CountersDoc(g) <==> forall t :: t in COUNTED ==> f(t) == g(t)
  {
    hide COUNTED;
    var a, b := CountersDoc(f).fields["counters"].fields, CountersDoc(g).fields["counters"].fields;
    assert forall t :: t in a <==> t in COUNTED;
    if CountersDoc(f) == CountersDoc(g) {
      forall t | t in COUNTED ensures f(t) == g(t) { assert a[t] == Num(f(t)) && b[t] == Num(g(t)); }
    }
    if forall t :: t in COUNTED ==> f(t) == g(t) {
      assert a == b;
    }
  }

  lemma CountedNames()
    ensures (forall t :: t in COUNTED ==> t in ["users", "sessions", "engagements", "assets", "findings", "alerts", "cases", "reports"])
    ensures "users" in COUNTED && "sessions" in COUNTED && "engagements" in COUNTED && "assets" in COUNTED
    ensures "findings" in COUNTED && "alerts" in COUNTED && "cases" in COUNTED && "reports" in COUNTED
  {
    assert COUNTED[0] == "users" && COUNTED[1] == "sessions" && COUNTED[2] == "engagements" && COUNTED[3] == "assets";
    assert COUNTED[4] == "findings" && COUNTED[5] == "alerts" && COUNTED[6] == "cases" && COUNTED[7] == "reports";
  }

  /** Assets enter the table with a type from the list (src/ksec/assets/service.py). */
  predicate ValidTypes(p: Platform) { forall r :: r in p.assets ==> r.kind in Ingestion.VALID_TYPES }

  lemma {:induction false} OfEngagementKeeps(rows: seq<AssetRow>, id: int)
    ensures forall r :: r in OfEngagement(rows, id) ==> r in rows
    decreases |rows|
  {
    if rows != [] { OfEngagementKeeps(rows[1..], id); }
  }

  lemma TypesAreScanKeys()
    ensures forall kind :: kind in Ingestion.VALID_TYPES ==> ScanKey(kind)
  {
    assert ScanKey("host") && ScanKey("ip") && ScanKey("domain") && ScanKey("cidr") && ScanKey("url");
    assert ScanKey("application") && ScanKey("container") && ScanKey("cloud") && ScanKey("wireless");
    hide ScanKey;
  }

  lemma CountedAreScanKeys()
    ensures forall t :: t in COUNTED ==> ScanKey(t)
  {
    assert ScanKey("users") && ScanKey("sessions") && ScanKey("engagements") && ScanKey("assets");
    assert ScanKey("findings") && ScanKey("alerts") && ScanKey("cases") && ScanKey("reports");
    hide ScanKey;
  }

  lemma ScopesAreScanKeys()
    ensures ScanKey("assets") && ScanKey("findings") && ScanKey("jobs") && ScanKey("counters")
  {
  }

  lemma OneTable(key: string, inner: Json)
    requires ScanKey(key) && ScanTables(inner)
    ensures ScanTables(Obj(map[key := inner]))
  {
  }

  /** Every snapshot is a table whose keys, at every depth, are of the plainest kind. */
  lemma SnapshotKeys(p: Platform, scope: string, target: string)
    requires ValidTypes(p)
    ensures Snapshot(p, scope, target).Obj? && ScanTables(Snapshot(p, scope, target))
  {
    TypesAreScanKeys();
    CountedAreScanKeys();
    ScopesAreScanKeys();
    hide ScanKey;
    if scope == "assets" {
      var rows := SelectedAssets(p.assets, target);
      if target != "*" && AllDigits(target) { OfEngagementKeeps(p.assets, ParseNat(target)); }
      assert ScanTables(Obj(Grouped(rows)));
      OneTable("assets", Obj(Grouped(rows)));
    } else if scope == "findings" {
      OneTable("findings", Arr(Docs(FindingDoc, p.findings)));
    } else if scope == "jobs" {
      OneTable("jobs", Arr(Docs(JobDoc, p.jobs)));
    } else {
      OneTable("counters", CountersDoc(p.count).fields["counters"]);
    }
  }

  /** A document that a baseline may hold: one that some snapshot was. */
  ghost predicate StoredDoc(doc: Json) { doc.Obj? && ScanTables(doc) }

  /** Two comparisons of a stored document with a snapshot that have the same report found the same drift. */
  lemma ReportsIdentifyDrift(stored: Json, p: Platform, scope: string, target: string,
                             stored': Json, p': Platform, scope': string, target': string)
    requires StoredDoc(stored) && StoredDoc(stored') && ValidTypes(p) && ValidTypes(p')
    requires ToLines("", Diff(stored, Snapshot(p, scope, target))) == ToLines("", Diff(stored', Snapshot(p', scope', target')))
    ensures Diff(stored, Snapshot(p, scope, target)) == Diff(stored', Snapshot(p', scope', target'))
  {
    var now, now' := Snapshot(p, scope, target), Snapshot(p', scope', target');
    SnapshotKeys(p, scope, target);
    SnapshotKeys(p', scope', target');
    assert stored.Obj? && stored'.Obj? && ScanTables(stored) && ScanTables(stored');
    hide *;
    ScanTablesPlain(stored);
    ScanTablesPlain(now);
    ScanTablesPlain(stored');
    ScanTablesPlain(now');
    ReportDeterminesDrift(stored, now, stored', now');
  }

  /** The scan row is one of a stored baseline against a snapshot; the drift is what it found. */
  ghost predicate ScanOf(row: ScanRow, b: Baseline, p: Platform, drift: seq<Item>) {
    && StoredDoc(b.snapshot) && ValidTypes(p)
    && drift == Diff(b.snapshot, Snapshot(p, b.scope, b.target))
    && row.drift == ToLines("", drift)
  }

  /** Two recorded scans with the same report, of any baselines at any times, found the same drift. */
  lemma ScanReportsIdentify(r: ScanRow, b: Baseline, p: Platform, drift: seq<Item>,
                            r': ScanRow, b': Baseline, p': Platform, drift': seq<Item>)
    requires ScanOf(r, b, p, drift) && ScanOf(r', b', p', drift') && r.drift == r'.drift
    ensures drift == drift'
  {
    hide StoredDoc, ValidTypes, Diff, ToLines, Snapshot;
    ReportsIdentifyDrift(b.snapshot, p, b.scope, b.target, b'.snapshot, p', b'.scope, b'.target);
  }

  // ---- The service ----

  datatype Baseline = Baseline(name: string, scope: string, target: string, snapshot: Json)

  datatype ScanRow = ScanRow(baseline: int, status: string, drift: seq<Line>)

  /** Deleting a baseline cascades to its scans. */
  function ScansWithout(scans: seq<ScanRow>, id: int): seq<ScanRow> {
    if scans == [] then []
    else (if scans[0].baseline == id then [] else [scans[0]]) + ScansWithout(scans[1..], id)
  }

  lemma {:induction false} WithoutIs(scans: seq<ScanRow>, id: int)
    ensures forall s :: s in ScansWithout(scans, id) <==> s in scans && s.baseline != id
    decreases |scans|
  {
    if scans != [] {
      WithoutIs(scans[1..], id);
      assert scans == [scans[0]] + scans[1..];
    }
  }

  lemma ReportHolds(stored: Json, p: Platform, scope: string, target: string)
    requires StoredDoc(stored) && ValidTypes(p)
    ensures var now := Snapshot(p, scope, target);
      forall line :: line in ToLines("", Diff(stored, now)) ==> Reported(stored, now, line)
  {
    SnapshotKeys(p, scope, target);
    ScanTablesPlain(stored);
    ScanTablesPlain(Snapshot(p, scope, target));
    ReportIsTrue(stored, Snapshot(p, scope, target));
  }

  class Service {
    var baselines: map<int, Baseline>
    var lastBaseline: nat
    var scans: seq<ScanRow>
    /** What each baseline was taken from. */
    ghost var taken: map<int, Platform>

    constructor ()
      ensures baselines == map[] && lastBaseline == 0 && scans == [] && Valid() && Stored()
    {
      baselines, lastBaseline, scans := map[], 0, [];
      taken := map[];
    }

    ghost predicate Valid()
      reads this
    {
      forall id :: id in baselines ==>
        && 1 <= id <= lastBaseline && id in taken
        && baselines[id].snapshot == Snapshot(taken[id], baselines[id].scope, baselines[id].target)
    }

    /** Every baseline holds a document that some snapshot was. */
    ghost predicate Stored()
      reads this
    {
      forall id :: id in baselines ==> StoredDoc(baselines[id].snapshot)
    }

    method TakeSnapshot(p: Platform, scope: string, target: string) returns (doc: Json)
      ensures doc == Snapshot(p, scope, target)
    {
      if scope == "assets" {
        doc := AssetsSnapshot(SelectedAssets(p.assets, target));
      } else {
        doc := Snapshot(p, scope, target);
      }
    }

    method CreateBaseline(p: Platform, name: string, scope: string, target: string) returns (r: Result<int>)
      requires Valid()
      modifies this
      ensures Valid() && scans == old(scans)
      ensures r.Ok? <==> scope in SCOPES && !Blank(name)
      ensures r.Ok? <==>
        (scope == "assets" || scope == "findings" || scope == "jobs" || scope == "config") && Strip(name) != ""
      ensures r.Ok? ==> r.value !in old(baselines)
      ensures r.Ok? ==>
        baselines == old(baselines)[r.value := Baseline(Strip(name), scope, target, Snapshot(p, scope, target))]
      ensures r.Ok? ==> taken == old(taken)[r.value := p]
      ensures r.Err? ==> baselines == old(baselines) && lastBaseline == old(lastBaseline)
      ensures old(Stored()) && ValidTypes(p) ==> Stored()
    {
      hide ScanTables, ValidTypes, Snapshot;
      if ValidTypes(p) { SnapshotKeys(p, scope, target); }
      if scope !in SCOPES { return Err("invalid scope"); }
      if Strip(name) == "" { return Err("name is required"); }
      var doc := TakeSnapshot(p, scope, target);
      lastBaseline := lastBaseline + 1;
      baselines := baselines[lastBaseline := Baseline(Strip(name), scope, target, doc)];
      taken := taken[lastBaseline := p];
      return Ok(lastBaseline);
    }

    method RemoveBaseline(id: int) returns (removed: bool)
      requires Valid()
      modifies this
      ensures Valid() && lastBaseline == old(lastBaseline)
      ensures scans == if removed then ScansWithout(old(scans), id) else old(scans)
      ensures removed <==> id in old(baselines)
      ensures baselines == old(baselines) - {id}
      ensures removed ==> forall s :: s in scans <==> s in old(scans) && s.baseline != id
      ensures taken == old(taken)
      ensures old(Stored()) ==> Stored()
    {
      WithoutIs(scans, id);
      removed := id in baselines;
      baselines := baselines - {id};
      if removed { scans := ScansWithout(scans, id); }
    }

    /** The verdict compares the documents themselves; the stored report is the rendered diff. */
    method Scan(p: Platform, id: int) returns (r: Result<ScanRow>)
      requires Valid()
      modifies this
      ensures Valid() && baselines == old(baselines) && lastBaseline == old(lastBaseline) && taken == old(taken)
      ensures r.Ok? <==> id in baselines
      ensures r.Err? ==> scans == old(scans)
      ensures r.Ok? ==> scans == old(scans) + [r.value] && r.value.baseline == id
      ensures r.Ok? ==>
        var b := baselines[id];
        var now := Snapshot(p, b.scope, b.target);
        && r.value.drift == ToLines("", Diff(b.snapshot, now))
        && (r.value.status == "clean" <==> b.snapshot == now)
        && (r.value.status == "drift" <==> b.snapshot != now)
        && (Stored() && ValidTypes(p) ==> ScanOf(r.value, b, p, Diff(b.snapshot, now)))
      ensures r.Ok? ==>
        var b := baselines[id];
        && (r.value.status == "clean" <==> SameState(taken[id], p, b.scope, b.target))
        && (r.value.status == "drift" <==> !SameState(taken[id], p, b.scope, b.target))
        && (Stored() && ValidTypes(p) ==>
              forall line :: line in r.value.drift ==> Reported(b.snapshot, Snapshot(p, b.scope, b.target), line))
    {
      if id !in baselines { return Err("unknown baseline"); }
      var b := baselines[id];
      var current := TakeSnapshot(p, b.scope, b.target);
      var report := new DriftReport();
      report.Walk(b.snapshot, current, "");
      var status := if report.lines != [] then "drift" else "clean";
      CleanIffEqual(b.snapshot, current);
      SnapshotsAgreeIff(taken[id], p, b.scope, b.target);
      if Stored() && ValidTypes(p) { ReportHolds(b.snapshot, p, b.scope, b.target); }
      hide SameState, Snapshot, Diff, ToLines, Reported, StoredDoc, ValidTypes;
      var scan := ScanRow(id, status, report.lines);
      scans := scans + [scan];
      return Ok(scan);
    }
  }
}
