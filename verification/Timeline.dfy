/** `ksec history`: three newest-first sources, each cut to the limit, merged by a stable sort and cut again. */
module Timeline {
  import opened Common
  import opened StableSort

  datatype Run = Run(workflow: string, target: Option<string>, status: string, createdAt: string)

  datatype Audit = Audit(eventType: string, target: Option<string>, actor: Option<string>, action: Option<string>,
                         createdAt: string)

  datatype Job = Job(capability: string, target: Option<string>, state: string, workflow: string, createdAt: string)

  datatype Event = Event(moment: string, kind: string, what: string, target: string, detail: string)

  /** Python's `x or d` on an optional string. */
  function Or(x: Option<string>, d: string): string {
    if x.Some? && x.value != "" then x.value else d
  }

  function OfRun(r: Run): Event {
    Event(r.createdAt, "workflow", r.workflow, Or(r.target, ""), "status=" + r.status)
  }

  function OfAudit(a: Audit): Event {
    Event(a.createdAt, "audit", a.eventType, Or(a.target, ""), "actor=" + Or(a.actor, "-") + " action=" + Or(a.action, "-"))
  }

  function OfJob(j: Job): Event {
    Event(j.createdAt, "job", j.capability, Or(j.target, ""), "state=" + j.state + " workflow=" + Or(Some(j.workflow), "-"))
  }

  function Map<A, B>(f: A -> B, s: seq<A>): (r: seq<B>)
    ensures |r| == |s|
    ensures forall i :: 0 <= i < |r| ==> r[i] == f(s[i])
  {
    seq(|s|, i requires 0 <= i < |s| => f(s[i]))
  }

  /** `LIMIT n` in SQLite: a negative n means no limit. */
  function SqlLimit<T>(n: int, rows: seq<T>): seq<T> { if n < 0 then rows else Take(n, rows) }

  /** `s[:n]` in Python: a negative n counts from the end. */
  function Slice<T>(n: int, s: seq<T>): seq<T> {
    if n >= 0 then Take(n, s) else if |s| + n >= 0 then s[..|s| + n] else []
  }

  /** The default of 30 also stands in for an explicit 0. */
  function Effective(limit: int): int { if limit == 0 then 30 else limit }

  /** `sort(key=when, reverse=True)` puts later moments first and keeps the order of equal ones. */
  predicate NotOlder(x: Event, y: Event) { LexLe(y.moment, x.moment) }

  predicate NewestFirst(s: seq<Event>) { forall i, j :: 0 <= i < j < |s| ==> NotOlder(s[i], s[j]) }

  /** Any of the three queries may fail on a database that lacks the table; it then contributes nothing. */
  method History(limit: int, runs: Option<seq<Run>>, audits: Option<seq<Audit>>, jobs: Option<seq<Job>>)
      returns (events: seq<Event>)
    ensures var n := Effective(limit);
      events == Slice(n, Sort(Map(OfRun, SqlLimit(n, Rows(runs))) + Map(OfAudit, SqlLimit(n, Rows(audits)))
                              + Map(OfJob, SqlLimit(n, Rows(jobs))), NotOlder))
    ensures var r, a, j := Map(OfRun, Rows(runs)), Map(OfAudit, Rows(audits)), Map(OfJob, Rows(jobs));
      NewestFirst(r) && NewestFirst(a) && NewestFirst(j) ==> events == Shown(Effective(limit), r, a, j)
    // How many events, in which order, and of which rows.
    ensures var total := |Rows(runs)| + |Rows(audits)| + |Rows(jobs)|;
      |events| == if limit < 0 then Max(total + limit, 0) else Min(if limit == 0 then 30 else limit, total)
    ensures forall i, j :: 0 <= i < j < |events| ==> LexLe(events[j].moment, events[i].moment)
    ensures forall e :: e in events ==> OfSomeRow(e, Rows(runs), Rows(audits), Rows(jobs))
  {
    ShownFacts(Effective(limit), Rows(runs), Rows(audits), Rows(jobs));
    hide OfSomeRow, OfRun, OfAudit, OfJob, Sort, Slice, SqlLimit, NotOlder;
    var n := if limit == 0 then 30 else limit;
    events := [];
    var fromRuns := Collect(OfRun, SqlLimit(n, Rows(runs)));
    var fromAudit := Collect(OfAudit, SqlLimit(n, Rows(audits)));
    var fromJobs := Collect(OfJob, SqlLimit(n, Rows(jobs)));
    events := fromRuns + fromAudit + fromJobs;
    events := StableSortLoop(events, NotOlder);
    events := Slice(n, events);
    ghost var r, a, j := Map(OfRun, Rows(runs)), Map(OfAudit, Rows(audits)), Map(OfJob, Rows(jobs));
    if NewestFirst(r) && NewestFirst(a) && NewestFirst(j) { HistoryShowsNewest(n, Rows(runs), Rows(audits), Rows(jobs)); }
  }

  function Min(a: int, b: int): int { if a < b then a else b }

  function Max(a: int, b: int): int { if a < b then b else a }

  /** The event shows the moment, subject, target and details of a row of its kind. */
  ghost predicate OfSomeRow(e: Event, runs: seq<Run>, audits: seq<Audit>, jobs: seq<Job>) {
    || (e.kind == "workflow" && exists r :: r in runs && Shows(e, r.createdAt, r.workflow, r.target, RunDetail(r)))
    || (e.kind == "audit" && exists r :: r in audits && Shows(e, r.createdAt, r.eventType, r.target, AuditDetail(r)))
    || (e.kind == "job" && exists r :: r in jobs && Shows(e, r.createdAt, r.capability, r.target, JobDetail(r)))
  }

  function Dash(text: string): string { if text == "" then "-" else text }

  function Text(x: Option<string>): string { match x case None => "" case Some(t) => t }

  function RunDetail(r: Run): string { "status=" + r.status }

  function AuditDetail(a: Audit): string { "actor=" + Dash(Text(a.actor)) + " action=" + Dash(Text(a.action)) }

  function JobDetail(j: Job): string { "state=" + j.state + " workflow=" + Dash(j.workflow) }

  predicate Shows(e: Event, moment: string, what: string, target: Option<string>, detail: string) {
    e.moment == moment && e.what == what && e.target == Text(target) && e.detail == detail
  }

  lemma MappedIsOfRow(n: int, runs: seq<Run>, audits: seq<Audit>, jobs: seq<Job>, e: Event)
    requires e in Map(OfRun, SqlLimit(n, runs)) + Map(OfAudit, SqlLimit(n, audits)) + Map(OfJob, SqlLimit(n, jobs))
    ensures OfSomeRow(e, runs, audits, jobs)
  {
    hide OfRun, OfAudit, OfJob, Shows, RunDetail, AuditDetail, JobDetail;
    var r, a, j := SqlLimit(n, runs), SqlLimit(n, audits), SqlLimit(n, jobs);
    assert (forall x :: x in r ==> x in runs) && (forall x :: x in a ==> x in audits) && (forall x :: x in j ==> x in jobs);
    if e in Map(OfRun, r) {
      var i :| 0 <= i < |r| && Map(OfRun, r)[i] == e;
      assert OfRun(r[i]).kind == "workflow" && Shows(OfRun(r[i]), r[i].createdAt, r[i].workflow, r[i].target, RunDetail(r[i])) by { RunShows(r[i]); }
    } else if e in Map(OfAudit, a) {
      var i :| 0 <= i < |a| && Map(OfAudit, a)[i] == e;
      assert OfAudit(a[i]).kind == "audit" && Shows(OfAudit(a[i]), a[i].createdAt, a[i].eventType, a[i].target, AuditDetail(a[i])) by { AuditShows(a[i]); }
    } else {
      var i :| 0 <= i < |j| && Map(OfJob, j)[i] == e;
      assert OfJob(j[i]).kind == "job" && Shows(OfJob(j[i]), j[i].createdAt, j[i].capability, j[i].target, JobDetail(j[i])) by { JobShows(j[i]); }
    }
  }

  lemma RunShows(r: Run)
    ensures OfRun(r).kind == "workflow" && Shows(OfRun(r), r.createdAt, r.workflow, r.target, RunDetail(r))
  {
  }

  lemma AuditShows(a: Audit)
    ensures OfAudit(a).kind == "audit" && Shows(OfAudit(a), a.createdAt, a.eventType, a.target, AuditDetail(a))
  {
  }

  lemma JobShows(j: Job)
    ensures OfJob(j).kind == "job" && Shows(OfJob(j), j.createdAt, j.capability, j.target, JobDetail(j))
  {
  }

  lemma ShownFacts(n: int, runs: seq<Run>, audits: seq<Audit>, jobs: seq<Job>)
    requires n != 0
    ensures var parts := Map(OfRun, SqlLimit(n, runs)) + Map(OfAudit, SqlLimit(n, audits)) + Map(OfJob, SqlLimit(n, jobs));
      var events, total := Slice(n, Sort(parts, NotOlder)), |runs| + |audits| + |jobs|;
      && |events| == (if n < 0 then Max(total + n, 0) else Min(n, total))
      && (forall i, j :: 0 <= i < j < |events| ==> LexLe(events[j].moment, events[i].moment))
      && (forall e :: e in events ==> OfSomeRow(e, runs, audits, jobs))
  {
    var parts := Map(OfRun, SqlLimit(n, runs)) + Map(OfAudit, SqlLimit(n, audits)) + Map(OfJob, SqlLimit(n, jobs));
    var sorted := Sort(parts, NotOlder);
    var events := Slice(n, sorted);
    PartsLength(n, runs, audits, jobs);
    hide *;
    NotOlderIsOrder();
    SortSorts(parts, NotOlder);
    FromParts(sorted, parts);
    SliceIs(n, sorted);
    SortedMoments(sorted);
    forall e | e in events ensures OfSomeRow(e, runs, audits, jobs) {
      var i :| 0 <= i < |events| && events[i] == e;
      assert sorted[i] in parts;
      MappedIsOfRow(n, runs, audits, jobs, e);
    }
  }

  lemma PartsLength(n: int, runs: seq<Run>, audits: seq<Audit>, jobs: seq<Job>)
    requires n != 0
    ensures var parts := Map(OfRun, SqlLimit(n, runs)) + Map(OfAudit, SqlLimit(n, audits)) + Map(OfJob, SqlLimit(n, jobs));
      var total := |runs| + |audits| + |jobs|;
      (if n < 0 then Max(|parts| + n, 0) else Min(n, |parts|)) == if n < 0 then Max(total + n, 0) else Min(n, total)
  {
    hide OfRun, OfAudit, OfJob;
  }

  lemma SliceIs<T>(n: int, s: seq<T>)
    requires n != 0
    ensures |Slice(n, s)| == if n < 0 then Max(|s| + n, 0) else Min(n, |s|)
    ensures |Slice(n, s)| <= |s| && forall i :: 0 <= i < |Slice(n, s)| ==> Slice(n, s)[i] == s[i]
  {
  }

  lemma SortedMoments(s: seq<Event>)
    requires SortedBy(s, NotOlder)
    ensures forall i, j :: 0 <= i < j < |s| ==> LexLe(s[j].moment, s[i].moment)
  {
    hide LexLe;
    forall i, j | 0 <= i < j < |s| ensures LexLe(s[j].moment, s[i].moment) { assert NotOlder(s[i], s[j]); }
  }

  /** The append loop over the rows of one source. */
  method Collect<A>(f: A -> Event, rows: seq<A>) returns (events: seq<Event>)
    ensures events == Map(f, rows)
  {
    events := [];
    var i := 0;
    while i < |rows|
      invariant 0 <= i <= |rows| && |events| == i
      invariant forall k :: 0 <= k < i ==> events[k] == f(rows[k])
    {
      events := events + [f(rows[i])];
      i := i + 1;
    }
  }

  lemma NotOlderIsOrder()
    ensures TotalPreorder(NotOlder)
  {
    forall x: Event, y: Event ensures NotOlder(x, y) || NotOlder(y, x) { LexTotal(x.moment, y.moment); }
    forall x: Event, y: Event, z: Event | NotOlder(x, y) && NotOlder(y, z) ensures NotOlder(x, z) {
      LexTrans(z.moment, y.moment, x.moment);
    }
  }

  // ---- Cutting the sources first loses nothing ----

  function Shown(n: int, a: seq<Event>, b: seq<Event>, c: seq<Event>): seq<Event> {
    Slice(n, Sort(a + b + c, NotOlder))
  }

  /** With every source newest first, what is shown is exactly what sorting everything would show, ties included. */
  lemma CutSourcesShowTheSame(n: int, a: seq<Event>, b: seq<Event>, c: seq<Event>)
    requires NewestFirst(a) && NewestFirst(b) && NewestFirst(c)
    ensures Shown(n, SqlLimit(n, a), SqlLimit(n, b), SqlLimit(n, c)) == Shown(n, a, b, c)
  {
    if n >= 0 {
      hide NotOlder, Sort, Take;
      NotOlderIsOrder();
      CutMiddle(n, a, b, c, NotOlder);
      CutEnds(n, a, Take(n, b), c, NotOlder);
    }
  }

  lemma MapCut<A>(f: A -> Event, n: int, rows: seq<A>)
    ensures Map(f, SqlLimit(n, rows)) == SqlLimit(n, Map(f, rows))
  {
  }

  function Rows<A>(rows: Option<seq<A>>): seq<A> { if rows.Some? then rows.value else [] }

  /** What `history` shows of newest-first tables is the head of the full, sorted activity of all three. */
  lemma HistoryShowsNewest(n: int, runs: seq<Run>, audits: seq<Audit>, jobs: seq<Job>)
    requires NewestFirst(Map(OfRun, runs)) && NewestFirst(Map(OfAudit, audits)) && NewestFirst(Map(OfJob, jobs))
    ensures Slice(n, Sort(Map(OfRun, SqlLimit(n, runs)) + Map(OfAudit, SqlLimit(n, audits)) + Map(OfJob, SqlLimit(n, jobs)),
                          NotOlder))
      == Slice(n, Sort(Map(OfRun, runs) + Map(OfAudit, audits) + Map(OfJob, jobs), NotOlder))
  {
    hide Sort, Slice, SqlLimit, NewestFirst, NotOlder, OfRun, OfAudit, OfJob;
    MapCut(OfRun, n, runs);
    MapCut(OfAudit, n, audits);
    MapCut(OfJob, n, jobs);
    CutSourcesShowTheSame(n, Map(OfRun, runs), Map(OfAudit, audits), Map(OfJob, jobs));
  }

  // ---- An audit log whose ids and moments disagree ----

  /** A shown event comes before an audit event that was not fetched. */
  predicate Ahead(x: Event, dropped: Event) {
    if x.kind == "job" then !NotOlder(dropped, x) else NotOlder(x, dropped)
  }

  ghost predicate Sides(u: seq<Event>, v: seq<Event>, w: seq<Event>) {
    && NewestFirst(u) && NewestFirst(v) && NewestFirst(w) && w != []
    && (forall i :: 0 <= i < |u| ==> u[i].kind != "job")
    && (forall i :: 0 <= i < |v| ==> v[i].kind == "job")
    && w[0].kind == "audit"
  }

  /** The merge with the dropped events starts like the merge without them, or with the first dropped event. */
  lemma HeadStep(u: seq<Event>, v: seq<Event>, w: seq<Event>) returns (u': seq<Event>, v': seq<Event>)
    requires Sides(u, v, w) && |u| + |v| > 0
    ensures var part, full := Merge(u, v, NotOlder), Merge(u, Merge(w, v, NotOlder), NotOlder);
      && part != [] && full != []
      && part == [part[0]] + Merge(u', v', NotOlder)
      && Sides(u', v', w) && |u'| + |v'| == |u| + |v| - 1
      && (Ahead(part[0], w[0]) ==> full == [part[0]] + Merge(u', Merge(w, v', NotOlder), NotOlder))
      && (!Ahead(part[0], w[0]) ==> full[0] == w[0] != part[0])
  {
    if u != [] && (v == [] || NotOlder(u[0], v[0])) {
      u', v' := u[1..], v;
      LeftHead(u, v, w);
    } else {
      u', v' := u, v[1..];
      RightHead(u, v, w);
    }
  }

  lemma LeftHead(u: seq<Event>, v: seq<Event>, w: seq<Event>)
    requires Sides(u, v, w) && u != [] && (v == [] || NotOlder(u[0], v[0]))
    ensures Sides(u[1..], v, w)
    ensures var full := Merge(u, Merge(w, v, NotOlder), NotOlder);
      && Merge(u, v, NotOlder) == [u[0]] + Merge(u[1..], v, NotOlder) && full != []
      && (Ahead(u[0], w[0]) ==> full == [u[0]] + Merge(u[1..], Merge(w, v, NotOlder), NotOlder))
      && (!Ahead(u[0], w[0]) ==> full[0] == w[0] != u[0])
  {
    NotOlderIsOrder();
    hide NotOlder, LexLe;
  }

  lemma RightHead(u: seq<Event>, v: seq<Event>, w: seq<Event>)
    requires Sides(u, v, w) && v != [] && (u == [] || !NotOlder(u[0], v[0]))
    ensures Sides(u, v[1..], w)
    ensures var full := Merge(u, Merge(w, v, NotOlder), NotOlder);
      && Merge(u, v, NotOlder) == [v[0]] + Merge(u, v[1..], NotOlder) && full != []
      && (Ahead(v[0], w[0]) ==> full == [v[0]] + Merge(u, Merge(w, v[1..], NotOlder), NotOlder))
      && (!Ahead(v[0], w[0]) ==> full[0] == w[0] != v[0])
  {
    NotOlderIsOrder();
    hide NotOlder, LexLe;
  }

  lemma {:induction false} FirstDropped(k: nat, u: seq<Event>, v: seq<Event>, w: seq<Event>)
    requires Sides(u, v, w) && 0 < k <= |u| + |v|
    ensures |Merge(u, v, NotOlder)| == |u| + |v|
    ensures Take(k, Merge(u, Merge(w, v, NotOlder), NotOlder)) == Take(k, Merge(u, v, NotOlder))
      <==> Ahead(Merge(u, v, NotOlder)[k - 1], w[0])
    decreases k
  {
    hide *;
    SidesSorted(u, v, w);
    var u', v' := HeadStep(u, v, w);
    var part, full := Merge(u, v, NotOlder), Merge(u, Merge(w, v, NotOlder), NotOlder);
    var part', full' := Merge(u', v', NotOlder), Merge(u', Merge(w, v', NotOlder), NotOlder);
    if Ahead(part[0], w[0]) {
      SameHead(k, part[0], full', part');
      if k > 1 { FirstDropped(k - 1, u', v', w); }
    } else {
      LaterNotAhead(u, v, k - 1, w[0]);
      OtherHead(k, full, part);
    }
  }

  lemma SidesSorted(u: seq<Event>, v: seq<Event>, w: seq<Event>)
    requires Sides(u, v, w)
    ensures NewestFirst(u) && NewestFirst(v) && w != []
    ensures forall i :: 0 <= i < |u| ==> u[i].kind != "job"
    ensures forall i :: 0 <= i < |v| ==> v[i].kind == "job"
    ensures |Merge(u, v, NotOlder)| == |u| + |v|
  {
    MergeKeeps(u, v);
  }

  lemma SameHead(k: nat, h: Event, p: seq<Event>, q: seq<Event>)
    requires k > 0
    ensures Take(k, [h] + p) == Take(k, [h] + q) <==> Take(k - 1, p) == Take(k - 1, q)
    ensures k == 1 ==> Take(k, [h] + p) == Take(k, [h] + q)
    ensures 1 < k <= |q| + 1 ==> ([h] + q)[k - 1] == q[k - 2]
  {
    TakeFirst(k, h, p);
    TakeFirst(k, h, q);
    assert ([h] + Take(k - 1, p))[1..] == Take(k - 1, p);
    assert ([h] + Take(k - 1, q))[1..] == Take(k - 1, q);
  }

  lemma OtherHead(k: nat, p: seq<Event>, q: seq<Event>)
    requires k > 0 && p != [] && q != [] && p[0] != q[0]
    ensures Take(k, p) != Take(k, q)
  {
    assert Take(k, p)[0] == p[0] && Take(k, q)[0] == q[0];
  }

  /** If the first event does not come before the dropped one, no later event does. */
  lemma LaterNotAhead(u: seq<Event>, v: seq<Event>, i: nat, d: Event)
    requires NewestFirst(u) && NewestFirst(v)
    requires forall i :: 0 <= i < |u| ==> u[i].kind != "job"
    requires forall i :: 0 <= i < |v| ==> v[i].kind == "job"
    requires i < |Merge(u, v, NotOlder)| && !Ahead(Merge(u, v, NotOlder)[0], d)
    ensures !Ahead(Merge(u, v, NotOlder)[i], d)
  {
    NotOlderIsOrder();
    MergeKeeps(u, v);
    hide NotOlder, LexLe;
    var part := Merge(u, v, NotOlder);
    var h, y := part[0], part[i];
    assert NotOlder(h, y) by { assert NotOlder(h, h) || NotOlder(h, y); }
    assert y in multiset(part);
    assert y in u || y in v;
    if h.kind == "job" && y.kind != "job" {
      var j :| 0 <= j < |u| && u[j] == y;
      assert h == v[0] && !NotOlder(u[0], h);
      assert NotOlder(u[0], u[0]);
      assert NotOlder(u[0], y);
    }
  }

  lemma {:induction false} MergePermutes(u: seq<Event>, v: seq<Event>)
    ensures multiset(Merge(u, v, NotOlder)) == multiset(u) + multiset(v)
    decreases |u| + |v|
  {
    hide NotOlder;
    if u != [] && v != [] {
      if NotOlder(u[0], v[0]) {
        MergePermutes(u[1..], v);
        Bag(u);
        BagCons(u[0], Merge(u[1..], v, NotOlder));
      } else {
        MergePermutes(u, v[1..]);
        Bag(v);
        BagCons(v[0], Merge(u, v[1..], NotOlder));
      }
    }
  }

  lemma Bag(u: seq<Event>)
    requires u != []
    ensures multiset(u) == multiset{u[0]} + multiset(u[1..])
  {
    assert u == [u[0]] + u[1..];
  }

  lemma BagCons(x: Event, s: seq<Event>)
    ensures multiset([x] + s) == multiset{x} + multiset(s)
  {
  }

  lemma {:induction false} MergeKeeps(u: seq<Event>, v: seq<Event>)
    requires NewestFirst(u) && NewestFirst(v)
    ensures NewestFirst(Merge(u, v, NotOlder))
    ensures multiset(Merge(u, v, NotOlder)) == multiset(u) + multiset(v)
    ensures |Merge(u, v, NotOlder)| == |u| + |v|
    decreases |u| + |v|
  {
    hide NotOlder;
    MergePermutes(u, v);
    var m := Merge(u, v, NotOlder);
    assert |m| == |multiset(m)|;
    if u != [] && v != [] {
      var left := NotOlder(u[0], v[0]);
      var rest := if left then Merge(u[1..], v, NotOlder) else Merge(u, v[1..], NotOlder);
      assert m == [if left then u[0] else v[0]] + rest;
      if left { MergeKeeps(u[1..], v); } else { MergeKeeps(u, v[1..]); }
      forall y | y in m ensures NotOlder(m[0], y) {
        assert y in multiset(m);
        FirstIsNewest(u, v, y);
      }
      hide Merge;
      Prepend(m[0], rest);
    }
  }

  lemma Prepend(x: Event, rest: seq<Event>)
    requires NewestFirst(rest) && forall y :: y in rest ==> NotOlder(x, y)
    ensures NewestFirst([x] + rest)
  {
    hide NotOlder;
  }

  lemma FirstIsNewest(u: seq<Event>, v: seq<Event>, y: Event)
    requires NewestFirst(u) && NewestFirst(v) && u != [] && v != []
    requires y in multiset(u) + multiset(v)
    ensures NotOlder(if NotOlder(u[0], v[0]) then u[0] else v[0], y)
  {
    NotOlderIsOrder();
    hide NotOlder, LexLe;
    assert NotOlder(u[0], u[0]) && NotOlder(v[0], v[0]);
    if y in multiset(u) {
      var i :| 0 <= i < |u| && u[i] == y;
    } else {
      var i :| 0 <= i < |v| && v[i] == y;
    }
  }

  /** Sorting with and without the dropped events, as merges of the same parts. */
  lemma AsMerges(a: seq<Event>, kept: seq<Event>, dropped: seq<Event>, c: seq<Event>)
    requires NewestFirst(c)
    ensures var u, w := Sort(a + kept, NotOlder), Sort(dropped, NotOlder);
      && Sort(a + kept + c, NotOlder) == Merge(u, c, NotOlder)
      && Sort(a + (kept + dropped) + c, NotOlder) == Merge(u, Merge(w, c, NotOlder), NotOlder)
      && NewestFirst(u) && NewestFirst(w) && multiset(u) == multiset(a + kept) && multiset(w) == multiset(dropped)
  {
    NotOlderIsOrder();
    hide NotOlder, Sort, Merge;
    SortAppend(a + kept, c, NotOlder);
    SortAppend(a + kept, dropped + c, NotOlder);
    SortAppend(dropped, c, NotOlder);
    SortSorted(c, NotOlder);
    SortSorts(a + kept, NotOlder);
    SortSorts(dropped, NotOlder);
    assert a + (kept + dropped) + c == (a + kept) + (dropped + c);
  }

  lemma FromParts(u: seq<Event>, whole: seq<Event>)
    requires multiset(u) == multiset(whole)
    ensures |u| == |whole|
    ensures forall i :: 0 <= i < |u| ==> u[i] in whole
  {
    assert |u| == |multiset(u)| && |whole| == |multiset(whole)|;
    forall i | 0 <= i < |u| ensures u[i] in whole { assert u[i] in multiset(u); }
  }

  /** How many events come before an audit event that is not fetched. */
  function CountAhead(s: seq<Event>, dropped: Event): nat {
    if s == [] then 0 else (if Ahead(s[0], dropped) then 1 else 0) + CountAhead(s[1..], dropped)
  }

  lemma {:induction false} CountInsert(x: Event, s: seq<Event>, d: Event)
    ensures CountAhead(Insert(x, s, NotOlder), d) == CountAhead([x], d) + CountAhead(s, d)
    decreases |s|
  {
    hide Ahead, NotOlder;
    assert [x][1..] == [];
    if s == [] || NotOlder(x, s[0]) {
      assert ([x] + s)[1..] == s;
    } else {
      CountInsert(x, s[1..], d);
      assert ([s[0]] + Insert(x, s[1..], NotOlder))[1..] == Insert(x, s[1..], NotOlder);
    }
  }

  lemma {:induction false} CountSort(s: seq<Event>, d: Event)
    ensures CountAhead(Sort(s, NotOlder), d) == CountAhead(s, d)
    decreases |s|
  {
    if s != [] {
      CountSort(s[1..], d);
      CountInsert(s[0], Sort(s[1..], NotOlder), d);
      assert [s[0]][1..] == [];
    }
  }

  lemma {:induction false} CountConcat(s: seq<Event>, t: seq<Event>, d: Event)
    ensures CountAhead(s + t, d) == CountAhead(s, d) + CountAhead(t, d)
    decreases |s|
  {
    if s == [] {
      assert s + t == t;
    } else {
      assert (s + t)[1..] == s[1..] + t;
      CountConcat(s[1..], t, d);
    }
  }

  /** In the merge of runs and audit events with jobs, the events ahead of a dropped one come first. */
  lemma {:induction false} AheadFirst(u: seq<Event>, v: seq<Event>, d: Event, k: nat)
    requires NewestFirst(u) && NewestFirst(v) && 0 < k <= |u| + |v|
    requires (forall x :: x in u ==> x.kind != "job") && (forall x :: x in v ==> x.kind == "job")
    ensures |Merge(u, v, NotOlder)| == |u| + |v|
    ensures Ahead(Merge(u, v, NotOlder)[k - 1], d) <==> CountAhead(u, d) + CountAhead(v, d) >= k
    decreases |u| + |v|
  {
    NotOlderIsOrder();
    hide NotOlder, LexLe;
    if u != [] && (v == [] || NotOlder(u[0], v[0])) {
      HeadAhead(u[0], u[1..], v, d);
      if |u| + |v| > 1 { AheadFirst(u[1..], v, d, if k > 1 then k - 1 else 1); }
    } else {
      HeadAhead(v[0], v[1..], u, d);
      if |u| + |v| > 1 { AheadFirst(u, v[1..], d, if k > 1 then k - 1 else 1); }
    }
  }

  /** If the newest event is not ahead, none is. */
  lemma HeadAhead(h: Event, s: seq<Event>, t: seq<Event>, d: Event)
    requires forall x :: x in s ==> NotOlder(h, x) && (x.kind == "job" <==> h.kind == "job")
    requires forall x :: x in t ==> (if h.kind == "job" then !NotOlder(x, h) && x.kind != "job" else NotOlder(h, x) && x.kind == "job")
    ensures !Ahead(h, d) ==> CountAhead(s, d) == 0 && CountAhead(t, d) == 0
  {
    NotOlderIsOrder();
    hide NotOlder, LexLe;
    if !Ahead(h, d) {
      forall x | x in s ensures !Ahead(x, d) { }
      forall x | x in t ensures !Ahead(x, d) { }
      NoneAhead(s, d);
      NoneAhead(t, d);
    }
  }

  lemma {:induction false} NoneAhead(s: seq<Event>, d: Event)
    requires forall x :: x in s ==> !Ahead(x, d)
    ensures CountAhead(s, d) == 0
    decreases |s|
  {
    if s != [] {
      hide Ahead;
      NoneAhead(s[1..], d);
    }
  }

  /** With the audit log in any order, showing the cut sources is exact if and only if at least n of the runs, the
      jobs and the fetched audit events come before each audit event that was not fetched. */
  lemma CutAuditExactIff(n: int, a: seq<Event>, b: seq<Event>, c: seq<Event>)
    requires NewestFirst(a) && NewestFirst(c) && 0 < n < |b|
    requires forall i :: 0 <= i < |a| ==> a[i].kind == "workflow"
    requires forall i :: 0 <= i < |b| ==> b[i].kind == "audit"
    requires forall i :: 0 <= i < |c| ==> c[i].kind == "job"
    ensures Shown(n, SqlLimit(n, a), SqlLimit(n, b), SqlLimit(n, c)) == Shown(n, a, b, c)
      <==> forall i :: n <= i < |b| ==> CountAhead(a, b[i]) + CountAhead(b[..n], b[i]) + CountAhead(c, b[i]) >= n
  {
    LastShownIff(n, a, b, c);
    assert forall i :: 0 <= i < n ==> b[..n][i] == b[i];
    hide *;
    forall i | n <= i < |b|
      ensures Ahead(Merge(Sort(a + b[..n], NotOlder), c, NotOlder)[n - 1], b[i])
        <==> CountAhead(a, b[i]) + CountAhead(b[..n], b[i]) + CountAhead(c, b[i]) >= n
    {
      LastAheadIff(n, a, b[..n], c, b[i]);
    }
  }

  /** Two audit rows whose ids were handed out against their times: the one that is fetched is the older one. */
  lemma LateAuditIsMissed()
    ensures var older, newer := Event("1", "audit", "e", "", "d"), Event("2", "audit", "e", "", "d");
      Shown(1, [], SqlLimit(1, [older, newer]), []) != Shown(1, [], [older, newer], [])
  {
    var older, newer := Event("1", "audit", "e", "", "d"), Event("2", "audit", "e", "", "d");
    var b := [older, newer];
    assert b[..1] == [older] && [older][1..] == [];
    assert !NotOlder(older, newer) by { assert "2"[0] > "1"[0]; }
    assert CountAhead([older], newer) == 0 && CountAhead([], newer) == 0;
    hide CountAhead, Shown, SqlLimit, NotOlder;
    CutAuditExactIff(1, [], b, []);
    assert b[1] == newer && CountAhead([], b[1]) + CountAhead(b[..1], b[1]) + CountAhead([], b[1]) == 0;
  }

  lemma LastAheadIff(n: nat, a: seq<Event>, kept: seq<Event>, c: seq<Event>, d: Event)
    requires NewestFirst(c) && 0 < n <= |kept|
    requires (forall x :: x in a ==> x.kind != "job") && (forall x :: x in kept ==> x.kind != "job")
    requires forall x :: x in c ==> x.kind == "job"
    ensures var merged := Merge(Sort(a + kept, NotOlder), c, NotOlder);
      && n <= |merged|
      && (Ahead(merged[n - 1], d) <==> CountAhead(a, d) + CountAhead(kept, d) + CountAhead(c, d) >= n)
  {
    hide NotOlder, Sort, Merge, Ahead, CountAhead;
    var u := Sort(a + kept, NotOlder);
    NotOlderIsOrder();
    SortSorts(a + kept, NotOlder);
    FromParts(u, a + kept);
    AheadFirst(u, c, d, n);
    CountSort(a + kept, d);
    CountConcat(a, kept, d);
  }

  lemma LastShownIff(n: int, a: seq<Event>, b: seq<Event>, c: seq<Event>)
    requires NewestFirst(a) && NewestFirst(c) && 0 < n < |b|
    requires forall i :: 0 <= i < |a| ==> a[i].kind == "workflow"
    requires forall i :: 0 <= i < |b| ==> b[i].kind == "audit"
    requires forall i :: 0 <= i < |c| ==> c[i].kind == "job"
    ensures var merged := Merge(Sort(a + b[..n], NotOlder), c, NotOlder);
      && n <= |merged|
      && (Shown(n, SqlLimit(n, a), SqlLimit(n, b), SqlLimit(n, c)) == Shown(n, a, b, c)
          <==> forall i :: n <= i < |b| ==> Ahead(merged[n - 1], b[i]))
  {
    hide NotOlder, Sort, Merge, Ahead;
    NotOlderIsOrder();
    var kept, dropped := b[..n], b[n..];
    assert b == kept + dropped;
    CutEnds(n, a, kept, c, NotOlder);
    AsMerges(a, kept, dropped, c);
    var u, w := Sort(a + kept, NotOlder), Sort(dropped, NotOlder);
    FromParts(u, a + kept);
    FromParts(w, dropped);
    FirstDropped(n, u, c, w);
    var last := Merge(u, c, NotOlder)[n - 1];
    NewestDropped(last, dropped, w);
    assert (forall i :: n <= i < |b| ==> Ahead(last, b[i])) <==> forall i :: 0 <= i < |dropped| ==> Ahead(last, dropped[i]) by {
      assert forall i :: 0 <= i < |dropped| ==> dropped[i] == b[n + i];
      assert forall i :: n <= i < |b| ==> b[i] == dropped[i - n];
    }
  }

  lemma NewestDropped(x: Event, dropped: seq<Event>, w: seq<Event>)
    requires NewestFirst(w) && multiset(w) == multiset(dropped) && w != []
    ensures Ahead(x, w[0]) <==> forall i :: 0 <= i < |dropped| ==> Ahead(x, dropped[i])
  {
    NotOlderIsOrder();
    hide NotOlder, LexLe;
    forall i | 0 <= i < |dropped| ensures NotOlder(w[0], dropped[i]) {
      assert dropped[i] in multiset(w);
      var j :| 0 <= j < |w| && w[j] == dropped[i];
      assert NotOlder(w[0], w[0]);
    }
    assert w[0] in multiset(dropped);
  }
}
