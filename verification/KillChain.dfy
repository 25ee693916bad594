/** Adversary exercises: the order of the steps, one policy decision and one row update per step, and the verdict. */
module KillChain {
  import opened Common
  import opened Text
  import opened StableSort

  const CHAIN_PHASES := ["reconnaissance", "resource-development", "initial-access", "execution", "persistence",
                         "privilege-escalation", "defense-evasion", "credential-access", "discovery",
                         "lateral-movement", "collection", "command-and-control", "exfiltration", "impact"]

  function Position(phases: seq<string>, phase: string): (i: nat)
    ensures i <= |phases| && (i < |phases| ==> phases[i] == phase)
    ensures forall j :: 0 <= j < i ==> phases[j] != phase
  {
    if phases == [] || phases[0] == phase then 0 else 1 + Position(phases[1..], phase)
  }

  /** Unknown tactics come after all phases. */
  function ChainIndex(tactic: string): nat { Position(CHAIN_PHASES, Lower(Strip(tactic))) }

  /** The phases differ: those of the same length in their first letter. */
  lemma PhasesDistinct()
    ensures forall i, j :: 0 <= i < j < |CHAIN_PHASES| ==> CHAIN_PHASES[i] != CHAIN_PHASES[j]
  {
    var p := CHAIN_PHASES;
    assert |p[0]| == 14 && |p[1]| == 20 && |p[2]| == 14 && |p[3]| == 9 && |p[4]| == 11 && |p[5]| == 20 && |p[6]| == 15;
    assert |p[7]| == 17 && |p[8]| == 9 && |p[9]| == 16 && |p[10]| == 10 && |p[11]| == 19 && |p[12]| == 12 && |p[13]| == 6;
    assert p[0][0] == 'r' && p[2][0] == 'i' && p[1][0] == 'r' && p[5][0] == 'p' && p[3][0] == 'e' && p[8][0] == 'd';
    hide CHAIN_PHASES;
  }

  /** A tactic has the index of the phase that it spells, in any case and with any white space around it; what spells
      no phase comes after all of them. */
  lemma ChainIndexIs(tactic: string)
    ensures forall k :: 0 <= k < |CHAIN_PHASES| ==> (ChainIndex(tactic) == k <==> Lower(Strip(tactic)) == CHAIN_PHASES[k])
    ensures ChainIndex(tactic) == |CHAIN_PHASES| <==> Lower(Strip(tactic)) !in CHAIN_PHASES
  {
    PhasesDistinct();
    var i := ChainIndex(tactic);
    hide CHAIN_PHASES, Strip, Lower, Position;
  }

  datatype StepRow = StepRow(id: nat, position: int, technique: string, tactic: string, capability: string,
                             decision: string, state: string, job: Option<nat>)

  predicate NoLater(x: StepRow, y: StepRow) { ChainIndex(x.tactic) <= ChainIndex(y.tactic) }

  /** `rows` come from the table in position order. */
  function Ordered(rows: seq<StepRow>, chain: bool): seq<StepRow> { if chain then Sort(rows, NoLater) else rows }

  /** The chain order: phases never go back, steps of one phase keep their positions' order, and no step is
      lost or repeated. */
  lemma ChainOrder(rows: seq<StepRow>, x: StepRow)
    ensures var r := Ordered(rows, true);
      && multiset(r) == multiset(rows)
      && (forall i, j :: 0 <= i < j < |r| ==> ChainIndex(r[i].tactic) <= ChainIndex(r[j].tactic))
      && Class(r, x, NoLater) == Class(rows, x, NoLater)
  {
    hide ChainIndex;
    SortSorts(rows, NoLater);
    SortStable(rows, x, NoLater);
    var r := Ordered(rows, true);
    forall i, j | 0 <= i < j < |r| ensures ChainIndex(r[i].tactic) <= ChainIndex(r[j].tactic) {
      assert NoLater(r[i], r[j]);
    }
  }

  // ---- The phases reported with the outcomes ----

  /** The stored tactic, else what is known about the technique when the exercise runs. */
  function ResolveTactic(row: StepRow, known: string -> string): string {
    if !Blank(row.tactic) then Strip(row.tactic) else Strip(known(row.technique))
  }

  function Phase(row: StepRow, known: string -> string): nat { ChainIndex(ResolveTactic(row, known)) }

  function Key(row: StepRow): nat { ChainIndex(row.tactic) }

  ghost predicate PhasesAscend(rows: seq<StepRow>, known: string -> string) {
    forall i, j :: 0 <= i < j < |rows| ==> Phase(rows[i], known) <= Phase(rows[j], known)
  }

  /** A step stored without a tactic runs among the last ones, so no step before it may report a later phase. */
  ghost predicate NoLateTactic(rows: seq<StepRow>, known: string -> string) {
    NoneLater(rows, known) && SortedBy(rows, LastInOrder(known))
  }

  predicate Behind(x: StepRow, y: StepRow, known: string -> string) {
    Key(x) < |CHAIN_PHASES| && Blank(y.tactic) ==> Phase(x, known) <= Phase(y, known)
  }

  ghost predicate NoneLater(rows: seq<StepRow>, known: string -> string) {
    forall x, y :: x in rows && y in rows ==> Behind(x, y, known)
  }

  predicate LastPair(x: StepRow, y: StepRow, known: string -> string) {
    Key(x) == |CHAIN_PHASES| && Blank(y.tactic) ==> Phase(x, known) <= Phase(y, known)
  }

  function LastInOrder(known: string -> string): (StepRow, StepRow) -> bool {
    (x: StepRow, y: StepRow) => LastPair(x, y, known)
  }

  lemma PhaseOf(row: StepRow, known: string -> string)
    ensures Blank(row.tactic) ==> Key(row) == |CHAIN_PHASES|
    ensures !Blank(row.tactic) ==> Phase(row, known) == Key(row)
    ensures Phase(row, known) <= Key(row) <= |CHAIN_PHASES|
  {
    var left, right := StripSplits(row.tactic);
    StripSpaceFree(Strip(row.tactic));
    hide LStrip, RStrip, Strip;
  }

  /** Sorted steps report ascending phases exactly when no late tactic is out of place. */
  lemma SortedPhases(r: seq<StepRow>, known: string -> string)
    requires forall i, j :: 0 <= i < j < |r| ==> Key(r[i]) <= Key(r[j])
    ensures PhasesAscend(r, known) <==> NoLateTactic(r, known)
  {
    forall i, j | 0 <= i < j < |r|
      ensures Phase(r[i], known) <= Phase(r[j], known) <==> Behind(r[i], r[j], known) && LastPair(r[i], r[j], known)
      ensures Behind(r[j], r[i], known)
    {
      PhaseOf(r[i], known);
      PhaseOf(r[j], known);
      hide Key, Phase, Blank;
    }
    forall i | 0 <= i < |r| ensures Behind(r[i], r[i], known) { }
    NoneLaterAt(r, known);
    hide Key, Phase, Blank, Behind, LastPair, NoneLater;
  }

  lemma NoneLaterAt(r: seq<StepRow>, known: string -> string)
    ensures NoneLater(r, known) <==> forall i, j :: 0 <= i < |r| && 0 <= j < |r| ==> Behind(r[i], r[j], known)
  {
    hide Behind;
  }

  lemma SameRows(rows: seq<StepRow>, r: seq<StepRow>, known: string -> string)
    requires multiset(r) == multiset(rows)
    ensures NoneLater(r, known) <==> NoneLater(rows, known)
  {
    hide Behind;
    assert forall x :: x in rows <==> x in multiset(rows);
    assert forall x :: x in r <==> x in multiset(r);
  }

  lemma LastOnly(a: StepRow, x: StepRow, y: StepRow, known: string -> string)
    requires Key(a) == |CHAIN_PHASES| && !LastPair(x, y, known)
    ensures NoLater(x, a) && NoLater(a, x) && NoLater(y, a) && NoLater(a, y)
  {
    PhaseOf(y, known);
    hide ChainIndex, ResolveTactic, Blank;
  }

  lemma SameLastOrder(rows: seq<StepRow>, r: seq<StepRow>, a: StepRow, known: string -> string)
    requires Key(a) == |CHAIN_PHASES| && Class(r, a, NoLater) == Class(rows, a, NoLater)
    ensures SortedBy(r, LastInOrder(known)) <==> SortedBy(rows, LastInOrder(known))
  {
    var rel := LastInOrder(known);
    forall x, y | !rel(x, y) ensures NoLater(x, a) && NoLater(a, x) && NoLater(y, a) && NoLater(a, y) {
      LastOnly(a, x, y, known);
    }
    hide Class, SortedBy, Key, NoLater, LastPair, ChainIndex;
    OrderWithinClass(rows, a, NoLater, rel);
    OrderWithinClass(r, a, NoLater, rel);
  }

  lemma LastRow() returns (a: StepRow)
    ensures Key(a) == |CHAIN_PHASES|
  {
    a := StepRow(0, 0, "", "", "", "", "", None);
    StripSpaceFree("");
    PhaseOf(a, s => s);
  }

  /** "Steps execute in kill-chain order" is true of the phases reported with the outcomes exactly when no tactic
      that became known only after the step was stored belongs before a step that runs earlier. */
  lemma ReportedPhasesAscendIff(rows: seq<StepRow>, known: string -> string)
    ensures PhasesAscend(Ordered(rows, true), known) <==> NoLateTactic(rows, known)
  {
    hide ChainIndex, Phase, Blank, LastPair, NoLater, NoneLater, Ordered, Class, SortedBy, PhasesAscend;
    var a := LastRow();
    var r := Ordered(rows, true);
    ChainOrder(rows, a);
    SameLastOrder(rows, r, a, known);
    SortedPhases(r, known);
    SameRows(rows, r, known);
  }

  /** The second step's tactic was recorded as reconnaissance between storing the profile and running it. */
  lemma LateTacticBreaksTheOrder(impact: StepRow, late: StepRow, known: string -> string)
    requires impact.tactic == "impact" && late.tactic == "" && known(late.technique) == "reconnaissance"
    ensures !PhasesAscend(Ordered([impact, late], true), known)
  {
    var rows := [impact, late];
    LateKeys(impact, late, known);
    hide Key, Phase, Blank;
    assert !Behind(impact, late, known);
    assert impact in rows && late in rows;
    ReportedPhasesAscendIff(rows, known);
    hide PhasesAscend, Ordered;
  }

  lemma LateKeys(impact: StepRow, late: StepRow, known: string -> string)
    requires impact.tactic == "impact" && late.tactic == "" && known(late.technique) == "reconnaissance"
    ensures Key(impact) < |CHAIN_PHASES| && Blank(late.tactic) && Phase(impact, known) > Phase(late, known)
  {
    StripSpaceFree("");
    StripSpaceFree("impact");
    StripSpaceFree("reconnaissance");
    hide LStrip, RStrip, Strip, Position;
    LowerOnce("impact");
    LowerOnce("reconnaissance");
    assert Key(impact) == Position(CHAIN_PHASES, "impact");
    assert Phase(impact, known) == Position(CHAIN_PHASES, "impact");
    assert Phase(late, known) == Position(CHAIN_PHASES, "reconnaissance");
    Positions();
  }

  lemma LowerOnce(s: string)
    requires forall i :: 0 <= i < |s| ==> LowerChar(s[i]) == s[i]
    ensures Lower(s) == s
  {
  }

  lemma Positions()
    ensures Position(CHAIN_PHASES, "reconnaissance") == 0 && Position(CHAIN_PHASES, "impact") == |CHAIN_PHASES| - 1
  {
    assert CHAIN_PHASES[0] == "reconnaissance" && CHAIN_PHASES[13] == "impact";
    assert forall j :: 0 <= j < 13 ==> CHAIN_PHASES[j] != "impact";
  }

  // ---- One step ----

  /** `policy` gives the decision for a capability; `run` the final state of the n-th job, in the scheduler's capitals. */
  datatype Setting = Setting(dryRun: bool, policy: string -> string, scheduler: Option<(nat, string) -> string>)

  predicate Submits(s: Setting, row: StepRow) {
    !s.dryRun && s.scheduler.Some? && s.policy(row.capability) == "ALLOW"
  }

  /** The step with its outcome, when `jobs` jobs were submitted before. */
  function Outcome(s: Setting, row: StepRow, jobs: nat): StepRow {
    row.(decision := s.policy(row.capability),
         state := if Submits(s, row) then Lower(s.scheduler.value(jobs, row.capability))
                  else if s.dryRun then "planned" else "blocked",
         job := if Submits(s, row) then Some(jobs) else None)
  }

  function Outcomes(s: Setting, rows: seq<StepRow>, jobs: nat): seq<StepRow> {
    if rows == [] then []
    else [Outcome(s, rows[0], jobs)] + Outcomes(s, rows[1..], if Submits(s, rows[0]) then jobs + 1 else jobs)
  }

  /** The capabilities submitted, in order. */
  function Submitted(s: Setting, rows: seq<StepRow>): seq<string> {
    if rows == [] then []
    else (if Submits(s, rows[0]) then [rows[0].capability] else []) + Submitted(s, rows[1..])
  }

  function Verdict(s: Setting, outcomes: seq<StepRow>): string {
    if s.dryRun then "planned"
    else if forall o :: o in outcomes ==> o.state == "completed" then "completed"
    else if exists o :: o in outcomes && (o.state == "blocked" || o.state == "failed") then "failed"
    else "completed"
  }

  class Exercise {
    var rows: seq<StepRow>
    var status: string
    var jobs: seq<string>

    constructor (rows: seq<StepRow>)
      ensures this.rows == rows && status == "planned" && jobs == []
    {
      this.rows, status, jobs := rows, "planned", [];
    }

    ghost predicate Valid()
      reads this
    {
      forall i, j :: 0 <= i < j < |rows| ==> rows[i].id != rows[j].id
    }

    method Plan(s: Setting, chain: bool) returns (r: Result<seq<StepRow>>)
      requires Valid()
      modifies this
      ensures Valid()
      ensures r.Err? <==> old(rows) == []
      ensures r.Err? ==> rows == old(rows) && status == old(status) && jobs == old(jobs)
      ensures r.Ok? ==> r.value == Outcomes(s, Ordered(old(rows), chain), |old(jobs)|)
      ensures r.Ok? ==> rows == Updates(old(rows), r.value)
      ensures r.Ok? ==> jobs == old(jobs) + Submitted(s, Ordered(old(rows), chain))
      ensures r.Ok? ==> status == Verdict(s, r.value)
      ensures r.Ok? ==> |rows| == |old(rows)| && forall i :: 0 <= i < |rows| ==> Settled(s, old(rows)[i], rows[i], r.value)
      // The same in terms of the policy, the jobs and their final states.
      ensures r.Ok? ==> forall i :: 0 <= i < |rows| ==> Played(s, jobs, old(rows)[i], rows[i])
      ensures r.Ok? && s.dryRun ==> status == "planned" && jobs == old(jobs)
      ensures r.Ok? && !s.dryRun ==> status == if SomeFails(s, rows) then "failed" else "completed"
    {
      if rows == [] { return Err("exercise has no steps"); }
      PlanFacts(s, rows, chain, jobs);
      ValidIs();
      hide *;
      var ordered := rows;
      if chain { ordered := StableSortLoop(rows, NoLater); }
      OrderedIs(rows, chain);
      status := "running";
      var outcomes := RunSteps(s, ordered);
      status := Conclude(s, outcomes);
      SameIds(old(rows), rows);
      return Ok(outcomes);
    }

    lemma ValidIs()
      ensures Valid() <==> DistinctIds(rows)
    {
    }

    /** The status after the loop. */
    method Conclude(s: Setting, outcomes: seq<StepRow>) returns (verdict: string)
      ensures verdict == Verdict(s, outcomes)
    {
      if s.dryRun { return "planned"; }
      if forall o :: o in outcomes ==> o.state == "completed" { return "completed"; }
      if exists o :: o in outcomes && (o.state == "blocked" || o.state == "failed") { return "failed"; }
      return "completed";
    }

    /** The body of the loop, up to the row update. */
    method PlayOne(s: Setting, row: StepRow) returns (o: StepRow)
      modifies this`jobs
      ensures o == Outcome(s, row, |old(jobs)|)
      ensures jobs == if Submits(s, row) then old(jobs) + [row.capability] else old(jobs)
    {
      OutcomeIs(s, row, |jobs|);
      o := row.(decision := s.policy(row.capability), state := "planned", job := None);
      if !s.dryRun && o.decision == "ALLOW" && s.scheduler.Some? {
        o := o.(job := Some(|jobs|), state := Lower(s.scheduler.value(|jobs|, o.capability)));
        jobs := jobs + [row.capability];
      } else if !s.dryRun {
        o := o.(state := "blocked");
      }
    }

    /** The loop over the steps: decide, submit, update the row, record the outcome. */
    method RunSteps(s: Setting, ordered: seq<StepRow>) returns (outcomes: seq<StepRow>)
      modifies this`rows, this`jobs
      ensures outcomes == Outcomes(s, ordered, |old(jobs)|)
      ensures rows == Updates(old(rows), outcomes)
      ensures jobs == old(jobs) + Submitted(s, ordered)
      ensures |outcomes| == |ordered| && forall k :: 0 <= k < |ordered| ==> Played(s, jobs, ordered[k], outcomes[k])
    {
      outcomes := [];
      var i := 0;
      assert ordered[0..] == ordered;
      Nothing(s, |jobs|, rows);
      while i < |ordered|
        invariant 0 <= i <= |ordered|
        invariant outcomes + Outcomes(s, ordered[i..], |jobs|) == Outcomes(s, ordered, |old(jobs)|)
        invariant jobs + Submitted(s, ordered[i..]) == old(jobs) + Submitted(s, ordered)
        invariant rows == Updates(old(rows), outcomes)
      {
        hide *;
        PlayStep(s, ordered, i, outcomes, jobs);
        var o := PlayOne(s, ordered[i]);
        UpdatesLast(old(rows), outcomes, o);
        rows := Update(rows, o);
        outcomes := outcomes + [o];
        i := i + 1;
      }
      hide *;
      assert ordered[i..] == [];
      Nothing(s, |jobs|, rows);
      EachPlayed(s, ordered, old(jobs));
    }
  }

  lemma OutcomeIs(s: Setting, row: StepRow, jobs: nat)
    ensures Submits(s, row) <==> !s.dryRun && s.policy(row.capability) == "ALLOW" && s.scheduler.Some?
    ensures Outcome(s, row, jobs) ==
      var o := row.(decision := s.policy(row.capability), state := "planned", job := None);
      if Submits(s, row) then o.(job := Some(jobs), state := Lower(s.scheduler.value(jobs, row.capability)))
      else if s.dryRun then o else o.(state := "blocked")
  {
  }

  lemma PlayStep(s: Setting, rows: seq<StepRow>, i: nat, outcomes: seq<StepRow>, jobs: seq<string>)
    requires i < |rows|
    ensures var o := Outcome(s, rows[i], |jobs|);
      var jobs' := if Submits(s, rows[i]) then jobs + [rows[i].capability] else jobs;
      && outcomes + Outcomes(s, rows[i..], |jobs|) == (outcomes + [o]) + Outcomes(s, rows[i + 1..], |jobs'|)
      && jobs + Submitted(s, rows[i..]) == jobs' + Submitted(s, rows[i + 1..])
  {
    hide Outcome, Submits;
    assert rows[i..][1..] == rows[i + 1..];
  }

  lemma Nothing(s: Setting, jobs: nat, rows: seq<StepRow>)
    ensures Outcomes(s, [], jobs) == [] && Submitted(s, []) == [] && Updates(rows, []) == rows
  {
  }

  // ---- Row updates ----

  /** UPDATE ... WHERE id = ?. */
  function Update(rows: seq<StepRow>, o: StepRow): (r: seq<StepRow>)
    ensures |r| == |rows|
    ensures forall i :: 0 <= i < |r| ==>
      r[i] == if rows[i].id == o.id then rows[i].(decision := o.decision, state := o.state, job := o.job) else rows[i]
  {
    seq(|rows|, i requires 0 <= i < |rows| =>
      if rows[i].id == o.id then rows[i].(decision := o.decision, state := o.state, job := o.job) else rows[i])
  }

  function Updates(rows: seq<StepRow>, outcomes: seq<StepRow>): seq<StepRow>
    decreases |outcomes|
  {
    if outcomes == [] then rows else Updates(Update(rows, outcomes[0]), outcomes[1..])
  }

  lemma {:induction false} UpdatesLast(rows: seq<StepRow>, outcomes: seq<StepRow>, o: StepRow)
    ensures Updates(rows, outcomes + [o]) == Update(Updates(rows, outcomes), o)
    decreases |outcomes|
  {
    if outcomes == [] {
      assert outcomes + [o] == [o] && [o][1..] == [];
    } else {
      assert (outcomes + [o])[1..] == outcomes[1..] + [o];
      UpdatesLast(Update(rows, outcomes[0]), outcomes[1..], o);
    }
  }

  lemma {:induction false} UpdatesKeepIds(rows: seq<StepRow>, outcomes: seq<StepRow>)
    ensures |Updates(rows, outcomes)| == |rows|
    ensures forall i :: 0 <= i < |rows| ==> Updates(rows, outcomes)[i].id == rows[i].id
    decreases |outcomes|
  {
    if outcomes != [] { UpdatesKeepIds(Update(rows, outcomes[0]), outcomes[1..]); }
  }

  // ---- Main results ----

  /** The outcomes are those of the ordered steps, one for one: same step, its own decision, and a job exactly
      for the steps that submit. */
  lemma {:induction false} OneOutcomePerStep(s: Setting, rows: seq<StepRow>, jobs: nat)
    ensures var r := Outcomes(s, rows, jobs);
      && |r| == |rows|
      && forall i :: 0 <= i < |r| ==>
           && r[i].id == rows[i].id && r[i].decision == s.policy(rows[i].capability)
           && (r[i].job.Some? <==> Submits(s, rows[i]))
           && (r[i].job == None ==> r[i].state == if s.dryRun then "planned" else "blocked")
           && (r[i].job.Some? ==> r[i].state == Lower(s.scheduler.value(r[i].job.value, rows[i].capability)))
    decreases |rows|
  {
    if rows != [] {
      OneOutcomePerStep(s, rows[1..], if Submits(s, rows[0]) then jobs + 1 else jobs);
      hide Submits;
    }
  }

  lemma {:induction false} OutcomesLength(s: Setting, rows: seq<StepRow>, jobs: nat)
    ensures |Outcomes(s, rows, jobs)| == |rows|
    decreases |rows|
  {
    if rows != [] { OutcomesLength(s, rows[1..], if Submits(s, rows[0]) then jobs + 1 else jobs); }
  }

  /** What becomes of a step: its own decision, and, if it is submitted, a job of its capability with that job's
      final state; planned in a dry run, blocked otherwise. */
  predicate Played(s: Setting, jobs: seq<string>, before: StepRow, after: StepRow) {
    && after.id == before.id && after.capability == before.capability && after.decision == s.policy(before.capability)
    && if !s.dryRun && s.scheduler.Some? && s.policy(before.capability) == "ALLOW" then
         && after.job.Some? && after.job.value < |jobs| && jobs[after.job.value] == before.capability
         && after.state == Lower(s.scheduler.value(after.job.value, before.capability))
       else
         after.job == None && after.state == if s.dryRun then "planned" else "blocked"
  }

  /** The step was not submitted, or its job's final state is failed or blocked. */
  predicate Fails(s: Setting, row: StepRow) {
    match row.job
    case None => true
    case Some(n) =>
      s.scheduler.Some?
      && (Lower(s.scheduler.value(n, row.capability)) == "failed" || Lower(s.scheduler.value(n, row.capability)) == "blocked")
  }

  lemma {:induction false} EachPlayed(s: Setting, rows: seq<StepRow>, before: seq<string>)
    ensures var r, jobs := Outcomes(s, rows, |before|), before + Submitted(s, rows);
      |r| == |rows| && forall k :: 0 <= k < |rows| ==> Played(s, jobs, rows[k], r[k])
    decreases |rows|
  {
    if rows != [] {
      var now := before + if Submits(s, rows[0]) then [rows[0].capability] else [];
      EachPlayed(s, rows[1..], now);
      Assoc(before, if Submits(s, rows[0]) then [rows[0].capability] else [], Submitted(s, rows[1..]));
      assert now + Submitted(s, rows[1..]) == before + Submitted(s, rows);
      FirstPlayed(s, rows[0], before, Submitted(s, rows[1..]));
      hide Played, Submits, Outcome;
    }
  }

  lemma FirstPlayed(s: Setting, row: StepRow, before: seq<string>, later: seq<string>)
    ensures var now := before + if Submits(s, row) then [row.capability] else [];
      Played(s, now + later, row, Outcome(s, row, |before|))
  {
  }

  /** Every stored row is played, in either order of execution. */
  lemma RowsPlayed(s: Setting, rows: seq<StepRow>, chain: bool, before: seq<string>)
    requires DistinctIds(rows)
    ensures var outcomes := Outcomes(s, Ordered(rows, chain), |before|);
      var r, jobs := Updates(rows, outcomes), before + Submitted(s, Ordered(rows, chain));
      |r| == |rows| && forall i :: 0 <= i < |rows| ==> Played(s, jobs, rows[i], r[i])
  {
    var ordered := Ordered(rows, chain);
    var outcomes := Outcomes(s, ordered, |before|);
    EachPlayed(s, ordered, before);
    UpdatesKeepIds(rows, outcomes);
    hide Ordered, Outcomes, Updates, Submits, Submitted;
    forall i | 0 <= i < |rows| ensures Played(s, before + Submitted(s, ordered), rows[i], Updates(rows, outcomes)[i]) {
      var k := OrderedOnce(rows, chain, i);
      RowsHoldOutcomes(rows, outcomes, i, k);
    }
  }

  ghost predicate SomeFails(s: Setting, rows: seq<StepRow>) { exists i :: 0 <= i < |rows| && Fails(s, rows[i]) }

  ghost predicate SomeBad(rows: seq<StepRow>) {
    exists i :: 0 <= i < |rows| && (rows[i].state == "blocked" || rows[i].state == "failed")
  }

  lemma OrderedIs(rows: seq<StepRow>, chain: bool)
    ensures Ordered(rows, chain) == if chain then Sort(rows, NoLater) else rows
  {
  }

  lemma SameIds(rows: seq<StepRow>, r: seq<StepRow>)
    requires DistinctIds(rows) && |r| == |rows| && forall i :: 0 <= i < |rows| ==> r[i].id == rows[i].id
    ensures DistinctIds(r)
  {
  }

  /** Everything that an exercise leaves, in terms of its stored rows. */
  lemma PlanFacts(s: Setting, rows: seq<StepRow>, chain: bool, before: seq<string>)
    requires DistinctIds(rows) && rows != []
    ensures var ordered := Ordered(rows, chain);
      var outcomes, jobs := Outcomes(s, ordered, |before|), before + Submitted(s, ordered);
      var r := Updates(rows, outcomes);
      && |r| == |rows| && (forall i :: 0 <= i < |rows| ==> r[i].id == rows[i].id)
      && (forall i :: 0 <= i < |rows| ==> Settled(s, rows[i], r[i], outcomes) && Played(s, jobs, rows[i], r[i]))
      && (s.dryRun ==> jobs == before && Verdict(s, outcomes) == "planned")
      && (!s.dryRun ==> Verdict(s, outcomes) == if SomeFails(s, r) then "failed" else "completed")
  {
    var ordered := Ordered(rows, chain);
    var outcomes := Outcomes(s, ordered, |before|);
    hide *;
    UpdatesKeepIds(rows, outcomes);
    RowsSettled(s, rows, chain, |before|);
    RowsPlayed(s, rows, chain, before);
    JobsPerAllowedStep(s, ordered);
    assert before + [] == before;
    VerdictIs(s, outcomes);
    if !s.dryRun {
      LiveOutcomes(s, ordered, |before|);
      SameBad(s, rows, chain, |before|);
      BadFails(s, before + Submitted(s, ordered), rows, Updates(rows, outcomes));
    }
  }

  lemma VerdictIs(s: Setting, outcomes: seq<StepRow>)
    ensures s.dryRun ==> Verdict(s, outcomes) == "planned"
    ensures !s.dryRun ==> Verdict(s, outcomes) == if SomeBad(outcomes) then "failed" else "completed"
  {
    if SomeBad(outcomes) {
      var i :| 0 <= i < |outcomes| && (outcomes[i].state == "blocked" || outcomes[i].state == "failed");
      assert outcomes[i] in outcomes && outcomes[i].state != "completed";
    }
    if o :| o in outcomes && (o.state == "blocked" || o.state == "failed") {
      var i :| 0 <= i < |outcomes| && outcomes[i] == o;
    }
  }

  lemma LiveOutcomes(s: Setting, rows: seq<StepRow>, jobs: nat)
    ensures |Outcomes(s, rows, jobs)| == |rows|
  {
    OutcomesLength(s, rows, jobs);
  }

  /** Outcomes and stored rows have the same states. */
  lemma SameBad(s: Setting, rows: seq<StepRow>, chain: bool, jobs: nat)
    requires DistinctIds(rows)
    ensures var outcomes := Outcomes(s, Ordered(rows, chain), jobs);
      SomeBad(outcomes) <==> SomeBad(Updates(rows, outcomes))
  {
    var outcomes := Outcomes(s, Ordered(rows, chain), jobs);
    var r := Updates(rows, outcomes);
    UpdatesKeepIds(rows, outcomes);
    hide Ordered, Outcomes, Updates;
    if SomeBad(outcomes) {
      var k :| 0 <= k < |outcomes| && (outcomes[k].state == "blocked" || outcomes[k].state == "failed");
      var i := RowOf(s, rows, chain, jobs, k);
      assert r[i].state == outcomes[k].state;
    }
    if SomeBad(r) {
      var i :| 0 <= i < |r| && (r[i].state == "blocked" || r[i].state == "failed");
      var k := OutcomeOf(s, rows, chain, jobs, i);
      assert outcomes[k].state == r[i].state;
    }
  }

  lemma OutcomeOf(s: Setting, rows: seq<StepRow>, chain: bool, jobs: nat, i: nat) returns (k: nat)
    requires DistinctIds(rows) && i < |rows|
    ensures var outcomes := Outcomes(s, Ordered(rows, chain), jobs);
      var r := Updates(rows, outcomes);
      k < |outcomes| && |r| == |rows| && r[i].state == outcomes[k].state
  {
    hide *;
    var outcomes := Outcomes(s, Ordered(rows, chain), jobs);
    OutcomeIds(s, Ordered(rows, chain), jobs);
    UpdatesKeepIds(rows, outcomes);
    k := OrderedOnce(rows, chain, i);
    RowsHoldOutcomes(rows, outcomes, i, k);
  }

  lemma BadFails(s: Setting, jobs: seq<string>, rows: seq<StepRow>, r: seq<StepRow>)
    requires !s.dryRun && |r| == |rows| && forall i :: 0 <= i < |rows| ==> Played(s, jobs, rows[i], r[i])
    ensures SomeBad(r) <==> SomeFails(s, r)
  {
    forall i | 0 <= i < |rows| ensures Fails(s, r[i]) <==> r[i].state == "blocked" || r[i].state == "failed" {
      StateFails(s, jobs, rows[i], r[i]);
    }
    hide Fails, Played;
  }

  lemma StateFails(s: Setting, jobs: seq<string>, before: StepRow, after: StepRow)
    requires !s.dryRun && Played(s, jobs, before, after)
    ensures Fails(s, after) <==> after.state == "blocked" || after.state == "failed"
  {
  }

  lemma RowOf(s: Setting, rows: seq<StepRow>, chain: bool, jobs: nat, k: nat) returns (i: nat)
    requires DistinctIds(rows) && k < |Outcomes(s, Ordered(rows, chain), jobs)|
    ensures var outcomes := Outcomes(s, Ordered(rows, chain), jobs);
      var r := Updates(rows, outcomes);
      i < |rows| && |r| == |rows| && r[i].state == outcomes[k].state
  {
    hide *;
    var ordered := Ordered(rows, chain);
    var outcomes := Outcomes(s, ordered, jobs);
    OutcomeIds(s, ordered, jobs);
    InOrdered(rows, chain, ordered[k]);
    i :| 0 <= i < |rows| && rows[i] == ordered[k];
    UpdatesKeepIds(rows, outcomes);
    var k' := OrderedOnce(rows, chain, i);
    assert k == k';
    RowsHoldOutcomes(rows, outcomes, i, k);
  }

  lemma OutcomeIds(s: Setting, rows: seq<StepRow>, jobs: nat)
    ensures |Outcomes(s, rows, jobs)| == |rows|
    ensures forall i :: 0 <= i < |rows| ==> Outcomes(s, rows, jobs)[i].id == rows[i].id
  {
    OneOutcomePerStep(s, rows, jobs);
  }

  lemma InOrdered(rows: seq<StepRow>, chain: bool, x: StepRow)
    ensures x in Ordered(rows, chain) <==> x in rows
  {
    if chain { ChainOrder(rows, x); }
    hide Sort;
    assert x in Ordered(rows, chain) <==> x in multiset(Ordered(rows, chain));
    assert x in rows <==> x in multiset(rows);
  }

  /** Job numbers are handed out without gaps in the order of execution. */
  lemma {:induction false} JobsAreConsecutive(s: Setting, rows: seq<StepRow>, jobs: nat, i: nat)
    requires i < |rows| && Submits(s, rows[i])
    ensures |Outcomes(s, rows, jobs)| == |rows|
    ensures Outcomes(s, rows, jobs)[i].job == Some(jobs + |Submitted(s, rows[..i])|)
    decreases |rows|
  {
    OutcomesLength(s, rows, jobs);
    hide Submits;
    if i > 0 {
      var next := if Submits(s, rows[0]) then jobs + 1 else jobs;
      JobsAreConsecutive(s, rows[1..], next, i - 1);
      assert rows[..i][1..] == rows[1..][..i - 1];
    }
  }

  /** A dry run, or a run without a scheduler, submits nothing; otherwise one job per allowed step. */
  lemma {:induction false} JobsPerAllowedStep(s: Setting, rows: seq<StepRow>)
    ensures s.dryRun || s.scheduler == None ==> Submitted(s, rows) == []
    ensures !s.dryRun && s.scheduler.Some? ==> Submitted(s, rows) == AllowedCapabilities(s.policy, rows)
    decreases |rows|
  {
    if rows != [] { JobsPerAllowedStep(s, rows[1..]); }
  }

  function AllowedCapabilities(policy: string -> string, rows: seq<StepRow>): seq<string> {
    if rows == [] then []
    else (if policy(rows[0].capability) == "ALLOW" then [rows[0].capability] else []) + AllowedCapabilities(policy, rows[1..])
  }

  /** A live exercise fails exactly when some step was not allowed, had no scheduler, or its job failed or was
      blocked; any other final state of a job, a cancelled one for instance, counts as completed. */
  lemma LiveVerdictIff(s: Setting, rows: seq<StepRow>, jobs: nat)
    requires !s.dryRun && rows != []
    ensures var r := Outcomes(s, rows, jobs);
      && |r| == |rows|
      && (Verdict(s, r) == "failed" <==>
            exists i :: 0 <= i < |rows| && (!Submits(s, rows[i]) || r[i].state == "failed" || r[i].state == "blocked"))
      && (Verdict(s, r) == "failed" <==> SomeFails(s, r))
      && (Verdict(s, r) != "failed" ==> Verdict(s, r) == "completed")
      && (s.scheduler == None ==> Verdict(s, r) == "failed")
  {
    var r := Outcomes(s, rows, jobs);
    OneOutcomePerStep(s, rows, jobs);
    VerdictIs(s, r);
    forall i | 0 <= i < |rows|
      ensures Fails(s, r[i]) <==> !Submits(s, rows[i]) || r[i].state == "failed" || r[i].state == "blocked"
    {
      OutcomeFails(s, rows, jobs, i);
    }
    if s.scheduler == None { assert !Submits(s, rows[0]); }
    hide Outcomes, Fails, Submits, Verdict;
  }

  lemma OutcomeFails(s: Setting, rows: seq<StepRow>, jobs: nat, i: nat)
    requires !s.dryRun && i < |rows|
    ensures |Outcomes(s, rows, jobs)| == |rows|
    ensures var o := Outcomes(s, rows, jobs)[i];
      Fails(s, o) <==> !Submits(s, rows[i]) || o.state == "failed" || o.state == "blocked"
  {
    var before := seq(jobs, _ => "");
    EachPlayed(s, rows, before);
    hide Outcomes;
  }

  /** Every row of the exercise ends up with the outcome of its own step, whatever the order of execution. */
  lemma {:induction false} RowsHoldOutcomes(rows: seq<StepRow>, outcomes: seq<StepRow>, i: nat, k: nat)
    requires i < |rows| && k < |outcomes| && outcomes[k].id == rows[i].id
    requires forall j :: 0 <= j < |outcomes| && j != k ==> outcomes[j].id != rows[i].id
    ensures |Updates(rows, outcomes)| == |rows|
    ensures Updates(rows, outcomes)[i]
      == rows[i].(decision := outcomes[k].decision, state := outcomes[k].state, job := outcomes[k].job)
    decreases |outcomes|
  {
    UpdatesKeepIds(rows, outcomes);
    var next := Update(rows, outcomes[0]);
    if k == 0 {
      UntouchedRow(next, outcomes[1..], i);
    } else {
      RowsHoldOutcomes(next, outcomes[1..], i, k - 1);
    }
  }

  ghost predicate DistinctIds(rows: seq<StepRow>) {
    forall i, j :: 0 <= i < j < |rows| ==> rows[i].id != rows[j].id
  }

  /** Outcome k is the only one for the row. */
  ghost predicate OnlyOutcome(outcomes: seq<StepRow>, id: nat, k: nat) {
    && k < |outcomes| && outcomes[k].id == id
    && forall j :: 0 <= j < |outcomes| && j != k ==> outcomes[j].id != id
  }

  /** The row keeps what it was, and holds its own policy decision and the state and job of its one outcome. */
  ghost predicate Settled(s: Setting, before: StepRow, after: StepRow, outcomes: seq<StepRow>) {
    && after == before.(decision := s.policy(before.capability), state := after.state, job := after.job)
    && exists k: nat :: OnlyOutcome(outcomes, before.id, k) && after.state == outcomes[k].state && after.job == outcomes[k].job
  }

  lemma TwiceInMultiset(rows: seq<StepRow>, i: nat, j: nat)
    requires i < j < |rows| && rows[i] == rows[j]
    ensures multiset(rows)[rows[i]] >= 2
  {
    assert rows == rows[..i] + [rows[i]] + rows[i + 1..j] + [rows[j]] + rows[j + 1..];
  }

  lemma {:induction false} OnceInMultiset(rows: seq<StepRow>, x: StepRow)
    requires DistinctIds(rows)
    ensures multiset(rows)[x] <= 1
    decreases |rows|
  {
    if rows != [] {
      OnceInMultiset(rows[1..], x);
      assert rows == [rows[0]] + rows[1..];
      forall j | 0 <= j < |rows| - 1 ensures rows[1..][j] != rows[0] {
        assert rows[1..][j] == rows[j + 1];
      }
      assert rows[0] !in multiset(rows[1..]);
    }
  }

  /** Either order runs every row once. */
  lemma OrderedOnce(rows: seq<StepRow>, chain: bool, i: nat) returns (k: nat)
    requires DistinctIds(rows) && i < |rows|
    ensures var r := Ordered(rows, chain);
      && |r| == |rows| && k < |r| && r[k] == rows[i]
      && forall j :: 0 <= j < |r| && j != k ==> r[j].id != rows[i].id
  {
    var r := Ordered(rows, chain);
    if chain { ChainOrder(rows, rows[i]); }
    assert multiset(r) == multiset(rows);
    hide *;
    k := FoundOnce(rows, r, i);
  }

  lemma FoundOnce(rows: seq<StepRow>, r: seq<StepRow>, i: nat) returns (k: nat)
    requires DistinctIds(rows) && i < |rows| && multiset(r) == multiset(rows)
    ensures |r| == |rows| && k < |r| && r[k] == rows[i] && forall j :: 0 <= j < |r| && j != k ==> r[j].id != rows[i].id
  {
    var x := rows[i];
    assert |r| == |multiset(r)| && |rows| == |multiset(rows)|;
    assert x in multiset(r);
    k :| 0 <= k < |r| && r[k] == x;
    forall j | 0 <= j < |r| && j != k ensures r[j].id != x.id { OtherId(rows, r, i, k, j); }
  }

  lemma OtherId(rows: seq<StepRow>, r: seq<StepRow>, i: nat, k: nat, j: nat)
    requires DistinctIds(rows) && i < |rows| && multiset(r) == multiset(rows)
    requires k < |r| && j < |r| && j != k && r[k] == rows[i]
    ensures r[j].id != rows[i].id
  {
    assert r[j] in multiset(rows);
    var m :| 0 <= m < |rows| && rows[m] == r[j];
    OnceInMultiset(rows, rows[i]);
    if r[j] == rows[i] { TwiceInMultiset(r, if j < k then j else k, if j < k then k else j); }
    assert m != i;
    assert m < i || i < m;
  }

  /** Every stored row ends with its own decision and the state and job of its one outcome, in either order. */
  lemma RowsSettled(s: Setting, rows: seq<StepRow>, chain: bool, jobs: nat)
    requires DistinctIds(rows)
    ensures var outcomes := Outcomes(s, Ordered(rows, chain), jobs);
      && |Updates(rows, outcomes)| == |rows|
      && forall i :: 0 <= i < |rows| ==> Settled(s, rows[i], Updates(rows, outcomes)[i], outcomes)
  {
    var ordered := Ordered(rows, chain);
    var outcomes := Outcomes(s, ordered, jobs);
    OneOutcomePerStep(s, ordered, jobs);
    UpdatesKeepIds(rows, outcomes);
    hide Ordered, Outcomes, Updates, Submits;
    forall i | 0 <= i < |rows| ensures Settled(s, rows[i], Updates(rows, outcomes)[i], outcomes) {
      var k := OrderedOnce(rows, chain, i);
      RowsHoldOutcomes(rows, outcomes, i, k);
      assert OnlyOutcome(outcomes, rows[i].id, k);
    }
  }

  lemma {:induction false} UntouchedRow(rows: seq<StepRow>, outcomes: seq<StepRow>, i: nat)
    requires i < |rows| && forall j :: 0 <= j < |outcomes| ==> outcomes[j].id != rows[i].id
    ensures |Updates(rows, outcomes)| == |rows| && Updates(rows, outcomes)[i] == rows[i]
    decreases |outcomes|
  {
    if outcomes != [] { UntouchedRow(Update(rows, outcomes[0]), outcomes[1..], i); }
  }
}
