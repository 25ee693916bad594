/** Evidence, its chain of custody, and the compliance snapshots that verify all of it and add one more item. */
module Evidence {
  import opened Common
  import opened Text

  /** `sha256` is the digest stored at collection; an item's id is its position plus one. */
  datatype Item = Item(content: string, sha256: string)

  datatype Event = Event(evidence: nat, action: string, actor: string, previousState: string, newState: string, reason: string)

  datatype Store = Store(items: seq<Item>, custody: seq<Event>)

  /** The digest function. */
  type Hash = string -> string

  predicate Intact(item: Item, hash: Hash) { hash(item.content) == item.sha256 }

  function Captured(id: nat, operator: string, tool: string): Event {
    Event(id, "CAPTURED", if operator != "" then operator else "system", "", "captured",
          "collected by " + if tool != "" then tool else "manual")
  }

  function Verified(id: nat, ok: bool): Event {
    Event(id, "VERIFIED", "system", "captured", if ok then "verified" else "integrity_failure",
          if ok then "hash match" else "content hash mismatch — evidence was altered")
  }

  function Added(s: Store, content: string, tool: string, operator: string, hash: Hash): Store {
    Store(s.items + [Item(content, hash(content))], s.custody + [Captured(|s.items| + 1, operator, tool)])
  }

  /** An event for an unknown id is refused by the database. */
  function Recorded(s: Store, e: Event): Store {
    if 1 <= e.evidence <= |s.items| then s.(custody := s.custody + [e.(action := Upper(e.action))]) else s
  }

  /** Verifying an unknown id records nothing. */
  function Checked(s: Store, id: nat, hash: Hash): Store {
    if 1 <= id <= |s.items| then s.(custody := s.custody + [Verified(id, Intact(s.items[id - 1], hash))]) else s
  }

  function CheckedAll(s: Store, from: nat, hash: Hash): Store
    decreases |s.items| - from
  {
    if from >= |s.items| then s else CheckedAll(Checked(s, from + 1, hash), from + 1, hash)
  }

  lemma CheckedAllStep(s: Store, from: nat, hash: Hash)
    ensures from >= |s.items| ==> CheckedAll(s, from, hash) == s
    ensures from < |s.items| ==> CheckedAll(s, from, hash) == CheckedAll(Checked(s, from + 1, hash), from + 1, hash)
    ensures Checked(s, from, hash).items == s.items
  {
  }

  /** A compliance snapshot: verify everything, then store the report as new evidence. */
  function Snapshotted(s: Store, report: string, actor: string, hash: Hash): Store {
    Added(CheckedAll(s, 0, hash), report, "grc", actor, hash)
  }

  datatype Integrity = PASS | FAIL | NOT_APPLICABLE

  class EvidenceService {
    const hash: Hash
    var items: seq<Item>
    var custody: seq<Event>

    constructor (hash: Hash)
      ensures this.hash == hash && Contents() == Store([], [])
    {
      this.hash := hash;
      items, custody := [], [];
    }

    function Contents(): Store
      reads this
    {
      Store(items, custody)
    }

    method Add(content: string, tool: string, operator: string) returns (id: nat)
      modifies this
      ensures Contents() == Added(old(Contents()), content, tool, operator, hash)
      ensures id == |items|
      ensures |items| == |old(items)| + 1 && items[..|old(items)|] == old(items)
      ensures items[id - 1].content == content && items[id - 1].sha256 == hash(content)
      ensures |custody| == |old(custody)| + 1 && custody[..|old(custody)|] == old(custody)
      ensures custody[|custody|-1] == Event(id, "CAPTURED", if operator == "" then "system" else operator, "", "captured",
                                            if tool == "" then "collected by manual" else "collected by " + tool)
    {
      items := items + [Item(content, hash(content))];
      id := |items|;
      custody := custody + [Captured(id, operator, tool)];
    }

    method RecordCustody(e: Event) returns (ok: bool)
      modifies this`custody
      ensures Contents() == Recorded(old(Contents()), e)
      ensures ok <==> 1 <= e.evidence <= |items|
      ensures custody == old(custody) + if ok then [e.(action := Upper(e.action))] else []
    {
      if e.evidence < 1 || e.evidence > |items| { return false; }
      custody := custody + [e.(action := Upper(e.action))];
      return true;
    }

    method Verify(id: nat) returns (ok: bool)
      modifies this`custody
      ensures Contents() == Checked(old(Contents()), id, hash)
      ensures ok <==> 1 <= id <= |items| && Intact(items[id - 1], hash)
      ensures ok <==> 1 <= id <= |items| && hash(items[id - 1].content) == items[id - 1].sha256
      ensures custody == old(custody) +
        if id < 1 || id > |items| then []
        else if ok then [Event(id, "VERIFIED", "system", "captured", "verified", "hash match")]
        else [Event(id, "VERIFIED", "system", "captured", "integrity_failure", "content hash mismatch — evidence was altered")]
    {
      if id < 1 || id > |items| { return false; }
      ok := hash(items[id - 1].content) == items[id - 1].sha256;
      custody := custody + [Verified(id, ok)];
    }

    /** The evidence part of `run_checks`. */
    method CheckIntegrity() returns (result: Integrity)
      modifies this`custody
      ensures Contents() == CheckedAll(old(Contents()), 0, hash)
      ensures result == NOT_APPLICABLE <==> items == []
      ensures result == PASS <==> items != [] && forall i :: 0 <= i < |items| ==> Intact(items[i], hash)
      ensures result == PASS <==> items != [] && forall i :: 0 <= i < |items| ==> hash(items[i].content) == items[i].sha256
      ensures items == old(items)
    {
      hide CheckedAll, Checked, Verified, Captured;
      var ok, total := true, 0;
      while total < |items|
        invariant items == old(items)
        invariant 0 <= total <= |items|
        invariant CheckedAll(Contents(), total, hash) == CheckedAll(old(Contents()), 0, hash)
        invariant ok <==> forall i :: 0 <= i < total ==> Intact(items[i], hash)
      {
        CheckedAllStep(Contents(), total, hash);
        var one := Verify(total + 1);
        if !one { ok := false; }
        total := total + 1;
      }
      CheckedAllStep(Contents(), total, hash);
      result := if total == 0 then NOT_APPLICABLE else if ok then PASS else FAIL;
    }

    method Snapshot(report: string, actor: string) returns (id: nat)
      modifies this
      ensures Contents() == Snapshotted(old(Contents()), report, actor, hash)
      ensures id == |items| && items == old(items) + [Item(report, hash(report))]
    {
      var result := CheckIntegrity();
      id := Add(report, "grc", actor);
    }

    method CustodyLog(id: nat) returns (log: seq<Event>)
      ensures log == LogOf(custody, id)
    {
      log := [];
      var i := 0;
      while i < |custody|
        invariant 0 <= i <= |custody|
        invariant log == LogOf(custody[..i], id)
      {
        assert custody[..i + 1] == custody[..i] + [custody[i]];
        LogAppend(custody[..i], custody[i], id);
        if custody[i].evidence == id { log := log + [custody[i]]; }
        i := i + 1;
      }
      assert custody[..i] == custody;
    }
  }

  function LogOf(custody: seq<Event>, id: nat): seq<Event> {
    if custody == [] then []
    else (if custody[0].evidence == id then [custody[0]] else []) + LogOf(custody[1..], id)
  }

  lemma {:induction false} LogAppend(custody: seq<Event>, e: Event, id: nat)
    ensures LogOf(custody + [e], id) == LogOf(custody, id) + if e.evidence == id then [e] else []
    decreases |custody|
  {
    if custody == [] {
      assert custody + [e] == [e] && [e][1..] == [];
    } else {
      assert (custody + [e])[1..] == custody[1..] + [e];
      LogAppend(custody[1..], e, id);
    }
  }

  // ---- Runs ----

  /** `OpCheckAll` is a compliance check or status query, which verifies every item. */
  datatype Op =
    | OpAdd(content: string, tool: string, operator: string)
    | OpVerify(id: nat)
    | OpRecord(event: Event)
    | OpCheckAll
    | OpSnapshot(report: string, actor: string)
    | OpTamper(id: nat, content: string)

  /** Someone changes a stored content behind the service's back. */
  function Tampered(s: Store, id: nat, content: string): Store {
    if 1 <= id <= |s.items| then s.(items := s.items[id - 1 := s.items[id - 1].(content := content)]) else s
  }

  function Step(s: Store, op: Op, hash: Hash): Store {
    match op
    case OpAdd(c, t, o) => Added(s, c, t, o, hash)
    case OpVerify(id) => Checked(s, id, hash)
    case OpRecord(e) => Recorded(s, e)
    case OpCheckAll => CheckedAll(s, 0, hash)
    case OpSnapshot(r, a) => Snapshotted(s, r, a, hash)
    case OpTamper(id, c) => Tampered(s, id, c)
  }

  function Run(s: Store, ops: seq<Op>, hash: Hash): Store
    decreases |ops|
  {
    if ops == [] then s else Run(Step(s, ops[0], hash), ops[1..], hash)
  }

  /** Every item has a log that starts with its capture; no log belongs to no item. */
  ghost predicate Chained(s: Store) {
    && (forall id: nat :: 1 <= id <= |s.items| ==>
          LogOf(s.custody, id) != [] && LogOf(s.custody, id)[0].action == "CAPTURED")
    && (forall id: nat :: id < 1 || id > |s.items| ==> LogOf(s.custody, id) == [])
  }

  lemma {:induction false} CheckedAllKeeps(s: Store, from: nat, hash: Hash)
    requires Chained(s)
    ensures var r := CheckedAll(s, from, hash);
      && Chained(r) && r.items == s.items
      && forall id: nat :: LogOf(s.custody, id) <= LogOf(r.custody, id)
    decreases |s.items| - from
  {
    if from < |s.items| {
      var next := Checked(s, from + 1, hash);
      CheckedKeeps(s, from + 1, hash);
      hide Chained, LogOf;
      CheckedAllKeeps(next, from + 1, hash);
    }
  }

  lemma CheckedKeeps(s: Store, id: nat, hash: Hash)
    requires Chained(s)
    ensures Chained(Checked(s, id, hash))
    ensures forall x: nat :: LogOf(s.custody, x) <= LogOf(Checked(s, id, hash).custody, x)
  {
    if 1 <= id <= |s.items| {
      var e := Verified(id, Intact(s.items[id - 1], hash));
      forall x: nat ensures LogOf(s.custody + [e], x) == LogOf(s.custody, x) + if e.evidence == x then [e] else [] {
        LogAppend(s.custody, e, x);
      }
    }
  }

  lemma RecordedKeeps(s: Store, event: Event)
    requires Chained(s)
    ensures Chained(Recorded(s, event))
    ensures forall x: nat :: LogOf(s.custody, x) <= LogOf(Recorded(s, event).custody, x)
  {
    var e := event.(action := Upper(event.action));
    if 1 <= e.evidence <= |s.items| {
      forall x: nat ensures LogOf(s.custody + [e], x) == LogOf(s.custody, x) + if e.evidence == x then [e] else [] {
        LogAppend(s.custody, e, x);
      }
    }
  }

  lemma AddedKeeps(s: Store, content: string, tool: string, operator: string, hash: Hash)
    requires Chained(s)
    ensures Chained(Added(s, content, tool, operator, hash))
    ensures forall x: nat :: LogOf(s.custody, x) <= LogOf(Added(s, content, tool, operator, hash).custody, x)
  {
    var e := Captured(|s.items| + 1, operator, tool);
    forall x: nat ensures LogOf(s.custody + [e], x) == LogOf(s.custody, x) + if e.evidence == x then [e] else [] {
      LogAppend(s.custody, e, x);
    }
  }

  lemma StepKeeps(s: Store, op: Op, hash: Hash)
    requires Chained(s)
    ensures Chained(Step(s, op, hash))
    ensures forall id: nat :: LogOf(s.custody, id) <= LogOf(Step(s, op, hash).custody, id)
  {
    match op {
      case OpAdd(c, t, o) => AddedKeeps(s, c, t, o, hash);
      case OpVerify(id) => CheckedKeeps(s, id, hash);
      case OpRecord(e) => RecordedKeeps(s, e);
      case OpCheckAll => CheckedAllKeeps(s, 0, hash);
      case OpSnapshot(r, a) =>
        CheckedAllKeeps(s, 0, hash);
        AddedKeeps(CheckedAll(s, 0, hash), r, "grc", a, hash);
      case OpTamper(_, _) =>
    }
  }

  /** Over every run, tampering included: each item's chain of custody starts with its capture and only grows. */
  lemma {:induction false} CustodyOnlyGrows(s: Store, ops: seq<Op>, hash: Hash)
    requires Chained(s)
    ensures Chained(Run(s, ops, hash))
    ensures forall id: nat :: LogOf(s.custody, id) <= LogOf(Run(s, ops, hash).custody, id)
    decreases |ops|
  {
    if ops != [] {
      hide Chained, LogOf, Step;
      StepKeeps(s, ops[0], hash);
      CustodyOnlyGrows(Step(s, ops[0], hash), ops[1..], hash);
    }
  }

  /** From the empty store: every item's log starts with its capture, and no other id has a log. */
  lemma FromTheBeginning(ops: seq<Op>, hash: Hash)
    ensures Chained(Run(Store([], []), ops, hash))
  {
    CustodyOnlyGrows(Store([], []), ops, hash);
  }

  lemma StepItems(s: Store, op: Op, hash: Hash)
    ensures Step(s, op, hash).items ==
      match op
      case OpAdd(c, _, _) => s.items + [Item(c, hash(c))]
      case OpVerify(_) => s.items
      case OpRecord(_) => s.items
      case OpCheckAll => s.items
      case OpSnapshot(r, _) => s.items + [Item(r, hash(r))]
      case OpTamper(id, c) => if 1 <= id <= |s.items| then s.items[id - 1 := Item(c, s.items[id - 1].sha256)] else s.items
  {
    ItemsOfCheckedAll(s, 0, hash);
    hide CheckedAll, Captured, Verified;
  }

  /** What an operation can do to item i. */
  lemma StepItem(s: Store, op: Op, hash: Hash, i: nat)
    requires i < |s.items|
    ensures var r := Step(s, op, hash);
      && i < |r.items| && r.items[i].sha256 == s.items[i].sha256
      && (!(op.OpTamper? && op.id == i + 1) ==> r.items[i] == s.items[i])
  {
    StepItems(s, op, hash);
    hide Step;
  }

  lemma {:induction false} ItemAfterRun(s: Store, ops: seq<Op>, hash: Hash, i: nat)
    requires i < |s.items|
    ensures var r := Run(s, ops, hash);
      && i < |r.items| && r.items[i].sha256 == s.items[i].sha256
      && ((forall k :: 0 <= k < |ops| ==> !(ops[k].OpTamper? && ops[k].id == i + 1)) ==> r.items[i] == s.items[i])
    decreases |ops|
  {
    if ops != [] {
      StepItem(s, ops[0], hash, i);
      hide Step;
      ItemAfterRun(Step(s, ops[0], hash), ops[1..], hash, i);
      assert forall k :: 0 <= k < |ops| - 1 ==> ops[1..][k] == ops[k + 1];
    }
  }

  /** After any run, a collected item verifies exactly when its present content has the digest of the content it
      was collected with; if nobody tampered with it, it always does. */
  lemma VerifyDetectsTampering(s: Store, content: string, tool: string, operator: string, ops: seq<Op>, hash: Hash)
    ensures var id := |s.items| + 1;
      var r := Run(Added(s, content, tool, operator, hash), ops, hash);
      && id <= |r.items|
      && (Intact(r.items[id - 1], hash) <==> hash(r.items[id - 1].content) == hash(content))
      && ((forall k :: 0 <= k < |ops| ==> !(ops[k].OpTamper? && ops[k].id == id)) ==> Intact(r.items[id - 1], hash))
  {
    ItemAfterRun(Added(s, content, tool, operator, hash), ops, hash, |s.items|);
  }

  lemma {:induction false} ItemsOfCheckedAll(s: Store, from: nat, hash: Hash)
    ensures CheckedAll(s, from, hash).items == s.items
    decreases |s.items| - from
  {
    hide Captured, Verified, Intact;
    if from < |s.items| { ItemsOfCheckedAll(Checked(s, from + 1, hash), from + 1, hash); }
  }

  // ---- Accounting ----

  function Count(custody: seq<Event>, action: string): nat {
    if custody == [] then 0 else (if custody[0].action == action then 1 else 0) + Count(custody[1..], action)
  }

  lemma {:induction false} CountAppend(custody: seq<Event>, e: Event, action: string)
    ensures Count(custody + [e], action) == Count(custody, action) + if e.action == action then 1 else 0
    decreases |custody|
  {
    if custody == [] {
      assert custody + [e] == [e] && [e][1..] == [];
    } else {
      assert (custody + [e])[1..] == custody[1..] + [e];
      CountAppend(custody[1..], e, action);
    }
  }

  lemma {:induction false} CountCheckedAll(s: Store, from: nat, hash: Hash)
    requires from <= |s.items|
    ensures var r := CheckedAll(s, from, hash);
      && Count(r.custody, "VERIFIED") == Count(s.custody, "VERIFIED") + (|s.items| - from)
      && Count(r.custody, "CAPTURED") == Count(s.custody, "CAPTURED")
    decreases |s.items| - from
  {
    if from < |s.items| {
      CountAppend(s.custody, Verified(from + 1, Intact(s.items[from], hash)), "VERIFIED");
      CountAppend(s.custody, Verified(from + 1, Intact(s.items[from], hash)), "CAPTURED");
      CountCheckedAll(Checked(s, from + 1, hash), from + 1, hash);
    }
  }

  function Snapshots(s: Store, reports: seq<string>, actor: string, hash: Hash): Store
    decreases |reports|
  {
    if reports == [] then s else Snapshots(Snapshotted(s, reports[0], actor, hash), reports[1..], actor, hash)
  }

  lemma OneSnapshot(s: Store, report: string, actor: string, hash: Hash)
    ensures var r := Snapshotted(s, report, actor, hash);
      && |r.items| == |s.items| + 1
      && Count(r.custody, "CAPTURED") == Count(s.custody, "CAPTURED") + 1
      && Count(r.custody, "VERIFIED") == Count(s.custody, "VERIFIED") + |s.items|
  {
    var checked := CheckedAll(s, 0, hash);
    CountCheckedAll(s, 0, hash);
    ItemsOfCheckedAll(s, 0, hash);
    CountAppend(checked.custody, Captured(|s.items| + 1, actor, "grc"), "VERIFIED");
    CountAppend(checked.custody, Captured(|s.items| + 1, actor, "grc"), "CAPTURED");
    hide CheckedAll, Count;
  }

  /** k snapshots over n items add k*n + k(k-1)/2 verifications and k captures: each snapshot verifies the
      reports of the ones before it, too. */
  lemma {:induction false} SnapshotAccounting(s: Store, reports: seq<string>, actor: string, hash: Hash)
    ensures var r, k, n := Snapshots(s, reports, actor, hash), |reports|, |s.items|;
      && |r.items| == n + k
      && Count(r.custody, "CAPTURED") == Count(s.custody, "CAPTURED") + k
      && Count(r.custody, "VERIFIED") == Count(s.custody, "VERIFIED") + k * n + k * (k - 1) / 2
    decreases |reports|
  {
    hide CheckedAll, Count, Snapshotted;
    if reports != [] {
      OneSnapshot(s, reports[0], actor, hash);
      SnapshotAccounting(Snapshotted(s, reports[0], actor, hash), reports[1..], actor, hash);
      Triangle(|reports|, |s.items|);
    }
  }

  lemma Triangle(k: nat, n: nat)
    requires k > 0
    ensures n + (k - 1) * (n + 1) + (k - 1) * (k - 2) / 2 == k * n + k * (k - 1) / 2
  {
    var j := k - 1;
    assert k * n == j * n + n;
    assert j * (n + 1) == j * n + j;
    assert k * j == j * (j - 1) + 2 * j;
  }
}
