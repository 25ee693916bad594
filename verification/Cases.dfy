/** Cases: status, linked findings and notes on one side, the timeline of events on the other. */
module Cases {
  import opened Common
  import opened Text

  const VALID_STATUS := {"open", "in_progress", "resolved", "closed"}
  const VALID_SEVERITY := {"info", "low", "medium", "high", "critical"}

  /** The event type together with what its details text says. */
  datatype What =
    | Created(title: string)
    | FindingLinked(finding: int)
    | StatusSet(status: string)
    | Reopened(reason: string)
    | NoteAdded

  datatype Event = Event(caseId: nat, what: What, actor: string)

  datatype CaseRow = CaseRow(title: string, severity: string, status: string, owner: string)

  datatype Note = Note(caseId: nat, author: string, content: string)

  /** A case's id is its position plus one. */
  datatype State = State(cases: seq<CaseRow>, links: set<(nat, int)>, notes: seq<Note>, events: seq<Event>)

  predicate Known(s: State, id: nat) { 1 <= id <= |s.cases| }

  function WithStatus(s: State, id: nat, status: string): seq<CaseRow>
    requires Known(s, id)
  {
    s.cases[id - 1 := s.cases[id - 1].(status := status)]
  }

  function Log(s: State, id: nat, what: What, actor: string): State {
    s.(events := s.events + [Event(id, what, actor)])
  }

  /** `stored` says whether the finding exists at that moment. */
  datatype Op =
    | Create(title: string, severity: string, owner: string)
    | AddFinding(id: nat, finding: int, actor: string, stored: bool)
    | SetStatus(id: nat, status: string, actor: string)
    | Reopen(id: nat, reason: string, actor: string)
    | AddNote(id: nat, content: string, author: string)

  /** Whether the service carries the operation out. */
  predicate Accepted(s: State, op: Op) {
    match op
    case Create(title, severity, _) => !Blank(title) && severity in VALID_SEVERITY
    case AddFinding(id, _, _, stored) => Known(s, id) && stored
    case SetStatus(id, status, _) => status in VALID_STATUS && Known(s, id)
    case Reopen(id, _, _) => Known(s, id)
    case AddNote(id, content, _) => Known(s, id) && !Blank(content)
  }

  /** A rejected operation changes nothing. */
  function Step(s: State, op: Op): State {
    if !Accepted(s, op) then s
    else
      match op
      case Create(title, severity, owner) =>
        Log(s.(cases := s.cases + [CaseRow(Strip(title), severity, "open", owner)]), |s.cases| + 1, Created(Strip(title)), owner)
      case AddFinding(id, finding, actor, _) =>
        Log(s.(links := s.links + {(id, finding)}), id, FindingLinked(finding), actor)
      case SetStatus(id, status, actor) =>
        Log(s.(cases := WithStatus(s, id, status)), id, StatusSet(status), actor)
      case Reopen(id, reason, actor) =>
        Log(s.(cases := WithStatus(s, id, "open")), id, Reopened(if reason != "" then reason else "reopened"), actor)
      case AddNote(id, content, author) =>
        Log(s.(notes := s.notes + [Note(id, author, Strip(content))]), id, NoteAdded, author)
  }

  function Run(s: State, ops: seq<Op>): State
    decreases |ops|
  {
    if ops == [] then s else Run(Step(s, ops[0]), ops[1..])
  }

  const EMPTY := State([], {}, [], [])

  class CaseService {
    var cases: seq<CaseRow>
    var links: set<(nat, int)>
    var notes: seq<Note>
    var events: seq<Event>

    constructor ()
      ensures Contents() == EMPTY
    {
      cases, links, notes, events := [], {}, [], [];
    }

    function Contents(): State
      reads this
    {
      State(cases, links, notes, events)
    }

    method RecordEvent(id: nat, what: What, actor: string)
      modifies this`events
      ensures Contents() == Log(old(Contents()), id, what, actor)
      ensures events == old(events) + [Event(id, what, actor)]
    {
      events := events + [Event(id, what, actor)];
    }

    method CreateCase(title: string, severity: string, owner: string) returns (r: Result<nat>)
      modifies this
      ensures Contents() == Step(old(Contents()), Create(title, severity, owner))
      ensures r.Ok? <==> Accepted(old(Contents()), Create(title, severity, owner))
      ensures r.Ok? <==>
        && Strip(title) != ""
        && (severity == "info" || severity == "low" || severity == "medium" || severity == "high" || severity == "critical")
      ensures r.Err? ==> Contents() == old(Contents())
      ensures r.Ok? ==>
        && r.value == |cases| && cases == old(cases) + [CaseRow(Strip(title), severity, "open", owner)]
        && events == old(events) + [Event(r.value, Created(Strip(title)), owner)]
        && links == old(links) && notes == old(notes)
    {
      if title == "" || Strip(title) == "" { return Err("Case title must not be empty"); }
      if severity !in VALID_SEVERITY { return Err("Invalid severity"); }
      cases := cases + [CaseRow(Strip(title), severity, "open", owner)];
      RecordEvent(|cases|, Created(Strip(title)), owner);
      return Ok(|cases|);
    }

    method LinkFinding(id: nat, finding: int, actor: string, stored: bool) returns (ok: bool)
      modifies this
      ensures Contents() == Step(old(Contents()), AddFinding(id, finding, actor, stored))
      ensures ok <==> Accepted(old(Contents()), AddFinding(id, finding, actor, stored))
      ensures ok <==> 1 <= id <= |old(cases)| && stored
      ensures !ok ==> Contents() == old(Contents())
      ensures ok ==>
        && links == old(links) + {(id, finding)} && events == old(events) + [Event(id, FindingLinked(finding), actor)]
        && cases == old(cases) && notes == old(notes)
    {
      if !Known(Contents(), id) { return false; }
      if !stored { return false; }
      links := links + {(id, finding)};
      RecordEvent(id, FindingLinked(finding), actor);
      return true;
    }

    method SetCaseStatus(id: nat, status: string, actor: string) returns (ok: bool)
      modifies this
      ensures Contents() == Step(old(Contents()), SetStatus(id, status, actor))
      ensures ok <==> Accepted(old(Contents()), SetStatus(id, status, actor))
      ensures ok <==>
        && 1 <= id <= |old(cases)|
        && (status == "open" || status == "in_progress" || status == "resolved" || status == "closed")
      ensures !ok ==> Contents() == old(Contents())
      ensures ok ==>
        && cases == old(cases)[id - 1 := old(cases)[id - 1].(status := status)]
        && events == old(events) + [Event(id, StatusSet(status), actor)] && links == old(links) && notes == old(notes)
    {
      if status !in VALID_STATUS { return false; }
      if !Known(Contents(), id) { return false; }
      cases := WithStatus(Contents(), id, status);
      RecordEvent(id, StatusSet(status), actor);
      return true;
    }

    method ReopenCase(id: nat, reason: string, actor: string) returns (ok: bool)
      modifies this
      ensures Contents() == Step(old(Contents()), Reopen(id, reason, actor))
      ensures ok <==> Accepted(old(Contents()), Reopen(id, reason, actor))
      ensures ok <==> 1 <= id <= |old(cases)|
      ensures !ok ==> Contents() == old(Contents())
      ensures ok ==>
        && cases == old(cases)[id - 1 := old(cases)[id - 1].(status := "open")]
        && events == old(events) + [Event(id, Reopened(if reason == "" then "reopened" else reason), actor)]
        && links == old(links) && notes == old(notes)
    {
      if !Known(Contents(), id) { return false; }
      cases := WithStatus(Contents(), id, "open");
      RecordEvent(id, Reopened(if reason != "" then reason else "reopened"), actor);
      return true;
    }

    method WriteNote(id: nat, content: string, author: string) returns (ok: bool)
      modifies this
      ensures Contents() == Step(old(Contents()), AddNote(id, content, author))
      ensures ok <==> Accepted(old(Contents()), AddNote(id, content, author))
      ensures ok <==> 1 <= id <= |old(cases)| && Strip(content) != ""
      ensures !ok ==> Contents() == old(Contents())
      ensures ok ==>
        && notes == old(notes) + [Note(id, author, Strip(content))] && events == old(events) + [Event(id, NoteAdded, author)]
        && cases == old(cases) && links == old(links)
    {
      if !Known(Contents(), id) { return false; }
      if content == "" || Strip(content) == "" { return false; }
      notes := notes + [Note(id, author, Strip(content))];
      RecordEvent(id, NoteAdded, author);
      return true;
    }
  }

  // ---- Replaying the timeline ----

  /** The timeline of a case, oldest first. */
  function Timeline(events: seq<Event>, id: nat): seq<Event> {
    if events == [] then []
    else
      var last := events[|events|-1];
      Timeline(events[..|events|-1], id) + if last.caseId == id then [last] else []
  }

  /** The status the timeline leads to. */
  function StatusByLog(log: seq<Event>): string {
    if log == [] then ""
    else
      match log[|log|-1].what
      case Created(_) => "open"
      case Reopened(_) => "open"
      case StatusSet(status) => status
      case FindingLinked(_) => StatusByLog(log[..|log|-1])
      case NoteAdded => StatusByLog(log[..|log|-1])
  }

  function LinkedByLog(log: seq<Event>): set<int> {
    if log == [] then {}
    else LinkedByLog(log[..|log|-1]) + if log[|log|-1].what.FindingLinked? then {log[|log|-1].what.finding} else {}
  }

  function AuthorsByLog(log: seq<Event>): seq<string> {
    if log == [] then []
    else AuthorsByLog(log[..|log|-1]) + if log[|log|-1].what.NoteAdded? then [log[|log|-1].actor] else []
  }

  /** The authors of a case's notes, in order. */
  function NoteAuthors(notes: seq<Note>, id: nat): seq<string> {
    if notes == [] then []
    else NoteAuthors(notes[..|notes|-1], id) + if notes[|notes|-1].caseId == id then [notes[|notes|-1].author] else []
  }

  /** The stored state of a case is what its timeline says. */
  ghost predicate Agrees(s: State, id: nat) {
    var log := Timeline(s.events, id);
    StatusAgrees(s, id, log) && LinksAgree(s.links, id, log) && NoteAuthors(s.notes, id) == AuthorsByLog(log)
  }

  ghost predicate StatusAgrees(s: State, id: nat, log: seq<Event>) {
    if Known(s, id) then log != [] && log[0].what.Created? && s.cases[id - 1].status == StatusByLog(log)
    else log == []
  }

  ghost predicate LinksAgree(links: set<(nat, int)>, id: nat, log: seq<Event>) {
    forall f :: (id, f) in links <==> f in LinkedByLog(log)
  }

  lemma TimelineAppend(events: seq<Event>, e: Event, id: nat)
    ensures Timeline(events + [e], id) == Timeline(events, id) + if e.caseId == id then [e] else []
  {
    assert (events + [e])[..|events|] == events;
  }

  lemma LogAppend(log: seq<Event>, e: Event)
    ensures StatusByLog(log + [e]) == match e.what
      case Created(_) => "open"
      case Reopened(_) => "open"
      case StatusSet(status) => status
      case FindingLinked(_) => StatusByLog(log)
      case NoteAdded => StatusByLog(log)
    ensures LinkedByLog(log + [e]) == LinkedByLog(log) + if e.what.FindingLinked? then {e.what.finding} else {}
    ensures AuthorsByLog(log + [e]) == AuthorsByLog(log) + if e.what.NoteAdded? then [e.actor] else []
  {
    assert (log + [e])[..|log|] == log;
  }

  lemma NotesAppend(notes: seq<Note>, n: Note, id: nat)
    ensures NoteAuthors(notes + [n], id) == NoteAuthors(notes, id) + if n.caseId == id then [n.author] else []
  {
    assert (notes + [n])[..|notes|] == notes;
  }

  /** The event an accepted operation records. */
  function EventOf(s: State, op: Op): Event {
    match op
    case Create(title, _, owner) => Event(|s.cases| + 1, Created(Strip(title)), owner)
    case AddFinding(id, finding, actor, _) => Event(id, FindingLinked(finding), actor)
    case SetStatus(id, status, actor) => Event(id, StatusSet(status), actor)
    case Reopen(id, reason, actor) => Event(id, Reopened(if reason != "" then reason else "reopened"), actor)
    case AddNote(id, _, author) => Event(id, NoteAdded, author)
  }

  function LogAfter(s: State, op: Op, id: nat): seq<Event> {
    if EventOf(s, op).caseId == id then Timeline(s.events, id) + [EventOf(s, op)] else Timeline(s.events, id)
  }

  lemma StepLog(s: State, op: Op, id: nat)
    requires Accepted(s, op)
    ensures Timeline(Step(s, op).events, id) == LogAfter(s, op, id)
  {
    TimelineAppend(s.events, EventOf(s, op), id);
  }

  lemma StepStatus(s: State, op: Op, id: nat)
    requires Accepted(s, op) && StatusAgrees(s, id, Timeline(s.events, id))
    ensures StatusAgrees(Step(s, op), id, LogAfter(s, op, id))
  {
    var log, e := Timeline(s.events, id), EventOf(s, op);
    LogAppend(log, e);
    hide Timeline, StatusByLog, LinkedByLog, AuthorsByLog, Blank, Strip;
    assert log != [] ==> (log + [e])[0] == log[0];
  }

  lemma StepLinks(s: State, op: Op, id: nat)
    requires Accepted(s, op) && LinksAgree(s.links, id, Timeline(s.events, id))
    ensures LinksAgree(Step(s, op).links, id, LogAfter(s, op, id))
  {
    LogAppend(Timeline(s.events, id), EventOf(s, op));
    hide Timeline, StatusByLog, LinkedByLog, AuthorsByLog, Blank, Strip;
  }

  lemma StepNotes(s: State, op: Op, id: nat)
    requires Accepted(s, op) && NoteAuthors(s.notes, id) == AuthorsByLog(Timeline(s.events, id))
    ensures NoteAuthors(Step(s, op).notes, id) == AuthorsByLog(LogAfter(s, op, id))
  {
    LogAppend(Timeline(s.events, id), EventOf(s, op));
    if op.AddNote? { NotesAppend(s.notes, Note(op.id, op.author, Strip(op.content)), id); }
    hide Timeline, StatusByLog, LinkedByLog, AuthorsByLog, NoteAuthors, Blank, Strip;
  }

  /** One operation, seen from any case. */
  lemma StepAgrees(s: State, op: Op, id: nat)
    requires Agrees(s, id)
    ensures Agrees(Step(s, op), id)
  {
    if Accepted(s, op) {
      StepLog(s, op, id);
      StepStatus(s, op, id);
      StepLinks(s, op, id);
      StepNotes(s, op, id);
      hide Timeline, StatusAgrees, LinksAgree, Step, LogAfter;
    }
  }

  /** After any sequence of operations, rejected ones included, every case agrees with its timeline: the status is
      the one last set (created and reopened mean open), the linked findings are exactly those of its
      finding_linked events, and its notes match its note events one for one, in order. */
  lemma {:induction false} StateIsLogReplay(s: State, ops: seq<Op>, id: nat)
    requires Agrees(s, id)
    ensures Agrees(Run(s, ops), id)
    decreases |ops|
  {
    if ops != [] {
      StepAgrees(s, ops[0], id);
      StateIsLogReplay(Step(s, ops[0]), ops[1..], id);
    }
  }

  lemma FromTheBeginning(ops: seq<Op>, id: nat)
    ensures Agrees(Run(EMPTY, ops), id)
  {
    assert Timeline([], id) == [];
    StateIsLogReplay(EMPTY, ops, id);
  }

  /** Notes and events are never overwritten: later states extend earlier ones. */
  lemma {:induction false} LogsOnlyGrow(s: State, ops: seq<Op>)
    ensures var r := Run(s, ops);
      s.notes <= r.notes && s.events <= r.events && s.links <= r.links && |s.cases| <= |r.cases|
    decreases |ops|
  {
    if ops != [] { LogsOnlyGrow(Step(s, ops[0]), ops[1..]); }
  }
}
