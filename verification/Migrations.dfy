/** The migration runner: scripts applied in order in autocommit mode, killed at any statement, and retried. */
module Migrations {
  import opened Common

  /** Tables and indexes by name, with their columns. */
  type Schema = map<string, set<string>>

  datatype Stmt =
    | CreateIfAbsent(name: string, columns: set<string>)
    | IndexIfAbsent(name: string, table: string)
    | AddColumn(table: string, column: string)

  datatype File = File(version: nat, name: string, script: seq<Stmt>)

  /** `versions` is the content of `schema_migrations`, in insertion order. */
  datatype Db = Db(schema: Schema, versions: seq<nat>)

  const EMPTY := Db(map[], [])

  function Exec(schema: Schema, stmt: Stmt): Option<Schema> {
    match stmt
    case CreateIfAbsent(name, columns) =>
      Some(if name in schema then schema else schema[name := columns])
    case IndexIfAbsent(name, table) =>
      if table !in schema then None
      else Some(if name in schema then schema else schema[name := {}])
    case AddColumn(table, column) =>
      if table !in schema || column in schema[table] then None
      else Some(schema[table := schema[table] + {column}])
  }

  /** What SQLite does with the statements: creating is refused only for an index without its table and never touches
      what exists; ADD COLUMN is refused without the table or with the column, and adds just that column. */
  lemma StatementEffects(schema: Schema, stmt: Stmt)
    ensures Exec(schema, stmt) == None <==>
      || (stmt.IndexIfAbsent? && stmt.table !in schema)
      || (stmt.AddColumn? && (stmt.table !in schema || stmt.column in schema[stmt.table]))
    ensures Exec(schema, stmt).Some? ==>
      var after := Exec(schema, stmt).value;
      && (forall t :: t in schema ==> t in after && schema[t] <= after[t])
      && (forall t, c :: t in after && c in after[t] && !(t in schema && c in schema[t]) ==>
            || (stmt.CreateIfAbsent? && t == stmt.name && t !in schema && c in stmt.columns)
            || (stmt.AddColumn? && t == stmt.table && c == stmt.column))
      && (stmt.CreateIfAbsent? && stmt.name !in schema ==> stmt.name in after && after[stmt.name] == stmt.columns)
      && (stmt.AddColumn? ==> stmt.column in after[stmt.table])
      && (stmt.IndexIfAbsent? ==> stmt.name in after)
  {
  }

  /** What an attempt commits one by one: a statement of a script, or a row of `schema_migrations`. */
  datatype Step = Do(stmt: Stmt) | Record(version: nat)

  function ExecStep(db: Db, step: Step): Option<Db> {
    match step
    case Do(stmt) =>
      (match Exec(db.schema, stmt) case Some(s) => Some(db.(schema := s)) case None => None)
    case Record(v) =>
      if v in db.versions then None else Some(db.(versions := db.versions + [v]))
  }

  function Dos(script: seq<Stmt>): (r: seq<Step>)
    ensures |r| == |script|
    ensures forall i :: 0 <= i < |r| ==> r[i] == Do(script[i])
  {
    seq(|script|, i requires 0 <= i < |script| => Do(script[i]))
  }

  function Steps(files: seq<File>): seq<Step> {
    if files == [] then []
    else Dos(files[0].script) + [Record(files[0].version)] + Steps(files[1..])
  }

  function MaxOf(versions: seq<nat>): nat {
    if versions == [] then 0
    else
      var m := MaxOf(versions[1..]);
      if versions[0] > m then versions[0] else m
  }

  function Newer(files: seq<File>, current: nat): seq<File> {
    if files == [] then []
    else (if files[0].version > current then [files[0]] else []) + Newer(files[1..], current)
  }

  function Pending(files: seq<File>, db: Db): seq<File> { Newer(files, MaxOf(db.versions)) }

  datatype Status = Done | Killed | Failed

  /** Commit steps until none is left, one is refused, or the process dies after `budget` of them. */
  function Run(db: Db, steps: seq<Step>, budget: nat): (Db, Status)
    decreases |steps|
  {
    if steps == [] then (db, Done)
    else if budget == 0 then (db, Killed)
    else
      match ExecStep(db, steps[0])
      case None => (db, Failed)
      case Some(next) => Run(next, steps[1..], budget - 1)
  }

  function Attempt(files: seq<File>, db: Db, budget: nat): (Db, Status) {
    Run(db, Steps(Pending(files, db)), budget)
  }

  /** The database after a history of attempts, each with its own moment of death. */
  function History(files: seq<File>, db: Db, budgets: seq<nat>): Db
    decreases |budgets|
  {
    if budgets == [] then db
    else History(files, Attempt(files, db, budgets[0]).0, budgets[1..])
  }

  function Versions(files: seq<File>): (r: seq<nat>)
    ensures |r| == |files|
    ensures forall i :: 0 <= i < |r| ==> r[i] == files[i].version
  {
    seq(|files|, i requires 0 <= i < |files| => files[i].version)
  }

  // ---- The runner ----

  class MigrationRunner {
    const files: seq<File>
    var schema: Schema
    var versions: seq<nat>

    constructor (files: seq<File>, db: Db)
      ensures this.files == files && Contents() == db
    {
      this.files := files;
      schema, versions := db.schema, db.versions;
    }

    function Contents(): Db
      reads this
    {
      Db(schema, versions)
    }

    method CurrentVersion() returns (v: nat)
      ensures v == MaxOf(versions)
    {
      v := 0;
      var i := |versions|;
      while i > 0
        invariant 0 <= i <= |versions|
        invariant v == MaxOf(versions[i..])
      {
        i := i - 1;
        assert versions[i..][1..] == versions[i + 1..];
        if versions[i] > v { v := versions[i]; }
      }
      assert versions[0..] == versions;
    }

    /** `executescript`: the statements of one script, committed one by one. */
    method ExecuteScript(script: seq<Stmt>, budget: nat, ghost tail: seq<Step>) returns (status: Status, left: nat)
      modifies this`schema
      ensures status == Done ==> Run(old(Contents()), Dos(script) + tail, budget) == Run(Contents(), tail, left)
      ensures status != Done ==> Run(old(Contents()), Dos(script) + tail, budget) == (Contents(), status)
    {
      left := budget;
      var j := 0;
      assert script[0..] == script;
      while j < |script|
        invariant 0 <= j <= |script|
        invariant Run(Contents(), Dos(script[j..]) + tail, left) == Run(old(Contents()), Dos(script) + tail, budget)
      {
        NextStatement(script[j..], tail);
        assert script[j..][1..] == script[j + 1..];
        if left == 0 { return Killed, left; }
        var next := Exec(schema, script[j]);
        if next == None { return Failed, left; }
        schema := next.value;
        left, j := left - 1, j + 1;
      }
      assert Dos(script[j..]) + tail == tail;
      status := Done;
    }

    /** One call of `apply`, killed after `budget` commits. */
    method Apply(budget: nat) returns (status: Status, applied: seq<string>)
      modifies this
      ensures (Contents(), status) == Attempt(files, old(Contents()), budget)
      ensures status == Done ==> applied == Names(Pending(files, old(Contents())))
    {
      hide Run, Steps, Dos, Newer, ExecStep;
      applied := [];
      var current := CurrentVersion();
      var todo := Newer(files, current);
      var left, i := budget, 0;
      assert todo[0..] == todo;
      while i < |todo|
        invariant 0 <= i <= |todo|
        invariant Run(Contents(), Steps(todo[i..]), left) == Attempt(files, old(Contents()), budget)
        invariant applied == Names(todo[..i])
      {
        ghost var rest := Steps(todo[i + 1..]);
        FirstFile(todo[i..]);
        assert todo[i..][1..] == todo[i + 1..];
        status, left := ExecuteScript(todo[i].script, left, [Record(todo[i].version)] + rest);
        if status != Done { return; }
        RunRecord(Contents(), todo[i].version, rest, left);
        if left == 0 { return Killed, applied; }
        if todo[i].version in versions { return Failed, applied; }
        versions := versions + [todo[i].version];
        left := left - 1;
        applied := applied + [todo[i].name];
        assert todo[..i + 1] == todo[..i] + [todo[i]];
        i := i + 1;
      }
      assert todo[i..] == [] && todo[..i] == todo;
      RunNothing(Contents(), left);
      status := Done;
    }
  }

  lemma RunRecord(db: Db, version: nat, rest: seq<Step>, left: nat)
    ensures Run(db, [Record(version)] + rest, left)
         == if left == 0 then (db, Killed)
            else if version in db.versions then (db, Failed)
            else Run(Db(db.schema, db.versions + [version]), rest, left - 1)
  {
    assert ([Record(version)] + rest)[1..] == rest;
  }

  lemma RunNothing(db: Db, left: nat)
    ensures Run(db, Steps([]), left) == (db, Done)
  {
  }

  lemma NextStatement(script: seq<Stmt>, tail: seq<Step>)
    requires script != []
    ensures var steps := Dos(script) + tail;
      steps[0] == Do(script[0]) && steps[1..] == Dos(script[1..]) + tail
  {
  }

  function Names(files: seq<File>): (r: seq<string>)
    ensures |r| == |files|
    ensures forall i :: 0 <= i < |r| ==> r[i] == files[i].name
  {
    seq(|files|, i requires 0 <= i < |files| => files[i].name)
  }

  lemma FirstFile(files: seq<File>)
    requires files != []
    ensures Steps(files) == Dos(files[0].script) + ([Record(files[0].version)] + Steps(files[1..]))
  {
  }

  // ---- Positions in the log of a fresh installation ----

  /** The database after the first n steps of the log, if none of them is refused. */
  function After(steps: seq<Step>, n: nat): Option<Db>
    requires n <= |steps|
  {
    if n == 0 then Some(EMPTY)
    else
      match After(steps, n - 1)
      case None => None
      case Some(db) => ExecStep(db, steps[n - 1])
  }

  /** The migrations directory is sound: ascending positive versions, and a fresh installation succeeds. */
  ghost predicate Sound(files: seq<File>) {
    && (forall i :: 0 <= i < |files| ==> files[i].version > 0)
    && (forall i, j :: 0 <= i < j < |files| ==> files[i].version < files[j].version)
    && After(Steps(files), |Steps(files)|).Some?
  }

  lemma {:induction false} AfterSome(steps: seq<Step>, m: nat, n: nat)
    requires m <= n <= |steps| && After(steps, n).Some?
    ensures After(steps, m).Some?
  {
    if m < n { AfterSome(steps, m, n - 1); }
  }

  /** The first step of the script that position n is in. */
  function ScriptStart(steps: seq<Step>, n: nat): (start: nat)
    requires n <= |steps|
    ensures start <= n
    ensures forall i :: start <= i < n ==> steps[i].Do?
    ensures start > 0 ==> steps[start - 1].Record?
  {
    if n == 0 || steps[n - 1].Record? then n else ScriptStart(steps, n - 1)
  }

  lemma {:induction false} StepsSplit(files: seq<File>, k: nat)
    requires k <= |files|
    ensures Steps(files) == Steps(files[..k]) + Steps(files[k..])
    decreases k
  {
    if k == 0 {
      assert files[..0] == [] && files[0..] == files;
    } else {
      StepsSplit(files[1..], k - 1);
      FirstFile(files);
      FirstFile(files[..k]);
      assert files[1..][..k - 1] == files[..k][1..] && files[1..][k - 1..] == files[k..];
      hide Steps, Dos;
      var first := Dos(files[0].script) + [Record(files[0].version)];
      Assoc(Dos(files[0].script), [Record(files[0].version)], Steps(files[1..]));
      Assoc(Dos(files[0].script), [Record(files[0].version)], Steps(files[..k][1..]));
      Assoc(first, Steps(files[..k][1..]), Steps(files[k..]));
    }
  }

  lemma {:induction false} MaxAscending(files: seq<File>, k: nat)
    requires k <= |files|
    requires forall i, j :: 0 <= i < j < |files| ==> files[i].version < files[j].version
    ensures MaxOf(Versions(files[..k])) == if k == 0 then 0 else files[k - 1].version
    decreases k
  {
    if k > 0 {
      MaxAscending(files[1..], k - 1);
      assert Versions(files[..k])[1..] == Versions(files[1..][..k - 1]);
    }
  }

  lemma {:induction false} NewerAscending(files: seq<File>, k: nat, current: nat)
    requires k <= |files|
    requires forall i :: 0 <= i < |files| ==> (files[i].version > current <==> i >= k)
    ensures Newer(files, current) == files[k..]
    decreases |files|
  {
    if files != [] {
      if k == 0 {
        NewerAscending(files[1..], 0, current);
        assert files[0..] == [files[0]] + files[1..][0..];
      } else {
        NewerAscending(files[1..], k - 1, current);
        assert files[1..][k - 1..] == files[k..];
      }
    }
  }

  lemma RecordPosition(files: seq<File>, k: nat)
    requires k < |files|
    ensures var at := |Steps(files[..k])| + |files[k].script|;
      && at < |Steps(files)| && Steps(files)[at] == Record(files[k].version)
      && (forall i :: |Steps(files[..k])| <= i < at ==> Steps(files)[i].Do?)
      && |Steps(files[..k + 1])| == at + 1
  {
    var start, tail := |Steps(files[..k])|, Steps(files[k..]);
    StepsSplit(files, k);
    FirstFile(files[k..]);
    assert forall i :: 0 <= i < |tail| ==> Steps(files)[start + i] == tail[i];
    assert forall i :: 0 <= i < |files[k].script| ==> tail[i] == Do(files[k].script[i]);
    assert tail[|files[k].script|] == Record(files[k].version);
    forall i | start <= i < start + |files[k].script| ensures Steps(files)[i].Do? {
      assert Steps(files)[start + (i - start)] == tail[i - start];
    }
    StepsSplit(files, k + 1);
    assert files[k..][1..] == files[k + 1..];
  }

  /** A version row with only statements since the start of file k is the row of file k. */
  lemma RecordEndsScript(files: seq<File>, k: nat, at: nat)
    requires k <= |files| && |Steps(files[..k])| <= at < |Steps(files)|
    requires Steps(files)[at].Record?
    requires forall i :: |Steps(files[..k])| <= i < at ==> Steps(files)[i].Do?
    ensures k < |files| && Steps(files)[at] == Record(files[k].version)
    ensures |Steps(files[..k + 1])| == at + 1
    ensures Versions(files[..k + 1]) == Versions(files[..k]) + [files[k].version]
  {
    assert files[..|files|] == files;
    RecordPosition(files, k);
  }

  lemma {:induction false} RecordedAt(files: seq<File>, n: nat) returns (k: nat)
    requires n <= |Steps(files)| && After(Steps(files), |Steps(files)|).Some?
    ensures After(Steps(files), n).Some?
    ensures k <= |files|
    ensures After(Steps(files), n).value.versions == Versions(files[..k])
    ensures ScriptStart(Steps(files), n) == |Steps(files[..k])|
    decreases n
  {
    var steps := Steps(files);
    AfterSome(steps, n, |steps|);
    if n == 0 {
      k := 0;
    } else {
      hide Steps, Versions, Exec;
      k := RecordedAt(files, n - 1);
      if steps[n - 1].Record? {
        RecordEndsScript(files, k, n - 1);
        k := k + 1;
      }
    }
  }

  lemma PendingAfter(files: seq<File>, k: nat, db: Db)
    requires Sound(files) && k <= |files| && db.versions == Versions(files[..k])
    ensures Pending(files, db) == files[k..] && |Steps(files[..k])| <= |Steps(files)|
    ensures Steps(Pending(files, db)) == Steps(files)[|Steps(files[..k])|..]
  {
    StepsSplit(files, k);
    MaxAscending(files, k);
    NewerAscending(files, k, MaxOf(Versions(files[..k])));
  }

  /** At position n the recorded versions are those of a prefix of the files, and exactly the rest is pending. */
  lemma PositionOf(files: seq<File>, n: nat) returns (k: nat)
    requires Sound(files) && n <= |Steps(files)|
    ensures After(Steps(files), n).Some?
    ensures k <= |files|
    ensures After(Steps(files), n).value.versions == Versions(files[..k])
    ensures Steps(Pending(files, After(Steps(files), n).value)) == Steps(files)[ScriptStart(Steps(files), n)..]
    ensures Pending(files, After(Steps(files), n).value) == files[k..]
    ensures ScriptStart(Steps(files), n) == |Steps(files[..k])|
  {
    k := RecordedAt(files, n);
    PendingAfter(files, k, After(Steps(files), n).value);
  }

  // ---- Replaying a script that was interrupted ----

  predicate Grown(s: Schema, t: Schema) {
    forall x :: x in s ==> x in t && s[x] <= t[x]
  }

  lemma {:induction false} SchemaGrows(steps: seq<Step>, m: nat, n: nat)
    requires m <= n <= |steps| && After(steps, n).Some?
    ensures After(steps, m).Some?
    ensures Grown(After(steps, m).value.schema, After(steps, n).value.schema)
  {
    if m < n { SchemaGrows(steps, m, n - 1); }
  }

  predicate Replayable(step: Step) { step.Do? && !step.stmt.AddColumn? }

  /** Re-executing a statement that already ran: "if absent" does nothing, "add column" is refused. */
  lemma ReplayStep(steps: seq<Step>, i: nat, n: nat)
    requires i < n <= |steps| && After(steps, n).Some? && steps[i].Do?
    ensures var db := After(steps, n).value;
      ExecStep(db, steps[i]) == if Replayable(steps[i]) then Some(db) else None
  {
    SchemaGrows(steps, i, n);
    SchemaGrows(steps, i + 1, n);
  }

  lemma {:induction false} RunTail(steps: seq<Step>, n: nat, budget: nat) returns (m: nat)
    requires n <= |steps| && After(steps, |steps|).Some?
    ensures n <= m <= |steps| && After(steps, m).Some? && After(steps, n).Some?
    ensures Run(After(steps, n).value, steps[n..], budget)
         == (After(steps, m).value, if m == |steps| then Done else Killed)
    ensures m == if budget < |steps| - n then n + budget else |steps|
    decreases |steps| - n
  {
    hide *;
    AfterSome(steps, n, |steps|);
    var db := After(steps, n).value;
    if n == |steps| || budget == 0 {
      RunEnd(db, steps, n, budget);
      m := n;
    } else {
      AfterNext(steps, n);
      RunStep(db, steps, n, budget);
      m := RunTail(steps, n + 1, budget - 1);
    }
  }

  lemma RunEnd(db: Db, steps: seq<Step>, n: nat, budget: nat)
    requires n <= |steps| && (n == |steps| || budget == 0)
    ensures Run(db, steps[n..], budget) == (db, if n == |steps| then Done else Killed)
  {
  }

  lemma AfterNext(steps: seq<Step>, n: nat)
    requires n < |steps| && After(steps, |steps|).Some?
    ensures After(steps, n).Some? && After(steps, n + 1).Some?
    ensures After(steps, n + 1) == ExecStep(After(steps, n).value, steps[n])
  {
    AfterSome(steps, n, |steps|);
    AfterSome(steps, n + 1, |steps|);
  }

  ghost predicate AllReplayable(steps: seq<Step>, i: nat, n: nat)
    requires n <= |steps|
  {
    forall j :: i <= j < n ==> Replayable(steps[j])
  }

  lemma RunStep(db: Db, steps: seq<Step>, i: nat, budget: nat)
    requires i < |steps| && budget > 0
    ensures Run(db, steps[i..], budget) ==
      match ExecStep(db, steps[i])
      case None => (db, Failed)
      case Some(next) => Run(next, steps[i + 1..], budget - 1)
  {
    assert steps[i..][1..] == steps[i + 1..];
  }

  /** From position n, redoing the script from step i. */
  lemma {:induction false} Replay(steps: seq<Step>, i: nat, n: nat, budget: nat) returns (m: nat)
    requires i <= n <= |steps| && After(steps, |steps|).Some?
    requires forall j :: i <= j < n ==> steps[j].Do?
    ensures n <= m <= |steps| && After(steps, m).Some? && After(steps, n).Some?
    ensures var (db, status) := Run(After(steps, n).value, steps[i..], budget);
      && db == After(steps, m).value
      && (status == Done ==> m == |steps| && AllReplayable(steps, i, n))
      && (AllReplayable(steps, i, n) && budget >= |steps| - i ==> status == Done)
      && (!AllReplayable(steps, i, n) ==> m == n)
      && (!AllReplayable(steps, i, n) && budget >= |steps| - i ==> status == Failed)
    decreases n - i
  {
    hide *;
    AfterSome(steps, n, |steps|);
    AllReplayableFrom(steps, i, n);
    if i == n {
      m := RunTail(steps, n, budget);
    } else if budget == 0 {
      RunEnd(After(steps, n).value, steps, i, budget);
      m := n;
    } else {
      ReplayStep(steps, i, n);
      RunStep(After(steps, n).value, steps, i, budget);
      if Replayable(steps[i]) { m := Replay(steps, i + 1, n, budget - 1); } else { m := n; }
    }
  }

  lemma AllReplayableFrom(steps: seq<Step>, i: nat, n: nat)
    requires i <= n <= |steps|
    ensures AllReplayable(steps, i, n) <==> (i < n ==> Replayable(steps[i]) && AllReplayable(steps, i + 1, n))
  {
    hide Replayable;
  }

  // ---- Main results ----

  ghost predicate At(files: seq<File>, db: Db, n: nat) {
    n <= |Steps(files)| && After(Steps(files), n) == Some(db)
  }

  /** The database is that of a fresh installation stopped somewhere. */
  ghost predicate Consistent(files: seq<File>, db: Db) { exists n :: At(files, db, n) }

  /** No statement committed since the last version row was an ADD COLUMN. */
  ghost predicate Resumable(files: seq<File>, n: nat)
    requires n <= |Steps(files)|
  {
    AllReplayable(Steps(files), ScriptStart(Steps(files), n), n)
  }

  /** Wherever an attempt dies or fails, it leaves a point of the fresh installation, never an earlier one. */
  lemma AttemptMovesForward(files: seq<File>, db: Db, n: nat, budget: nat) returns (m: nat)
    requires Sound(files) && At(files, db, n)
    ensures n <= m && At(files, Attempt(files, db, budget).0, m)
    ensures !Resumable(files, n) ==> m == n && Attempt(files, db, budget).1 != Done
  {
    var k := PositionOf(files, n);
    m := Replay(Steps(files), ScriptStart(Steps(files), n), n, budget);
  }

  /** Safety over whole histories: the recorded versions are always a duplicate-free prefix of the files. */
  lemma {:induction false} HistoryIsConsistent(files: seq<File>, db: Db, budgets: seq<nat>)
    requires Sound(files) && Consistent(files, db)
    ensures var end := History(files, db, budgets);
      Consistent(files, end) && (exists k :: 0 <= k <= |files| && end.versions == Versions(files[..k]))
    decreases |budgets|
  {
    var n :| At(files, db, n);
    if budgets == [] {
      var k := PositionOf(files, n);
    } else {
      var m := AttemptMovesForward(files, db, n, budgets[0]);
      HistoryIsConsistent(files, Attempt(files, db, budgets[0]).0, budgets[1..]);
    }
  }

  /** An undisturbed attempt completes the installation if and only if no ADD COLUMN of the interrupted
      script was already committed; it then leaves exactly the freshly installed database. */
  lemma ResumesIff(files: seq<File>, db: Db, n: nat, budget: nat)
    requires Sound(files) && At(files, db, n) && budget >= |Steps(files)|
    ensures Attempt(files, db, budget).1 == Done <==> Resumable(files, n)
    ensures Resumable(files, n) ==>
      var end := Attempt(files, db, budget).0;
      && After(Steps(files), |Steps(files)|) == Some(end)
      && end == Attempt(files, EMPTY, budget).0
      && end.versions == Versions(files)
      && Pending(files, end) == []
    ensures !Resumable(files, n) ==> Attempt(files, db, budget) == (db, Failed)
  {
    var steps := Steps(files);
    var k := PositionOf(files, n);
    var m := Replay(steps, ScriptStart(steps, n), n, budget);
    var k0 := PositionOf(files, 0);
    var m0 := Replay(steps, 0, 0, budget);
    assert steps[0..] == steps;
    LastPosition(files);
  }

  lemma LastPosition(files: seq<File>)
    requires Sound(files)
    ensures var end := After(Steps(files), |Steps(files)|).value;
      end.versions == Versions(files) && Pending(files, end) == []
  {
    var k := PositionOf(files, |Steps(files)|);
    if k < |files| {
      RecordPosition(files, k);
      assert false;
    }
    assert files[..k] == files;
  }

  /** The statement would be refused. */
  predicate Blocked(schema: Schema, stmt: Stmt) {
    stmt.AddColumn? && stmt.table in schema && stmt.column in schema[stmt.table]
  }

  /** No ADD COLUMN of the first pending file names a column that is already there. */
  predicate Unblocked(files: seq<File>, db: Db) {
    var todo := Pending(files, db);
    todo != [] ==> forall i :: 0 <= i < |todo[0].script| ==> !Blocked(db.schema, todo[0].script[i])
  }

  /** A committed ADD COLUMN is blocked from then on, and one still to come is not yet. */
  lemma BlockedIffCommitted(steps: seq<Step>, n: nat, i: nat)
    requires n <= |steps| && i < |steps| && After(steps, |steps|).Some? && steps[i].Do? && steps[i].stmt.AddColumn?
    ensures After(steps, n).Some?
    ensures Blocked(After(steps, n).value.schema, steps[i].stmt) <==> i < n
  {
    AfterSome(steps, n, |steps|);
    AfterSome(steps, i, |steps|);
    AfterSome(steps, i + 1, |steps|);
    if i < n { SchemaGrows(steps, i + 1, n); } else { SchemaGrows(steps, n, i); }
  }

  lemma FirstPending(files: seq<File>, k: nat, i: nat)
    requires k < |files| && i < |files[k].script|
    ensures |Steps(files[..k])| + i < |Steps(files)| && Steps(files)[|Steps(files[..k])| + i] == Do(files[k].script[i])
  {
    StepsSplit(files, k);
    FirstFile(files[k..]);
    hide Steps;
    assert Dos(files[k].script)[i] == Do(files[k].script[i]);
  }

  /** Whether an interrupted installation can be resumed can be read off the database and the files. */
  lemma ResumableIffUnblocked(files: seq<File>, db: Db, n: nat)
    requires Sound(files) && At(files, db, n)
    ensures Resumable(files, n) <==> Unblocked(files, db)
  {
    var k := PositionOf(files, n);
    if k < |files| {
      var start, script := ScriptStart(Steps(files), n), files[k].script;
      assert Unblocked(files, db) <==> forall i :: 0 <= i < |script| ==> !Blocked(db.schema, script[i]);
      NotPastScript(files, k, n);
      hide *;
      forall i | 0 <= i < |script|
        ensures start + i < |Steps(files)| && Steps(files)[start + i] == Do(script[i])
        ensures Blocked(db.schema, script[i]) <==> script[i].AddColumn? && start + i < n
      {
        FirstPending(files, k, i);
        BlockedIff(files, db, n, start + i);
      }
      ScriptBlocked(Steps(files), db.schema, script, start, n);
      ResumableIs(files, n);
    } else {
      assert files[..k] == files;
    }
  }

  lemma ResumableIs(files: seq<File>, n: nat)
    requires n <= |Steps(files)|
    ensures Resumable(files, n) <==> AllReplayable(Steps(files), ScriptStart(Steps(files), n), n)
  {
  }

  /** A position stays within the script it is in. */
  lemma NotPastScript(files: seq<File>, k: nat, n: nat)
    requires k < |files| && n <= |Steps(files)| && ScriptStart(Steps(files), n) == |Steps(files[..k])|
    ensures n <= ScriptStart(Steps(files), n) + |files[k].script|
  {
    RecordPosition(files, k);
    hide Steps;
  }

  lemma BlockedIff(files: seq<File>, db: Db, n: nat, i: nat)
    requires Sound(files) && At(files, db, n) && i < |Steps(files)| && Steps(files)[i].Do?
    ensures Blocked(db.schema, Steps(files)[i].stmt) <==> Steps(files)[i].stmt.AddColumn? && i < n
  {
    OnlyAddsBlock(db.schema, Steps(files)[i].stmt);
    hide After, Blocked, Steps;
    if Steps(files)[i].stmt.AddColumn? { BlockedIffCommitted(Steps(files), n, i); }
  }

  lemma ScriptBlocked(steps: seq<Step>, schema: Schema, script: seq<Stmt>, start: nat, n: nat)
    requires start <= n <= |steps| && n <= start + |script|
    requires forall i :: 0 <= i < |script| ==> start + i < |steps| && steps[start + i] == Do(script[i])
    requires forall i :: 0 <= i < |script| ==> (Blocked(schema, script[i]) <==> script[i].AddColumn? && start + i < n)
    ensures AllReplayable(steps, start, n) <==> forall i :: 0 <= i < |script| ==> !Blocked(schema, script[i])
  {
    hide Blocked;
    if forall i :: 0 <= i < |script| ==> !Blocked(schema, script[i]) {
      forall j | start <= j < n ensures Replayable(steps[j]) { assert steps[start + (j - start)] == Do(script[j - start]); }
    }
    if AllReplayable(steps, start, n) {
      forall i | 0 <= i < |script| ensures !Blocked(schema, script[i]) {
        if start + i < n { assert Replayable(steps[start + i]); }
      }
    }
  }

  lemma OnlyAddsBlock(schema: Schema, stmt: Stmt)
    ensures Blocked(schema, stmt) ==> stmt.AddColumn?
  {
  }

  /** The same, for any database that a history of attempts can leave. */
  lemma ResumesIffUnblocked(files: seq<File>, db: Db, budget: nat)
    requires Sound(files) && Consistent(files, db) && budget >= |Steps(files)|
    ensures Attempt(files, db, budget).1 == Done <==> Unblocked(files, db)
  {
    var n :| At(files, db, n);
    ResumesIff(files, db, n, budget);
    ResumableIffUnblocked(files, db, n);
  }

  /** Once an ADD COLUMN of an unrecorded script is committed, no later history changes the database. */
  lemma {:induction false} StuckForever(files: seq<File>, db: Db, n: nat, budgets: seq<nat>)
    requires Sound(files) && At(files, db, n) && !Resumable(files, n)
    ensures History(files, db, budgets) == db
    decreases |budgets|
  {
    if budgets != [] {
      var m := AttemptMovesForward(files, db, n, budgets[0]);
      StuckForever(files, db, n, budgets[1..]);
    }
  }

  predicate OnlyIfAbsent(files: seq<File>) {
    forall i, j :: 0 <= i < |files| && 0 <= j < |files[i].script| ==> !files[i].script[j].AddColumn?
  }

  lemma {:induction false} OnlyIfAbsentSteps(files: seq<File>)
    requires OnlyIfAbsent(files)
    ensures forall i :: 0 <= i < |Steps(files)| ==> Steps(files)[i].Do? ==> Replayable(Steps(files)[i])
    decreases |files|
  {
    if files != [] { OnlyIfAbsentSteps(files[1..]); }
  }

  /** What the comment in `apply` promises, where its "all DDL uses IF NOT EXISTS" is true: after any history
      the next undisturbed attempt completes the installation, and later ones apply nothing. */
  lemma IfAbsentScriptsAlwaysResume(files: seq<File>, budgets: seq<nat>, budget: nat)
    requires Sound(files) && OnlyIfAbsent(files) && budget >= |Steps(files)|
    ensures var db := History(files, EMPTY, budgets);
      var (end, status) := Attempt(files, db, budget);
      && status == Done
      && end == Attempt(files, EMPTY, budget).0
      && end.versions == Versions(files)
      && forall later :: Attempt(files, end, later) == (end, Done)
  {
    assert At(files, EMPTY, 0);
    HistoryIsConsistent(files, EMPTY, budgets);
    var db := History(files, EMPTY, budgets);
    var n :| At(files, db, n);
    OnlyIfAbsentSteps(files);
    ResumesIff(files, db, n, budget);
  }

  // ---- The repository's own 011_window_rules.sql ----

  const ADD_MINUTES := AddColumn("detection_rules", "window_minutes")
  const ADD_COUNT := AddColumn("detection_rules", "window_count")
  const CREATE_RULES := CreateIfAbsent("detection_rules", {"id"})
  const WINDOW_FILES := [File(7, "007_soc.sql", [CREATE_RULES]),
                         File(11, "011_window_rules.sql", [ADD_MINUTES, ADD_COUNT])]
  const WINDOW_LOG := [Do(CREATE_RULES), Record(7), Do(ADD_MINUTES), Do(ADD_COUNT), Record(11)]

  lemma WindowLog()
    ensures Steps(WINDOW_FILES) == WINDOW_LOG
  {
    var files := WINDOW_FILES;
    assert files[1..] == [files[1]] && files[1..][1..] == [];
    assert Steps(files[1..]) == Dos([ADD_MINUTES, ADD_COUNT]) + [Record(11)] + Steps([]);
    assert Dos([ADD_MINUTES, ADD_COUNT]) == [Do(ADD_MINUTES), Do(ADD_COUNT)];
    assert Dos([CREATE_RULES]) == [Do(CREATE_RULES)];
  }

  lemma WindowSteps()
    ensures After(WINDOW_LOG, 3).Some? && After(WINDOW_LOG, 3).value.versions == [7]
    ensures After(WINDOW_LOG, 5).Some?
  {
    var s1: Schema := map["detection_rules" := {"id"}];
    var s2: Schema := s1["detection_rules" := {"id", "window_minutes"}];
    var s3: Schema := s2["detection_rules" := {"id", "window_minutes", "window_count"}];
    assert After(WINDOW_LOG, 1) == Some(Db(s1, []));
    assert [] + [7] == [7 as nat];
    assert After(WINDOW_LOG, 2) == Some(Db(s1, [7]));
    assert {"id"} + {"window_minutes"} == {"id", "window_minutes"};
    assert After(WINDOW_LOG, 3) == Some(Db(s2, [7]));
    assert {"id", "window_minutes"} + {"window_count"} == {"id", "window_minutes", "window_count"};
    assert After(WINDOW_LOG, 4) == Some(Db(s3, [7]));
  }

  /** Killed between its two statements, the script is refused on every later attempt; undisturbed, it completes. */
  lemma WindowRulesCanGetStuck(budgets: seq<nat>)
    ensures Sound(WINDOW_FILES)
    ensures Attempt(WINDOW_FILES, EMPTY, 5).1 == Done
    ensures Attempt(WINDOW_FILES, EMPTY, 3).1 == Killed
    ensures History(WINDOW_FILES, Attempt(WINDOW_FILES, EMPTY, 3).0, budgets).versions == [7]
  {
    hide After, Run, Steps, History;
    WindowLog();
    WindowSteps();
    var k := PositionOf(WINDOW_FILES, 0);
    var m := RunTail(WINDOW_LOG, 0, 3);
    var m' := RunTail(WINDOW_LOG, 0, 5);
    assert WINDOW_LOG[0..] == WINDOW_LOG;
    AtStart(WINDOW_LOG);
    assert ScriptStart(WINDOW_LOG, 3) == 2;
    assert !Replayable(WINDOW_LOG[2]);
    StuckForever(WINDOW_FILES, After(WINDOW_LOG, 3).value, 3, budgets);
  }

  lemma AtStart(steps: seq<Step>)
    ensures After(steps, 0) == Some(EMPTY) && ScriptStart(steps, 0) == 0
  {
  }
}
