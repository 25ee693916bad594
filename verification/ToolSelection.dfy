/** Selecting a provider by its tool name: built-in adapters, and the plugin adapters that take their names. */
module ToolSelection {
  import opened Common
  import opened Adapters
  import opened Plugins

  /** The last built-in with a tool name: the one its entry is made for. */
  function LastFor(builtins: seq<Adapter>, tool: string): Option<Adapter> {
    if builtins == [] then None
    else if LastFor(builtins[1..], tool).Some? then LastFor(builtins[1..], tool)
    else if builtins[0].tool == tool then Some(builtins[0])
    else None
  }

  function EntryOf(s: Slots, tool: string): Option<Adapter> {
    if tool in s.byTool then Some(s.byTool[tool]) else None
  }

  // ---- Which operations take a tool name ----

  function Later(a: Option<Adapter>, b: Option<Adapter>): Option<Adapter> { if b.Some? then b else a }

  /** The last adapter that loading the manifest registers under the tool name. */
  function TakerIn(s: Slots, descs: seq<AdapterDesc>, id: string, tool: string): Option<Adapter>
    decreases |descs|
  {
    if descs == [] then None
    else
      var d := descs[0];
      Later(if d.capability !in s.adapters && d.code.Some? && ToolName(d) == tool
              then Some(Adapter(tool, d.capability, d.code.value, Some(id))) else None,
            TakerIn(LoadDesc(s, d, id), descs[1..], id, tool))
  }

  predicate Loads(st: State, dir: Dir) {
    dir.manifest.Some? && Live(st, dir.manifest.value.id).Some? && Executable(Live(st, dir.manifest.value.id).value)
  }

  function TakerInDirs(st: State, dirs: seq<Dir>, tool: string): Option<Adapter>
    decreases |dirs|
  {
    if dirs == [] then None
    else
      Later(if Loads(st, dirs[0])
              then TakerIn(st.slots, dirs[0].manifest.value.adapters, dirs[0].manifest.value.id, tool) else None,
            TakerInDirs(LoadDir(st, dirs[0]), dirs[1..], tool))
  }

  /** The same for one operation; an installation loads a plugin that is new, approved, and may run. */
  function TakerInStep(st: State, op: Op, tool: string): Option<Adapter> {
    match op
    case OpLoadEnabled(dirs) => TakerInDirs(st, dirs, tool)
    case OpInstall(Some(m), trust, approve, dirs, taken) =>
      if m.id !in st.rows && LastManifest(dirs, m.id) == None && !taken
         && approve && ExecutableTrust(m.trust) && ExecutableTrust(trust) && "tool.execute" in m.permissions
      then TakerIn(st.slots, m.adapters, m.id, tool) else None
    case OpSetStatus(id, status, disk) =>
      var m := ManifestFor(st, id, disk);
      if status == ENABLED && Live(st, id).Some? && m.Some? && ExecutableTrust(m.value.trust)
      then TakerIn(st.slots, m.value.adapters, m.value.id, tool) else None
    case _ => None
  }

  /** The last adapter loaded under the name since the last restart. */
  function Taker(builtins: seq<Adapter>, st: State, ops: seq<Op>, tool: string, before: Option<Adapter>): Option<Adapter>
    decreases |ops|
  {
    if ops == [] then before
    else Taker(builtins, Step(builtins, st, ops[0]), ops[1..], tool, TakerAfter(st, ops[0], tool, before))
  }

  function TakerAfter(st: State, op: Op, tool: string, before: Option<Adapter>): Option<Adapter> {
    if op.Restart? then None else Later(before, TakerInStep(st, op, tool))
  }

  // ---- Tool entries over a run ----

  /** A tool's entry is its last taker, from a plugin and for a capability no built-in has, or else its built-in. */
  ghost predicate Entry(builtins: seq<Adapter>, s: Slots, tool: string, taker: Option<Adapter>) {
    && EntryOf(s, tool) == (if taker.Some? then taker else LastFor(builtins, tool))
    && (taker.Some? ==> taker.value.plugin.Some? && FirstFor(builtins, taker.value.capability) == None)
  }

  lemma {:induction false} AddBuiltinsEntry(s: Slots, builtins: seq<Adapter>, tool: string)
    ensures EntryOf(AddBuiltins(s, builtins), tool) == if LastFor(builtins, tool).Some? then LastFor(builtins, tool) else EntryOf(s, tool)
    decreases |builtins|
  {
    if builtins != [] { AddBuiltinsEntry(AddBuiltin(s, builtins[0]), builtins[1..], tool); }
  }

  /** What is built in stays registered, whatever the operations. */
  ghost predicate BuiltinsIn(builtins: seq<Adapter>, s: Slots) {
    && s.adapters.Keys == s.owners.Keys
    && forall c :: FirstFor(builtins, c).Some? ==>
         c in s.adapters && s.adapters[c] == FirstFor(builtins, c).value && s.owners[c] == None
  }

  lemma {:induction false} LoadEntry(builtins: seq<Adapter>, s: Slots, descs: seq<AdapterDesc>, id: string, tool: string,
                                     taker: Option<Adapter>)
    requires BuiltinsIn(builtins, s) && Entry(builtins, s, tool, taker)
    ensures var r := LoadDescs(s, descs, id);
      BuiltinsIn(builtins, r) && Entry(builtins, r, tool, Later(taker, TakerIn(s, descs, id, tool)))
    decreases |descs|
  {
    if descs != [] {
      var d := descs[0];
      var next := LoadDesc(s, d, id);
      var now := if d.capability !in s.adapters && d.code.Some? && ToolName(d) == tool
        then Some(Adapter(tool, d.capability, d.code.value, Some(id))) else None;
      assert BuiltinsIn(builtins, next) && Entry(builtins, next, tool, Later(taker, now));
      hide BuiltinsIn, Entry, LoadDesc, ToolName;
      LoadEntry(builtins, next, descs[1..], id, tool, Later(taker, now));
    }
  }

  lemma {:induction false} LoadDirsEntry(builtins: seq<Adapter>, st: State, dirs: seq<Dir>, tool: string, taker: Option<Adapter>)
    requires BuiltinsIn(builtins, st.slots) && Entry(builtins, st.slots, tool, taker)
    ensures var r := EnabledLoaded(st, dirs).slots;
      BuiltinsIn(builtins, r) && Entry(builtins, r, tool, Later(taker, TakerInDirs(st, dirs, tool)))
    decreases |dirs|
  {
    if dirs != [] {
      var now := if Loads(st, dirs[0])
        then TakerIn(st.slots, dirs[0].manifest.value.adapters, dirs[0].manifest.value.id, tool) else None;
      if Loads(st, dirs[0]) {
        LoadEntry(builtins, st.slots, dirs[0].manifest.value.adapters, dirs[0].manifest.value.id, tool, taker);
      }
      hide BuiltinsIn, Entry, TakerIn, LoadDescs, DescsLoad;
      LoadDirsEntry(builtins, LoadDir(st, dirs[0]), dirs[1..], tool, Later(taker, now));
    }
  }

  lemma UnloadEntry(builtins: seq<Adapter>, st: State, id: string, tool: string, taker: Option<Adapter>)
    requires BuiltinsIn(builtins, st.slots) && Entry(builtins, st.slots, tool, taker)
    ensures var r := UnloadPlugin(st, id).slots; BuiltinsIn(builtins, r) && Entry(builtins, r, tool, taker)
  {
  }

  lemma BootEntry(builtins: seq<Adapter>, rows: map<string, Row>, tool: string)
    ensures var s := Boot(builtins, rows).slots; BuiltinsIn(builtins, s) && Entry(builtins, s, tool, None)
  {
    AddBuiltinsEntry(Slots(map[], map[], map[]), builtins, tool);
    BootInv(builtins, rows);
    hide LastFor, AddBuiltins, FirstFor;
  }

  lemma StepEntry(builtins: seq<Adapter>, st: State, op: Op, tool: string, taker: Option<Adapter>)
    requires BuiltinsIn(builtins, st.slots) && Entry(builtins, st.slots, tool, taker)
    ensures var r := Step(builtins, st, op).slots;
      BuiltinsIn(builtins, r) && Entry(builtins, r, tool, TakerAfter(st, op, tool, taker))
  {
    hide BuiltinsIn, Entry, TakerIn, LoadDescs, DescsLoad, LastManifest;
    match op
    case Restart => BootEntry(builtins, st.rows, tool);
    case OpDiscover(dirs) => DiscoverKeeps(st, dirs);
    case OpLoadEnabled(dirs) => LoadDirsEntry(builtins, st, dirs, tool, taker);
    case OpInstall(source, _, _, dirs, _) =>
      DiscoverKeeps(st, dirs);
      if source.Some? {
        DiscoverRows(st, dirs, source.value.id);
        LoadEntry(builtins, st.slots, source.value.adapters, source.value.id, tool, taker);
      }
    case OpSetStatus(id, status, disk) =>
      UnloadEntry(builtins, st, id, tool, taker);
      UnloadIgnoresRows(st, id, status);
      var m := ManifestFor(st, id, disk);
      if m.Some? { LoadEntry(builtins, st.slots, m.value.adapters, m.value.id, tool, taker); }
    case OpUninstall(id) => UnloadEntry(builtins, st, id, tool, taker);
  }

  lemma UnloadIgnoresRows(st: State, id: string, status: Status)
    ensures id in st.rows ==>
      UnloadPlugin(st.(rows := st.rows[id := st.rows[id].(status := status)]), id).slots == UnloadPlugin(st, id).slots
  {
  }

  lemma {:induction false} RunEntry(builtins: seq<Adapter>, st: State, ops: seq<Op>, tool: string, taker: Option<Adapter>)
    requires BuiltinsIn(builtins, st.slots) && Entry(builtins, st.slots, tool, taker)
    ensures var r := Run(builtins, st, ops).slots;
      BuiltinsIn(builtins, r) && Entry(builtins, r, tool, Taker(builtins, st, ops, tool, taker))
    decreases |ops|
  {
    if ops != [] {
      StepEntry(builtins, st, ops[0], tool, taker);
      hide BuiltinsIn, Entry, Step, TakerAfter;
      RunEntry(builtins, Step(builtins, st, ops[0]), ops[1..], tool, TakerAfter(st, ops[0], tool, taker));
    }
  }

  // ---- Main results ----

  /** What a tool name selects for a capability that is built in, after every run from start-up: the tool's last
      built-in, if it is for that capability and no adapter loaded since the last restart took the name; the
      capability's first built-in otherwise; never an adapter of a plugin. */
  lemma Selection(builtins: seq<Adapter>, rows: map<string, Row>, ops: seq<Op>, capability: string, tool: string)
    requires FirstFor(builtins, capability).Some? && tool != ""
    ensures var start := Boot(builtins, rows);
      var own := LastFor(builtins, tool);
      Get(Run(builtins, start, ops).slots, capability, tool)
        == if Taker(builtins, start, ops, tool, None) == None && own.Some? && own.value.capability == capability then own
           else FirstFor(builtins, capability)
  {
    BootEntry(builtins, rows, tool);
    RunEntry(builtins, Boot(builtins, rows), ops, tool, None);
    hide Run, Taker, Boot;
  }

  /** "Any of them can be selected": an alternate built-in provider is selected by its tool name if and only if no
      adapter loaded since the last restart took that name. */
  lemma AlternateSelectedIff(builtins: seq<Adapter>, rows: map<string, Row>, ops: seq<Op>, b: Adapter)
    requires LastFor(builtins, b.tool) == Some(b) && b.tool != ""
    requires FirstFor(builtins, b.capability).Some? && FirstFor(builtins, b.capability) != Some(b)
    ensures var start := Boot(builtins, rows);
      Get(Run(builtins, start, ops).slots, b.capability, b.tool) == Some(b) <==> Taker(builtins, start, ops, b.tool, None) == None
  {
    Selection(builtins, rows, ops, b.capability, b.tool);
    hide Run, Taker, Boot, LastFor, FirstFor;
  }

  /** A plugin's adapter for a capability of its own, with the tool name of a built-in, replaces the tool's entry. */
  lemma NameTaken(b: Adapter, first: Adapter, permissions: set<string>)
    requires b.capability == first.capability && b.tool != first.tool && b.tool != "" && b.capability != "x"
    ensures var m := Manifest("p", LOCAL, permissions, [AdapterDesc("x", b.tool, Some(1))], true);
      var builtins, rows := [first, b], map["p" := Row(INSTALLED, LOCAL, permissions, false)];
      var ops := [OpSetStatus("p", ENABLED, Some(m))];
      && Get(Boot(builtins, rows).slots, b.capability, b.tool) == Some(b)
      && Get(Run(builtins, Boot(builtins, rows), ops).slots, b.capability, b.tool) == Some(first)
  {
    var descs := [AdapterDesc("x", b.tool, Some(1))];
    var m := Manifest("p", LOCAL, permissions, descs, true);
    var builtins, rows := [first, b], map["p" := Row(INSTALLED, LOCAL, permissions, false)];
    var ops := [OpSetStatus("p", ENABLED, Some(m))];
    var st := Boot(builtins, rows);
    assert builtins[1..] == [b] && [b][1..] == [];
    assert LastFor([b], b.tool) == Some(b) && LastFor(builtins, b.tool) == Some(b);
    assert FirstFor(builtins, b.capability) == Some(first);
    assert FirstFor([b], "x") == None;
    assert FirstFor(builtins, "x") == None;
    AddBuiltinsKeepsFirst(Slots(map[], map[], map[]), builtins, "x");
    assert TakerIn(st.slots, descs, "p", b.tool).Some?;
    assert ops[1..] == [];
    assert TakerInStep(st, ops[0], b.tool).Some?;
    assert Taker(builtins, st, ops, b.tool, None).Some?;
    assert Taker(builtins, st, [], b.tool, None) == None;
    assert Run(builtins, st, []) == st;
    Selection(builtins, rows, [], b.capability, b.tool);
    Selection(builtins, rows, ops, b.capability, b.tool);
  }

  /** Which runs end with a leftover tool entry: those in which the last adapter loaded under the name since the last
      restart is for the capability and from a plugin that may not run any more, while the capability's owner, if it
      has one, may. */
  lemma LeftoverIff(builtins: seq<Adapter>, rows: map<string, Row>, ops: seq<Op>, capability: string, tool: string)
    requires forall a :: a in builtins ==> a.plugin == None
    ensures var start := Boot(builtins, rows);
      var end, a := Run(builtins, start, ops), Taker(builtins, start, ops, tool, None);
      Leftover(end, capability, tool) <==>
        && tool != "" && a.Some? && a.value.capability == capability
        && a.value.plugin.Some? && !Runnable(end, a.value.plugin.value)
        && (OwnerOf(end.slots, capability).Some? ==> Runnable(end, OwnerOf(end.slots, capability).value))
  {
    BootEntry(builtins, rows, tool);
    RunEntry(builtins, Boot(builtins, rows), ops, tool, None);
    LastIsBuiltin(builtins, tool);
    hide Run, Taker, Boot, LastFor, FirstFor, BuiltinsIn, Runnable;
  }

  lemma LastIsBuiltin(builtins: seq<Adapter>, tool: string)
    ensures LastFor(builtins, tool).Some? ==> LastFor(builtins, tool).value in builtins
  {
  }

  /** A run that only loads what may run, with restarts in between, leaves none. */
  lemma {:induction false} LoadingLeavesNone(builtins: seq<Adapter>, rows: map<string, Row>, ops: seq<Op>, capability: string, tool: string)
    requires forall a :: a in builtins ==> a.plugin == None
    requires forall i :: 0 <= i < |ops| ==> ops[i].OpLoadEnabled? || ops[i].Restart?
    ensures !Leftover(Run(builtins, Boot(builtins, rows), ops), capability, tool)
  {
    LeftoverIff(builtins, rows, ops, capability, tool);
    TakerRuns(builtins, Boot(builtins, rows), ops, tool, None);
  }

  lemma {:induction false} TakerRuns(builtins: seq<Adapter>, st: State, ops: seq<Op>, tool: string, before: Option<Adapter>)
    requires forall i :: 0 <= i < |ops| ==> ops[i].OpLoadEnabled? || ops[i].Restart?
    requires before.Some? ==> before.value.plugin.Some? && Runnable(st, before.value.plugin.value)
    ensures var end, a := Run(builtins, st, ops), Taker(builtins, st, ops, tool, before);
      a.Some? ==> a.value.plugin.Some? && Runnable(end, a.value.plugin.value)
    decreases |ops|
  {
    if ops != [] {
      var next := Step(builtins, st, ops[0]);
      assert next.rows == st.rows by { if ops[0].OpLoadEnabled? { LoadEnabledRows(st, ops[0].dirs); } }
      if ops[0].OpLoadEnabled? { DirsTakerRuns(st, ops[0].dirs, tool); }
      hide Step, TakerInDirs, Executable;
      assert forall i :: 0 <= i < |ops| - 1 ==> ops[1..][i] == ops[i + 1];
      TakerRuns(builtins, next, ops[1..], tool, TakerAfter(st, ops[0], tool, before));
    }
  }

  lemma {:induction false} DirsTakerRuns(st: State, dirs: seq<Dir>, tool: string)
    ensures var a := TakerInDirs(st, dirs, tool);
      a.Some? ==> a.value.plugin.Some? && Runnable(st, a.value.plugin.value)
    decreases |dirs|
  {
    if dirs != [] {
      if Loads(st, dirs[0]) { TakerFrom(st.slots, dirs[0].manifest.value.adapters, dirs[0].manifest.value.id, tool); }
      hide TakerIn, LoadDescs, DescsLoad;
      DirsTakerRuns(LoadDir(st, dirs[0]), dirs[1..], tool);
    }
  }

  lemma {:induction false} TakerFrom(s: Slots, descs: seq<AdapterDesc>, id: string, tool: string)
    ensures TakerIn(s, descs, id, tool).Some? ==> TakerIn(s, descs, id, tool).value.plugin == Some(id)
    decreases |descs|
  {
    if descs != [] { TakerFrom(LoadDesc(s, descs[0], id), descs[1..], id, tool); }
  }
}
