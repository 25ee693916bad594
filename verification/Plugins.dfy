/** The plugin lifecycle: registry rows that survive restarts, and adapters registered while the process runs. */
module Plugins {
  import opened Common
  import opened Adapters

  datatype Status = INSTALLED | ENABLED | DISABLED | BLOCKED | UNINSTALLED

  datatype Trust = CORE_TRUSTED | VERIFIED | LOCAL | THIRD_PARTY | UNTRUSTED | TRUST_BLOCKED

  predicate ExecutableTrust(t: Trust) { t != UNTRUSTED && t != TRUST_BLOCKED }

  /** `code` is the imported adapter, or None if the module or its class cannot be loaded. */
  datatype AdapterDesc = AdapterDesc(capability: string, tool: string, code: Option<int>)

  /** A valid manifest; `parsersLoad` says whether every parser module can be imported. */
  datatype Manifest = Manifest(id: string, trust: Trust, permissions: set<string>, adapters: seq<AdapterDesc>, parsersLoad: bool)

  datatype Row = Row(status: Status, trust: Trust, permissions: set<string>, bundled: bool)

  /** A plugin directory on the search path; its manifest may be missing or invalid. */
  datatype Dir = Dir(manifest: Option<Manifest>, bundled: bool)

  datatype State = State(slots: Slots, rows: map<string, Row>, manifests: map<string, Manifest>, loaded: set<string>)

  predicate Executable(row: Row) {
    row.status == ENABLED && ExecutableTrust(row.trust) && "tool.execute" in row.permissions
  }

  /** `get`: rows of uninstalled plugins are not seen. */
  function Live(st: State, id: string): Option<Row> {
    if id in st.rows && st.rows[id].status != UNINSTALLED then Some(st.rows[id]) else None
  }

  // ---- Discovery ----

  function RowAfter(st: State, m: Manifest, bundled: bool): Row {
    if m.id in st.rows then st.rows[m.id].(trust := m.trust, permissions := m.permissions)
    else Row(if bundled then ENABLED else INSTALLED, m.trust, m.permissions, bundled)
  }

  function DiscoverDir(st: State, dir: Dir): State {
    match dir.manifest
    case None => st
    case Some(m) =>
      st.(manifests := st.manifests[m.id := m], rows := st.rows[m.id := RowAfter(st, m, dir.bundled)])
  }

  function Discovered(st: State, dirs: seq<Dir>): State
    decreases |dirs|
  {
    if dirs == [] then st else Discovered(DiscoverDir(st, dirs[0]), dirs[1..])
  }

  // ---- Loading and unloading ----

  function ToolName(d: AdapterDesc): string { if d.tool != "" then d.tool else d.capability }

  /** One adapter of a manifest: capabilities already provided are skipped, unloadable ones are not registered. */
  function LoadDesc(s: Slots, d: AdapterDesc, id: string): Slots {
    if d.capability in s.adapters || d.code == None then s
    else Registered(s, Adapter(ToolName(d), d.capability, d.code.value, Some(id)), Some(id))
  }

  function LoadDescs(s: Slots, descs: seq<AdapterDesc>, id: string): Slots
    decreases |descs|
  {
    if descs == [] then s else LoadDescs(LoadDesc(s, descs[0], id), descs[1..], id)
  }

  /** No adapter that had to be imported failed. */
  predicate DescsLoad(s: Slots, descs: seq<AdapterDesc>, id: string)
    decreases |descs|
  {
    descs == [] ||
    ((descs[0].capability in s.adapters || descs[0].code.Some?) && DescsLoad(LoadDesc(s, descs[0], id), descs[1..], id))
  }

  function PluginLoaded(st: State, m: Manifest): State {
    st.(slots := LoadDescs(st.slots, m.adapters, m.id),
        loaded := if DescsLoad(st.slots, m.adapters, m.id) && m.parsersLoad then st.loaded + {m.id} else st.loaded)
  }

  function UnloadPlugin(st: State, id: string): State {
    var owned := set c | c in st.slots.adapters && OwnerOf(st.slots, c) == Some(id);
    st.(slots := st.slots.(adapters := st.slots.adapters - owned, owners := st.slots.owners - owned),
        loaded := st.loaded - {id})
  }

  function LoadDir(st: State, dir: Dir): State {
    if dir.manifest.Some? && Live(st, dir.manifest.value.id).Some? && Executable(Live(st, dir.manifest.value.id).value)
    then PluginLoaded(st, dir.manifest.value)
    else st
  }

  function EnabledLoaded(st: State, dirs: seq<Dir>): State
    decreases |dirs|
  {
    if dirs == [] then st else EnabledLoaded(LoadDir(st, dirs[0]), dirs[1..])
  }

  // ---- Installing, enabling, uninstalling ----

  /** `source` is the manifest of the directory to install; `taken` says whether its target directory exists. */
  function Installed(st: State, source: Option<Manifest>, trust: Trust, approve: bool, dirs: seq<Dir>, taken: bool): (State, bool) {
    match source
    case None => (st, false)
    case Some(m) =>
      var found := Discovered(st, dirs);
      if m.id in found.rows || taken then (found, false)
      else
        var status := if approve && ExecutableTrust(m.trust) then ENABLED else INSTALLED;
        var row := Row(status, trust, m.permissions, false);
        var added := found.(rows := found.rows[m.id := row]);
        (if Executable(row) then PluginLoaded(added, m) else added, true)
  }

  /** The manifest that enabling a plugin goes by: the one last discovered, else the one on disk. */
  function ManifestFor(st: State, id: string, disk: Option<Manifest>): Option<Manifest> {
    if id in st.manifests then Some(st.manifests[id]) else disk
  }

  function StatusSet(st: State, id: string, status: Status, disk: Option<Manifest>): (State, bool) {
    var manifest := ManifestFor(st, id, disk);
    if Live(st, id) == None || status == INSTALLED || status == UNINSTALLED then (st, false)
    else if status == ENABLED && (manifest == None || !ExecutableTrust(manifest.value.trust)) then (st, false)
    else
      var marked := st.(rows := st.rows[id := st.rows[id].(status := status)]);
      (if status == ENABLED then PluginLoaded(marked, manifest.value) else UnloadPlugin(marked, id), true)
  }

  function Uninstalled(st: State, id: string): (State, bool) {
    if Live(st, id) == None || st.rows[id].bundled then (st, false)
    else
      var gone := UnloadPlugin(st, id);
      (gone.(rows := gone.rows[id := gone.rows[id].(status := UNINSTALLED)]), true)
  }

  // ---- The execution gate ----

  datatype Verdict = Allowed | UnknownPlugin | NotEnabled | Untrusted | NoPermission

  function Gate(st: State, capability: string): Verdict {
    var owner := OwnerOf(st.slots, capability);
    if owner == None then Allowed
    else
      match Live(st, owner.value)
      case None => UnknownPlugin
      case Some(row) =>
        if row.status != ENABLED then NotEnabled
        else if !ExecutableTrust(row.trust) then Untrusted
        else if "tool.execute" !in row.permissions then NoPermission
        else Allowed
  }

  // ---- The manager ----

  function OwnedAmong(s: Slots, capabilities: seq<string>, id: string): set<string> {
    set c | c in capabilities && OwnerOf(s, c) == Some(id)
  }

  function Minus(s: Slots, gone: set<string>): Slots { Slots(s.adapters - gone, s.byTool, s.owners - gone) }

  lemma StartsEmpty(s: Slots, id: string)
    ensures OwnedAmong(s, [], id) == {} && Minus(s, {}) == s
  {
    assert s.adapters - {} == s.adapters && s.owners - {} == s.owners;
  }

  lemma Unloaded(s: Slots, capabilities: seq<string>, id: string)
    requires forall c :: c in capabilities <==> c in s.adapters
    ensures Minus(s, OwnedAmong(s, capabilities, id)).adapters
         == s.adapters - (set c | c in s.adapters && OwnerOf(s, c) == Some(id))
    ensures Minus(s, OwnedAmong(s, capabilities, id)).owners
         == s.owners - (set c | c in s.adapters && OwnerOf(s, c) == Some(id))
    ensures Minus(s, OwnedAmong(s, capabilities, id)).byTool == s.byTool
  {
    assert OwnedAmong(s, capabilities, id) == set c | c in s.adapters && OwnerOf(s, c) == Some(id);
  }

  lemma TakenOut(s: Slots, capabilities: seq<string>, i: nat, id: string)
    requires i < |capabilities| && capabilities[i] !in capabilities[..i]
    ensures var c, gone := capabilities[i], OwnedAmong(s, capabilities[..i], id);
      && OwnerOf(Minus(s, gone), c) == OwnerOf(s, c)
      && OwnedAmong(s, capabilities[..i + 1], id) == gone + (if OwnerOf(s, c) == Some(id) then {c} else {})
      && Minus(s, gone + {c}) == Unregistered(Minus(s, gone), c)
  {
    var c, gone := capabilities[i], OwnedAmong(s, capabilities[..i], id);
    assert capabilities[..i + 1] == capabilities[..i] + [c];
    assert s.adapters - (gone + {c}) == s.adapters - gone - {c};
    assert s.owners - (gone + {c}) == s.owners - gone - {c};
  }

  lemma AllDistinct(keys: seq<string>)
    requires Ascending(keys)
    ensures forall i :: 0 <= i < |keys| ==> keys[i] !in keys[..i]
  {
  }

  // ---- What the operations do, in terms of rows, directories and slots ----

  /** The first directory on the search path with a manifest for the plugin. */
  function FirstDir(dirs: seq<Dir>, id: string): Option<Dir> {
    if dirs == [] then None
    else if dirs[0].manifest.Some? && dirs[0].manifest.value.id == id then Some(dirs[0])
    else FirstDir(dirs[1..], id)
  }

  /** The last manifest for a plugin on the search path, which its row is refreshed from. */
  function LastManifest(dirs: seq<Dir>, id: string): Option<Manifest>
    decreases |dirs|
  {
    if dirs == [] then None
    else
      var later := LastManifest(dirs[1..], id);
      if later.Some? then later
      else if dirs[0].manifest.Some? && dirs[0].manifest.value.id == id then dirs[0].manifest
      else None
  }

  /** What discovery does to a plugin's row: an existing one keeps its status, a new one is enabled only if it was
      first met in a bundled directory, and trust and permissions are those of the last manifest on the path. */
  ghost predicate Noted(before: map<string, Row>, after: map<string, Row>, dirs: seq<Dir>, id: string) {
    var m, first := LastManifest(dirs, id), FirstDir(dirs, id);
    && (m.Some? <==> first.Some?)
    && (id in after <==> id in before || m.Some?)
    && (id in before ==> after[id].status == before[id].status && after[id].bundled == before[id].bundled)
    && (id !in before && m.Some? ==>
          && after[id].bundled == first.value.bundled
          && after[id].status == if first.value.bundled then ENABLED else INSTALLED)
    && (m.Some? ==> after[id].trust == m.value.trust && after[id].permissions == m.value.permissions)
    && (m == None && id in before ==> after[id] == before[id])
  }

  lemma {:induction false} DiscoverNotes(st: State, dirs: seq<Dir>, id: string)
    ensures Noted(st.rows, Discovered(st, dirs).rows, dirs, id)
    ensures LastManifest(dirs, id).Some? ==>
      id in Discovered(st, dirs).manifests && Discovered(st, dirs).manifests[id] == LastManifest(dirs, id).value
    ensures LastManifest(dirs, id) == None ==>
      (id in Discovered(st, dirs).manifests <==> id in st.manifests)
      && (id in st.manifests ==> Discovered(st, dirs).manifests[id] == st.manifests[id])
    decreases |dirs|
  {
    if dirs != [] { DiscoverNotes(DiscoverDir(st, dirs[0]), dirs[1..], id); }
  }

  /** The row is of an enabled plugin, with a trust level that may execute and the permission to. */
  predicate MayRun(row: Row) {
    && row.status == ENABLED && "tool.execute" in row.permissions
    && (row.trust == CORE_TRUSTED || row.trust == VERIFIED || row.trust == LOCAL || row.trust == THIRD_PARTY)
  }

  lemma TrustLevels(t: Trust, row: Row)
    ensures ExecutableTrust(t) <==> t == CORE_TRUSTED || t == VERIFIED || t == LOCAL || t == THIRD_PARTY
    ensures Executable(row) <==> MayRun(row)
  {
  }

  /** The manifest's loadable adapters have the capabilities that were free, as its own; no other slot changed. */
  ghost predicate GivenBy(before: Slots, after: Slots, m: Manifest) {
    && after.adapters.Keys == after.owners.Keys
    && forall c ::
         && (c in before.adapters ==> SameSlot(before, after, c))
         && (c !in before.adapters ==> (c in after.adapters <==> Provides(m.adapters, c)))
         && (c !in before.adapters && c in after.adapters ==> after.owners[c] == Some(m.id) && after.adapters[c].capability == c)
  }

  lemma LoadGives(s: Slots, m: Manifest)
    requires s.adapters.Keys == s.owners.Keys
    ensures GivenBy(s, LoadDescs(s, m.adapters, m.id), m)
  {
    forall c: string
      ensures var r := LoadDescs(s, m.adapters, m.id);
        && r.adapters.Keys == r.owners.Keys
        && (c in s.adapters ==> SameSlot(s, r, c))
        && (c !in s.adapters ==> (c in r.adapters <==> Provides(m.adapters, c)))
        && (c !in s.adapters && c in r.adapters ==> r.owners[c] == Some(m.id) && r.adapters[c].capability == c)
    {
      LoadDescsAdds(s, m.adapters, m.id, c);
    }
    hide LoadDescs, Provides;
  }

  /** The plugin's capabilities are gone, all others and all tool entries are as they were. */
  ghost predicate TakenFrom(before: Slots, after: Slots, id: string) {
    && after.adapters.Keys == after.owners.Keys && after.byTool == before.byTool
    && forall c ::
         && (c in after.adapters <==> c in before.adapters && OwnerOf(before, c) != Some(id))
         && (c in after.adapters ==> SameSlot(before, after, c))
  }

  lemma UnloadTakes(st: State, id: string)
    requires SameKeys(st)
    ensures TakenFrom(st.slots, UnloadPlugin(st, id).slots, id)
  {
  }

  /** What was registered stays; what is new belongs to a plugin whose row may run and whose manifest provides it;
      and everything that such a plugin provides is registered. */
  ghost predicate GivenByRunning(before: Slots, after: Slots, rows: map<string, Row>, dirs: seq<Dir>) {
    && after.adapters.Keys == after.owners.Keys
    && (forall c :: c in before.adapters ==> SameSlot(before, after, c))
    && (forall c :: c in after.adapters && c !in before.adapters ==> Given(after, rows, dirs, c))
    && (forall i, c :: 0 <= i < |dirs| && Running(rows, dirs[i]) && Provides(dirs[i].manifest.value.adapters, c)
          ==> c in after.adapters)
  }

  predicate Running(rows: map<string, Row>, dir: Dir) {
    dir.manifest.Some? && dir.manifest.value.id in rows && MayRun(rows[dir.manifest.value.id])
  }

  ghost predicate Given(after: Slots, rows: map<string, Row>, dirs: seq<Dir>, c: string) {
    exists i :: 0 <= i < |dirs| && dirs[i].manifest.Some?
      && var m := dirs[i].manifest.value;
         m.id in rows && MayRun(rows[m.id]) && Provides(m.adapters, c) && c in after.owners && after.owners[c] == Some(m.id)
  }

  lemma LoadDirGives(st: State, dir: Dir)
    requires SameKeys(st)
    ensures var r := LoadDir(st, dir);
      && r.rows == st.rows && SameKeys(r)
      && if dir.manifest.Some? && dir.manifest.value.id in st.rows && MayRun(st.rows[dir.manifest.value.id])
         then GivenBy(st.slots, r.slots, dir.manifest.value) else r == st
  {
    if dir.manifest.Some? {
      LoadGives(st.slots, dir.manifest.value);
      if dir.manifest.value.id in st.rows { TrustLevels(LOCAL, st.rows[dir.manifest.value.id]); }
    }
    hide LoadDescs, DescsLoad, Provides;
  }

  lemma {:induction false} LoadEnabledGives(st: State, dirs: seq<Dir>)
    requires SameKeys(st)
    ensures GivenByRunning(st.slots, EnabledLoaded(st, dirs).slots, st.rows, dirs)
    decreases |dirs|
  {
    if dirs != [] {
      var next := LoadDir(st, dirs[0]);
      LoadDirGives(st, dirs[0]);
      hide LoadDir, MayRun, Provides, SameKeys;
      LoadEnabledGives(next, dirs[1..]);
      GivenTwice(st, next, EnabledLoaded(next, dirs[1..]), dirs);
    }
  }

  lemma GivenTwice(st: State, next: State, end: State, dirs: seq<Dir>)
    requires dirs != [] && next.rows == st.rows && SameKeys(st) && SameKeys(next)
    requires if dirs[0].manifest.Some? && dirs[0].manifest.value.id in st.rows && MayRun(st.rows[dirs[0].manifest.value.id])
             then GivenBy(st.slots, next.slots, dirs[0].manifest.value) else next == st
    requires GivenByRunning(next.slots, end.slots, st.rows, dirs[1..])
    ensures GivenByRunning(st.slots, end.slots, st.rows, dirs)
  {
    hide MayRun, Provides;
    forall c | c in end.slots.adapters && c !in st.slots.adapters ensures Given(end.slots, st.rows, dirs, c) {
      if c in next.slots.adapters {
        assert Given(end.slots, st.rows, dirs, c) by { assert dirs[0].manifest.Some?; }
      } else {
        var i :| 0 <= i < |dirs[1..]| && dirs[1..][i].manifest.Some?
          && var m := dirs[1..][i].manifest.value;
             m.id in st.rows && MayRun(st.rows[m.id]) && Provides(m.adapters, c)
             && c in end.slots.owners && end.slots.owners[c] == Some(m.id);
        assert dirs[i + 1] == dirs[1..][i];
      }
    }
    forall i, c | 0 <= i < |dirs| && Running(st.rows, dirs[i]) && Provides(dirs[i].manifest.value.adapters, c)
      ensures c in end.slots.adapters
    {
      if i > 0 { assert dirs[1..][i - 1] == dirs[i]; }
    }
  }

  lemma NotedElsewhere(before: map<string, Row>, found: map<string, Row>, after: map<string, Row>, dirs: seq<Dir>, id: string)
    requires Noted(before, found, dirs, id)
    requires (id in after <==> id in found) && (id in after ==> after[id] == found[id])
    ensures Noted(before, after, dirs, id)
  {
  }

  lemma InstallFacts(st: State, m: Manifest, trust: Trust, approve: bool, dirs: seq<Dir>, taken: bool)
    ensures var (r, ok) := Installed(st, Some(m), trust, approve, dirs, taken);
      && (ok <==> m.id !in st.rows && LastManifest(dirs, m.id) == None && !taken)
      && (forall id :: id != m.id || !ok ==> Noted(st.rows, r.rows, dirs, id))
      && (ok ==>
            m.id in r.rows
            && r.rows[m.id] == Row(if approve && ExecutableTrust(m.trust) then ENABLED else INSTALLED, trust, m.permissions, false))
      && (!ok || !MayRun(r.rows[m.id]) ==> r.slots == st.slots)
      && (ok && MayRun(r.rows[m.id]) && SameKeys(st) ==> GivenBy(st.slots, r.slots, m))
  {
    var (r, ok) := Installed(st, Some(m), trust, approve, dirs, taken);
    var found := Discovered(st, dirs);
    DiscoverKeeps(st, dirs);
    DiscoverNotes(st, dirs, m.id);
    if SameKeys(st) { LoadGives(st.slots, m); }
    forall row: Row ensures Executable(row) <==> MayRun(row) { TrustLevels(LOCAL, row); }
    forall id | id != m.id || !ok ensures Noted(st.rows, r.rows, dirs, id) {
      DiscoverNotes(st, dirs, id);
      NotedElsewhere(st.rows, found.rows, r.rows, dirs, id);
    }
    hide Noted, Discovered, Executable, MayRun, ExecutableTrust, LoadDescs, DescsLoad, LastManifest, FirstDir, GivenBy;
  }

  lemma SetStatusFacts(st: State, id: string, status: Status, disk: Option<Manifest>)
    ensures var (r, ok) := StatusSet(st, id, status, disk);
      && (ok <==>
            && id in st.rows && st.rows[id].status != UNINSTALLED && (status == ENABLED || status == DISABLED || status == BLOCKED)
            && (status == ENABLED ==>
                  var m := if id in st.manifests then Some(st.manifests[id]) else disk;
                  m.Some? && ExecutableTrust(m.value.trust)))
      && (ok && SameKeys(st) ==>
            if status == ENABLED then GivenBy(st.slots, r.slots, if id in st.manifests then st.manifests[id] else disk.value)
            else TakenFrom(st.slots, r.slots, id))
  {
    if SameKeys(st) {
      if id in st.rows {
        var marked := st.(rows := st.rows[id := st.rows[id].(status := status)]);
        UnloadTakes(marked, id);
      }
      if id in st.manifests { LoadGives(st.slots, st.manifests[id]); }
      else if disk.Some? { LoadGives(st.slots, disk.value); }
    }
    hide LoadDescs, DescsLoad, GivenBy, TakenFrom, ExecutableTrust, UnloadPlugin;
  }

  class PluginManager {
    const registry: AdapterRegistry
    var rows: map<string, Row>
    var manifests: map<string, Manifest>
    var loaded: set<string>

    constructor (registry: AdapterRegistry, rows: map<string, Row>)
      ensures this.registry == registry && this.rows == rows && manifests == map[] && loaded == {}
    {
      this.registry, this.rows, manifests, loaded := registry, rows, map[], {};
    }

    function Contents(): State
      reads this, registry
    {
      State(registry.Contents(), rows, manifests, loaded)
    }

    method Discover(dirs: seq<Dir>)
      modifies this
      ensures Contents() == Discovered(old(Contents()), dirs)
      ensures registry.Contents() == old(registry.Contents()) && loaded == old(loaded)
      ensures forall id :: Noted(old(rows), rows, dirs, id)
      ensures forall id :: LastManifest(dirs, id).Some? ==> id in manifests && manifests[id] == LastManifest(dirs, id).value
    {
      ghost var before := Contents();
      forall id ensures Noted(before.rows, Discovered(before, dirs).rows, dirs, id)
        && (LastManifest(dirs, id).Some? ==>
              id in Discovered(before, dirs).manifests
              && Discovered(before, dirs).manifests[id] == LastManifest(dirs, id).value)
      {
        DiscoverNotes(before, dirs, id);
      }
      DiscoverKeeps(before, dirs);
      hide Noted, LastManifest;
      var i := 0;
      assert dirs[0..] == dirs;
      while i < |dirs|
        invariant 0 <= i <= |dirs|
        invariant Discovered(Contents(), dirs[i..]) == Discovered(old(Contents()), dirs)
      {
        assert dirs[i..][1..] == dirs[i + 1..];
        if dirs[i].manifest.Some? {
          var m := dirs[i].manifest.value;
          manifests := manifests[m.id := m];
          if m.id !in rows {
            rows := rows[m.id := Row(if dirs[i].bundled then ENABLED else INSTALLED, m.trust, m.permissions, dirs[i].bundled)];
          } else {
            rows := rows[m.id := rows[m.id].(trust := m.trust, permissions := m.permissions)];
          }
        }
        i := i + 1;
      }
    }

    method LoadPlugin(m: Manifest) returns (ok: bool)
      modifies this, registry
      ensures Contents() == PluginLoaded(old(Contents()), m)
      ensures ok <==> DescsLoad(old(registry.Contents()), m.adapters, m.id) && m.parsersLoad
      ensures old(SameKeys(Contents())) ==> GivenBy(old(registry.Contents()), registry.Contents(), m)
    {
      if SameKeys(Contents()) { LoadGives(registry.Contents(), m); }
      hide SameKeys, GivenBy;
      ok := true;
      var i := 0;
      assert m.adapters[0..] == m.adapters;
      while i < |m.adapters|
        invariant 0 <= i <= |m.adapters|
        invariant rows == old(rows) && manifests == old(manifests) && loaded == old(loaded)
        invariant LoadDescs(registry.Contents(), m.adapters[i..], m.id) == LoadDescs(old(registry.Contents()), m.adapters, m.id)
        invariant ok && DescsLoad(registry.Contents(), m.adapters[i..], m.id) <==> DescsLoad(old(registry.Contents()), m.adapters, m.id)
      {
        var d := m.adapters[i];
        assert m.adapters[i..][0] == d && m.adapters[i..][1..] == m.adapters[i + 1..];
        if d.capability !in registry.adapters {
          if d.code == None {
            ok := false;
          } else {
            registry.Register(Adapter(ToolName(d), d.capability, d.code.value, Some(m.id)), Some(m.id));
          }
        }
        i := i + 1;
      }
      if !m.parsersLoad { ok := false; }
      if ok { loaded := loaded + {m.id}; }
    }

    method UnregisterPlugin(id: string)
      modifies this, registry
      ensures Contents() == UnloadPlugin(old(Contents()), id)
      ensures old(SameKeys(Contents())) ==> TakenFrom(old(registry.Contents()), registry.Contents(), id)
    {
      if SameKeys(Contents()) { UnloadTakes(Contents(), id); }
      hide SameKeys, TakenFrom;
      var capabilities := Sorted(registry.adapters.Keys);
      ghost var before, gone: set<string> := registry.Contents(), {};
      AllDistinct(capabilities);
      hide Ascending, LexLt, OwnedAmong, Minus, Unregistered, OwnerOf;
      StartsEmpty(before, id);
      var i := 0;
      while i < |capabilities|
        invariant 0 <= i <= |capabilities|
        invariant rows == old(rows) && manifests == old(manifests) && loaded == old(loaded)
        invariant gone == OwnedAmong(before, capabilities[..i], id)
        invariant registry.Contents() == Minus(before, gone)
      {
        var c := capabilities[i];
        TakenOut(before, capabilities, i, id);
        if OwnerOf(registry.Contents(), c) == Some(id) {
          registry.Unregister(c);
          gone := gone + {c};
        }
        i := i + 1;
      }
      assert capabilities[..i] == capabilities;
      Unloaded(before, capabilities, id);
      loaded := loaded - {id};
    }

    method LoadEnabled(dirs: seq<Dir>)
      modifies this, registry
      ensures Contents() == EnabledLoaded(old(Contents()), dirs)
      ensures rows == old(rows) && manifests == old(manifests)
      ensures old(SameKeys(Contents())) ==> GivenByRunning(old(registry.Contents()), registry.Contents(), rows, dirs)
    {
      if SameKeys(Contents()) { LoadEnabledGives(Contents(), dirs); }
      LoadEnabledRows(Contents(), dirs);
      LoadEnabledKeepsManifests(Contents(), dirs);
      hide SameKeys, GivenByRunning;
      var i := 0;
      assert dirs[0..] == dirs;
      while i < |dirs|
        invariant 0 <= i <= |dirs|
        invariant EnabledLoaded(Contents(), dirs[i..]) == EnabledLoaded(old(Contents()), dirs)
      {
        assert dirs[i..][1..] == dirs[i + 1..];
        if dirs[i].manifest.Some? {
          var info := Live(Contents(), dirs[i].manifest.value.id);
          if info.Some? && Executable(info.value) {
            var ok := LoadPlugin(dirs[i].manifest.value);
          }
        }
        i := i + 1;
      }
    }

    method Install(source: Option<Manifest>, trust: Trust, approve: bool, dirs: seq<Dir>, taken: bool) returns (ok: bool)
      modifies this, registry
      ensures (Contents(), ok) == Installed(old(Contents()), source, trust, approve, dirs, taken)
      ensures source == None ==> !ok && Contents() == old(Contents())
      ensures source.Some? ==>
        var m := source.value;
        && (ok <==> m.id !in old(rows) && LastManifest(dirs, m.id) == None && !taken)
        && (forall id :: id != m.id || !ok ==> Noted(old(rows), rows, dirs, id))
        && (ok ==>
              m.id in rows
              && rows[m.id] == Row(if approve && ExecutableTrust(m.trust) then ENABLED else INSTALLED, trust, m.permissions, false))
        && (!ok || !MayRun(rows[m.id]) ==> registry.Contents() == old(registry.Contents()))
        && (ok && MayRun(rows[m.id]) && old(SameKeys(Contents())) ==> GivenBy(old(registry.Contents()), registry.Contents(), m))
    {
      if source.Some? { InstallFacts(Contents(), source.value, trust, approve, dirs, taken); }
      hide Noted, GivenBy, MayRun, SameKeys, LastManifest;
      if source == None { return false; }
      var m := source.value;
      Discover(dirs);
      if Live(Contents(), m.id).Some? || taken || m.id in rows { return false; }
      var status := if approve && ExecutableTrust(m.trust) then ENABLED else INSTALLED;
      rows := rows[m.id := Row(status, trust, m.permissions, false)];
      if Executable(rows[m.id]) { var loadedAll := LoadPlugin(m); }
      return true;
    }

    method SetStatus(id: string, status: Status, disk: Option<Manifest>) returns (ok: bool)
      modifies this, registry
      ensures (Contents(), ok) == StatusSet(old(Contents()), id, status, disk)
      ensures ok <==>
        && id in old(rows) && old(rows)[id].status != UNINSTALLED && (status == ENABLED || status == DISABLED || status == BLOCKED)
        && (status == ENABLED ==>
              var m := if id in old(manifests) then Some(old(manifests)[id]) else disk;
              m.Some? && ExecutableTrust(m.value.trust))
      ensures !ok ==> Contents() == old(Contents())
      ensures ok ==> rows == old(rows)[id := old(rows)[id].(status := status)] && manifests == old(manifests)
      ensures ok && old(SameKeys(Contents())) ==>
        if status == ENABLED then
          GivenBy(old(registry.Contents()), registry.Contents(), if id in old(manifests) then old(manifests)[id] else disk.value)
        else TakenFrom(old(registry.Contents()), registry.Contents(), id)
    {
      SetStatusFacts(Contents(), id, status, disk);
      hide GivenBy, TakenFrom, SameKeys;
      if Live(Contents(), id) == None { return false; }
      if status != ENABLED && status != DISABLED && status != BLOCKED { return false; }
      var manifest := ManifestFor(Contents(), id, disk);
      if status == ENABLED {
        if manifest == None { return false; }
        if !ExecutableTrust(manifest.value.trust) { return false; }
      }
      rows := rows[id := rows[id].(status := status)];
      if status == ENABLED {
        var loadedAll := LoadPlugin(manifest.value);
      } else {
        UnregisterPlugin(id);
      }
      return true;
    }

    method Uninstall(id: string) returns (ok: bool)
      modifies this, registry
      ensures (Contents(), ok) == Uninstalled(old(Contents()), id)
      ensures ok <==> id in old(rows) && old(rows)[id].status != UNINSTALLED && !old(rows)[id].bundled
      ensures !ok ==> Contents() == old(Contents())
      ensures ok ==> rows == old(rows)[id := old(rows)[id].(status := UNINSTALLED)] && manifests == old(manifests)
      ensures ok && old(SameKeys(Contents())) ==> TakenFrom(old(registry.Contents()), registry.Contents(), id)
    {
      if SameKeys(Contents()) { UnloadTakes(Contents(), id); }
      hide TakenFrom, SameKeys;
      if Live(Contents(), id) == None { return false; }
      if rows[id].bundled { return false; }
      UnregisterPlugin(id);
      rows := rows[id := rows[id].(status := UNINSTALLED)];
      return true;
    }
  }

  // ---- Runs ----

  datatype Op =
    | Restart
    | OpDiscover(dirs: seq<Dir>)
    | OpLoadEnabled(dirs: seq<Dir>)
    | OpInstall(source: Option<Manifest>, trust: Trust, approve: bool, dirs: seq<Dir>, taken: bool)
    | OpSetStatus(id: string, status: Status, disk: Option<Manifest>)
    | OpUninstall(id: string)

  /** A disk manifest that is consulted for a plugin carries that plugin's id. */
  predicate WellNamed(op: Op) {
    op.OpSetStatus? && op.disk.Some? ==> op.disk.value.id == op.id
  }

  function Boot(builtins: seq<Adapter>, rows: map<string, Row>): State {
    State(Fresh(builtins), rows, map[], {})
  }

  function Step(builtins: seq<Adapter>, st: State, op: Op): State {
    match op
    case Restart => Boot(builtins, st.rows)
    case OpDiscover(dirs) => Discovered(st, dirs)
    case OpLoadEnabled(dirs) => EnabledLoaded(st, dirs)
    case OpInstall(m, t, a, dirs, taken) => Installed(st, m, t, a, dirs, taken).0
    case OpSetStatus(id, s, disk) => StatusSet(st, id, s, disk).0
    case OpUninstall(id) => Uninstalled(st, id).0
  }

  function Run(builtins: seq<Adapter>, st: State, ops: seq<Op>): State
    decreases |ops|
  {
    if ops == [] then st else Run(builtins, Step(builtins, st, ops[0]), ops[1..])
  }

  // ---- The invariant ----

  ghost predicate SlotsOk(builtins: seq<Adapter>, s: Slots) {
    && s.adapters.Keys == s.owners.Keys
    && (forall c :: c in s.adapters ==> s.adapters[c].capability == c)
    && (forall c :: FirstFor(builtins, c).Some? ==>
          c in s.adapters && s.adapters[c] == FirstFor(builtins, c).value && s.owners[c] == None)
    && (forall c :: c in s.owners && s.owners[c] == None ==> FirstFor(builtins, c).Some?)
  }

  /** Every plugin that owns a capability is enabled. */
  ghost predicate OwnersEnabled(st: State) {
    forall c :: c in st.slots.owners && st.slots.owners[c].Some? ==>
      var id := st.slots.owners[c].value;
      id in st.rows && st.rows[id].status == ENABLED
  }

  ghost predicate ManifestsNamed(st: State) {
    forall id :: id in st.manifests ==> st.manifests[id].id == id
  }

  ghost predicate Inv(builtins: seq<Adapter>, st: State) {
    SlotsOk(builtins, st.slots) && OwnersEnabled(st) && ManifestsNamed(st)
  }

  lemma BootInv(builtins: seq<Adapter>, rows: map<string, Row>)
    ensures Inv(builtins, Boot(builtins, rows))
  {
    var empty := Slots(map[], map[], map[]);
    forall c: string
      ensures var s := Fresh(builtins);
        && s.adapters.Keys == s.owners.Keys
        && (c in s.adapters <==> FirstFor(builtins, c).Some?)
        && (c in s.adapters ==> s.adapters[c] == FirstFor(builtins, c).value && s.owners[c] == None)
        && (c in s.adapters ==> s.adapters[c].capability == c)
    {
      AddBuiltinsKeepsFirst(empty, builtins, c);
      FirstForCapability(builtins, c);
    }
  }

  lemma {:induction false} DiscoverKeeps(st: State, dirs: seq<Dir>)
    ensures var r := Discovered(st, dirs);
      && r.slots == st.slots && r.loaded == st.loaded
      && (forall id :: id in st.rows ==> id in r.rows && r.rows[id].status == st.rows[id].status)
      && (ManifestsNamed(st) ==> ManifestsNamed(r))
    decreases |dirs|
  {
    if dirs != [] { DiscoverKeeps(DiscoverDir(st, dirs[0]), dirs[1..]); }
  }

  predicate Provides(descs: seq<AdapterDesc>, c: string) {
    exists i :: 0 <= i < |descs| && descs[i].capability == c && descs[i].code.Some?
  }

  /** Loading adds exactly the free capabilities that the manifest can provide, and touches no other. */
  lemma {:induction false} LoadDescsAdds(s: Slots, descs: seq<AdapterDesc>, id: string, c: string)
    requires s.adapters.Keys == s.owners.Keys
    ensures var r := LoadDescs(s, descs, id);
      && r.adapters.Keys == r.owners.Keys
      && (c in s.adapters ==> c in r.adapters && r.adapters[c] == s.adapters[c] && r.owners[c] == s.owners[c])
      && (c !in s.adapters ==> (c in r.adapters <==> Provides(descs, c)))
      && (c !in s.adapters && c in r.adapters ==> r.owners[c] == Some(id) && r.adapters[c].capability == c)
    decreases |descs|
  {
    if descs != [] {
      LoadDescsAdds(LoadDesc(s, descs[0], id), descs[1..], id, c);
      assert Provides(descs, c) <==> (descs[0].capability == c && descs[0].code.Some?) || Provides(descs[1..], c) by {
        if Provides(descs, c) && !(descs[0].capability == c && descs[0].code.Some?) {
          var i :| 0 <= i < |descs| && descs[i].capability == c && descs[i].code.Some?;
          assert descs[1..][i - 1] == descs[i];
        }
        if Provides(descs[1..], c) {
          var i :| 0 <= i < |descs[1..]| && descs[1..][i].capability == c && descs[1..][i].code.Some?;
          assert descs[i + 1] == descs[1..][i];
        }
      }
    }
  }

  lemma LoadKeepsInv(builtins: seq<Adapter>, st: State, m: Manifest)
    requires Inv(builtins, st) && m.id in st.rows && st.rows[m.id].status == ENABLED
    ensures Inv(builtins, PluginLoaded(st, m))
  {
    forall c: string
      ensures var r := LoadDescs(st.slots, m.adapters, m.id);
        && r.adapters.Keys == r.owners.Keys
        && (c in st.slots.adapters ==>
              c in r.adapters && r.adapters[c] == st.slots.adapters[c] && r.owners[c] == st.slots.owners[c])
        && (c !in st.slots.adapters && c in r.adapters ==> r.owners[c] == Some(m.id) && r.adapters[c].capability == c)
    {
      LoadDescsAdds(st.slots, m.adapters, m.id, c);
    }
    hide LoadDescs, DescsLoad, FirstFor;
  }

  lemma UnloadKeepsInv(builtins: seq<Adapter>, st: State, id: string)
    requires SlotsOk(builtins, st.slots)
    ensures SlotsOk(builtins, UnloadPlugin(st, id).slots)
    ensures forall c :: c in UnloadPlugin(st, id).slots.owners ==> UnloadPlugin(st, id).slots.owners[c] != Some(id)
  {
  }

  lemma {:induction false} LoadEnabledKeepsInv(builtins: seq<Adapter>, st: State, dirs: seq<Dir>)
    requires Inv(builtins, st)
    ensures Inv(builtins, EnabledLoaded(st, dirs)) && EnabledLoaded(st, dirs).rows == st.rows
    decreases |dirs|
  {
    if dirs != [] {
      hide Inv, PluginLoaded, SlotsOk;
      var next := LoadDir(st, dirs[0]);
      assert Inv(builtins, next) && next.rows == st.rows by {
        if next != st { LoadKeepsInv(builtins, st, dirs[0].manifest.value); LoadKeepsRows(st, dirs[0].manifest.value); }
      }
      LoadEnabledKeepsInv(builtins, next, dirs[1..]);
    }
  }

  lemma LoadKeepsRows(st: State, m: Manifest)
    ensures PluginLoaded(st, m).rows == st.rows
  {
  }

  lemma InstallKeepsInv(builtins: seq<Adapter>, st: State, op: Op)
    requires Inv(builtins, st) && op.OpInstall?
    ensures Inv(builtins, Step(builtins, st, op))
  {
    hide PluginLoaded, Discovered, SlotsOk;
    DiscoverKeeps(st, op.dirs);
    if op.source.Some? {
      var m, found := op.source.value, Discovered(st, op.dirs);
      assert Inv(builtins, found);
      if m.id !in found.rows && !op.taken {
        var status := if op.approve && ExecutableTrust(m.trust) then ENABLED else INSTALLED;
        var added := found.(rows := found.rows[m.id := Row(status, op.trust, m.permissions, false)]);
        assert Inv(builtins, added);
        if Executable(added.rows[m.id]) { LoadKeepsInv(builtins, added, m); }
      }
    }
  }

  /** A plugin is enabled by a manifest that names it, or names an enabled plugin, or adds no capability. */
  ghost predicate Sane(st: State, op: Op) {
    op.OpSetStatus? && op.status == ENABLED && Live(st, op.id).Some? && ManifestFor(st, op.id, op.disk).Some? ==>
      var m := ManifestFor(st, op.id, op.disk).value;
      || !ExecutableTrust(m.trust)
      || m.id == op.id
      || (m.id in st.rows && st.rows[m.id].status == ENABLED)
      || (forall c :: Provides(m.adapters, c) ==> c in st.slots.adapters)
  }

  lemma LoadNothing(builtins: seq<Adapter>, st: State, m: Manifest)
    requires Inv(builtins, st) && forall c :: Provides(m.adapters, c) ==> c in st.slots.adapters
    ensures Inv(builtins, PluginLoaded(st, m))
  {
    forall c: string
      ensures var r := LoadDescs(st.slots, m.adapters, m.id);
        && r.adapters.Keys == r.owners.Keys
        && (c in r.adapters <==> c in st.slots.adapters)
        && (c in r.adapters ==> r.adapters[c] == st.slots.adapters[c] && r.owners[c] == st.slots.owners[c])
    {
      LoadDescsAdds(st.slots, m.adapters, m.id, c);
    }
    hide LoadDescs, DescsLoad, FirstFor, Provides;
  }

  lemma SetStatusInvIff(builtins: seq<Adapter>, st: State, op: Op)
    requires Inv(builtins, st) && op.OpSetStatus?
    ensures Inv(builtins, Step(builtins, st, op)) <==> Sane(st, op)
  {
    var (next, ok) := StatusSet(st, op.id, op.status, op.disk);
    if ok {
      var marked := st.(rows := st.rows[op.id := st.rows[op.id].(status := op.status)]);
      if op.status == ENABLED {
        assert Inv(builtins, marked);
        var m := ManifestFor(st, op.id, op.disk).value;
        hide SlotsOk, LoadDescs, DescsLoad;
        if m.id in marked.rows && marked.rows[m.id].status == ENABLED {
          LoadKeepsInv(builtins, marked, m);
        } else if forall c :: Provides(m.adapters, c) ==> c in st.slots.adapters {
          LoadNothing(builtins, marked, m);
        } else {
          var c :| Provides(m.adapters, c) && c !in st.slots.adapters;
          assert st.slots.adapters.Keys == st.slots.owners.Keys by { InvKeys(builtins, st); }
          LoadDescsAdds(st.slots, m.adapters, m.id, c);
          assert next.slots.owners[c] == Some(m.id);
        }
      } else {
        UnloadKeepsInv(builtins, marked, op.id);
      }
    }
  }

  lemma InvKeys(builtins: seq<Adapter>, st: State)
    requires Inv(builtins, st)
    ensures st.slots.adapters.Keys == st.slots.owners.Keys
  {
  }

  /** Every operation keeps the invariant, exactly when it is sane. */
  lemma StepInvIff(builtins: seq<Adapter>, st: State, op: Op)
    requires Inv(builtins, st)
    ensures Inv(builtins, Step(builtins, st, op)) <==> Sane(st, op)
  {
    match op
    case Restart => BootInv(builtins, st.rows);
    case OpDiscover(dirs) => DiscoverKeeps(st, dirs);
    case OpLoadEnabled(dirs) => LoadEnabledKeepsInv(builtins, st, dirs);
    case OpInstall(_, _, _, _, _) => InstallKeepsInv(builtins, st, op);
    case OpSetStatus(_, _, _) => SetStatusInvIff(builtins, st, op);
    case OpUninstall(id) => UnloadKeepsInv(builtins, st, id);
  }

  /** Plugin "p" is enabled by a manifest found in its directory that names "q" and provides a free capability:
      the capability then belongs to a plugin that is not enabled, and does not even have a row. */
  lemma MisnamedManifestBreaksInv(permissions: set<string>)
    ensures var m := Manifest("q", LOCAL, permissions, [AdapterDesc("x", "", Some(1))], true);
      var st := Boot([], map["p" := Row(INSTALLED, LOCAL, permissions, false)]);
      var op := OpSetStatus("p", ENABLED, Some(m));
      && Inv([], st) && !Sane(st, op) && !Inv([], Step([], st, op))
      && OwnerOf(Step([], st, op).slots, "x") == Some("q") && Gate(Step([], st, op), "x") == UnknownPlugin
  {
    var descs := [AdapterDesc("x", "", Some(1))];
    var m := Manifest("q", LOCAL, permissions, descs, true);
    var st := Boot([], map["p" := Row(INSTALLED, LOCAL, permissions, false)]);
    var op := OpSetStatus("p", ENABLED, Some(m));
    BootInv([], st.rows);
    assert st.slots == Slots(map[], map[], map[]);
    assert descs[0].capability == "x" && descs[0].code.Some?;
    assert Provides(descs, "x");
    StepInvIff([], st, op);
    LoadDescsAdds(st.slots, descs, "q", "x");
    assert "q" != "p";
  }

  // ---- Whole runs ----

  ghost predicate InvAlong(builtins: seq<Adapter>, st: State, ops: seq<Op>)
    decreases |ops|
  {
    Inv(builtins, st) && (ops != [] ==> InvAlong(builtins, Step(builtins, st, ops[0]), ops[1..]))
  }

  ghost predicate SaneRun(builtins: seq<Adapter>, st: State, ops: seq<Op>)
    decreases |ops|
  {
    ops != [] ==> Sane(st, ops[0]) && SaneRun(builtins, Step(builtins, st, ops[0]), ops[1..])
  }

  /** The invariant holds all along a run exactly when every operation of it is sane where it happens. */
  lemma {:induction false} RunKeepsInv(builtins: seq<Adapter>, st: State, ops: seq<Op>)
    requires Inv(builtins, st)
    ensures InvAlong(builtins, st, ops) <==> SaneRun(builtins, st, ops)
    ensures InvAlong(builtins, st, ops) ==> Inv(builtins, Run(builtins, st, ops))
    decreases |ops|
  {
    if ops != [] {
      hide Inv, Step, Sane;
      StepInvIff(builtins, st, ops[0]);
      if Sane(st, ops[0]) { RunKeepsInv(builtins, Step(builtins, st, ops[0]), ops[1..]); }
    }
  }

  /** From start-up, whatever the registry rows: the two maps of the registry agree, every adapter sits under its
      own capability, built-in capabilities keep their built-in adapter and have no owner, and every owner is an
      enabled plugin, all along a run, exactly when its operations are sane. */
  lemma ReachableInv(builtins: seq<Adapter>, rows: map<string, Row>, ops: seq<Op>)
    ensures InvAlong(builtins, Boot(builtins, rows), ops) <==> SaneRun(builtins, Boot(builtins, rows), ops)
  {
    BootInv(builtins, rows);
    RunKeepsInv(builtins, Boot(builtins, rows), ops);
  }

  /** When the manifest in a plugin's directory always names that plugin, every run is sane. */
  lemma {:induction false} WellNamedRun(builtins: seq<Adapter>, st: State, ops: seq<Op>)
    requires Inv(builtins, st)
    requires forall i :: 0 <= i < |ops| ==> WellNamed(ops[i])
    ensures SaneRun(builtins, st, ops) && InvAlong(builtins, st, ops) && Inv(builtins, Run(builtins, st, ops))
    decreases |ops|
  {
    if ops != [] {
      WellNamedIsSane(builtins, st, ops[0]);
      hide Inv, Step, Sane, WellNamed;
      StepInvIff(builtins, st, ops[0]);
      assert forall i :: 0 <= i < |ops| - 1 ==> ops[1..][i] == ops[i + 1];
      WellNamedRun(builtins, Step(builtins, st, ops[0]), ops[1..]);
    }
  }

  lemma WellNamedIsSane(builtins: seq<Adapter>, st: State, op: Op)
    requires Inv(builtins, st) && WellNamed(op)
    ensures Sane(st, op)
  {
  }

  // ---- Explicit approval ----

  /** No bundled directory of the search path names the plugin. */
  predicate NotBundled(dirs: seq<Dir>, id: string) {
    forall i :: 0 <= i < |dirs| && dirs[i].bundled && dirs[i].manifest.Some? ==> dirs[i].manifest.value.id != id
  }

  /** The operation approves nothing for the plugin: it meets it in no bundled directory, installs it only without
      approval, and enables neither it nor, by a manifest that names it, another plugin. */
  predicate NoApproval(op: Op, id: string) {
    match op
    case OpDiscover(dirs) => NotBundled(dirs, id)
    case OpInstall(source, _, approve, dirs, _) =>
      NotBundled(dirs, id) && (source.Some? && source.value.id == id ==> !approve)
    case OpSetStatus(x, status, disk) =>
      status == ENABLED ==> x != id && (disk.Some? ==> disk.value.id != id)
    case _ => true
  }

  ghost predicate Unapproved(st: State, id: string) {
    && (id in st.rows ==> st.rows[id].status != ENABLED)
    && (forall c :: OwnerOf(st.slots, c) != Some(id))
    && st.slots.adapters.Keys == st.slots.owners.Keys && ManifestsNamed(st)
  }

  lemma {:induction false} FirstDirIn(dirs: seq<Dir>, id: string)
    ensures FirstDir(dirs, id).Some? ==>
      exists i :: && 0 <= i < |dirs| && dirs[i] == FirstDir(dirs, id).value
                  && dirs[i].manifest.Some? && dirs[i].manifest.value.id == id
    decreases |dirs|
  {
    if dirs != [] && !(dirs[0].manifest.Some? && dirs[0].manifest.value.id == id) {
      FirstDirIn(dirs[1..], id);
      if FirstDir(dirs, id).Some? {
        var i :| 0 <= i < |dirs[1..]| && dirs[1..][i] == FirstDir(dirs[1..], id).value
          && dirs[1..][i].manifest.Some? && dirs[1..][i].manifest.value.id == id;
        assert dirs[i + 1] == dirs[1..][i];
      }
    }
  }

  lemma DiscoverUnapproved(st: State, dirs: seq<Dir>, id: string)
    requires Unapproved(st, id) && NotBundled(dirs, id)
    ensures Unapproved(Discovered(st, dirs), id)
  {
    DiscoverKeeps(st, dirs);
    DiscoverNotes(st, dirs, id);
    FirstDirIn(dirs, id);
    hide Discovered, LastManifest, FirstDir;
  }

  lemma GivenUnapproved(before: Slots, after: Slots, m: Manifest, id: string)
    requires GivenBy(before, after, m) && m.id != id && forall c :: OwnerOf(before, c) != Some(id)
    requires before.adapters.Keys == before.owners.Keys
    ensures forall c :: OwnerOf(after, c) != Some(id)
  {
    hide Provides;
    forall c ensures OwnerOf(after, c) != Some(id) {
      assert OwnerOf(before, c) != Some(id);
      if c in before.adapters { assert SameSlot(before, after, c); }
    }
  }

  lemma LoadEnabledUnapproved(st: State, dirs: seq<Dir>, id: string)
    requires Unapproved(st, id)
    ensures Unapproved(EnabledLoaded(st, dirs), id)
  {
    var r := EnabledLoaded(st, dirs);
    LoadEnabledGives(st, dirs);
    LoadEnabledRows(st, dirs);
    LoadEnabledKeepsManifests(st, dirs);
    hide Provides, EnabledLoaded;
    forall c ensures OwnerOf(r.slots, c) != Some(id) {
      assert OwnerOf(st.slots, c) != Some(id);
      if c in st.slots.adapters {
        assert SameSlot(st.slots, r.slots, c);
      } else if c in r.slots.adapters {
        assert Given(r.slots, st.rows, dirs, c);
      }
    }
  }

  lemma StepUnapproved(builtins: seq<Adapter>, st: State, op: Op, id: string)
    requires Unapproved(st, id) && NoApproval(op, id)
    ensures Unapproved(Step(builtins, st, op), id)
  {
    match op
    case Restart => BootUnowned(builtins, st.rows);
    case OpDiscover(dirs) => DiscoverUnapproved(st, dirs, id);
    case OpLoadEnabled(dirs) => LoadEnabledUnapproved(st, dirs, id);
    case OpInstall(source, trust, approve, dirs, taken) =>
      if source.Some? {
        InstallUnapproved(st, source.value, trust, approve, dirs, taken, id);
      }
    case OpSetStatus(x, status, disk) => SetStatusUnapproved(st, x, status, disk, id);
    case OpUninstall(x) => UnloadTakes(st, x);
  }

  lemma BootUnowned(builtins: seq<Adapter>, rows: map<string, Row>)
    ensures var s := Boot(builtins, rows).slots;
      s.adapters.Keys == s.owners.Keys && forall c :: OwnerOf(s, c) == None
  {
    AddBuiltinsKeepsFirst(Slots(map[], map[], map[]), builtins, "");
    forall c ensures OwnerOf(Fresh(builtins), c) == None { AddBuiltinsKeepsFirst(Slots(map[], map[], map[]), builtins, c); }
  }

  lemma {:induction false} LoadEnabledKeepsManifests(st: State, dirs: seq<Dir>)
    ensures EnabledLoaded(st, dirs).manifests == st.manifests
    decreases |dirs|
  {
    if dirs != [] { LoadEnabledKeepsManifests(LoadDir(st, dirs[0]), dirs[1..]); }
  }

  lemma InstallKeepsManifests(st: State, m: Manifest, trust: Trust, approve: bool, dirs: seq<Dir>, taken: bool)
    ensures Installed(st, Some(m), trust, approve, dirs, taken).0.manifests == Discovered(st, dirs).manifests
  {
    hide Discovered, LoadDescs, DescsLoad;
  }

  lemma InstallUnapproved(st: State, m: Manifest, trust: Trust, approve: bool, dirs: seq<Dir>, taken: bool, id: string)
    requires Unapproved(st, id) && NotBundled(dirs, id) && (m.id == id ==> !approve)
    ensures Unapproved(Installed(st, Some(m), trust, approve, dirs, taken).0, id)
  {
    var (r, ok) := Installed(st, Some(m), trust, approve, dirs, taken);
    DiscoverUnapproved(st, dirs, id);
    DiscoverKeeps(st, dirs);
    InstallFacts(st, m, trust, approve, dirs, taken);
    InstallKeepsManifests(st, m, trust, approve, dirs, taken);
    DiscoverNotes(st, dirs, id);
    hide Discovered, Installed, LastManifest, FirstDir, Provides, ExecutableTrust;
    if ok && MayRun(r.rows[m.id]) {
      assert m.id != id;
      GivenUnapproved(st.slots, r.slots, m, id);
    }
  }

  lemma SetStatusUnapproved(st: State, x: string, status: Status, disk: Option<Manifest>, id: string)
    requires Unapproved(st, id) && NoApproval(OpSetStatus(x, status, disk), id)
    ensures Unapproved(StatusSet(st, x, status, disk).0, id)
  {
    var (r, ok) := StatusSet(st, x, status, disk);
    SetStatusFacts(st, x, status, disk);
    if ok && status == ENABLED {
      GivenUnapproved(st.slots, r.slots, if x in st.manifests then st.manifests[x] else disk.value, id);
    }
    hide LoadDescs, DescsLoad, Provides, ExecutableTrust;
  }

  /** "User plugins require explicit approval to enable": from start-up over rows without the plugin, over every run
      whose operations approve nothing for it, its row is never enabled and it owns no capability. */
  lemma {:induction false} NeverWithoutApproval(builtins: seq<Adapter>, st: State, ops: seq<Op>, id: string)
    requires Unapproved(st, id) && forall i :: 0 <= i < |ops| ==> NoApproval(ops[i], id)
    ensures Unapproved(Run(builtins, st, ops), id)
    decreases |ops|
  {
    if ops != [] {
      StepUnapproved(builtins, st, ops[0], id);
      hide Unapproved, NoApproval, Step;
      assert forall i :: 0 <= i < |ops| - 1 ==> ops[1..][i] == ops[i + 1];
      NeverWithoutApproval(builtins, Step(builtins, st, ops[0]), ops[1..], id);
    }
  }

  lemma ApprovalIsNeeded(builtins: seq<Adapter>, rows: map<string, Row>, ops: seq<Op>, id: string)
    requires id !in rows && forall i :: 0 <= i < |ops| ==> NoApproval(ops[i], id)
    ensures var end := Run(builtins, Boot(builtins, rows), ops);
      && (id in end.rows ==> end.rows[id].status != ENABLED)
      && forall c :: OwnerOf(end.slots, c) != Some(id)
  {
    BootUnowned(builtins, rows);
    NeverWithoutApproval(builtins, Boot(builtins, rows), ops, id);
  }

  // ---- The gate in reachable states ----

  /** Only a lost trust level or permission can close the gate on a registered capability; the "unknown" and
      "not enabled" answers cannot occur. */
  lemma GateIff(builtins: seq<Adapter>, st: State, c: string)
    requires Inv(builtins, st)
    ensures Gate(st, c) != UnknownPlugin && Gate(st, c) != NotEnabled
    ensures FirstFor(builtins, c).Some? ==> Gate(st, c) == Allowed
    ensures c in st.slots.adapters ==>
      (Gate(st, c) == Allowed <==>
        FirstFor(builtins, c).Some? || MayRun(st.rows[st.slots.owners[c].value]))
  {
  }

  // ---- Disabling and enabling again ----

  ghost predicate SameSlot(s: Slots, t: Slots, c: string) {
    && (c in s.adapters <==> c in t.adapters) && (c in s.owners <==> c in t.owners)
    && (c in s.adapters ==> s.adapters[c] == t.adapters[c])
    && (c in s.owners ==> s.owners[c] == t.owners[c])
  }

  /** Disabling a plugin removes exactly its capabilities. Enabling it again gives it exactly those its manifest
      can provide that no one else holds; everyone else's slots are as before throughout. */
  lemma ToggleRestores(st: State, id: string, disk: Option<Manifest>, c: string)
    requires st.slots.adapters.Keys == st.slots.owners.Keys && Live(st, id).Some?
    requires ManifestFor(st, id, disk).Some? && ManifestFor(st, id, disk).value.id == id
    requires ExecutableTrust(ManifestFor(st, id, disk).value.trust)
    ensures var m := ManifestFor(st, id, disk).value;
      var off := StatusSet(st, id, DISABLED, disk).0;
      var on := StatusSet(off, id, ENABLED, disk).0;
      && (c in off.slots.adapters <==> c in st.slots.adapters && OwnerOf(st.slots, c) != Some(id))
      && (OwnerOf(on.slots, c) == Some(id) <==>
            Provides(m.adapters, c) && (c !in st.slots.adapters || OwnerOf(st.slots, c) == Some(id)))
      && (c in st.slots.adapters && OwnerOf(st.slots, c) != Some(id) ==>
            SameSlot(st.slots, off.slots, c) && SameSlot(st.slots, on.slots, c))
  {
    var m := ManifestFor(st, id, disk).value;
    var off := StatusSet(st, id, DISABLED, disk).0;
    LoadDescsAdds(off.slots, m.adapters, id, c);
  }

  // ---- Which adapter a job is given ----

  /** The scheduler's choice: look the adapter up, then ask the gate about the capability. */
  function Dispatch(st: State, capability: string, tool: string): Option<Adapter> {
    var a := Get(st.slots, capability, tool);
    if a.Some? && Gate(st, capability) == Allowed then a else None
  }

  predicate Runnable(st: State, id: string) { Live(st, id).Some? && Executable(Live(st, id).value) }

  /** A preferred adapter comes from the owner of its capability, and a tool entry carries the tool's name. */
  ghost predicate Tagged(st: State) {
    && st.slots.adapters.Keys == st.slots.owners.Keys
    && (forall c :: c in st.slots.adapters ==> st.slots.adapters[c].plugin == st.slots.owners[c])
    && (forall t :: t in st.slots.byTool ==> st.slots.byTool[t].tool == t)
  }

  lemma {:induction false} BuiltinsTagged(s: Slots, builtins: seq<Adapter>, rows: map<string, Row>)
    requires Tagged(State(s, rows, map[], {})) && forall a :: a in builtins ==> a.plugin == None
    requires forall c :: c in s.owners ==> s.owners[c] == None
    ensures Tagged(State(AddBuiltins(s, builtins), rows, map[], {}))
    decreases |builtins|
  {
    if builtins != [] {
      assert builtins[0] in builtins;
      BuiltinsTagged(AddBuiltin(s, builtins[0]), builtins[1..], rows);
    }
  }

  lemma {:induction false} LoadTagged(st: State, descs: seq<AdapterDesc>, id: string)
    requires Tagged(st)
    ensures Tagged(st.(slots := LoadDescs(st.slots, descs, id)))
    decreases |descs|
  {
    if descs != [] { LoadTagged(st.(slots := LoadDesc(st.slots, descs[0], id)), descs[1..], id); }
  }

  lemma {:induction false} LoadEnabledTagged(st: State, dirs: seq<Dir>)
    requires Tagged(st)
    ensures Tagged(EnabledLoaded(st, dirs))
    decreases |dirs|
  {
    if dirs != [] {
      var next := LoadDir(st, dirs[0]);
      assert Tagged(next) by {
        if dirs[0].manifest.Some? { LoadTagged(st, dirs[0].manifest.value.adapters, dirs[0].manifest.value.id); }
      }
      hide Tagged, LoadDir;
      LoadEnabledTagged(next, dirs[1..]);
    }
  }

  lemma StepTagged(builtins: seq<Adapter>, st: State, op: Op)
    requires Tagged(st) && forall a :: a in builtins ==> a.plugin == None
    ensures Tagged(Step(builtins, st, op))
  {
    match op
    case Restart => BuiltinsTagged(Slots(map[], map[], map[]), builtins, st.rows);
    case OpDiscover(dirs) => DiscoverKeeps(st, dirs);
    case OpLoadEnabled(dirs) => LoadEnabledTagged(st, dirs);
    case OpInstall(m, t, a, dirs, taken) =>
      DiscoverKeeps(st, dirs);
      if m.Some? { LoadTagged(st, m.value.adapters, m.value.id); }
    case OpSetStatus(id, _, disk) =>
      if ManifestFor(st, id, disk).Some? {
        var m := ManifestFor(st, id, disk).value;
        LoadTagged(st, m.adapters, m.id);
      }
    case OpUninstall(_) =>
  }

  lemma {:induction false} RunTagged(builtins: seq<Adapter>, st: State, ops: seq<Op>)
    requires Tagged(st) && forall a :: a in builtins ==> a.plugin == None
    ensures Tagged(Run(builtins, st, ops))
    decreases |ops|
  {
    if ops != [] {
      StepTagged(builtins, st, ops[0]);
      hide Tagged, Step;
      RunTagged(builtins, Step(builtins, st, ops[0]), ops[1..]);
    }
  }

  /** The tool's entry is an adapter for the capability from a plugin that may not run, and whoever owns the
      capability now, if anyone does, may. */
  ghost predicate Leftover(st: State, capability: string, tool: string) {
    && tool != "" && tool in st.slots.byTool && st.slots.byTool[tool].capability == capability
    && st.slots.byTool[tool].plugin.Some? && !Runnable(st, st.slots.byTool[tool].plugin.value)
    && (OwnerOf(st.slots, capability).Some? ==> Runnable(st, OwnerOf(st.slots, capability).value))
  }

  /** After every run from start-up, sane or not, a job is given an adapter of a plugin that may not run exactly
      when the job names a tool with a leftover entry; so a job that names no tool never is. */
  lemma DispatchIff(builtins: seq<Adapter>, rows: map<string, Row>, ops: seq<Op>, capability: string, tool: string)
    requires forall a :: a in builtins ==> a.plugin == None
    ensures var end := Run(builtins, Boot(builtins, rows), ops);
      var given := Dispatch(end, capability, tool);
      given.Some? && given.value.plugin.Some? && !Runnable(end, given.value.plugin.value) <==> Leftover(end, capability, tool)
  {
    var start := Boot(builtins, rows);
    StepTagged(builtins, State(Slots(map[], map[], map[]), rows, map[], {}), Restart);
    RunTagged(builtins, start, ops);
    hide Boot, Run, Executable;
    var end := Run(builtins, start, ops);
    GateIsOwner(end, capability);
  }

  /** A plugin is loaded at start-up and disabled: its tool entry is left over. */
  lemma LeftoverReached(rows: map<string, Row>, permissions: set<string>, trust: Trust)
    requires rows == map["p" := Row(ENABLED, trust, permissions, false)]
    requires ExecutableTrust(trust) && "tool.execute" in permissions
    ensures var m := Manifest("p", trust, permissions, [AdapterDesc("x", "", Some(1))], true);
      var ops := [OpLoadEnabled([Dir(Some(m), false)]), OpSetStatus("p", DISABLED, None)];
      Leftover(Run([], Boot([], rows), ops), "x", "x")
  {
    var d := AdapterDesc("x", "", Some(1));
    var m := Manifest("p", trust, permissions, [d], true);
    var dirs := [Dir(Some(m), false)];
    var ops := [OpLoadEnabled(dirs), OpSetStatus("p", DISABLED, None)];
    var st := Boot([], rows);
    assert st.slots == Slots(map[], map[], map[]);
    assert dirs[1..] == [] && [d][1..] == [];
    var a := Adapter("x", "x", 1, Some("p"));
    assert LoadDescs(st.slots, [d], "p") == LoadDescs(LoadDesc(st.slots, d, "p"), [], "p") == Registered(st.slots, a, Some("p"));
    var loaded := Step([], st, ops[0]);
    assert loaded == EnabledLoaded(LoadDir(st, dirs[0]), dirs[1..]) == PluginLoaded(st, m);
    var off := Step([], loaded, ops[1]);
    assert off.slots.byTool == map["x" := a] && off.slots.owners == map[];
    assert ops[1..][1..] == [] && ops[1..][0] == ops[1];
    assert Run([], st, ops) == Run([], loaded, ops[1..]) == Run([], off, ops[1..][1..]);
  }

  lemma GateIsOwner(st: State, capability: string)
    ensures Gate(st, capability) == Allowed <==>
      (OwnerOf(st.slots, capability).Some? ==> Runnable(st, OwnerOf(st.slots, capability).value))
  {
  }

  /** Such an entry is what disabling leaves behind: the capability has no preferred adapter and no owner, and
      exactly the jobs that name a tool whose entry is the plugin's adapter for it are still given that adapter. */
  lemma NamedToolOutlivesDisable(st: State, id: string, disk: Option<Manifest>, c: string, tool: string)
    requires Live(st, id).Some? && c in st.slots.adapters && OwnerOf(st.slots, c) == Some(id)
    ensures var off := StatusSet(st, id, DISABLED, disk).0;
      && Get(off.slots, c, "") == None && OwnerOf(off.slots, c) == None && !Runnable(off, id)
      && (Dispatch(off, c, tool).Some? <==>
            tool != "" && tool in st.slots.byTool && st.slots.byTool[tool].capability == c)
      && (Dispatch(off, c, tool).Some? ==> Dispatch(off, c, tool) == Some(st.slots.byTool[tool]))
  {
    var off := StatusSet(st, id, DISABLED, disk).0;
    assert off.slots.byTool == st.slots.byTool;
    assert c !in off.slots.adapters && c !in off.slots.owners;
  }

  // ---- Uninstalling is final ----

  ghost predicate Gone(st: State, id: string) {
    id in st.rows && st.rows[id].status == UNINSTALLED
  }

  lemma {:induction false} LoadEnabledRows(st: State, dirs: seq<Dir>)
    ensures EnabledLoaded(st, dirs).rows == st.rows
    decreases |dirs|
  {
    if dirs != [] { LoadEnabledRows(LoadDir(st, dirs[0]), dirs[1..]); }
  }

  lemma StepKeepsGone(builtins: seq<Adapter>, st: State, op: Op, id: string)
    requires Gone(st, id)
    ensures Gone(Step(builtins, st, op), id)
  {
    match op
    case Restart =>
    case OpDiscover(dirs) => DiscoverKeeps(st, dirs);
    case OpLoadEnabled(dirs) => LoadEnabledRows(st, dirs);
    case OpInstall(_, _, _, dirs, _) => DiscoverKeeps(st, dirs);
    case OpSetStatus(_, _, _) =>
    case OpUninstall(_) =>
  }

  /** An uninstalled plugin never comes back: after every run its row is uninstalled and installing it again is
      refused, whatever is discovered, enabled, installed or restarted. */
  lemma {:induction false} UninstallIsFinal(builtins: seq<Adapter>, st: State, id: string, ops: seq<Op>)
    requires Gone(st, id)
    ensures var end := Run(builtins, st, ops);
      && Gone(end, id)
      && (forall m: Manifest, t, a, dirs, taken :: m.id == id ==> !Installed(end, Some(m), t, a, dirs, taken).1)
    decreases |ops|
  {
    if ops == [] {
      forall m: Manifest, t, a, dirs, taken | m.id == id ensures !Installed(st, Some(m), t, a, dirs, taken).1 {
        DiscoverKeeps(st, dirs);
      }
    } else {
      StepKeepsGone(builtins, st, ops[0], id);
      hide Step, Gone;
      UninstallIsFinal(builtins, Step(builtins, st, ops[0]), id, ops[1..]);
    }
  }

  /** After every sane run it owns nothing either. */
  lemma UninstalledOwnsNothing(builtins: seq<Adapter>, st: State, id: string, ops: seq<Op>)
    requires Inv(builtins, st) && Gone(st, id) && SaneRun(builtins, st, ops)
    ensures forall c :: OwnerOf(Run(builtins, st, ops).slots, c) != Some(id)
  {
    UninstallIsFinal(builtins, st, id, ops);
    RunKeepsInv(builtins, st, ops);
  }

  // ---- Untrusted plugins ----

  /** "Untrusted plugins are never loaded": every plugin that owns a capability has an executable trust level. */
  ghost predicate OwnersTrusted(st: State) {
    forall c :: c in st.slots.owners && st.slots.owners[c].Some? ==>
      var id := st.slots.owners[c].value;
      id in st.rows && ExecutableTrust(st.rows[id].trust)
  }

  lemma {:induction false} DiscoverTrust(st: State, dirs: seq<Dir>, id: string)
    requires id in st.rows
    ensures id in Discovered(st, dirs).rows
    ensures Discovered(st, dirs).rows[id].trust
         == if LastManifest(dirs, id).Some? then LastManifest(dirs, id).value.trust else st.rows[id].trust
    decreases |dirs|
  {
    if dirs != [] { DiscoverTrust(DiscoverDir(st, dirs[0]), dirs[1..], id); }
  }

  lemma {:induction false} DiscoverRows(st: State, dirs: seq<Dir>, id: string)
    ensures id in Discovered(st, dirs).rows <==> id in st.rows || LastManifest(dirs, id).Some?
    decreases |dirs|
  {
    if dirs != [] { DiscoverRows(DiscoverDir(st, dirs[0]), dirs[1..], id); }
  }

  /** No plugin that is loaded has lost its trust in the manifest on disk. */
  ghost predicate StillTrusted(st: State, dirs: seq<Dir>) {
    forall c :: c in st.slots.owners && st.slots.owners[c].Some? ==>
      var m := LastManifest(dirs, st.slots.owners[c].value);
      m.Some? ==> ExecutableTrust(m.value.trust)
  }

  /** What an operation may do: reread manifests that keep their trust, and enable a plugin that is trusted in its
      row, not only in its manifest, or that adds no capability. */
  ghost predicate Cautious(st: State, op: Op) {
    match op
    case OpDiscover(dirs) => StillTrusted(st, dirs)
    case OpInstall(source, _, _, dirs, _) => source.Some? ==> StillTrusted(st, dirs)
    case OpSetStatus(id, status, disk) =>
      status == ENABLED && Live(st, id).Some? && ManifestFor(st, id, disk).Some? ==>
        var m := ManifestFor(st, id, disk).value;
        || !ExecutableTrust(m.trust)
        || (m.id in st.rows && ExecutableTrust(st.rows[m.id].trust))
        || (forall c :: Provides(m.adapters, c) ==> c in st.slots.adapters)
    case _ => true
  }

  lemma LoadTrustIff(st: State, m: Manifest)
    requires st.slots.adapters.Keys == st.slots.owners.Keys && OwnersTrusted(st)
    ensures OwnersTrusted(PluginLoaded(st, m)) <==>
      || (m.id in st.rows && ExecutableTrust(st.rows[m.id].trust))
      || (forall c :: Provides(m.adapters, c) ==> c in st.slots.adapters)
    ensures PluginLoaded(st, m).slots.adapters.Keys == PluginLoaded(st, m).slots.owners.Keys
    ensures PluginLoaded(st, m).rows == st.rows
  {
    var r := LoadDescs(st.slots, m.adapters, m.id);
    forall c: string
      ensures r.adapters.Keys == r.owners.Keys
      ensures c in st.slots.adapters ==> c in r.owners && r.owners[c] == st.slots.owners[c]
      ensures c !in st.slots.adapters ==> (c in r.owners <==> Provides(m.adapters, c))
      ensures c !in st.slots.adapters && c in r.owners ==> r.owners[c] == Some(m.id)
    {
      LoadDescsAdds(st.slots, m.adapters, m.id, c);
    }
    hide LoadDescs, DescsLoad, Provides, ExecutableTrust;
  }

  lemma {:induction false} LoadEnabledTrust(st: State, dirs: seq<Dir>)
    requires st.slots.adapters.Keys == st.slots.owners.Keys && OwnersTrusted(st)
    ensures OwnersTrusted(EnabledLoaded(st, dirs))
    decreases |dirs|
  {
    if dirs != [] {
      var next := LoadDir(st, dirs[0]);
      if next != st { LoadTrustIff(st, dirs[0].manifest.value); }
      hide OwnersTrusted, LoadDir;
      LoadEnabledTrust(next, dirs[1..]);
    }
  }

  lemma DiscoverTrustIff(st: State, dirs: seq<Dir>)
    requires OwnersTrusted(st)
    ensures OwnersTrusted(Discovered(st, dirs)) <==> StillTrusted(st, dirs)
    ensures Discovered(st, dirs).slots == st.slots
  {
    DiscoverKeeps(st, dirs);
    forall c | c in st.slots.owners && st.slots.owners[c].Some?
      ensures var id := st.slots.owners[c].value;
        && id in Discovered(st, dirs).rows
        && Discovered(st, dirs).rows[id].trust
           == if LastManifest(dirs, id).Some? then LastManifest(dirs, id).value.trust else st.rows[id].trust
    {
      DiscoverTrust(st, dirs, st.slots.owners[c].value);
    }
    hide Discovered, LastManifest, ExecutableTrust;
  }

  lemma InstallTrustIff(st: State, op: Op, builtins: seq<Adapter>)
    requires st.slots.adapters.Keys == st.slots.owners.Keys && OwnersTrusted(st) && op.OpInstall?
    ensures OwnersTrusted(Step(builtins, st, op)) <==> Cautious(st, op)
  {
    if op.source.Some? {
      var m, found := op.source.value, Discovered(st, op.dirs);
      DiscoverTrustIff(st, op.dirs);
      DiscoverKeeps(st, op.dirs);
      hide Discovered, StillTrusted, PluginLoaded;
      if m.id !in found.rows && !op.taken {
        var status := if op.approve && ExecutableTrust(m.trust) then ENABLED else INSTALLED;
        var added := found.(rows := found.rows[m.id := Row(status, op.trust, m.permissions, false)]);
        NewRowTrust(st, found, added, m.id, Row(status, op.trust, m.permissions, false));
        if Executable(added.rows[m.id]) {
          if OwnersTrusted(added) { LoadTrustIff(added, m); } else { LoadKeepsUntrusted(added, m); }
        }
      }
    }
  }

  /** A row that did not exist belongs to no owner. */
  lemma NewRowTrust(st: State, found: State, added: State, id: string, row: Row)
    requires OwnersTrusted(st) && found.slots == st.slots && id !in found.rows
    requires forall x :: x in st.rows ==> x in found.rows
    requires added == found.(rows := found.rows[id := row])
    ensures OwnersTrusted(added) <==> OwnersTrusted(found)
  {
    hide ExecutableTrust;
  }

  lemma LoadKeepsUntrusted(st: State, m: Manifest)
    requires st.slots.adapters.Keys == st.slots.owners.Keys && !OwnersTrusted(st)
    ensures !OwnersTrusted(PluginLoaded(st, m))
  {
    var c :| c in st.slots.owners && st.slots.owners[c].Some?
      && (st.slots.owners[c].value !in st.rows || !ExecutableTrust(st.rows[st.slots.owners[c].value].trust));
    LoadDescsAdds(st.slots, m.adapters, m.id, c);
    hide LoadDescs, DescsLoad, ExecutableTrust;
    assert PluginLoaded(st, m).slots.owners[c] == st.slots.owners[c];
  }

  /** The registry's two maps have the same keys, whatever the operations. */
  ghost predicate SameKeys(st: State) { st.slots.adapters.Keys == st.slots.owners.Keys }

  lemma BootKeys(builtins: seq<Adapter>, rows: map<string, Row>)
    ensures SameKeys(Boot(builtins, rows))
  {
    AddBuiltinsKeepsFirst(Slots(map[], map[], map[]), builtins, "");
  }

  lemma {:induction false} LoadEnabledKeys(st: State, dirs: seq<Dir>)
    requires SameKeys(st)
    ensures SameKeys(EnabledLoaded(st, dirs))
    decreases |dirs|
  {
    if dirs != [] {
      if dirs[0].manifest.Some? { LoadDescsAdds(st.slots, dirs[0].manifest.value.adapters, dirs[0].manifest.value.id, ""); }
      hide LoadDescs, DescsLoad;
      LoadEnabledKeys(LoadDir(st, dirs[0]), dirs[1..]);
    }
  }

  lemma StepKeys(builtins: seq<Adapter>, st: State, op: Op)
    requires SameKeys(st)
    ensures SameKeys(Step(builtins, st, op))
  {
    match op
    case Restart => BootKeys(builtins, st.rows);
    case OpDiscover(dirs) => DiscoverKeeps(st, dirs);
    case OpLoadEnabled(dirs) => LoadEnabledKeys(st, dirs);
    case OpInstall(source, _, _, dirs, _) =>
      DiscoverKeeps(st, dirs);
      if source.Some? { LoadDescsAdds(st.slots, source.value.adapters, source.value.id, ""); }
    case OpSetStatus(id, _, disk) =>
      var m := ManifestFor(st, id, disk);
      if m.Some? { LoadDescsAdds(st.slots, m.value.adapters, m.value.id, ""); }
    case OpUninstall(_) =>
  }

  /** Every operation keeps loaded plugins trusted, exactly when it is cautious. */
  lemma StepTrustIff(builtins: seq<Adapter>, st: State, op: Op)
    requires SameKeys(st) && OwnersTrusted(st)
    ensures OwnersTrusted(Step(builtins, st, op)) <==> Cautious(st, op)
  {
    match op
    case Restart => BootTrusted(builtins, st.rows);
    case OpDiscover(dirs) => DiscoverTrustIff(st, dirs);
    case OpLoadEnabled(dirs) => LoadEnabledTrust(st, dirs);
    case OpInstall(_, _, _, _, _) => InstallTrustIff(st, op, builtins);
    case OpSetStatus(id, status, disk) => SetStatusTrustIff(st, op, builtins);
    case OpUninstall(id) => hide ExecutableTrust;
  }

  lemma SetStatusTrustIff(st: State, op: Op, builtins: seq<Adapter>)
    requires st.slots.adapters.Keys == st.slots.owners.Keys && OwnersTrusted(st) && op.OpSetStatus?
    ensures OwnersTrusted(Step(builtins, st, op)) <==> Cautious(st, op)
  {
    hide ExecutableTrust, PluginLoaded, Provides;
    if StatusSet(st, op.id, op.status, op.disk).1 {
      var marked := st.(rows := st.rows[op.id := st.rows[op.id].(status := op.status)]);
      assert OwnersTrusted(marked);
      if op.status == ENABLED { LoadTrustIff(marked, ManifestFor(st, op.id, op.disk).value); }
    }
  }

  lemma BootTrusted(builtins: seq<Adapter>, rows: map<string, Row>)
    ensures OwnersTrusted(Boot(builtins, rows))
  {
    var empty := Slots(map[], map[], map[]);
    forall c | c in Fresh(builtins).owners ensures Fresh(builtins).owners[c] == None {
      AddBuiltinsKeepsFirst(empty, builtins, c);
    }
  }

  ghost predicate TrustedAlong(builtins: seq<Adapter>, st: State, ops: seq<Op>)
    decreases |ops|
  {
    OwnersTrusted(st) && (ops != [] ==> TrustedAlong(builtins, Step(builtins, st, ops[0]), ops[1..]))
  }

  ghost predicate CautiousRun(builtins: seq<Adapter>, st: State, ops: seq<Op>)
    decreases |ops|
  {
    ops != [] ==> Cautious(st, ops[0]) && CautiousRun(builtins, Step(builtins, st, ops[0]), ops[1..])
  }

  /** All along a run every loaded plugin is trusted, exactly when every operation of it is cautious. */
  lemma {:induction false} RunTrustIff(builtins: seq<Adapter>, st: State, ops: seq<Op>)
    requires SameKeys(st) && OwnersTrusted(st)
    ensures TrustedAlong(builtins, st, ops) <==> CautiousRun(builtins, st, ops)
    decreases |ops|
  {
    if ops != [] {
      hide SameKeys, Step, OwnersTrusted, Cautious;
      StepKeys(builtins, st, ops[0]);
      StepTrustIff(builtins, st, ops[0]);
      if Cautious(st, ops[0]) { RunTrustIff(builtins, Step(builtins, st, ops[0]), ops[1..]); }
    }
  }

  /** From start-up, whatever the registry rows and the manifests. */
  lemma ReachableTrustIff(builtins: seq<Adapter>, rows: map<string, Row>, ops: seq<Op>)
    ensures TrustedAlong(builtins, Boot(builtins, rows), ops) <==> CautiousRun(builtins, Boot(builtins, rows), ops)
  {
    BootKeys(builtins, rows);
    BootTrusted(builtins, rows);
    RunTrustIff(builtins, Boot(builtins, rows), ops);
  }

  /** Installed with trust level UNTRUSTED from a manifest that claims LOCAL, then enabled: the plugin is loaded, and
      only the gate keeps it from running. */
  lemma UntrustedIsLoaded(permissions: set<string>)
    ensures var m := Manifest("p", LOCAL, permissions, [AdapterDesc("x", "", Some(1))], true);
      var ops := [OpInstall(Some(m), UNTRUSTED, false, [], false), OpSetStatus("p", ENABLED, Some(m))];
      var end := Run([], Boot([], map[]), ops);
      OwnerOf(end.slots, "x") == Some("p") && Gate(end, "x") == Untrusted && !OwnersTrusted(end)
  {
    var descs := [AdapterDesc("x", "", Some(1))];
    var m := Manifest("p", LOCAL, permissions, descs, true);
    var ops := [OpInstall(Some(m), UNTRUSTED, false, [], false), OpSetStatus("p", ENABLED, Some(m))];
    var st := Boot([], map[]);
    assert st == State(Slots(map[], map[], map[]), map[], map[], {});
    var installed := Step([], st, ops[0]);
    assert installed == st.(rows := map["p" := Row(INSTALLED, UNTRUSTED, permissions, false)]);
    assert descs[0].capability == "x" && descs[0].code.Some?;
    assert Provides(descs, "x");
    LoadDescsAdds(st.slots, descs, "p", "x");
    var end := Step([], installed, ops[1]);
    hide LoadDescs, DescsLoad;
    assert OwnerOf(end.slots, "x") == Some("p") && end.rows["p"].trust == UNTRUSTED && end.rows["p"].status == ENABLED;
    assert ops[1..][1..] == [] && ops[1..][0] == ops[1];
    assert Run([], st, ops) == Run([], installed, ops[1..]) == Run([], end, ops[1..][1..]);
  }
}
