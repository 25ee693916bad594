/** The adapter registry: capability to preferred adapter, tool name to adapter, capability to owning plugin. */
module Adapters {
  import opened Common

  /** `code` stands for the adapter object itself, `plugin` for the plugin whose module it was imported from. */
  datatype Adapter = Adapter(tool: string, capability: string, code: int, plugin: Option<string>)

  datatype Slots = Slots(adapters: map<string, Adapter>, byTool: map<string, Adapter>, owners: map<string, Option<string>>)

  function AddBuiltin(s: Slots, a: Adapter): Slots {
    Slots(if a.capability in s.adapters then s.adapters else s.adapters[a.capability := a],
          s.byTool[a.tool := a],
          if a.capability in s.owners then s.owners else s.owners[a.capability := None])
  }

  function AddBuiltins(s: Slots, builtins: seq<Adapter>): Slots
    decreases |builtins|
  {
    if builtins == [] then s else AddBuiltins(AddBuiltin(s, builtins[0]), builtins[1..])
  }

  /** The registry as it is constructed. */
  function Fresh(builtins: seq<Adapter>): Slots { AddBuiltins(Slots(map[], map[], map[]), builtins) }

  function Registered(s: Slots, a: Adapter, owner: Option<string>): Slots {
    Slots(s.adapters[a.capability := a], s.byTool[a.tool := a], s.owners[a.capability := owner])
  }

  function Unregistered(s: Slots, capability: string): Slots {
    s.(adapters := s.adapters - {capability}, owners := s.owners - {capability})
  }

  function OwnerOf(s: Slots, capability: string): Option<string> {
    if capability in s.owners then s.owners[capability] else None
  }

  /** An empty tool name means no explicit choice. */
  function Get(s: Slots, capability: string, tool: string): Option<Adapter> {
    if tool != "" && tool in s.byTool && s.byTool[tool].capability == capability then Some(s.byTool[tool])
    else if capability in s.adapters then Some(s.adapters[capability])
    else None
  }

  class AdapterRegistry {
    var adapters: map<string, Adapter>
    var byTool: map<string, Adapter>
    var owners: map<string, Option<string>>

    function Contents(): Slots
      reads this
    {
      Slots(adapters, byTool, owners)
    }

    constructor (builtins: seq<Adapter>)
      ensures Contents() == Fresh(builtins)
    {
      adapters, byTool, owners := map[], map[], map[];
      new;
      var i := 0;
      assert builtins[0..] == builtins;
      while i < |builtins|
        invariant 0 <= i <= |builtins|
        invariant AddBuiltins(Contents(), builtins[i..]) == Fresh(builtins)
      {
        var a := builtins[i];
        assert builtins[i..][1..] == builtins[i + 1..];
        if a.capability !in adapters { adapters := adapters[a.capability := a]; }
        byTool := byTool[a.tool := a];
        if a.capability !in owners { owners := owners[a.capability := None]; }
        i := i + 1;
      }
    }

    method Register(a: Adapter, owner: Option<string>)
      modifies this
      ensures Contents() == Registered(old(Contents()), a, owner)
    {
      adapters := adapters[a.capability := a];
      byTool := byTool[a.tool := a];
      owners := owners[a.capability := owner];
    }

    method Unregister(capability: string)
      modifies this
      ensures Contents() == Unregistered(old(Contents()), capability)
    {
      adapters := adapters - {capability};
      owners := owners - {capability};
    }
  }

  // ---- The first built-in adapter of a capability is the preferred one ----

  function FirstFor(builtins: seq<Adapter>, capability: string): Option<Adapter> {
    if builtins == [] then None
    else if builtins[0].capability == capability then Some(builtins[0])
    else FirstFor(builtins[1..], capability)
  }

  lemma {:induction false} AddBuiltinsKeepsFirst(s: Slots, builtins: seq<Adapter>, c: string)
    requires s.adapters.Keys == s.owners.Keys
    ensures var r := AddBuiltins(s, builtins);
      && r.adapters.Keys == r.owners.Keys
      && (c in s.adapters ==> c in r.adapters && r.adapters[c] == s.adapters[c] && r.owners[c] == s.owners[c])
      && (c !in s.adapters ==> (c in r.adapters <==> FirstFor(builtins, c).Some?))
      && (c !in s.adapters && c in r.adapters ==>
            r.adapters[c] == FirstFor(builtins, c).value && r.owners[c] == None)
    decreases |builtins|
  {
    if builtins != [] { AddBuiltinsKeepsFirst(AddBuiltin(s, builtins[0]), builtins[1..], c); }
  }

  lemma {:induction false} FirstForCapability(builtins: seq<Adapter>, c: string)
    ensures FirstFor(builtins, c).Some? ==> FirstFor(builtins, c).value.capability == c
  {
    if builtins != [] { FirstForCapability(builtins[1..], c); }
  }
}
