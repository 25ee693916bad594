/** The asset registry and the ingestion of parsed tool observations into it. */
module Ingestion {
  import opened Common
  import opened Text
  import opened Normalization

  const VALID_TYPES := {"host", "ip", "domain", "cidr", "url", "application", "container", "cloud", "wireless"}
  const VALID_CRITICALITY := {"low", "medium", "high", "critical"}

  datatype Asset = Asset(engagement: Option<int>, target: string, kind: string, criticality: string, owner: string,
                         tags: seq<string>, source: string)

  /** A row's id is its position plus one; rows are never deleted. */
  function Lookup(rows: seq<Asset>, engagement: Option<int>, target: string): (r: Option<nat>)
    ensures r.Some? ==> r.value < |rows| && rows[r.value].engagement == engagement && rows[r.value].target == target
    ensures r == None ==> forall a :: a in rows ==> a.engagement != engagement || a.target != target
  {
    if rows == [] then None
    else if rows[0].engagement == engagement && rows[0].target == target then Some(0)
    else match Lookup(rows[1..], engagement, target) case None => None case Some(i) => Some(i + 1)
  }

  ghost predicate UniqueKeys(rows: seq<Asset>) {
    forall i, j :: 0 <= i < j < |rows| ==> rows[i].engagement != rows[j].engagement || rows[i].target != rows[j].target
  }

  // ---- Entities and observations ----

  datatype Entity =
    | Host(addresses: seq<string>, hostnames: seq<string>)
    | DnsRecord(name: string, value: string)
    | HttpResponse
    | OtherEntity

  /** A normalized target and the asset type it is registered with. */
  datatype Observation = Observation(target: string, kind: string)

  function SeeIp(text: string, six: string -> Option<string>): (seen: seq<Observation>)
    ensures |seen| <= 1
  {
    match NormalizeIp(text, six) case Some(t) => [Observation(t, "ip")] case None => []
  }

  function SeeDomain(text: string): (seen: seq<Observation>)
    ensures |seen| <= 1
  {
    match NormalizeDomain(text) case Some(t) => [Observation(t, "domain")] case None => []
  }

  function SeeAll(texts: seq<string>, names: bool, six: string -> Option<string>): seq<Observation> {
    if texts == [] then []
    else (if names then SeeDomain(texts[0]) else SeeIp(texts[0], six)) + SeeAll(texts[1..], names, six)
  }

  function See(e: Entity, six: string -> Option<string>): seq<Observation> {
    match e
    case Host(addresses, hostnames) => SeeAll(addresses, false, six) + SeeAll(hostnames, true, six)
    case DnsRecord(name, value) => SeeDomain(name) + SeeIp(value, six)
    case HttpResponse => []
    case OtherEntity => []
  }

  function Observations(entities: seq<Entity>, six: string -> Option<string>): seq<Observation> {
    if entities == [] then [] else See(entities[0], six) + Observations(entities[1..], six)
  }

  // ---- Registering ----

  function Fresh(o: Observation, engagement: Option<int>, source: string): Asset {
    Asset(engagement, Key(o.target), o.kind, "low", "", [], source)
  }

  function Add(rows: seq<Asset>, o: Observation, engagement: Option<int>, source: string): seq<Asset> {
    if Lookup(rows, engagement, Key(o.target)).Some? then rows else rows + [Fresh(o, engagement, source)]
  }

  function AddAll(rows: seq<Asset>, obs: seq<Observation>, engagement: Option<int>, source: string): seq<Asset>
    decreases |obs|
  {
    if obs == [] then rows else AddAll(Add(rows, obs[0], engagement, source), obs[1..], engagement, source)
  }

  class AssetService {
    var rows: seq<Asset>

    constructor ()
      ensures rows == []
    {
      rows := [];
    }

    method Register(target: string, kind: string, criticality: string, owner: string, tags: seq<string>,
                    engagement: Option<int>, source: string) returns (r: Result<nat>)
      modifies this
      ensures r.Ok? <==> Key(target) != "" && kind in VALID_TYPES && criticality in VALID_CRITICALITY
      ensures r.Ok? <==>
        && Strip(target) != ""
        && (kind == "host" || kind == "ip" || kind == "domain" || kind == "cidr" || kind == "url" || kind == "application"
            || kind == "container" || kind == "cloud" || kind == "wireless")
        && (criticality == "low" || criticality == "medium" || criticality == "high" || criticality == "critical")
      ensures r.Err? ==> rows == old(rows)
      ensures r.Ok? ==> rows == if Lookup(old(rows), engagement, Key(target)).Some? then old(rows)
                                else old(rows) + [Asset(engagement, Key(target), kind, criticality, owner, tags, source)]
      ensures r.Ok? ==> r.value < |rows| && rows[r.value].engagement == engagement && rows[r.value].target == Key(target)
      ensures r.Ok? ==> rows[r.value].target == Lower(Strip(target))
      ensures old(UniqueKeys(rows)) ==> UniqueKeys(rows)
    {
      var clean := Lower(Strip(target));
      if clean == "" { return Err("Asset target must not be empty"); }
      if kind !in VALID_TYPES { return Err("Invalid asset type"); }
      if criticality !in VALID_CRITICALITY { return Err("Invalid criticality"); }
      var existing := Lookup(rows, engagement, clean);
      if existing.Some? { return Ok(existing.value); }
      rows := rows + [Asset(engagement, clean, kind, criticality, owner, tags, source)];
      return Ok(|rows| - 1);
    }

    /** Register one observation and note the id of its asset. */
    method Note(o: Observation, engagement: Option<int>, source: string, registered: seq<nat>, ghost start: seq<Asset>,
                ghost done: seq<Observation>) returns (r: seq<nat>)
      requires Key(o.target) != "" && (o.kind == "ip" || o.kind == "domain")
      requires Ingested(start, rows, done, registered, engagement, source)
      modifies this
      ensures Ingested(start, rows, done + [o], r, engagement, source)
    {
      hide Key, Ingested, UniqueKeys, Lookup;
      ghost var before := rows;
      var id := Register(o.target, o.kind, "low", "", [], engagement, source);
      r := registered + [id.value];
      Noted(start, before, done, registered, engagement, source, o, id.value);
    }

    /** The loop over one entity's addresses or host names. */
    method NoteAll(texts: seq<string>, names: bool, six: string -> Option<string>, engagement: Option<int>, source: string,
                   registered: seq<nat>, ghost start: seq<Asset>, ghost done: seq<Observation>) returns (r: seq<nat>)
      requires ColonText(six)
      requires Ingested(start, rows, done, registered, engagement, source)
      modifies this
      ensures Ingested(start, rows, done + SeeAll(texts, names, six), r, engagement, source)
    {
      hide Ingested, SeeIp, SeeDomain, Key, AddressKey, NameKey;
      r := registered;
      var i := 0;
      assert done + SeeAll(texts[..0], names, six) == done;
      hide SeeAll;
      while i < |texts|
        invariant 0 <= i <= |texts|
        invariant Ingested(start, rows, done + SeeAll(texts[..i], names, six), r, engagement, source)
      {
        Observed(texts[i], six);
        var seen := if names then SeeDomain(texts[i]) else SeeIp(texts[i], six);
        SeeAllLast(texts, i, names, six);
        Assoc(done, SeeAll(texts[..i], names, six), seen);
        if seen != [] {
          assert seen == [seen[0]];
          r := Note(seen[0], engagement, source, r, start, done + SeeAll(texts[..i], names, six));
        } else {
          assert SeeAll(texts[..i + 1], names, six) == SeeAll(texts[..i], names, six);
        }
        i := i + 1;
      }
      assert texts[..i] == texts;
    }

    /** The body of the loop over the entities. */
    method IngestEntity(entity: Entity, engagement: Option<int>, source: string, six: string -> Option<string>,
                        registered: seq<nat>, ghost start: seq<Asset>, ghost done: seq<Observation>) returns (r: seq<nat>)
      requires ColonText(six)
      requires Ingested(start, rows, done, registered, engagement, source)
      modifies this
      ensures Ingested(start, rows, done + See(entity, six), r, engagement, source)
    {
      hide Ingested, SeeAll, SeeIp, SeeDomain, ColonText;
      match entity {
        case Host(addresses, hostnames) =>
          r := NoteAll(addresses, false, six, engagement, source, registered, start, done);
          r := NoteAll(hostnames, true, six, engagement, source, r, start, done + SeeAll(addresses, false, six));
          Assoc(done, SeeAll(addresses, false, six), SeeAll(hostnames, true, six));
        case DnsRecord(name, value) =>
          r := NoteAll([name], true, six, engagement, source, registered, start, done);
          r := NoteAll([value], false, six, engagement, source, r, start, done + SeeAll([name], true, six));
          Assoc(done, SeeAll([name], true, six), SeeAll([value], false, six));
          SeeOne(name, true, six);
          SeeOne(value, false, six);
        case HttpResponse =>
          r := registered;
          assert done + [] == done;
        case OtherEntity =>
          r := registered;
          assert done + [] == done;
      }
    }

    method IngestEntities(entities: seq<Entity>, tool: string, engagement: Option<int>, source: string,
                          six: string -> Option<string>) returns (registered: seq<nat>)
      requires ColonText(six)
      modifies this
      ensures Ingested(old(rows), rows, Observations(entities, six), registered, engagement, if source != "" then source else tool)
      ensures Filed(old(rows), rows, entities, registered, engagement, if source != "" then source else tool, six)
    {
      registered := [];
      var src := if source != "" then source else tool;
      ghost var start := rows;
      assert Ingested(start, rows, Observations(entities[..0], six), registered, engagement, src);
      hide Ingested, See, Observations, ColonText;
      var i := 0;
      while i < |entities|
        invariant 0 <= i <= |entities|
        invariant Ingested(start, rows, Observations(entities[..i], six), registered, engagement, src)
      {
        ObservationsLast(entities, i, six);
        registered := IngestEntity(entities[i], engagement, src, six, registered, start, Observations(entities[..i], six));
        i := i + 1;
      }
      assert entities[..i] == entities;
      IngestedIsFiled(start, rows, entities, registered, engagement, src, six);
      hide Filed;
    }
  }

  // ---- What ingestion files, in terms of entities and rows ----

  /** The text stands in the entity where an address (or, for names, a name) is read. */
  predicate Carries(entity: Entity, text: string, names: bool) {
    match entity
    case Host(addresses, hostnames) => text in (if names then hostnames else addresses)
    case DnsRecord(name, value) => text == (if names then name else value)
    case HttpResponse => false
    case OtherEntity => false
  }

  /** Some entity carries an address, or a name, with this canonical form. */
  ghost predicate Mentioned(entities: seq<Entity>, target: string, kind: string, six: string -> Option<string>) {
    exists e, text :: e in entities && Carries(e, text, kind == "domain") && Reads(text, target, kind, six)
  }

  predicate Reads(text: string, target: string, kind: string, six: string -> Option<string>) {
    || (kind == "ip" && NormalizeIp(text, six) == Some(target))
    || (kind == "domain" && NormalizeDomain(text) == Some(target))
  }

  predicate IsAsset(rows: seq<Asset>, i: nat, engagement: Option<int>, key: string) {
    i < |rows| && rows[i].engagement == engagement && rows[i].target == key
  }

  ghost predicate Free(rows: seq<Asset>, engagement: Option<int>, key: string) {
    forall i :: !IsAsset(rows, i, engagement, key)
  }

  /** Old rows stay. Every address and name that is mentioned has an asset, which is returned; if its key was free,
      the asset is new, with its type and the source. Nothing else is added or returned. */
  ghost predicate Filed(old_rows: seq<Asset>, rows: seq<Asset>, entities: seq<Entity>, registered: seq<nat>,
                        engagement: Option<int>, source: string, six: string -> Option<string>) {
    && old_rows <= rows
    && (forall target, kind :: Mentioned(entities, target, kind, six) ==>
          HasAsset(old_rows, rows, registered, target, kind, engagement, source))
    && (forall i :: |old_rows| <= i < |rows| ==> NewAsset(old_rows, rows[i], entities, engagement, source, six))
    && (forall k :: 0 <= k < |registered| ==> ReturnsMentioned(rows, registered[k], entities, engagement, six))
  }

  ghost predicate NewAsset(old_rows: seq<Asset>, row: Asset, entities: seq<Entity>, engagement: Option<int>, source: string,
                           six: string -> Option<string>) {
    exists target, kind ::
      Mentioned(entities, target, kind, six) && Free(old_rows, engagement, Key(target))
      && row == Asset(engagement, Key(target), kind, "low", "", [], source)
  }

  ghost predicate ReturnsMentioned(rows: seq<Asset>, id: nat, entities: seq<Entity>, engagement: Option<int>,
                                   six: string -> Option<string>) {
    exists target, kind :: Mentioned(entities, target, kind, six) && IsAsset(rows, id, engagement, Key(target))
  }

  ghost predicate HasAsset(old_rows: seq<Asset>, rows: seq<Asset>, registered: seq<nat>, target: string, kind: string,
                           engagement: Option<int>, source: string) {
    exists k :: 0 <= k < |registered| && IsAsset(rows, registered[k], engagement, Key(target))
      && (Free(old_rows, engagement, Key(target)) ==>
            rows[registered[k]] == Asset(engagement, Key(target), kind, "low", "", [], source))
  }

  lemma {:induction false} SeenIff(texts: seq<string>, names: bool, six: string -> Option<string>, o: Observation)
    ensures o in SeeAll(texts, names, six)
      <==> exists text :: text in texts && o in if names then SeeDomain(text) else SeeIp(text, six)
    decreases |texts|
  {
    hide SeeDomain, SeeIp;
    if texts != [] {
      SeenIff(texts[1..], names, six, o);
      assert forall t :: t in texts <==> t == texts[0] || t in texts[1..];
    }
  }

  lemma SeeIs(entity: Entity, six: string -> Option<string>, o: Observation)
    ensures o in See(entity, six) <==>
      || (exists text :: Carries(entity, text, false) && o in SeeIp(text, six))
      || (exists text :: Carries(entity, text, true) && o in SeeDomain(text))
  {
    hide SeeIp, SeeDomain;
    match entity
    case Host(addresses, hostnames) =>
      SeenIff(addresses, false, six, o);
      SeenIff(hostnames, true, six, o);
      hide SeeAll;
    case DnsRecord(name, value) =>
      assert Carries(entity, name, true) && Carries(entity, value, false);
    case HttpResponse =>
    case OtherEntity =>
  }

  lemma SeeReads(text: string, six: string -> Option<string>, o: Observation)
    ensures o in SeeIp(text, six) <==> o.kind == "ip" && Reads(text, o.target, o.kind, six)
    ensures o in SeeDomain(text) <==> o.kind == "domain" && Reads(text, o.target, o.kind, six)
  {
    hide NormalizeIp, NormalizeDomain;
  }

  lemma MentionedIff(entities: seq<Entity>, six: string -> Option<string>, o: Observation)
    ensures o in Observations(entities, six) <==> Mentioned(entities, o.target, o.kind, six)
  {
    MemberOfObservations(entities, six, o);
    hide Observations, See, SeeIp, SeeDomain, Carries, Reads;
    if o in Observations(entities, six) {
      var e :| e in entities && o in See(e, six);
      SeeIs(e, six, o);
      if text :| Carries(e, text, false) && o in SeeIp(text, six) {
        SeeReads(text, six, o);
      } else {
        var text :| Carries(e, text, true) && o in SeeDomain(text);
        SeeReads(text, six, o);
      }
    }
    if Mentioned(entities, o.target, o.kind, six) {
      var e, text :| e in entities && Carries(e, text, o.kind == "domain") && Reads(text, o.target, o.kind, six);
      SeeIs(e, six, o);
      SeeReads(text, six, o);
      KindRead(text, o.target, o.kind, six);
    }
  }

  lemma KindRead(text: string, target: string, kind: string, six: string -> Option<string>)
    requires Reads(text, target, kind, six)
    ensures kind == "ip" || kind == "domain"
  {
  }

  lemma {:induction false} NewRow(rows: seq<Asset>, obs: seq<Observation>, e: Option<int>, source: string, i: nat) returns (o: Observation)
    requires |rows| <= i < |AddAll(rows, obs, e, source)|
    ensures o in obs && AddAll(rows, obs, e, source)[i] == Fresh(o, e, source) && Lookup(rows, e, Key(o.target)) == None
    decreases |obs|
  {
    hide Key, Lookup;
    var next := Add(rows, obs[0], e, source);
    IngestKeeps(next, obs[1..], e, source);
    if i < |next| {
      o := obs[0];
    } else {
      o := NewRow(next, obs[1..], e, source, i);
      if Lookup(rows, e, Key(o.target)).Some? { LookupGrows(rows, next, e, Key(o.target)); }
    }
  }

  lemma FreeIff(rows: seq<Asset>, engagement: Option<int>, key: string)
    ensures Free(rows, engagement, key) <==> Lookup(rows, engagement, key) == None
  {
    if Lookup(rows, engagement, key).Some? {
      assert IsAsset(rows, Lookup(rows, engagement, key).value, engagement, key);
    } else {
      assert forall i :: 0 <= i < |rows| ==> rows[i] in rows;
    }
    hide Lookup;
  }

  lemma IngestedIsFiled(start: seq<Asset>, rows: seq<Asset>, entities: seq<Entity>, ids: seq<nat>, engagement: Option<int>,
                        source: string, six: string -> Option<string>)
    requires ColonText(six) && Ingested(start, rows, Observations(entities, six), ids, engagement, source)
    ensures Filed(start, rows, entities, ids, engagement, source, six)
  {
    var obs := Observations(entities, six);
    ObservationsConsistent(entities, six);
    IngestKeeps(start, obs, engagement, source);
    hide Observations, Mentioned, Free, Lookup, Key, AddAll, ColonText, Consistent, HasAsset, NewAsset, ReturnsMentioned;
    forall target, kind | Mentioned(entities, target, kind, six)
      ensures HasAsset(start, rows, ids, target, kind, engagement, source)
    {
      MentionedIff(entities, six, Observation(target, kind));
      AssetOf(start, rows, obs, ids, engagement, source, Observation(target, kind));
    }
    forall i | |start| <= i < |rows| ensures NewAsset(start, rows[i], entities, engagement, source, six) {
      var o := NewRow(start, obs, engagement, source, i);
      NewFrom(start, rows[i], entities, engagement, source, six, o);
    }
    forall k | 0 <= k < |ids| ensures ReturnsMentioned(rows, ids[k], entities, engagement, six) {
      ReturnFrom(rows, ids[k], entities, engagement, six, obs[k]);
    }
  }

  lemma NewFrom(start: seq<Asset>, row: Asset, entities: seq<Entity>, engagement: Option<int>, source: string,
                six: string -> Option<string>, o: Observation)
    requires o in Observations(entities, six) && row == Fresh(o, engagement, source)
    requires Lookup(start, engagement, Key(o.target)) == None
    ensures NewAsset(start, row, entities, engagement, source, six)
  {
    MentionedIff(entities, six, o);
    FreeIff(start, engagement, Key(o.target));
    hide Observations, Mentioned, Free, Lookup, Key;
  }

  lemma ReturnFrom(rows: seq<Asset>, id: nat, entities: seq<Entity>, engagement: Option<int>,
                   six: string -> Option<string>, o: Observation)
    requires o in Observations(entities, six) && IsAsset(rows, id, engagement, Key(o.target))
    ensures ReturnsMentioned(rows, id, entities, engagement, six)
  {
    MentionedIff(entities, six, o);
    hide Observations, Mentioned, Key, IsAsset;
  }

  lemma AssetOf(start: seq<Asset>, rows: seq<Asset>, obs: seq<Observation>, ids: seq<nat>, engagement: Option<int>,
                source: string, o: Observation)
    requires Ingested(start, rows, obs, ids, engagement, source) && Consistent(obs) && o in obs
    ensures HasAsset(start, rows, ids, o.target, o.kind, engagement, source)
  {
    hide AddAll, Key, Lookup, Free;
    var k :| 0 <= k < |obs| && obs[k] == o;
    assert IsAsset(rows, ids[k], engagement, Key(o.target));
    IngestKeeps(start, obs, engagement, source);
    if Free(start, engagement, Key(o.target)) {
      StillFree(start, rows, ids[k], engagement, Key(o.target));
      var o' := NewRow(start, obs, engagement, source, ids[k]);
      assert o'.kind == o.kind;
    }
  }

  lemma StillFree(start: seq<Asset>, rows: seq<Asset>, i: nat, engagement: Option<int>, key: string)
    requires start <= rows && IsAsset(rows, i, engagement, key) && Free(start, engagement, key)
    ensures i >= |start|
  {
    assert !IsAsset(start, i, engagement, key);
  }

  /** The rows are those of the start with the observations added, and each noted id is that of its asset. */
  ghost predicate Ingested(start: seq<Asset>, rows: seq<Asset>, done: seq<Observation>, ids: seq<nat>,
                           engagement: Option<int>, source: string) {
    && rows == AddAll(start, done, engagement, source)
    && |ids| == |done|
    && forall i :: 0 <= i < |ids| ==>
         ids[i] < |rows| && rows[ids[i]].engagement == engagement && rows[ids[i]].target == Key(done[i].target)
  }

  lemma {:induction false} AddLast(rows: seq<Asset>, obs: seq<Observation>, o: Observation, e: Option<int>, source: string)
    ensures AddAll(rows, obs + [o], e, source) == Add(AddAll(rows, obs, e, source), o, e, source)
    decreases |obs|
  {
    hide Add;
    if obs == [] {
      assert obs + [o] == [o] && [o][1..] == [];
    } else {
      assert (obs + [o])[1..] == obs[1..] + [o];
      AddLast(Add(rows, obs[0], e, source), obs[1..], o, e, source);
    }
  }

  lemma AddFinds(rows: seq<Asset>, o: Observation, e: Option<int>, source: string)
    ensures rows <= Add(rows, o, e, source)
  {
  }

  lemma Noted(start: seq<Asset>, rows: seq<Asset>, done: seq<Observation>, ids: seq<nat>, engagement: Option<int>,
              source: string, o: Observation, id: nat)
    requires Ingested(start, rows, done, ids, engagement, source)
    requires var after := Add(rows, o, engagement, source);
      id < |after| && after[id].engagement == engagement && after[id].target == Key(o.target)
    ensures Ingested(start, Add(rows, o, engagement, source), done + [o], ids + [id], engagement, source)
  {
    AddLast(start, done, o, engagement, source);
    AddFinds(rows, o, engagement, source);
    hide Key, Add, AddAll;
  }

  lemma {:induction false} SeeAllLast(texts: seq<string>, i: nat, names: bool, six: string -> Option<string>)
    requires i < |texts|
    ensures SeeAll(texts[..i + 1], names, six)
         == SeeAll(texts[..i], names, six) + (if names then SeeDomain(texts[i]) else SeeIp(texts[i], six))
    decreases i
  {
    hide SeeDomain, SeeIp;
    if i == 0 {
      assert texts[..1] == [texts[0]] && [texts[0]][1..] == [] && texts[..0] == [];
    } else {
      SeeAllLast(texts[1..], i - 1, names, six);
      assert texts[1..][..i] == texts[..i + 1][1..] && texts[1..][..i - 1] == texts[..i][1..];
    }
  }

  lemma SeeOne(text: string, names: bool, six: string -> Option<string>)
    ensures SeeAll([text], names, six) == if names then SeeDomain(text) else SeeIp(text, six)
  {
    assert [text][1..] == [];
  }

  lemma {:induction false} ObservationsLast(entities: seq<Entity>, i: nat, six: string -> Option<string>)
    requires i < |entities|
    ensures Observations(entities[..i + 1], six) == Observations(entities[..i], six) + See(entities[i], six)
    decreases i
  {
    hide See;
    if i == 0 {
      assert entities[..1] == [entities[0]] && [entities[0]][1..] == [] && entities[..0] == [];
    } else {
      ObservationsLast(entities[1..], i - 1, six);
      assert entities[1..][..i] == entities[..i + 1][1..] && entities[1..][..i - 1] == entities[..i][1..];
    }
  }

  /** Nothing observed has an empty key. */
  lemma Observed(text: string, six: string -> Option<string>)
    requires ColonText(six)
    ensures forall o :: o in SeeIp(text, six) ==> AddressKey(Key(o.target)) && o.kind == "ip" && Key(o.target) != ""
    ensures forall o :: o in SeeDomain(text) ==> NameKey(Key(o.target)) && o.kind == "domain" && Key(o.target) != ""
  {
    hide NormalizeIp, NormalizeDomain, Key, ColonText;
    if NormalizeIp(text, six).Some? { AddressKeys(text, six); }
    if NormalizeDomain(text).Some? { NameKeys(text); }
  }

  // ---- What ingestion does to the registry ----

  function TypeOf(rows: seq<Asset>, engagement: Option<int>, target: string): Option<string> {
    match Lookup(rows, engagement, target) case None => None case Some(i) => Some(rows[i].kind)
  }

  lemma {:induction false} LookupAppend(rows: seq<Asset>, a: Asset, e: Option<int>, t: string)
    ensures Lookup(rows + [a], e, t) == if Lookup(rows, e, t).Some? then Lookup(rows, e, t)
      else if a.engagement == e && a.target == t then Some(|rows|) else None
    decreases |rows|
  {
    if rows == [] {
      assert rows + [a] == [a];
    } else {
      assert (rows + [a])[1..] == rows[1..] + [a];
      LookupAppend(rows[1..], a, e, t);
    }
  }

  /** No existing asset is altered, and the keys stay unique. */
  lemma {:induction false} IngestKeeps(rows: seq<Asset>, obs: seq<Observation>, e: Option<int>, source: string)
    ensures rows <= AddAll(rows, obs, e, source)
    ensures UniqueKeys(rows) ==> UniqueKeys(AddAll(rows, obs, e, source))
    decreases |obs|
  {
    if obs != [] { IngestKeeps(Add(rows, obs[0], e, source), obs[1..], e, source); }
  }

  ghost predicate Has(obs: seq<Observation>, target: string) { exists o :: o in obs && Key(o.target) == target }

  /** Observations of one target agree on its type. */
  ghost predicate Consistent(obs: seq<Observation>) {
    forall o, p :: o in obs && p in obs && Key(o.target) == Key(p.target) ==> o.kind == p.kind
  }

  /** A key has its old type if it had one; otherwise the type of its observation, if there is one. */
  lemma {:induction false} TypeAfter(rows: seq<Asset>, obs: seq<Observation>, e: Option<int>, source: string,
                                     engagement: Option<int>, target: string)
    requires Consistent(obs)
    ensures var r := TypeOf(AddAll(rows, obs, e, source), engagement, target);
      && (TypeOf(rows, engagement, target).Some? ==> r == TypeOf(rows, engagement, target))
      && (TypeOf(rows, engagement, target) == None && (engagement != e || !Has(obs, target)) ==> r == None)
      && (TypeOf(rows, engagement, target) == None && engagement == e ==>
            forall o :: o in obs && Key(o.target) == target ==> r == Some(o.kind))
    decreases |obs|
  {
    if obs != [] {
      var next := Add(rows, obs[0], e, source);
      LookupAppend(rows, Fresh(obs[0], e, source), engagement, target);
      hide Lookup, Key;
      assert obs[0] in obs;
      assert Consistent(obs[1..]) by { assert forall o :: o in obs[1..] ==> o in obs; }
      TypeAfter(next, obs[1..], e, source, engagement, target);
      assert forall o :: o in obs <==> o == obs[0] || o in obs[1..];
    }
  }

  /** Two lists with the same observations, in any order and number, give every key the same type. */
  lemma SameObservationsSameTypes(rows: seq<Asset>, xs: seq<Observation>, ys: seq<Observation>, e: Option<int>,
                                  source: string, engagement: Option<int>, target: string)
    requires Consistent(xs) && forall o :: o in xs <==> o in ys
    ensures TypeOf(AddAll(rows, xs, e, source), engagement, target) == TypeOf(AddAll(rows, ys, e, source), engagement, target)
  {
    hide TypeOf, AddAll, Key;
    assert Consistent(ys);
    TypeAfter(rows, xs, e, source, engagement, target);
    TypeAfter(rows, ys, e, source, engagement, target);
    if Has(xs, target) { var o :| o in xs && Key(o.target) == target; assert o in ys; }
    if Has(ys, target) { var o :| o in ys && Key(o.target) == target; assert o in xs; }
  }

  lemma {:induction false} SeenIn(texts: seq<string>, names: bool, six: string -> Option<string>)
    requires ColonText(six)
    ensures forall o :: o in SeeAll(texts, names, six) ==>
      Key(o.target) != "" && if names then NameKey(Key(o.target)) && o.kind == "domain" else AddressKey(Key(o.target)) && o.kind == "ip"
    decreases |texts|
  {
    if texts != [] {
      Observed(texts[0], six);
      SeenIn(texts[1..], names, six);
      hide SeeIp, SeeDomain, Key, NameKey, AddressKey;
    }
  }

  lemma {:induction false} MemberOfObservations(entities: seq<Entity>, six: string -> Option<string>, o: Observation)
    ensures o in Observations(entities, six) <==> exists e :: e in entities && o in See(e, six)
    decreases |entities|
  {
    hide See;
    if entities != [] {
      MemberOfObservations(entities[1..], six, o);
      assert forall e :: e in entities <==> e == entities[0] || e in entities[1..];
    }
  }

  ghost predicate WellTyped(o: Observation) {
    || (o.kind == "ip" && AddressKey(Key(o.target)))
    || (o.kind == "domain" && NameKey(Key(o.target)))
  }

  lemma EntityWellTyped(e: Entity, six: string -> Option<string>)
    requires ColonText(six)
    ensures forall o :: o in See(e, six) ==> WellTyped(o)
  {
    match e
    case Host(addresses, hostnames) =>
      SeenIn(addresses, false, six);
      SeenIn(hostnames, true, six);
    case DnsRecord(name, value) =>
      Observed(name, six);
      Observed(value, six);
    case HttpResponse =>
    case OtherEntity =>
  }

  lemma ObservationsConsistent(entities: seq<Entity>, six: string -> Option<string>)
    requires ColonText(six)
    ensures Consistent(Observations(entities, six))
  {
    hide Key;
    forall o | o in Observations(entities, six) ensures WellTyped(o) {
      MemberOfObservations(entities, six, o);
      var e :| e in entities && o in See(e, six);
      EntityWellTyped(e, six);
    }
  }

  /** Ingestion is insensitive to the order and repetition of entities: from any registry, lists with the same
      entities end with the same types for all keys. */
  lemma OrderAndRepetitionDoNotMatter(rows: seq<Asset>, xs: seq<Entity>, ys: seq<Entity>, six: string -> Option<string>,
                                      e: Option<int>, source: string, engagement: Option<int>, target: string)
    requires ColonText(six) && forall x :: x in xs <==> x in ys
    ensures TypeOf(AddAll(rows, Observations(xs, six), e, source), engagement, target)
         == TypeOf(AddAll(rows, Observations(ys, six), e, source), engagement, target)
  {
    hide See, TypeOf, AddAll, ColonText, Consistent;
    ObservationsConsistent(xs, six);
    forall o ensures o in Observations(xs, six) <==> o in Observations(ys, six) {
      MemberOfObservations(xs, six, o);
      MemberOfObservations(ys, six, o);
    }
    SameObservationsSameTypes(rows, Observations(xs, six), Observations(ys, six), e, source, engagement, target);
  }

  lemma {:induction false} AddPresent(rows: seq<Asset>, obs: seq<Observation>, e: Option<int>, source: string)
    requires forall o :: o in obs ==> Lookup(rows, e, Key(o.target)).Some?
    ensures AddAll(rows, obs, e, source) == rows
    decreases |obs|
  {
    hide Key;
    if obs != [] { AddPresent(rows, obs[1..], e, source); }
  }

  lemma LookupGrows(rows: seq<Asset>, more: seq<Asset>, e: Option<int>, target: string)
    requires rows <= more && Lookup(rows, e, target).Some?
    ensures Lookup(more, e, target).Some?
  {
    hide Lookup;
    assert rows[Lookup(rows, e, target).value] in more;
  }

  lemma {:induction false} AllFound(rows: seq<Asset>, obs: seq<Observation>, e: Option<int>, source: string, o: Observation)
    requires o in obs
    ensures Lookup(AddAll(rows, obs, e, source), e, Key(o.target)).Some?
    decreases |obs|
  {
    hide Key, Lookup;
    var next := Add(rows, obs[0], e, source);
    if o == obs[0] {
      AddFound(rows, o, e, source);
      IngestKeeps(next, obs[1..], e, source);
      LookupGrows(next, AddAll(rows, obs, e, source), e, Key(o.target));
    } else {
      AllFound(next, obs[1..], e, source, o);
    }
  }

  lemma AddFound(rows: seq<Asset>, o: Observation, e: Option<int>, source: string)
    ensures Lookup(Add(rows, o, e, source), e, Key(o.target)).Some?
  {
    hide Key;
    var r := Add(rows, o, e, source);
    if Lookup(rows, e, Key(o.target)) == None { assert r[|rows|] in r; }
  }

  /** Ingesting the same entities again changes nothing at all. */
  lemma IngestAgain(rows: seq<Asset>, obs: seq<Observation>, e: Option<int>, source: string, again: string)
    ensures AddAll(AddAll(rows, obs, e, source), obs, e, again) == AddAll(rows, obs, e, source)
  {
    hide Key, Lookup;
    var after := AddAll(rows, obs, e, source);
    forall o | o in obs ensures Lookup(after, e, Key(o.target)).Some? {
      AllFound(rows, obs, e, source, o);
    }
    AddPresent(after, obs, e, again);
  }
}
