/** Layered configuration: the recursive merge and the order defaults < file < profile < overrides. */
module ConfigMerge {
  import opened Common
  import opened Json
  import Drift

  /** `_deep_merge`, extended to any two values: tables merge key by key, otherwise the override wins. */
  function Merge(base: Json, over: Json): Json
    decreases over
  {
    if base.Obj? && over.Obj? then
      Obj(map k | k in base.fields.Keys + over.fields.Keys ::
        if k !in over.fields then base.fields[k]
        else if k !in base.fields then over.fields[k]
        else Merge(base.fields[k], over.fields[k]))
    else over
  }

  const NOTHING := Obj(map[])

  method DeepMerge(base: Json, over: Json) returns (out: Json)
    requires base.Obj? && over.Obj?
    ensures out == Merge(base, over)
    decreases over
  {
    var fields := base.fields;
    var todo := over.fields.Keys;
    while todo != {}
      invariant todo <= over.fields.Keys
      invariant fields.Keys == base.fields.Keys + (over.fields.Keys - todo)
      invariant forall k :: k in fields && (k in todo || k !in over.fields) ==> fields[k] == base.fields[k]
      invariant forall k :: k in fields && k !in todo && k in over.fields ==>
        fields[k] == if k in base.fields then Merge(base.fields[k], over.fields[k]) else over.fields[k]
      decreases todo
    {
      var key :| key in todo;
      var value := over.fields[key];
      if value.Obj? && key in fields && fields[key].Obj? {
        var merged := DeepMerge(fields[key], value);
        fields := fields[key := merged];
      } else {
        fields := fields[key := value];
      }
      todo := todo - {key};
    }
    out := Obj(fields);
    assert fields == Merge(base, over).fields;
  }

  // ---- Laws ----

  lemma MergeNothing(a: Json)
    requires a.Obj?
    ensures Merge(a, NOTHING) == a && Merge(NOTHING, a) == a
  {
    assert Merge(a, NOTHING).fields == a.fields;
    assert Merge(NOTHING, a).fields == a.fields;
  }

  /** The override is absorbed: merging it again changes nothing. */
  lemma {:induction false} MergeAbsorbs(a: Json, b: Json)
    ensures Merge(Merge(a, b), b) == Merge(a, b)
    ensures Merge(b, b) == b
    decreases b
  {
    if b.Obj? {
      forall k | k in b.fields
        ensures Merge(b.fields[k], b.fields[k]) == b.fields[k]
      {
        MergeAbsorbs(b.fields[k], b.fields[k]);
      }
      assert Merge(b, b).fields == b.fields;
      if a.Obj? {
        forall k | k in b.fields && k in a.fields
          ensures Merge(Merge(a.fields[k], b.fields[k]), b.fields[k]) == Merge(a.fields[k], b.fields[k])
        {
          MergeAbsorbs(a.fields[k], b.fields[k]);
        }
        assert Merge(Merge(a, b), b).fields == Merge(a, b).fields;
      }
    }
  }

  /** Everything `a` says is overridden by `c`. */
  ghost predicate Covered(a: Json, c: Json)
    decreases c
  {
    a.Obj? && c.Obj? ==>
      forall k :: k in a.fields ==> k in c.fields && Covered(a.fields[k], c.fields[k])
  }

  lemma {:induction false} CoveredIff(a: Json, c: Json)
    ensures Merge(a, c) == c <==> Covered(a, c)
    decreases c
  {
    if a.Obj? && c.Obj? {
      var m := Merge(a, c).fields;
      forall k | k in a.fields && k in c.fields
        ensures m[k] == c.fields[k] <==> Covered(a.fields[k], c.fields[k])
      {
        CoveredIff(a.fields[k], c.fields[k]);
      }
      if Covered(a, c) { assert m == c.fields; }
      if Merge(a, c) == c {
        forall k | k in a.fields ensures k in c.fields && Covered(a.fields[k], c.fields[k]) {
          assert k in m;
        }
      }
    }
  }

  /** Wherever `a` and `c` both hold a table, `b` holds one too or nothing, or else `c` covers `a`. */
  ghost predicate ShapesAgree(a: Json, b: Json, c: Json)
    decreases c
  {
    a.Obj? && c.Obj? ==>
      if b.Obj? then
        forall k :: k in a.fields && k in b.fields && k in c.fields ==>
          ShapesAgree(a.fields[k], b.fields[k], c.fields[k])
      else Covered(a, c)
  }

  /** Layers may be merged in any grouping exactly when no scalar of the middle layer stands between two
      tables of which the upper does not cover the lower. */
  lemma {:induction false} AssociativeIff(a: Json, b: Json, c: Json)
    ensures Merge(Merge(a, b), c) == Merge(a, Merge(b, c)) <==> ShapesAgree(a, b, c)
    decreases c
  {
    if a.Obj? && c.Obj? {
      if b.Obj? {
        var l, r := Merge(Merge(a, b), c).fields, Merge(a, Merge(b, c)).fields;
        assert l.Keys == r.Keys;
        forall k | k in l
          ensures l[k] == r[k] <==>
            (k in a.fields && k in b.fields && k in c.fields ==> ShapesAgree(a.fields[k], b.fields[k], c.fields[k]))
        {
          if k in a.fields && k in b.fields && k in c.fields {
            AssociativeIff(a.fields[k], b.fields[k], c.fields[k]);
          }
        }
        if ShapesAgree(a, b, c) { assert l == r; }
        if l == r {
          forall k | k in a.fields && k in b.fields && k in c.fields
            ensures ShapesAgree(a.fields[k], b.fields[k], c.fields[k])
          {
            assert k in l && l[k] == r[k];
          }
        }
      } else {
        CoveredIff(a, c);
      }
    }
  }

  lemma ScalarBetweenTables()
    ensures var a, b, c := Obj(map["x" := Obj(map["p" := Num(1)])]), Obj(map["x" := Num(5)]), Obj(map["x" := Obj(map[])]);
      Merge(Merge(a, b), c) != Merge(a, Merge(b, c))
  {
    var a, b, c := Obj(map["x" := Obj(map["p" := Num(1)])]), Obj(map["x" := Num(5)]), Obj(map["x" := Obj(map[])]);
    assert "p" in a.fields["x"].fields && "p" !in c.fields["x"].fields;
    assert !Covered(a.fields["x"], c.fields["x"]);
    assert !ShapesAgree(a.fields["x"], b.fields["x"], c.fields["x"]);
    assert !ShapesAgree(a, b, c) by { assert "x" in a.fields; }
    AssociativeIff(a, b, c);
  }

  // ---- Which layer a setting comes from ----

  type Path = seq<string>

  /** The scalar or list at a path. */
  function Leaf(doc: Json, path: Path): Option<Json>
    decreases |path|
  {
    if path == [] then (if doc.Obj? then None else Some(doc))
    else if doc.Obj? && path[0] in doc.fields then Leaf(doc.fields[path[0]], path[1..])
    else None
  }

  /** The document hides what lower layers say at the path: it defines the path itself (a table at the very
      path only hides a lower scalar), or holds a scalar on the way. */
  predicate Shadows(doc: Json, path: Path)
    decreases |path|
  {
    if path == [] then true
    else if !doc.Obj? then true
    else path[0] in doc.fields && Shadows(doc.fields[path[0]], path[1..])
  }

  lemma {:induction false} MergeLeaf(a: Json, b: Json, path: Path)
    ensures Leaf(Merge(a, b), path) == if Shadows(b, path) then Leaf(b, path) else Leaf(a, path)
    decreases |path|
  {
    NoShadowNoLeaf(b, path);
    if path != [] && a.Obj? && b.Obj? && path[0] in a.fields && path[0] in b.fields {
      MergeLeaf(a.fields[path[0]], b.fields[path[0]], path[1..]);
    }
  }

  /** Layers from lowest to highest, merged as the loader does it. */
  function MergeAll(layers: seq<Json>): Json
    requires layers != []
  {
    if |layers| == 1 then layers[0] else Merge(MergeAll(layers[..|layers|-1]), layers[|layers|-1])
  }

  /** The highest layer that shadows the path decides; if none does, there is no such setting. */
  function Winner(layers: seq<Json>, path: Path): Option<Json> {
    if layers == [] then None
    else
      var top := layers[|layers|-1];
      if Shadows(top, path) then Leaf(top, path) else Winner(layers[..|layers|-1], path)
  }

  lemma NoShadowNoLeaf(doc: Json, path: Path)
    ensures !Shadows(doc, path) ==> Leaf(doc, path) == None
    decreases |path|
  {
  }

  /** Every setting of the merged configuration comes from the highest layer that has a say on it. */
  lemma {:induction false} HighestLayerWins(layers: seq<Json>, path: Path)
    requires layers != []
    ensures Leaf(MergeAll(layers), path) == Winner(layers, path)
    decreases |layers|
  {
    var top := layers[|layers|-1];
    if |layers| == 1 {
      NoShadowNoLeaf(top, path);
      assert Winner([], path) == None;
    } else {
      HighestLayerWins(layers[..|layers|-1], path);
      MergeLeaf(MergeAll(layers[..|layers|-1]), top, path);
    }
  }

  // ---- The loader ----

  /** The `[profiles.<name>]` table of a document, if there is one. */
  function ProfileOf(doc: Json, name: string): Option<Json> {
    if doc.Obj? && "profiles" in doc.fields && doc.fields["profiles"].Obj?
       && name in doc.fields["profiles"].fields && doc.fields["profiles"].fields[name].Obj?
    then Some(doc.fields["profiles"].fields[name])
    else None
  }

  /** The selected profile is the table that the document holds at profiles.<name>. */
  lemma ProfileIsAt(doc: Json, name: string, table: Json)
    ensures ProfileOf(doc, name) == Some(table) <==> table.Obj? && Drift.Get(doc, ["profiles", name]) == Some(table)
  {
    var path := ["profiles", name];
    assert path[1..] == [name] && [name][1..] == [];
    if doc.Obj? && "profiles" in doc.fields {
      var p := doc.fields["profiles"];
      assert Drift.Get(doc, path) == Drift.Get(p, [name]);
      if p.Obj? && name in p.fields { assert Drift.Get(p, [name]) == Drift.Get(p.fields[name], []) == Some(p.fields[name]); }
    }
  }

  /** What the first candidate file gives: there is none, or it cannot be read or parsed, or it is a document. */
  datatype FileRead = Missing | Unreadable | Parsed(doc: Json)

  /** `load_config_dict` followed by the overrides of `KsecConfig.load`. */
  method Load(defaults: Json, file: FileRead, profile: string, overrides: Json) returns (r: Result<Json>)
    requires defaults.Obj? && overrides.Obj? && (file.Parsed? ==> file.doc.Obj?)
    ensures var user := if file.Parsed? then file.doc else NOTHING;
      var selected := ProfileOf(Merge(defaults, user), profile);
      && (r.Err? <==> file.Unreadable? || (profile != "" && selected == None))
      && (r.Ok? ==> r.value == MergeAll([defaults, user] + (if profile != "" then [selected.value] else []) + [overrides]))
  {
    var merged := DeepMerge(defaults, NOTHING);
    MergeNothing(defaults);
    ghost var user := if file.Parsed? then file.doc else NOTHING;
    if file.Unreadable? { return Err("Failed to read config"); }
    if file.Parsed? { merged := DeepMerge(merged, file.doc); }
    ghost var lower := [defaults, user];
    assert lower[..1] == [defaults];
    assert merged == MergeAll(lower);
    if profile != "" {
      var selected := ProfileOf(merged, profile);
      if selected == None { return Err("Unknown config profile"); }
      merged := DeepMerge(merged, selected.value);
      assert (lower + [selected.value])[..2] == lower;
      lower := lower + [selected.value];
    }
    assert (lower + [overrides])[..|lower|] == lower;
    if overrides.fields != map[] { merged := DeepMerge(merged, overrides); } else { MergeNothing(merged); }
    assert merged == MergeAll(lower + [overrides]);
    assert lower + [overrides] == [defaults, user] + lower[2..] + [overrides];
    return Ok(merged);
  }

  /** End to end: a command-line override beats the profile, which beats the file, which beats the defaults. */
  lemma LoadPrecedence(defaults: Json, user: Json, selected: Json, overrides: Json, path: Path)
    ensures Leaf(MergeAll([defaults, user, selected, overrides]), path)
      == if Shadows(overrides, path) then Leaf(overrides, path)
         else if Shadows(selected, path) then Leaf(selected, path)
         else if Shadows(user, path) then Leaf(user, path)
         else Leaf(defaults, path)
  {
    var layers := [defaults, user, selected, overrides];
    HighestLayerWins(layers, path);
    NoShadowNoLeaf(defaults, path);
    WinnerStep([], defaults, path);
    WinnerStep([defaults], user, path);
    WinnerStep([defaults, user], selected, path);
    WinnerStep([defaults, user, selected], overrides, path);
    assert [] + [defaults] == [defaults] && [defaults] + [user] == [defaults, user];
    assert [defaults, user] + [selected] == [defaults, user, selected];
    assert layers == [defaults, user, selected] + [overrides];
  }

  lemma WinnerStep(layers: seq<Json>, top: Json, path: Path)
    ensures Winner(layers + [top], path) == if Shadows(top, path) then Leaf(top, path) else Winner(layers, path)
  {
    assert (layers + [top])[..|layers|] == layers;
  }
}
