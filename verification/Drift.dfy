/** Baseline drift: the recursive document diff and the report that is stored for a scan. */
module Drift {
  import opened Common
  import opened Json

  /** A path is the list of keys that leads to a value. */
  type Path = seq<string>

  datatype Item =
    | Added(path: Path, value: Json)
    | Removed(path: Path, value: Json)
    | Changed(path: Path, before: Json, after: Json)

  function Under(key: string, item: Item): Item {
    item.(path := [key] + item.path)
  }

  function AllUnder(key: string, items: seq<Item>): (r: seq<Item>)
    ensures |r| == |items|
    ensures forall i :: 0 <= i < |r| ==> r[i] == Under(key, items[i])
  {
    seq(|items|, i requires 0 <= i < |items| => Under(key, items[i]))
  }

  // ---- The diff ----

  function Diff(a: Json, b: Json): seq<Item>
    decreases a, 1, 0
  {
    if a.Obj? && b.Obj? then DiffKeys(a, b, Sorted(a.fields.Keys + b.fields.Keys))
    else if a != b then [Changed([], a, b)]
    else []
  }

  function DiffKeys(a: Json, b: Json, keys: seq<string>): seq<Item>
    requires a.Obj? && b.Obj?
    requires forall k :: k in keys ==> k in a.fields || k in b.fields
    decreases a, 0, |keys|
  {
    if keys == [] then []
    else DiffKey(a, b, keys[0]) + DiffKeys(a, b, keys[1..])
  }

  function DiffKey(a: Json, b: Json, key: string): seq<Item>
    requires a.Obj? && b.Obj?
    requires key in a.fields || key in b.fields
    decreases a, 0, 0
  {
    if key !in a.fields then [Added([key], b.fields[key])]
    else if key !in b.fields then [Removed([key], a.fields[key])]
    else AllUnder(key, Diff(a.fields[key], b.fields[key]))
  }

  // ---- Reading and patching documents ----

  function Get(doc: Json, path: Path): Option<Json> {
    if path == [] then Some(doc)
    else if doc.Obj? && path[0] in doc.fields then Get(doc.fields[path[0]], path[1..])
    else None
  }

  /** Store (or, with None, delete) the value at a path; a path through a missing table is ignored. */
  function Put(doc: Json, path: Path, value: Option<Json>): Json
    decreases |path|
  {
    if path == [] then (if value.Some? then value.value else doc)
    else if !doc.Obj? then doc
    else if |path| == 1 then
      match value
      case Some(v) => Obj(doc.fields[path[0] := v])
      case None => Obj(doc.fields - {path[0]})
    else if path[0] in doc.fields then
      Obj(doc.fields[path[0] := Put(doc.fields[path[0]], path[1..], value)])
    else doc
  }

  function Apply(doc: Json, item: Item): Json {
    match item
    case Added(p, v) => Put(doc, p, Some(v))
    case Removed(p, _) => Put(doc, p, None)
    case Changed(p, _, v) => Put(doc, p, Some(v))
  }

  function Patch(doc: Json, items: seq<Item>): Json
    decreases |items|
  {
    if items == [] then doc else Patch(Apply(doc, items[0]), items[1..])
  }

  function Invert(item: Item): Item {
    match item
    case Added(p, v) => Removed(p, v)
    case Removed(p, v) => Added(p, v)
    case Changed(p, x, y) => Changed(p, y, x)
  }

  function InvertAll(items: seq<Item>): (r: seq<Item>)
    ensures |r| == |items|
    ensures forall i :: 0 <= i < |r| ==> r[i] == Invert(items[i])
  {
    seq(|items|, i requires 0 <= i < |items| => Invert(items[i]))
  }

  lemma {:induction false} PatchConcat(doc: Json, xs: seq<Item>, ys: seq<Item>)
    ensures Patch(doc, xs + ys) == Patch(Patch(doc, xs), ys)
    decreases |xs|
  {
    if xs == [] {
      assert xs + ys == ys;
    } else {
      assert (xs + ys)[0] == xs[0] && (xs + ys)[1..] == xs[1..] + ys;
      PatchConcat(Apply(doc, xs[0]), xs[1..], ys);
    }
  }

  lemma PatchOne(doc: Json, item: Item)
    ensures Patch(doc, [item]) == Apply(doc, item)
  {
    assert Patch(doc, [item]) == Patch(Apply(doc, item), [item][1..]);
  }

  /** Every item that is not a replacement of the whole document names at least one key. */
  predicate Proper(item: Item) {
    item.Changed? || item.path != []
  }

  lemma {:induction false} PatchUnder(doc: Json, key: string, items: seq<Item>)
    requires doc.Obj? && key in doc.fields
    requires forall i :: 0 <= i < |items| ==> Proper(items[i])
    ensures Patch(doc, AllUnder(key, items)) == Obj(doc.fields[key := Patch(doc.fields[key], items)])
    decreases |items|
  {
    if items == [] {
      assert doc.fields[key := doc.fields[key]] == doc.fields;
    } else {
      var head := Under(key, items[0]);
      var doc' := Apply(doc, head);
      assert head.path[1..] == items[0].path;
      assert doc' == Obj(doc.fields[key := Apply(doc.fields[key], items[0])]);
      assert AllUnder(key, items)[1..] == AllUnder(key, items[1..]);
      PatchUnder(doc', key, items[1..]);
      assert doc'.fields[key := Patch(doc'.fields[key], items[1..])]
          == doc.fields[key := Patch(doc.fields[key], items)];
    }
  }

  lemma DiffProper(a: Json, b: Json)
    ensures forall i :: 0 <= i < |Diff(a, b)| ==> Proper(Diff(a, b)[i])
  {
    if a.Obj? && b.Obj? { DiffKeysProper(a, b, Sorted(a.fields.Keys + b.fields.Keys)); }
  }

  lemma DiffKeysProper(a: Json, b: Json, keys: seq<string>)
    requires a.Obj? && b.Obj?
    requires forall k :: k in keys ==> k in a.fields || k in b.fields
    ensures forall i :: 0 <= i < |DiffKeys(a, b, keys)| ==>
      Proper(DiffKeys(a, b, keys)[i]) && DiffKeys(a, b, keys)[i].path != []
  {
  }

  // ---- Round trip ----

  /** Patching the old document with its drift report gives exactly the new document. */
  lemma {:induction false} DiffThenPatch(a: Json, b: Json)
    ensures Patch(a, Diff(a, b)) == b
    decreases a, 1, 0
  {
    if a.Obj? && b.Obj? {
      var keys := Sorted(a.fields.Keys + b.fields.Keys);
      PatchKeys(a, b, a, keys);
      var r := Patch(a, Diff(a, b));
      assert r.fields.Keys == b.fields.Keys;
      assert r.fields == b.fields;
    } else if a != b {
      assert Patch(a, [Changed([], a, b)]) == Patch(b, []);
    }
  }

  /** While the keys still to visit hold their old values, visiting them gives them their new ones. */
  lemma {:induction false} PatchKeys(a: Json, b: Json, doc: Json, keys: seq<string>)
    requires a.Obj? && b.Obj? && doc.Obj?
    requires Ascending(keys)
    requires forall k :: k in keys ==> k in a.fields || k in b.fields
    requires forall k :: k in keys ==> (k in doc.fields <==> k in a.fields)
    requires forall k :: k in keys && k in a.fields ==> doc.fields[k] == a.fields[k]
    ensures var r := Patch(doc, DiffKeys(a, b, keys));
      && r.Obj?
      && (forall k :: k in keys ==> (k in r.fields <==> k in b.fields))
      && (forall k :: k in keys && k in b.fields ==> r.fields[k] == b.fields[k])
      && (forall k :: k !in keys ==> (k in r.fields <==> k in doc.fields))
      && (forall k :: k !in keys && k in doc.fields ==> r.fields[k] == doc.fields[k])
    decreases a, 0, |keys|
  {
    if keys != [] {
      var key := keys[0];
      var first := DiffKey(a, b, key);
      var mid := Patch(doc, first);
      if key !in a.fields {
        PatchOne(doc, first[0]);
        assert mid == Obj(doc.fields[key := b.fields[key]]);
      } else if key !in b.fields {
        PatchOne(doc, first[0]);
        assert mid == Obj(doc.fields - {key});
      } else {
        DiffProper(a.fields[key], b.fields[key]);
        PatchUnder(doc, key, Diff(a.fields[key], b.fields[key]));
        DiffThenPatch(a.fields[key], b.fields[key]);
        assert mid == Obj(doc.fields[key := b.fields[key]]);
      }
      forall k | k in keys[1..] ensures k != key {
        var i :| 0 <= i < |keys[1..]| && keys[1..][i] == k;
        assert LexLt(keys[0], keys[i + 1]);
      }
      assert forall k :: k in keys <==> k == key || k in keys[1..];
      PatchConcat(doc, first, DiffKeys(a, b, keys[1..]));
      PatchKeys(a, b, mid, keys[1..]);
    }
  }

  // ---- Completeness, symmetry and the inverse round trip ----

  lemma {:induction false} DiffSelf(a: Json)
    ensures Diff(a, a) == []
    decreases a, 1, 0
  {
    if a.Obj? { DiffKeysSelf(a, Sorted(a.fields.Keys + a.fields.Keys)); }
  }

  lemma {:induction false} DiffKeysSelf(a: Json, keys: seq<string>)
    requires a.Obj?
    requires forall k :: k in keys ==> k in a.fields
    ensures DiffKeys(a, a, keys) == []
    decreases a, 0, |keys|
  {
    if keys != [] {
      DiffSelf(a.fields[keys[0]]);
      DiffKeysSelf(a, keys[1..]);
    }
  }

  /** A scan reports nothing exactly when nothing changed. */
  lemma CleanIffEqual(a: Json, b: Json)
    ensures Diff(a, b) == [] <==> a == b
  {
    DiffSelf(a);
    DiffThenPatch(a, b);
  }

  lemma InvertConcat(xs: seq<Item>, ys: seq<Item>)
    ensures InvertAll(xs + ys) == InvertAll(xs) + InvertAll(ys)
  {
  }

  lemma InvertUnder(key: string, items: seq<Item>)
    ensures InvertAll(AllUnder(key, items)) == AllUnder(key, InvertAll(items))
  {
  }

  /** Swapping the documents swaps added with removed and before with after, item by item. */
  lemma {:induction false} DiffSwap(a: Json, b: Json)
    ensures Diff(b, a) == InvertAll(Diff(a, b))
    decreases a, 1, 0
  {
    if a.Obj? && b.Obj? {
      assert a.fields.Keys + b.fields.Keys == b.fields.Keys + a.fields.Keys;
      DiffKeysSwap(a, b, Sorted(a.fields.Keys + b.fields.Keys));
    }
  }

  lemma {:induction false} DiffKeysSwap(a: Json, b: Json, keys: seq<string>)
    requires a.Obj? && b.Obj?
    requires forall k :: k in keys ==> k in a.fields || k in b.fields
    ensures DiffKeys(b, a, keys) == InvertAll(DiffKeys(a, b, keys))
    decreases a, 0, |keys|
  {
    if keys != [] {
      var key := keys[0];
      if key in a.fields && key in b.fields {
        DiffSwap(a.fields[key], b.fields[key]);
        InvertUnder(key, Diff(a.fields[key], b.fields[key]));
      }
      InvertConcat(DiffKey(a, b, key), DiffKeys(a, b, keys[1..]));
      DiffKeysSwap(a, b, keys[1..]);
    }
  }

  /** The inverted report takes the new document back to the old one. */
  lemma InvertedPatchRestores(a: Json, b: Json)
    ensures Patch(b, InvertAll(Diff(a, b))) == a
  {
    DiffSwap(a, b);
    DiffThenPatch(b, a);
  }

  // ---- Order and truth of the items ----

  /** At the first key where the two paths part, p has the smaller key; neither path extends the other. */
  predicate Before(p: Path, q: Path) {
    p != [] && q != [] && (LexLt(p[0], q[0]) || (p[0] == q[0] && Before(p[1..], q[1..])))
  }

  predicate Ordered(items: seq<Item>) {
    forall i, j :: 0 <= i < j < |items| ==> Before(items[i].path, items[j].path)
  }

  /** What an item says about the two documents is the case. */
  predicate Truthful(a: Json, b: Json, item: Item) {
    match item
    case Added(p, v) => Get(a, p) == None && Get(b, p) == Some(v)
    case Removed(p, v) => Get(a, p) == Some(v) && Get(b, p) == None
    case Changed(p, x, y) => Get(a, p) == Some(x) && Get(b, p) == Some(y) && x != y && !(x.Obj? && y.Obj?)
  }

  /** Each difference is reported once: paths ascend strictly and none is a prefix of another. */
  lemma {:induction false} DiffOrdered(a: Json, b: Json)
    ensures Ordered(Diff(a, b))
    ensures forall i :: 0 <= i < |Diff(a, b)| ==> Truthful(a, b, Diff(a, b)[i])
    decreases a, 1, 0
  {
    if a.Obj? && b.Obj? { DiffKeysOrdered(a, b, Sorted(a.fields.Keys + b.fields.Keys)); }
  }

  lemma TruthfulUnder(a: Json, b: Json, key: string, item: Item)
    requires a.Obj? && b.Obj? && key in a.fields && key in b.fields
    requires Truthful(a.fields[key], b.fields[key], item)
    ensures Under(key, item).path[1..] == item.path && Truthful(a, b, Under(key, item))
  {
    assert Under(key, item).path[1..] == item.path;
  }

  lemma {:induction false} DiffKeyOrdered(a: Json, b: Json, key: string)
    requires a.Obj? && b.Obj?
    requires key in a.fields || key in b.fields
    ensures Ordered(DiffKey(a, b, key))
    ensures forall i :: 0 <= i < |DiffKey(a, b, key)| ==>
      var item := DiffKey(a, b, key)[i];
      item.path != [] && item.path[0] == key && Truthful(a, b, item)
    decreases a, 0, 0
  {
    if key in a.fields && key in b.fields {
      var inner := Diff(a.fields[key], b.fields[key]);
      DiffOrdered(a.fields[key], b.fields[key]);
      forall i | 0 <= i < |inner|
        ensures Under(key, inner[i]).path[1..] == inner[i].path && Truthful(a, b, Under(key, inner[i]))
      {
        TruthfulUnder(a, b, key, inner[i]);
      }
    } else {
      assert [key][1..] == [];
      assert Get(a, [key]) == if key in a.fields then Some(a.fields[key]) else None;
      assert Get(b, [key]) == if key in b.fields then Some(b.fields[key]) else None;
    }
  }

  lemma {:induction false} DiffKeysOrdered(a: Json, b: Json, keys: seq<string>)
    requires a.Obj? && b.Obj?
    requires Ascending(keys)
    requires forall k :: k in keys ==> k in a.fields || k in b.fields
    ensures Ordered(DiffKeys(a, b, keys))
    ensures forall i :: 0 <= i < |DiffKeys(a, b, keys)| ==>
      var item := DiffKeys(a, b, keys)[i];
      item.path != [] && item.path[0] in keys && Truthful(a, b, item)
    decreases a, 0, |keys|
  {
    if keys != [] {
      var first, rest := DiffKey(a, b, keys[0]), DiffKeys(a, b, keys[1..]);
      DiffKeyOrdered(a, b, keys[0]);
      DiffKeysOrdered(a, b, keys[1..]);
      forall i, j | 0 <= i < |first| && 0 <= j < |rest|
        ensures Before(first[i].path, rest[j].path)
      {
        var n :| 0 <= n < |keys[1..]| && keys[1..][n] == rest[j].path[0];
        assert LexLt(keys[0], keys[n + 1]);
      }
    }
  }

  // ---- The rendered report ----

  /** How the walk extends the rendered path by a key. */
  function Extend(rendered: string, key: string): string {
    if rendered == "" then key else rendered + "." + key
  }

  function RenderFrom(rendered: string, path: Path): string
    decreases |path|
  {
    if path == [] then rendered else RenderFrom(Extend(rendered, path[0]), path[1..])
  }

  function Render(path: Path): string { RenderFrom("", path) }

  predicate PlainKey(key: string) { key != "" && '.' !in key }

  predicate PlainPath(path: Path) { forall k :: k in path ==> PlainKey(k) }

  lemma {:induction false} RenderLast(rendered: string, path: Path)
    requires path != []
    ensures RenderFrom(rendered, path) == Extend(RenderFrom(rendered, path[..|path|-1]), path[|path|-1])
    decreases |path|
  {
    if |path| > 1 {
      RenderLast(Extend(rendered, path[0]), path[1..]);
      assert path[1..][..|path[1..]|-1] == path[..|path|-1][1..];
    }
  }

  lemma {:induction false} RenderShape(path: Path)
    requires PlainPath(path)
    ensures Render(path) == "" <==> path == []
    ensures '.' in Render(path) <==> |path| > 1
    decreases |path|
  {
    if path != [] {
      var front, key := path[..|path|-1], path[|path|-1];
      RenderLast("", path);
      assert key in path;
      if |path| > 1 {
        RenderShape(front);
        assert Render(path)[|Render(front)|] == '.';
      }
    }
  }

  lemma LastDot(x: string, k: string, y: string, l: string)
    requires x + "." + k == y + "." + l
    requires '.' !in k && '.' !in l
    ensures x == y && k == l
  {
    var s := x + "." + k;
    assert s[|x|] == '.' && s[|y|] == '.';
    assert forall i :: |x| < i < |s| ==> s[i] == k[i - |x| - 1];
    assert forall i :: |y| < i < |s| ==> s[i] == l[i - |y| - 1];
    assert x == s[..|x|] && y == s[..|y|];
    assert k == s[|x| + 1..] && l == s[|y| + 1..];
  }

  /** With non-empty keys free of dots, the rendered path names one path only. */
  lemma {:induction false} RenderInjective(p: Path, q: Path)
    requires PlainPath(p) && PlainPath(q)
    requires Render(p) == Render(q)
    ensures p == q
    decreases |p|
  {
    RenderShape(p);
    RenderShape(q);
    if p != [] {
      RenderLast("", p);
      RenderLast("", q);
      var p', k := p[..|p|-1], p[|p|-1];
      var q', l := q[..|q|-1], q[|q|-1];
      assert k in p && l in q;
      RenderShape(p');
      RenderShape(q');
      if p' != [] && q' != [] { LastDot(Render(p'), k, Render(q'), l); }
      RenderInjective(p', q');
      assert p == p' + [k] && q == q' + [l];
    }
  }

  /** Every other key takes part in a collision, so the condition above cannot be relaxed for any key. */
  lemma OtherKeysCollide(key: string)
    requires !PlainKey(key)
    ensures exists p, q :: p != q && key in p && Render(p) == Render(q)
  {
    if key == "" {
      Collide([key, "x"], ["x"], key);
    } else {
      var i :| 0 <= i < |key| && key[i] == '.';
      var x, y := key[..i], key[i + 1..];
      assert key == x + "." + y;
      if x == "" {
        assert RenderFrom("a", [key]) == "a" + "." + key;
        assert RenderFrom("a.", [y]) == "a." + "." + y;
        assert ["a", key][1..] == [key] && ["a.", y][1..] == [y];
        Collide(["a", key], ["a.", y], key);
      } else {
        assert [x, y][1..] == [y];
        assert RenderFrom("", [x, y]) == RenderFrom(x, [y]) == Extend(x, y);
        Collide([key], [x, y], key);
      }
    }
  }

  lemma Collide(p: Path, q: Path, key: string)
    requires p != q && key in p && Render(p) == Render(q)
    ensures exists p, q :: p != q && key in p && Render(p) == Render(q)
  {
  }

  /** One entry of `drift_json`: the path is the rendered string, with a placeholder at the root. */
  datatype Line =
    | LineAdded(where: string, value: Json)
    | LineRemoved(where: string, value: Json)
    | LineChanged(where: string, before: Json, after: Json)

  function ToLine(rendered: string, item: Item): Line {
    var where := RenderFrom(rendered, item.path);
    match item
    case Added(_, v) => LineAdded(where, v)
    case Removed(_, v) => LineRemoved(where, v)
    case Changed(_, x, y) =>
      LineChanged(if where != "" then where else if x.Arr? && y.Arr? then "(list)" else "(value)", x, y)
  }

  function ToLines(rendered: string, items: seq<Item>): (r: seq<Line>)
    ensures |r| == |items|
    ensures forall i :: 0 <= i < |r| ==> r[i] == ToLine(rendered, items[i])
  {
    seq(|items|, i requires 0 <= i < |items| => ToLine(rendered, items[i]))
  }

  lemma LinesUnder(rendered: string, key: string, items: seq<Item>)
    ensures ToLines(rendered, AllUnder(key, items)) == ToLines(Extend(rendered, key), items)
  {
    forall i | 0 <= i < |items|
      ensures ToLine(rendered, Under(key, items[i])) == ToLine(Extend(rendered, key), items[i])
    {
      assert Under(key, items[i]).path[1..] == items[i].path;
    }
  }

  /** Rendering alone is not injective: two different drifts of documents with a dotted key, which no scan compares. */
  lemma DottedKeysHideDrift()
    ensures
      var a, b := Obj(map["a" := Obj(map[])]), Obj(map["a" := Obj(map["b" := Num(1)])]);
      var c, d := Obj(map[]), Obj(map["a.b" := Num(1)]);
      Diff(a, b) != Diff(c, d) && ToLines("", Diff(a, b)) == ToLines("", Diff(c, d))
  {
    var a, b := Obj(map["a" := Obj(map[])]), Obj(map["a" := Obj(map["b" := Num(1)])]);
    var c, d := Obj(map[]), Obj(map["a.b" := Num(1)]);
    var a', b' := a.fields["a"], b.fields["a"];
    SingleKey("b", a', b');
    assert Diff(a', b') == [Added(["b"], Num(1))];
    SingleKey("a", a, b);
    assert AllUnder("a", Diff(a', b')) == [Under("a", Added(["b"], Num(1)))];
    assert ["a"] + ["b"] == ["a", "b"];
    SingleKey("a.b", c, d);
    assert Diff(a, b) == [Added(["a", "b"], Num(1))];
    assert Diff(c, d) == [Added(["a.b"], Num(1))];
    assert ["a", "b"][1..] == ["b"];
    assert Render(["a", "b"]) == "a.b" == Render(["a.b"]);
  }

  lemma SingleKey(key: string, a: Json, b: Json)
    requires a.Obj? && b.Obj? && a.fields.Keys + b.fields.Keys == {key}
    ensures Diff(a, b) == DiffKey(a, b, key)
  {
    assert Least({key}) == key && {key} - {key} == {};
    assert Sorted({key}) == [key];
    assert DiffKeys(a, b, [key]) == DiffKey(a, b, key) + DiffKeys(a, b, [key][1..]);
  }

  predicate PlainItems(items: seq<Item>) {
    forall i :: 0 <= i < |items| ==> PlainPath(items[i].path) && items[i].path != []
  }

  lemma LinesInjective(xs: seq<Item>, ys: seq<Item>)
    requires PlainItems(xs) && PlainItems(ys)
    requires ToLines("", xs) == ToLines("", ys)
    ensures xs == ys
  {
    assert |xs| == |ToLines("", xs)| == |ys|;
    forall i | 0 <= i < |xs| ensures xs[i] == ys[i] {
      assert ToLine("", xs[i]) == ToLines("", xs)[i] == ToLine("", ys[i]);
      RenderShape(xs[i].path);
      RenderShape(ys[i].path);
      RenderInjective(xs[i].path, ys[i].path);
    }
  }

  /** Every key of the tables of a document, at any depth outside its lists, is plain. */
  ghost predicate PlainTables(doc: Json) {
    doc.Obj? ==> forall k :: k in doc.fields ==> PlainKey(k) && PlainTables(doc.fields[k])
  }

  ghost predicate PlainPaths(items: seq<Item>) { forall i :: 0 <= i < |items| ==> PlainPath(items[i].path) }

  lemma {:induction false} DiffPaths(a: Json, b: Json)
    requires PlainTables(a) && PlainTables(b)
    ensures PlainPaths(Diff(a, b))
    decreases a, 1, 0
  {
    if a.Obj? && b.Obj? { DiffKeysPaths(a, b, Sorted(a.fields.Keys + b.fields.Keys)); }
  }

  lemma {:induction false} DiffKeysPaths(a: Json, b: Json, keys: seq<string>)
    requires a.Obj? && b.Obj? && PlainTables(a) && PlainTables(b)
    requires forall k :: k in keys ==> k in a.fields || k in b.fields
    ensures PlainPaths(DiffKeys(a, b, keys))
    decreases a, 0, |keys|
  {
    if keys != [] {
      var key := keys[0];
      if key in a.fields && key in b.fields { DiffPaths(a.fields[key], b.fields[key]); }
      hide PlainKey;
      assert PlainPaths(DiffKey(a, b, key));
      DiffKeysPaths(a, b, keys[1..]);
    }
  }

  /** The stored report of two tables with plain keys determines their drift. */
  lemma ReportDeterminesDrift(a: Json, b: Json, c: Json, d: Json)
    requires a.Obj? && b.Obj? && c.Obj? && d.Obj?
    requires PlainTables(a) && PlainTables(b) && PlainTables(c) && PlainTables(d)
    requires ToLines("", Diff(a, b)) == ToLines("", Diff(c, d))
    ensures Diff(a, b) == Diff(c, d)
  {
    DiffPaths(a, b);
    DiffPaths(c, d);
    DiffKeysProper(a, b, Sorted(a.fields.Keys + b.fields.Keys));
    DiffKeysProper(c, d, Sorted(c.fields.Keys + d.fields.Keys));
    LinesInjective(Diff(a, b), Diff(c, d));
  }

  /** What a line of a report says about the two documents: some path is written as the line's, and the documents
      hold there what the line says they hold. */
  ghost predicate Reported(a: Json, b: Json, line: Line) {
    match line
    case LineAdded(where, value) => exists p :: Render(p) == where && Get(a, p) == None && Get(b, p) == Some(value)
    case LineRemoved(where, value) => exists p :: Render(p) == where && Get(a, p) == Some(value) && Get(b, p) == None
    case LineChanged(where, before, after) =>
      before != after && exists p :: Render(p) == where && Get(a, p) == Some(before) && Get(b, p) == Some(after)
  }

  /** Every line of the report of two tables with plain keys is true: `before` is what the first document holds at
      the line's path, and `after` what the second one holds. */
  lemma ReportIsTrue(a: Json, b: Json)
    requires a.Obj? && b.Obj? && PlainTables(a) && PlainTables(b)
    ensures forall i :: 0 <= i < |ToLines("", Diff(a, b))| ==> Reported(a, b, ToLines("", Diff(a, b))[i])
  {
    DiffPaths(a, b);
    DiffOrdered(a, b);
    DiffKeysProper(a, b, Sorted(a.fields.Keys + b.fields.Keys));
    forall i | 0 <= i < |Diff(a, b)| ensures Reported(a, b, ToLines("", Diff(a, b))[i]) {
      LineIsTrue(a, b, Diff(a, b)[i]);
    }
  }

  lemma LineIsTrue(a: Json, b: Json, item: Item)
    requires PlainPath(item.path) && item.path != [] && Truthful(a, b, item)
    ensures Reported(a, b, ToLine("", item))
  {
    RenderShape(item.path);
    assert Render(item.path) == RenderFrom("", item.path);
    hide RenderFrom, Get;
  }

  // ---- The order of the keys ----

  /** Letters a to z and underscores, in which all keys of a snapshot are written. */
  predicate ScanKey(key: string) { key != "" && forall i :: 0 <= i < |key| ==> 'a' <= key[i] <= 'z' || key[i] == '_' }

  ghost predicate ScanTables(doc: Json) {
    doc.Obj? ==> forall k :: k in doc.fields ==> ScanKey(k) && ScanTables(doc.fields[k])
  }

  lemma {:induction false} ScanTablesPlain(doc: Json)
    requires ScanTables(doc)
    ensures PlainTables(doc)
    decreases doc
  {
    if doc.Obj? {
      forall k | k in doc.fields ensures PlainKey(k) && PlainTables(doc.fields[k]) {
        ScanTablesPlain(doc.fields[k]);
      }
    }
  }

  /** The JSON text of a key in which nothing has to be escaped. */
  function JsonText(key: string): string { "\"" + key + "\"" }

  /** On such keys the order of the JSON texts is the order of the keys. */
  lemma SameOrderAsJson(k: string, l: string)
    requires ScanKey(k) && ScanKey(l)
    ensures LexLt(JsonText(k), JsonText(l)) <==> LexLt(k, l)
  {
    assert JsonText(k)[1..] == k + "\"" && JsonText(l)[1..] == l + "\"";
    assert k == JsonText(k)[1..|k| + 1] && l == JsonText(l)[1..|l| + 1];
    QuotedOrder(k, l);
  }

  lemma {:induction false} QuotedOrder(k: string, l: string)
    requires (forall i :: 0 <= i < |k| ==> k[i] > '"') && (forall i :: 0 <= i < |l| ==> l[i] > '"')
    ensures LexLe(k + "\"", l + "\"") <==> LexLe(k, l)
    decreases |k|
  {
    if k != "" && l != "" {
      assert (k + "\"")[1..] == k[1..] + "\"" && (l + "\"")[1..] == l[1..] + "\"";
      QuotedOrder(k[1..], l[1..]);
    } else if k == "" && l == "" {
      assert LexLe("\"", "\"");
    } else if k == "" {
      assert k + "\"" == "\"" && (l + "\"")[0] == l[0];
    } else {
      assert l + "\"" == "\"" && (k + "\"")[0] == k[0];
    }
  }
}
