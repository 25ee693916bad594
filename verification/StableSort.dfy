/** Python's `sorted`: the stable sort, given as insertion into a sorted sequence. */
module StableSort {
  import opened Common

  ghost predicate TotalPreorder<T(!new)>(le: (T, T) -> bool) {
    && (forall x, y :: le(x, y) || le(y, x))
    && (forall x, y, z :: le(x, y) && le(y, z) ==> le(x, z))
  }

  ghost predicate SortedBy<T>(s: seq<T>, le: (T, T) -> bool) {
    forall i, j :: 0 <= i < j < |s| ==> le(s[i], s[j])
  }

  /** x goes before the first element it may precede. */
  function Insert<T>(x: T, s: seq<T>, le: (T, T) -> bool): seq<T> {
    if s == [] || le(x, s[0]) then [x] + s else [s[0]] + Insert(x, s[1..], le)
  }

  function Sort<T>(s: seq<T>, le: (T, T) -> bool): seq<T> {
    if s == [] then [] else Insert(s[0], Sort(s[1..], le), le)
  }

  lemma {:induction false} InsertPermutes<T>(x: T, s: seq<T>, le: (T, T) -> bool)
    ensures multiset(Insert(x, s, le)) == multiset(s) + multiset{x}
    decreases |s|
  {
    if s != [] && !le(x, s[0]) {
      InsertPermutes(x, s[1..], le);
      assert s == [s[0]] + s[1..];
    }
  }

  lemma SortedCons<T>(x: T, s: seq<T>, le: (T, T) -> bool)
    requires SortedBy(s, le) && forall y :: y in s ==> le(x, y)
    ensures SortedBy([x] + s, le)
  {
  }

  lemma {:induction false} InsertKeeps<T(!new)>(x: T, s: seq<T>, le: (T, T) -> bool)
    requires TotalPreorder(le) && SortedBy(s, le)
    ensures SortedBy(Insert(x, s, le), le)
    ensures multiset(Insert(x, s, le)) == multiset(s) + multiset{x}
    decreases |s|
  {
    InsertPermutes(x, s, le);
    if s == [] {
    } else if le(x, s[0]) {
      forall y | y in s ensures le(x, y) { assert le(s[0], y) by { assert le(s[0], s[0]); } }
      SortedCons(x, s, le);
    } else {
      InsertKeeps(x, s[1..], le);
      forall y | y in Insert(x, s[1..], le) ensures le(s[0], y) {
        assert y in multiset(Insert(x, s[1..], le));
        assert y == x || y in s[1..];
      }
      SortedCons(s[0], Insert(x, s[1..], le), le);
    }
  }

  /** The result is sorted and a permutation. */
  lemma {:induction false} SortSorts<T(!new)>(s: seq<T>, le: (T, T) -> bool)
    requires TotalPreorder(le)
    ensures SortedBy(Sort(s, le), le)
    ensures multiset(Sort(s, le)) == multiset(s)
    decreases |s|
  {
    if s != [] {
      SortSorts(s[1..], le);
      InsertKeeps(s[0], Sort(s[1..], le), le);
      assert s == [s[0]] + s[1..];
    }
  }

  /** The elements equivalent to a, in order. */
  function Class<T>(s: seq<T>, a: T, le: (T, T) -> bool): seq<T> {
    if s == [] then []
    else (if le(s[0], a) && le(a, s[0]) then [s[0]] else []) + Class(s[1..], a, le)
  }

  lemma {:induction false} InsertStable<T(!new)>(x: T, s: seq<T>, a: T, le: (T, T) -> bool)
    requires TotalPreorder(le)
    ensures Class(Insert(x, s, le), a, le) == Class([x], a, le) + Class(s, a, le)
    decreases |s|
  {
    assert [x][1..] == [];
    if s == [] || le(x, s[0]) {
      assert ([x] + s)[1..] == s;
    } else {
      InsertStable(x, s[1..], a, le);
      assert ([s[0]] + Insert(x, s[1..], le))[1..] == Insert(x, s[1..], le);
    }
  }

  lemma ClassFirst<T>(s: seq<T>, a: T, le: (T, T) -> bool)
    requires s != []
    ensures Class(s, a, le) == Class([s[0]], a, le) + Class(s[1..], a, le)
  {
    assert [s[0]][1..] == [];
  }

  /** Stability: equivalent elements keep their order. */
  lemma {:induction false} SortStable<T(!new)>(s: seq<T>, a: T, le: (T, T) -> bool)
    requires TotalPreorder(le)
    ensures Class(Sort(s, le), a, le) == Class(s, a, le)
    decreases |s|
  {
    if s != [] {
      SortStable(s[1..], a, le);
      InsertStable(s[0], Sort(s[1..], le), a, le);
      ClassFirst(s, a, le);
    }
  }

  lemma SortedConsIff<T>(x: T, s: seq<T>, rel: (T, T) -> bool)
    ensures SortedBy([x] + s, rel) <==> SortedBy(s, rel) && forall y :: y in s ==> rel(x, y)
  {
    var t := [x] + s;
    if SortedBy(t, rel) {
      forall i, j | 0 <= i < j < |s| ensures rel(s[i], s[j]) { assert rel(t[i + 1], t[j + 1]); }
      forall y | y in s ensures rel(x, y) {
        var i :| 0 <= i < |s| && s[i] == y;
        assert rel(t[0], t[i + 1]);
      }
    }
  }

  lemma {:induction false} InClass<T>(s: seq<T>, a: T, le: (T, T) -> bool)
    ensures forall y :: y in Class(s, a, le) <==> y in s && le(y, a) && le(a, y)
    decreases |s|
  {
    if s != [] {
      InClass(s[1..], a, le);
      assert s == [s[0]] + s[1..];
    }
  }

  /** A relation that only constrains pairs of one class holds in order iff it does within that class. */
  lemma {:induction false} OrderWithinClass<T(!new)>(s: seq<T>, a: T, le: (T, T) -> bool, rel: (T, T) -> bool)
    requires forall x, y :: !rel(x, y) ==> le(x, a) && le(a, x) && le(y, a) && le(a, y)
    ensures SortedBy(s, rel) <==> SortedBy(Class(s, a, le), rel)
    decreases |s|
  {
    if s != [] {
      var x, rest := s[0], s[1..];
      OrderWithinClass(rest, a, le, rel);
      SortedConsIff(x, rest, rel);
      SortedConsIff(x, Class(rest, a, le), rel);
      InClass(rest, a, le);
      assert s == [x] + rest;
      hide SortedBy;
      if le(x, a) && le(a, x) {
        assert Class(s, a, le) == [x] + Class(rest, a, le);
        hide Class;
        forall y | y in rest && y !in Class(rest, a, le) ensures rel(x, y) { }
      } else {
        assert Class(s, a, le) == Class(rest, a, le);
      }
    }
  }

  lemma {:induction false} SortSorted<T(!new)>(s: seq<T>, le: (T, T) -> bool)
    requires SortedBy(s, le)
    ensures Sort(s, le) == s
    decreases |s|
  {
    if s != [] { SortSorted(s[1..], le); }
  }

  /** Insertion sort as a loop, taking the elements from the back. */
  method StableSortLoop<T(!new)>(s: seq<T>, le: (T, T) -> bool) returns (r: seq<T>)
    ensures r == Sort(s, le)
  {
    r := [];
    var i := |s|;
    while i > 0
      invariant 0 <= i <= |s|
      invariant r == Sort(s[i..], le)
    {
      i := i - 1;
      assert s[i..][1..] == s[i + 1..];
      r := Insert(s[i], r, le);
    }
    assert s[0..] == s;
  }

  // ---- The first k elements ----

  function Take<T>(k: nat, s: seq<T>): seq<T> { if k <= |s| then s[..k] else s }

  lemma {:induction false} TakeInsert<T>(k: nat, x: T, s: seq<T>, le: (T, T) -> bool)
    ensures Take(k, Insert(x, s, le)) == Take(k, Insert(x, Take(k, s), le))
    decreases |s|
  {
    if k > 0 && s != [] {
      assert Take(k, s)[1..] == Take(k - 1, s[1..]);
      if !le(x, s[0]) {
        TakeInsert(k - 1, x, s[1..], le);
        assert Take(k, Insert(x, s, le)) == [s[0]] + Take(k - 1, Insert(x, s[1..], le));
        assert Take(k, Insert(x, Take(k, s), le)) == [s[0]] + Take(k - 1, Insert(x, Take(k - 1, s[1..]), le));
      }
    }
  }

  /** The first k after sorting depend on a suffix only through its own first k. */
  lemma {:induction false} TakeSortSuffix<T>(k: nat, p: seq<T>, s: seq<T>, t: seq<T>, le: (T, T) -> bool)
    requires Take(k, Sort(s, le)) == Take(k, Sort(t, le))
    ensures Take(k, Sort(p + s, le)) == Take(k, Sort(p + t, le))
    decreases |p|
  {
    if p == [] {
      assert p + s == s && p + t == t;
    } else {
      assert (p + s)[1..] == p[1..] + s && (p + t)[1..] == p[1..] + t;
      TakeSortSuffix(k, p[1..], s, t, le);
      TakeInsert(k, p[0], Sort(p[1..] + s, le), le);
      TakeInsert(k, p[0], Sort(p[1..] + t, le), le);
    }
  }

  /** Merging two sorted sequences, the left one first among equals. */
  function Merge<T>(a: seq<T>, b: seq<T>, le: (T, T) -> bool): seq<T>
    decreases |a| + |b|
  {
    if a == [] then b
    else if b == [] then a
    else if le(a[0], b[0]) then [a[0]] + Merge(a[1..], b, le)
    else [b[0]] + Merge(a, b[1..], le)
  }

  /** Inserting into a merge of sorted sequences is inserting into the left one. */
  lemma {:induction false} InsertMerge<T(!new)>(x: T, a: seq<T>, b: seq<T>, le: (T, T) -> bool)
    requires TotalPreorder(le) && SortedBy(a, le) && SortedBy(b, le)
    ensures Insert(x, Merge(a, b, le), le) == Merge(Insert(x, a, le), b, le)
    decreases |a| + |b|
  {
    var m := Merge(a, b, le);
    if a == [] {
      assert [x] + a == [x];
      InsertLeft(x, b, le);
    } else if b == [] {
    } else if le(x, a[0]) {
      assert ([x] + a)[1..] == a;
      if !le(a[0], b[0]) && !le(x, b[0]) {
        InsertMerge(x, a, b[1..], le);
        assert m[1..] == Merge(a, b[1..], le);
      }
    } else if le(a[0], b[0]) {
      InsertMerge(x, a[1..], b, le);
      assert m[1..] == Merge(a[1..], b, le);
      assert Insert(x, a, le)[1..] == Insert(x, a[1..], le);
    } else {
      InsertMerge(x, a, b[1..], le);
      assert m[1..] == Merge(a, b[1..], le);
      assert Insert(x, a, le)[0] == a[0];
    }
  }

  lemma {:induction false} InsertLeft<T>(x: T, b: seq<T>, le: (T, T) -> bool)
    ensures Insert(x, b, le) == Merge([x], b, le)
    decreases |b|
  {
    assert [x][1..] == [];
    if b != [] && !le(x, b[0]) { InsertLeft(x, b[1..], le); }
  }

  /** Sorting a concatenation is merging the sorted parts. */
  lemma {:induction false} SortAppend<T(!new)>(a: seq<T>, b: seq<T>, le: (T, T) -> bool)
    requires TotalPreorder(le)
    ensures Sort(a + b, le) == Merge(Sort(a, le), Sort(b, le), le)
    decreases |a|
  {
    if a == [] {
      assert a + b == b;
    } else {
      assert (a + b)[1..] == a[1..] + b;
      SortAppend(a[1..], b, le);
      SortSorts(a[1..], le);
      SortSorts(b, le);
      InsertMerge(a[0], Sort(a[1..], le), Sort(b, le), le);
    }
  }

  lemma TakeFirst<T>(k: nat, x: T, s: seq<T>)
    requires k > 0
    ensures Take(k, [x] + s) == [x] + Take(k - 1, s)
  {
  }

  lemma TakeFacts<T>(k: nat, s: seq<T>)
    requires k > 0 && s != []
    ensures |Take(k, s)| <= |s| && Take(k, s) != [] && Take(k, s)[0] == s[0] && Take(k, s)[1..] == Take(k - 1, s[1..])
    ensures Take(k - 1, Take(k, s)) == Take(k - 1, s)
  {
  }

  lemma {:induction false} TakeMerge<T>(k: nat, a: seq<T>, b: seq<T>, le: (T, T) -> bool)
    ensures Take(k, Merge(a, b, le)) == Take(k, Merge(Take(k, a), b, le))
    decreases |a| + |b|
  {
    if k > 0 && a != [] && b != [] {
      hide Take;
      var c := Take(k, a);
      TakeFacts(k, a);
      if le(a[0], b[0]) {
        TakeMerge(k - 1, a[1..], b, le);
        TakeFirst(k, a[0], Merge(a[1..], b, le));
        TakeFirst(k, a[0], Merge(c[1..], b, le));
      } else {
        TakeMerge(k - 1, a, b[1..], le);
        TakeMerge(k - 1, c, b[1..], le);
        TakeFirst(k, b[0], Merge(a, b[1..], le));
        TakeFirst(k, b[0], Merge(c, b[1..], le));
      }
    }
  }

  /** A sorted source may be cut to its first k elements before it is sorted in. */
  lemma CutSource<T(!new)>(k: nat, a: seq<T>, b: seq<T>, le: (T, T) -> bool)
    requires TotalPreorder(le) && SortedBy(a, le)
    ensures Take(k, Sort(Take(k, a) + b, le)) == Take(k, Sort(a + b, le))
  {
    SortAppend(a, b, le);
    SortAppend(Take(k, a), b, le);
    SortSorted(a, le);
    SortSorted(Take(k, a), le);
    TakeMerge(k, a, Sort(b, le), le);
  }

  /** Sorted first and last parts may be cut, whatever stands between them. */
  lemma CutEnds<T(!new)>(k: nat, a: seq<T>, b: seq<T>, c: seq<T>, le: (T, T) -> bool)
    requires TotalPreorder(le) && SortedBy(a, le) && SortedBy(c, le)
    ensures Take(k, Sort(Take(k, a) + b + Take(k, c), le)) == Take(k, Sort(a + b + c, le))
  {
    var a', c' := Take(k, a), Take(k, c);
    SortSorted(c, le);
    SortSorted(c', le);
    assert Take(k, Sort(c', le)) == Take(k, Sort(c, le));
    assert SortedBy(a, le);
    CutSource(k, a, b + c, le);
    hide Sort, Take, SortedBy, TotalPreorder;
    TakeSortSuffix(k, b, c', c, le);
    TakeSortSuffix(k, a', b + c', b + c, le);
    Assoc(a', b, c');
    Assoc(a, b, c);
  }

  lemma CutMiddle<T(!new)>(k: nat, a: seq<T>, b: seq<T>, c: seq<T>, le: (T, T) -> bool)
    requires TotalPreorder(le) && SortedBy(b, le)
    ensures Take(k, Sort(a + Take(k, b) + c, le)) == Take(k, Sort(a + b + c, le))
  {
    hide Sort, Take;
    CutSource(k, b, c, le);
    TakeSortSuffix(k, a, Take(k, b) + c, b + c, le);
    Assoc(a, Take(k, b), c);
    Assoc(a, b, c);
  }
}
