/** Reading and replacing values of a settings document by path (Coordinator/mlxbar/settings.py). */
module SettingsPaths {
  import opened Prelude
  import opened SettingsTree

  function GetAt(doc: Json, path: Path): Option<Json>
    decreases |path|
  {
    if path == [] then Some(doc)
    else if doc.Obj? && path[0] in doc.m then GetAt(doc.m[path[0]], path[1..])
    else None
  }

  /** The document with the value at an existing path replaced. */
  function SetAt(doc: Json, path: Path, value: Json): (r: Option<Json>)
    requires path != []
    ensures r.Some? ==> doc.Obj? && r.value.Obj?
    decreases |path|
  {
    if !doc.Obj? || path[0] !in doc.m then None
    else if |path| == 1 then Some(Obj(doc.m[path[0] := value]))
    else
      var child := SetAt(doc.m[path[0]], path[1..], value);
      if child.None? then None else Some(Obj(doc.m[path[0] := child.value]))
  }

  /** Below one value: itself unless it is a non-empty object. */
  function LeavesUnder(value: Json): set<Path>
    decreases value, 1
  {
    if value.Obj? && value != EMPTY then LeafPaths(value) else {[]}
  }

  /** Paths of every value that is not a non-empty object. */
  function LeafPaths(doc: Json): set<Path>
    decreases doc, 0
  {
    if !doc.Obj? then {} else set k, p | k in doc.m && p in LeavesUnder(doc.m[k]) :: [k] + p
  }

  predicate Comparable(p: Path, q: Path) {
    p <= q || q <= p
  }

  lemma {:induction false} SetThenGet(doc: Json, path: Path, value: Json)
    requires path != [] && SetAt(doc, path, value).Some?
    ensures GetAt(SetAt(doc, path, value).value, path) == Some(value)
  {
    if |path| == 1 {
      assert path[1..] == [];
    } else {
      SetThenGet(doc.m[path[0]], path[1..], value);
    }
  }

  lemma {:induction false} SetElsewhere(doc: Json, path: Path, value: Json, q: Path)
    requires path != [] && SetAt(doc, path, value).Some? && !Comparable(path, q)
    ensures GetAt(SetAt(doc, path, value).value, q) == GetAt(doc, q)
  {
    assert q != [];
    if |path| > 1 && q[0] == path[0] {
      assert !Comparable(path[1..], q[1..]) by {
        assert path == [path[0]] + path[1..] && q == [q[0]] + q[1..];
      }
      SetElsewhere(doc.m[path[0]], path[1..], value, q[1..]);
    }
  }

  lemma {:induction false} SetSame(doc: Json, path: Path, value: Json)
    requires path != [] && GetAt(doc, path) == Some(value)
    ensures SetAt(doc, path, value) == Some(doc)
  {
    if |path| == 1 {
      assert path[1..] == [];
    } else {
      SetSame(doc.m[path[0]], path[1..], value);
    }
    assert doc.m[path[0] := doc.m[path[0]]] == doc.m;
  }

  lemma {:induction false} GetFurther(doc: Json, p: Path, q: Path)
    requires GetAt(doc, p).Some?
    ensures GetAt(doc, p + q) == GetAt(GetAt(doc, p).value, q)
  {
    if p == [] {
      assert p + q == q;
    } else {
      GetFurther(doc.m[p[0]], p[1..], q);
      assert (p + q)[1..] == p[1..] + q;
    }
  }

  lemma {:induction false} LeafIsBottom(doc: Json, path: Path)
    requires path in LeafPaths(doc)
    ensures path != [] && GetAt(doc, path).Some?
    ensures GetAt(doc, path).value.Obj? ==> GetAt(doc, path).value == EMPTY
    decreases |path|
  {
    var k, p :| k in doc.m && p in LeavesUnder(doc.m[k]) && path == [k] + p;
    assert path[1..] == p;
    if doc.m[k].Obj? && doc.m[k] != EMPTY {
      LeafIsBottom(doc.m[k], p);
    }
  }

  /** A leaf can always be replaced. */
  lemma LeafCanBeSet(doc: Json, path: Path, value: Json)
    requires path in LeafPaths(doc)
    ensures path != [] && SetAt(doc, path, value).Some?
  {
    hide LeafPaths, GetAt, SetAt;
    LeafIsBottom(doc, path);
    PresentCanBeSet(doc, path, value);
  }

  lemma {:induction false} PresentCanBeSet(doc: Json, path: Path, value: Json)
    requires path != [] && GetAt(doc, path).Some?
    ensures SetAt(doc, path, value).Some?
  {
    if |path| > 1 { PresentCanBeSet(doc.m[path[0]], path[1..], value); }
  }

  // ------------------------------------------------------ merging and knowing, by path

  /** What a merged document reads at a path: a value of the patch that is no object comes first, and where
      the patch has nothing, and no value above that ends the path, the document underneath shows through. */
  lemma {:induction false} MergeReads(doc: Json, patch: Json, path: Path)
    requires doc.Obj? && patch.Obj?
    ensures GetAt(patch, path).Some? && !GetAt(patch, path).value.Obj? ==>
      GetAt(DeepMerge(doc, patch), path) == GetAt(patch, path)
    ensures GetAt(patch, path).None? && !EndsAbove(patch, path) ==>
      GetAt(DeepMerge(doc, patch), path) == GetAt(doc, path)
    ensures EndsAbove(patch, path) ==> GetAt(DeepMerge(doc, patch), path) == None
    decreases |path|
  {
    if path != [] && path[0] in patch.m {
      var k := path[0];
      var child := DeepMerge(doc, patch).m[k];
      assert [k] <= path && [k][1..] == [] && GetAt(patch, [k]) == Some(patch.m[k]);
      if patch.m[k].Obj? {
        EndsBelow(patch, path);
        if k in doc.m && doc.m[k].Obj? {
          MergeReads(doc.m[k], patch.m[k], path[1..]);
        } else {
          assert child == patch.m[k];
          NothingUnderneath(patch.m[k], path[1..]);
        }
      } else {
        assert child == patch.m[k];
        if |path| > 1 { assert EndsAbove(patch, path); } else { NotAboveItself(patch, path); }
      }
    } else if path != [] {
      NothingAbove(patch, path);
    }
  }

  /** Some value strictly above the path is there and is no object. */
  ghost predicate EndsAbove(doc: Json, path: Path) {
    exists r: Path :: r <= path && r != path && GetAt(doc, r).Some? && !GetAt(doc, r).value.Obj?
  }

  lemma EndsBelow(doc: Json, path: Path)
    requires doc.Obj? && path != [] && path[0] in doc.m && doc.m[path[0]].Obj?
    ensures EndsAbove(doc, path) <==> EndsAbove(doc.m[path[0]], path[1..])
  {
    var k, inner := path[0], doc.m[path[0]];
    if r: Path :| r <= path && r != path && GetAt(doc, r).Some? && !GetAt(doc, r).value.Obj? {
      assert r != [] && r[0] == k && r[1..] <= path[1..] && r == [k] + r[1..] && path == [k] + path[1..];
      assert GetAt(inner, r[1..]) == GetAt(doc, r);
    }
    if r: Path :| r <= path[1..] && r != path[1..] && GetAt(inner, r).Some? && !GetAt(inner, r).value.Obj? {
      var longer := [k] + r;
      assert longer[1..] == r && path == [k] + path[1..] && longer <= path && longer != path;
      assert GetAt(doc, longer) == GetAt(inner, r);
    }
  }

  lemma NotAboveItself(doc: Json, path: Path)
    requires doc.Obj? && |path| == 1
    ensures !EndsAbove(doc, path)
  {
    forall r: Path | r <= path && r != path && GetAt(doc, r).Some? ensures r == [] {
    }
  }

  lemma NothingAbove(doc: Json, path: Path)
    requires doc.Obj? && path != [] && path[0] !in doc.m
    ensures !EndsAbove(doc, path) && GetAt(doc, path).None?
  {
    assert forall r: Path :: r <= path && r != [] ==> r[0] == path[0] && GetAt(doc, r).None?;
  }

  // An object put in the place of nothing, or of something else, shows only itself.
  lemma {:induction false} NothingUnderneath(doc: Json, path: Path)
    ensures EndsAbove(doc, path) ==> GetAt(doc, path).None?
    decreases |path|
  {
    if path != [] && doc.Obj? && path[0] in doc.m {
      if doc.m[path[0]].Obj? {
        EndsBelow(doc, path);
        NothingUnderneath(doc.m[path[0]], path[1..]);
      } else if |path| == 1 {
        NotAboveItself(doc, path);
      }
    } else if path == [] {
      forall r: Path | r <= path && GetAt(doc, r).Some? ensures r == [] {
      }
    }
  }

  // The object at `p` has the key `k`.
  predicate Names(doc: Json, p: Path, k: string) {
    GetAt(doc, p).Some? && GetAt(doc, p).value.Obj? && k in GetAt(doc, p).value.m
  }

  predicate Opens(doc: Json, p: Path) {
    GetAt(doc, p).Some? && GetAt(doc, p).value.Obj?
  }

  /** Wherever both have an object, the keys of the one are keys of the other. */
  ghost predicate SubKeys(value: Json, defaults: Json) {
    forall p: Path, k :: Names(value, p, k) && Opens(defaults, p) ==> Names(defaults, p, k)
  }

  lemma OneDown(doc: Json, k: string, p: Path)
    requires doc.Obj? && k in doc.m
    ensures GetAt(doc, [k] + p) == GetAt(doc.m[k], p)
  {
    assert ([k] + p)[1..] == p;
  }

  lemma SubKeysDown(value: Json, defaults: Json, k: string)
    requires value.Obj? && defaults.Obj? && SubKeys(value, defaults) && k in value.m
    ensures k in defaults.m && SubKeys(value.m[k], defaults.m[k])
  {
    assert Names(value, [], k) && Opens(defaults, []);
    forall p: Path, j | Names(value.m[k], p, j) && Opens(defaults.m[k], p) ensures Names(defaults.m[k], p, j) {
      OneDown(value, k, p);
      OneDown(defaults, k, p);
      assert Names(value, [k] + p, j);
    }
  }

  lemma SubKeysUp(value: Json, defaults: Json)
    requires value.Obj? && defaults.Obj?
    requires forall k :: k in value.m ==> k in defaults.m && SubKeys(value.m[k], defaults.m[k])
    ensures SubKeys(value, defaults)
  {
    forall p: Path, j | Names(value, p, j) && Opens(defaults, p) ensures Names(defaults, p, j) {
      if p != [] { assert Names(value.m[p[0]], p[1..], j); }
    }
  }

  /** A document is known exactly when, wherever it and the schema both have an object, its keys are keys of
      the schema's. */
  lemma {:induction false} KnownExactly(value: Json, defaults: Json)
    ensures Known(value, defaults) <==> SubKeys(value, defaults)
    decreases value
  {
    hide GetAt, SubKeys;
    if value.Obj? && defaults.Obj? {
      forall k | k in value.m && k in defaults.m
        ensures Known(value.m[k], defaults.m[k]) <==> SubKeys(value.m[k], defaults.m[k])
      {
        KnownExactly(value.m[k], defaults.m[k]);
      }
      if SubKeys(value, defaults) {
        forall k | k in value.m ensures k in defaults.m && SubKeys(value.m[k], defaults.m[k]) {
          SubKeysDown(value, defaults, k);
        }
      } else if Known(value, defaults) {
        SubKeysUp(value, defaults);
      }
    } else {
      NoKeysToCompare(value, defaults);
    }
  }

  lemma NoKeysToCompare(value: Json, defaults: Json)
    requires !value.Obj? || !defaults.Obj?
    ensures SubKeys(value, defaults)
  {
    assert forall p: Path, k :: !value.Obj? ==> !Names(value, p, k);
    assert forall p: Path :: !defaults.Obj? ==> !Opens(defaults, p);
  }
}
