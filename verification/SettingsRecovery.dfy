/** Validation and key-by-key recovery of a settings document (Coordinator/mlxbar/settings.py). */
module SettingsRecovery {
  import opened Prelude
  import opened SettingsTree
  import opened SettingsPaths

  /** How the validator ends: it returns, raises a ValueError, or raises anything else. Only the second is
      caught where a document is examined. */
  datatype Verdict = Valid | Rejects(message: string) | Raises

  /** A schema: its default document, the validator's rules beyond "no unknown key", how a version string
      reads as a number, and the order in which the leaves of a document are listed. */
  datatype Schema = Schema(defaults: Json, rules: Json -> Verdict, parseInt: string -> Option<int>,
                           order: Json -> seq<Path>) {
    function Validate(doc: Json): Verdict {
      if !Known(doc, defaults) then Rejects("unknown setting") else rules(doc)
    }

    /** What holds of the shipped schema: its defaults are valid, its version is there and no object, and
        a listing has every leaf. Nothing is asked of the documents the rules accept: they may well
        replace an object by something else. */
    ghost predicate WellFormed() {
      && defaults.Obj? && Validate(defaults).Valid?
      && VERSION_KEY in defaults.m && !defaults.m[VERSION_KEY].Obj?
      && forall doc :: ListsLeaves(order(doc), doc)
    }
  }

  const VERSION_KEY := "schemaVersion"

  ghost predicate ListsLeaves(paths: seq<Path>, doc: Json) {
    forall p :: p in paths <==> p in LeafPaths(doc)
  }

  // ---------------------------------------------------------------------- one reset

  /** The document with one leaf back at its default, if the schema has one for it. */
  function Reset(schema: Schema, doc: Json, path: Path): (r: Option<Json>)
    ensures r.Some? ==> path != [] && GetAt(schema.defaults, path).Some? && doc.Obj? && r.value.Obj?
  {
    if path == [] || GetAt(schema.defaults, path).None? then None
    else SetAt(doc, path, GetAt(schema.defaults, path).value)
  }

  /** How the validator takes that document. */
  function Probe(schema: Schema, doc: Json, path: Path): Option<Verdict> {
    var r := Reset(schema, doc, path);
    if r.None? then None else Some(schema.Validate(r.value))
  }

  /** This leaf, put back to its default, makes the document valid. */
  predicate IsCulprit(schema: Schema, doc: Json, path: Path) {
    path in LeafPaths(doc) && Probe(schema, doc, path) == Some(Valid)
  }

  ghost predicate OneResetSuffices(schema: Schema, doc: Json) {
    exists path :: IsCulprit(schema, doc, path)
  }

  /** A probe that ends the probing. */
  predicate Tells(schema: Schema, doc: Json, path: Path) {
    Probe(schema, doc, path) == Some(Valid) || Probe(schema, doc, path) == Some(Raises)
  }

  function FirstTelling(schema: Schema, doc: Json, paths: seq<Path>): (r: Option<Path>)
    ensures r.None? <==> forall p :: p in paths ==> !Tells(schema, doc, p)
    ensures r.Some? ==> r.value in paths && Tells(schema, doc, r.value)
  {
    if paths == [] then None
    else if Tells(schema, doc, paths[0]) then Some(paths[0])
    else FirstTelling(schema, doc, paths[1..])
  }

  predicate Contains(text: string, part: string) {
    exists i :: 0 <= i <= |text| && part <= text[i..]
  }

  function Dotted(path: Path): string {
    if path == [] then "" else if |path| == 1 then path[0] else path[0] + "." + Dotted(path[1..])
  }

  /** The validator's message names this key. */
  predicate Named(path: Path, message: string) {
    path != [] && (Contains(message, path[|path| - 1]) || Contains(message, Dotted(path)))
  }

  lemma {:induction false} DottedSnoc(path: Path, key: string)
    ensures Dotted(path + [key]) == if path == [] then key else Dotted(path) + "." + key
  {
    if path == [] {
      assert [] + [key] == [key];
    } else {
      assert (path + [key])[1..] == path[1..] + [key];
      DottedSnoc(path[1..], key);
    }
  }

  ghost predicate Within(text: string, part: string) {
    exists a, b :: text == a + part + b
  }

  lemma ContainsExactly(text: string, part: string)
    ensures Contains(text, part) <==> Within(text, part)
  {
    if Contains(text, part) {
      var i :| 0 <= i <= |text| && part <= text[i..];
      assert text == text[..i] + part + text[i + |part|..];
    }
    if a, b :| text == a + part + b {
      assert text[|a|..] == part + b;
      assert part <= text[|a|..];
    }
  }

  /** The message names a path when the path's last key, or the dotted path, stands in it. */
  lemma NamedExactly(path: Path, message: string)
    ensures Named(path, message) <==>
      path != [] && (Within(message, path[|path| - 1]) || Within(message, Dotted(path)))
  {
    hide Contains, Within, Dotted;
    if path != [] {
      ContainsExactly(message, path[|path| - 1]);
      ContainsExactly(message, Dotted(path));
    }
  }

  /** The first of the longest paths the message names. */
  function FirstDeepest(paths: seq<Path>, message: string): (r: Option<Path>)
    ensures r.None? <==> forall p :: p in paths ==> !Named(p, message)
    ensures r.Some? ==> r.value in paths && Named(r.value, message)
    ensures r.Some? ==> forall p :: p in paths && Named(p, message) ==> |p| <= |r.value|
  {
    if paths == [] then None
    else
      var n := |paths| - 1;
      var best, last := FirstDeepest(paths[..n], message), paths[n];
      assert forall p :: p in paths ==> p in paths[..n] || p == last;
      if Named(last, message) && (best.None? || |last| > |best.value|) then Some(last) else best
  }

  /** What happens at one document of the search. */
  datatype Step = Settled | Resets(path: Path) | NoWay | Raised

  function Next(schema: Schema, doc: Json): Step {
    match schema.Validate(doc)
    case Valid => Settled
    case Raises => Raised
    case Rejects(message) =>
      var telling := FirstTelling(schema, doc, schema.order(doc));
      if telling.Some? then
        if Probe(schema, doc, telling.value) == Some(Valid) then Resets(telling.value) else Raised
      else
        var named := FirstDeepest(schema.order(doc), message);
        if named.None? || Reset(schema, doc, named.value).None? then NoWay else Resets(named.value)
  }

  ghost predicate DeepestNamed(doc: Json, path: Path, message: string) {
    && path in LeafPaths(doc) && Named(path, message)
    && forall p :: p in LeafPaths(doc) && Named(p, message) ==> |p| <= |path|
  }

  /** A probe raises before any probe succeeds. */
  ghost predicate RaisesEarly(schema: Schema, doc: Json) {
    exists i :: RaisesAt(schema, doc, schema.order(doc), i)
  }

  ghost predicate RaisesAt(schema: Schema, doc: Json, paths: seq<Path>, i: nat) {
    && i < |paths| && Probe(schema, doc, paths[i]) == Some(Raises)
    && forall j :: 0 <= j < i ==> Probe(schema, doc, paths[j]) != Some(Valid)
  }

  /** The step taken, in terms of the leaves of the document: a leaf that alone mends it if there is one,
      else a deepest one the message names; none only if no leaf mends it, no probe raises, and the message
      names no leaf or most deeply one without a default; and the validator's exception gets out exactly
      when it is raised by the document or by a probe before the first that succeeds. */
  lemma NextMeans(schema: Schema, doc: Json)
    requires schema.WellFormed()
    ensures Next(schema, doc).Settled? <==> schema.Validate(doc).Valid?
    ensures Next(schema, doc).Resets? ==>
      && schema.Validate(doc).Rejects? && Next(schema, doc).path in LeafPaths(doc)
      && Reset(schema, doc, Next(schema, doc).path).Some?
      && (if OneResetSuffices(schema, doc) then IsCulprit(schema, doc, Next(schema, doc).path)
          else DeepestNamed(doc, Next(schema, doc).path, schema.Validate(doc).message))
    ensures Next(schema, doc).NoWay? ==>
      && schema.Validate(doc).Rejects? && !OneResetSuffices(schema, doc)
      && (forall p :: p in LeafPaths(doc) ==> Probe(schema, doc, p) != Some(Raises))
      && (|| (forall p :: p in LeafPaths(doc) ==> !Named(p, schema.Validate(doc).message))
          || exists p :: DeepestNamed(doc, p, schema.Validate(doc).message) && GetAt(schema.defaults, p).None?)
    ensures Next(schema, doc).Raised? <==>
      schema.Validate(doc).Raises? || (schema.Validate(doc).Rejects? && RaisesEarly(schema, doc))
  {
    hide LeafPaths, GetAt, SetAt, Reset, Probe, Named, Known;
    var paths := schema.order(doc);
    assert ListsLeaves(paths, doc);
    FirstRaises(schema, doc, paths);
    var telling := FirstTelling(schema, doc, paths);
    if schema.Validate(doc).Rejects? && telling.Some? {
      assert telling.value in LeafPaths(doc);
      assert Reset(schema, doc, telling.value).Some? by { ProbedIsReset(schema, doc, telling.value); }
      if Probe(schema, doc, telling.value) == Some(Valid) { assert IsCulprit(schema, doc, telling.value); }
    } else if schema.Validate(doc).Rejects? {
      assert !OneResetSuffices(schema, doc);
      var named := FirstDeepest(paths, schema.Validate(doc).message);
      if named.Some? {
        assert DeepestNamed(doc, named.value, schema.Validate(doc).message);
        CannotBeReset(schema, doc, named.value);
      }
    }
  }

  // The first probe that tells raises exactly when one raises before any succeeds.
  lemma {:induction false} FirstRaises(schema: Schema, doc: Json, paths: seq<Path>)
    ensures var t := FirstTelling(schema, doc, paths);
            (t.Some? && Probe(schema, doc, t.value) == Some(Raises)) <==>
            exists i :: RaisesAt(schema, doc, paths, i)
  {
    hide Probe;
    if paths != [] {
      FirstRaises(schema, doc, paths[1..]);
      if Tells(schema, doc, paths[0]) {
        if Probe(schema, doc, paths[0]) == Some(Raises) { assert RaisesAt(schema, doc, paths, 0); }
      } else {
        forall i: nat | RaisesAt(schema, doc, paths, i) ensures i > 0 && RaisesAt(schema, doc, paths[1..], i - 1) {
          assert paths[i] == paths[1..][i - 1];
          assert forall j :: 0 <= j < i - 1 ==> paths[1..][j] == paths[j + 1];
        }
        forall i: nat | RaisesAt(schema, doc, paths[1..], i) ensures RaisesAt(schema, doc, paths, i + 1) {
          assert forall j :: 0 < j <= i + 1 ==> paths[j] == paths[1..][j - 1];
        }
      }
    }
  }

  lemma ProbedIsReset(schema: Schema, doc: Json, path: Path)
    ensures Probe(schema, doc, path).Some? <==> Reset(schema, doc, path).Some?
  {
    hide Reset;
  }

  // A leaf that cannot be reset is one without a default.
  lemma CannotBeReset(schema: Schema, doc: Json, path: Path)
    requires path in LeafPaths(doc)
    ensures Reset(schema, doc, path).None? <==> GetAt(schema.defaults, path).None?
  {
    hide LeafPaths, GetAt, SetAt;
    if GetAt(schema.defaults, path).Some? {
      LeafCanBeSet(doc, path, GetAt(schema.defaults, path).value);
    } else {
      LeafIsBottom(doc, path);
    }
  }

  // ---------------------------------------------------------------------- the search

  const RECOVERY_ROUNDS := 32

  /** What a search for a valid document comes to: a document with the leaves it put back to their
      defaults, nothing, or an exception of the validator. */
  datatype Recovery = Mended(doc: Json, resets: seq<Path>) | GaveUp | Halted

  /** The documents a search goes through: each is the one before with one leaf at its default. */
  ghost predicate IsSearch(schema: Schema, docs: seq<Json>, resets: seq<Path>) {
    && |docs| == |resets| + 1 && |resets| <= 32
    && forall i :: 0 <= i < |resets| ==> Follows(schema, docs[i], resets[i], docs[i + 1])
  }

  ghost predicate Follows(schema: Schema, doc: Json, path: Path, next: Json) {
    Next(schema, doc) == Resets(path) && Reset(schema, doc, path) == Some(next)
  }

  /** Why a search stops at this document: it is valid; there is no way on, or 32 leaves were reset already;
      or the validator's exception gets out. */
  ghost predicate StopsAs(schema: Schema, doc: Json, resets: seq<Path>, r: Recovery) {
    match r
    case Mended(d, keys) => |resets| < 32 && Next(schema, doc).Settled? && d == doc && keys == resets
    case GaveUp => |resets| == 32 || Next(schema, doc).NoWay?
    case Halted => |resets| < 32 && Next(schema, doc).Raised?
  }

  /** The search from `data` ends this way. */
  ghost predicate Ends(schema: Schema, data: Json, r: Recovery) {
    exists docs, resets :: IsSearch(schema, docs, resets) && EndsBy(schema, data, docs, resets, r)
  }

  ghost predicate EndsBy(schema: Schema, data: Json, docs: seq<Json>, resets: seq<Path>, r: Recovery) {
    |docs| == |resets| + 1 && docs[0] == data && StopsAs(schema, docs[|resets|], resets, r)
  }

  /** It ends in one way only. */
  lemma EndsOneWay(schema: Schema, data: Json, a: Recovery, b: Recovery)
    requires Ends(schema, data, a) && Ends(schema, data, b)
    ensures a == b
  {
    hide Next, Reset;
    var docs, resets :| IsSearch(schema, docs, resets) && EndsBy(schema, data, docs, resets, a);
    var docs', resets' :| IsSearch(schema, docs', resets') && EndsBy(schema, data, docs', resets', b);
    var n := if |resets| <= |resets'| then |resets| else |resets'|;
    SearchesAgree(schema, docs, resets, docs', resets', n);
    if |resets| < |resets'| {
      SearchGoesOn(schema, docs', resets', n);
    } else if |resets'| < |resets| {
      SearchGoesOn(schema, docs, resets, n);
    } else {
      assert resets[..n] == resets && resets'[..n] == resets';
    }
  }

  lemma SearchGoesOn(schema: Schema, docs: seq<Json>, resets: seq<Path>, n: nat)
    requires IsSearch(schema, docs, resets) && n < |resets|
    ensures Follows(schema, docs[n], resets[n], docs[n + 1]) && Next(schema, docs[n]) == Resets(resets[n])
  {
    hide Next, Reset;
    assert Follows(schema, docs[n], resets[n], docs[n + 1]);
  }

  lemma {:induction false} SearchesAgree(schema: Schema, docs: seq<Json>, resets: seq<Path>, docs': seq<Json>,
                                         resets': seq<Path>, n: nat)
    requires IsSearch(schema, docs, resets) && IsSearch(schema, docs', resets') && docs[0] == docs'[0]
    requires n <= |resets| && n <= |resets'|
    ensures docs[n] == docs'[n] && resets[..n] == resets'[..n]
  {
    hide Next, Reset;
    if n > 0 {
      SearchesAgree(schema, docs, resets, docs', resets', n - 1);
      SearchGoesOn(schema, docs, resets, n - 1);
      SearchGoesOn(schema, docs', resets', n - 1);
      assert resets[..n] == resets[..n - 1] + [resets[n - 1]];
      assert resets'[..n] == resets'[..n - 1] + [resets'[n - 1]];
    }
  }

  /** A valid document is at its end already. */
  lemma ValidEndsAtOnce(schema: Schema, data: Json)
    requires schema.Validate(data).Valid?
    ensures Ends(schema, data, Mended(data, []))
  {
    assert IsSearch(schema, [data], []) && EndsBy(schema, data, [data], [], Mended(data, []));
  }

  /** A document that one reset would mend is mended by one, if and only if no probe raises before. */
  lemma OneResetMendsExactly(schema: Schema, data: Json, r: Recovery)
    requires schema.WellFormed() && schema.Validate(data).Rejects? && OneResetSuffices(schema, data)
    requires Ends(schema, data, r)
    ensures if RaisesEarly(schema, data) then r.Halted? else r.Mended? && |r.resets| == 1
  {
    hide Next, Reset, Probe, LeafPaths, Named;
    NextMeans(schema, data);
    var docs, resets :| IsSearch(schema, docs, resets) && EndsBy(schema, data, docs, resets, r);
    if resets != [] {
      SearchGoesOn(schema, docs, resets, 0);
      CulpritMends(schema, data, resets[0], docs[1]);
      NextMeans(schema, docs[1]);
      if |resets| > 1 { SearchGoesOn(schema, docs, resets, 1); }
    }
  }

  lemma CulpritMends(schema: Schema, doc: Json, path: Path, next: Json)
    requires IsCulprit(schema, doc, path) && Reset(schema, doc, path) == Some(next)
    ensures schema.Validate(next).Valid?
  {
  }

  // ---------------------------------------------------------------- what resets change

  ghost predicate Untouched(q: Path, recovered: seq<Path>) {
    forall p :: p in recovered ==> !Comparable(p, q)
  }

  /** Every reported leaf holds its default, and everything else is as it was. */
  ghost predicate Recovered(data: Json, doc: Json, recovered: seq<Path>, defaults: Json) {
    && (forall p :: p in recovered ==> p != [] && GetAt(defaults, p).Some? && GetAt(doc, p) == GetAt(defaults, p))
    && (forall q :: Untouched(q, recovered) ==> GetAt(doc, q) == GetAt(data, q))
  }

  lemma ResetRecovers(data: Json, doc: Json, recovered: seq<Path>, defaults: Json, path: Path, next: Json)
    requires Recovered(data, doc, recovered, defaults)
    requires path in LeafPaths(doc) && path != [] && GetAt(defaults, path).Some?
    requires SetAt(doc, path, GetAt(defaults, path).value) == Some(next)
    ensures Recovered(data, next, recovered + [path], defaults)
  {
    hide LeafPaths;
    var value := GetAt(defaults, path).value;
    SetThenGet(doc, path, value);
    forall p | p in recovered ensures GetAt(next, p) == GetAt(defaults, p) {
      ResetKeepsDefault(doc, p, defaults, path, next);
    }
    forall q | Untouched(q, recovered + [path]) ensures GetAt(next, q) == GetAt(data, q) {
      assert path in recovered + [path];
      assert Untouched(q, recovered) by { assert forall p :: p in recovered ==> p in recovered + [path]; }
      SetElsewhere(doc, path, value, q);
    }
  }

  // A leaf already at its default stays there: a later reset is elsewhere, or below it and a no-op.
  lemma ResetKeepsDefault(doc: Json, p: Path, defaults: Json, path: Path, next: Json)
    requires GetAt(doc, p).Some? && GetAt(doc, p) == GetAt(defaults, p)
    requires path in LeafPaths(doc) && path != [] && GetAt(defaults, path).Some?
    requires SetAt(doc, path, GetAt(defaults, path).value) == Some(next)
    ensures GetAt(next, p) == GetAt(defaults, p)
  {
    var value := GetAt(defaults, path).value;
    if !Comparable(path, p) {
      SetElsewhere(doc, path, value, p);
    } else if p <= path {
      var rest := path[|p|..];
      assert path == p + rest;
      GetFurther(doc, p, rest);
      GetFurther(defaults, p, rest);
      SetSame(doc, path, value);
    } else {
      LeafIsBottom(doc, path);
      var rest := p[|path|..];
      assert p == path + rest && rest != [];
      GetFurther(doc, path, rest);
    }
  }

  // A reset leaves no key of the schema out.
  lemma {:induction false} ResetKeepsComplete(doc: Json, path: Path, defaults: Json, next: Json)
    requires Complete(doc, defaults) && path != [] && GetAt(defaults, path).Some?
    requires SetAt(doc, path, GetAt(defaults, path).value) == Some(next)
    ensures Complete(next, defaults)
    decreases |path|
  {
    var k := path[0];
    if |path| == 1 {
      assert path[1..] == [];
      CompleteSelf(defaults.m[k]);
    } else {
      ResetKeepsComplete(doc.m[k], path[1..], defaults.m[k], next.m[k]);
    }
  }

  // Nor does it take preserved keys their place.
  lemma {:induction false} ResetKeepsFits(doc: Json, path: Path, defaults: Json, next: Json, unknown: Json)
    requires doc.Obj? && next.Obj? && unknown.Obj? && defaults.Obj? && Foreign(unknown, defaults)
    requires Fits(doc, unknown, defaults) && path != [] && GetAt(defaults, path).Some?
    requires SetAt(doc, path, GetAt(defaults, path).value) == Some(next)
    ensures Fits(next, unknown, defaults)
    decreases |path|
  {
    var k := path[0];
    if k in unknown.m && k in defaults.m {
      if |path| == 1 {
        assert path[1..] == [];
        DefaultsFit(unknown.m[k], defaults.m[k]);
      } else {
        ResetKeepsFits(doc.m[k], path[1..], defaults.m[k], next.m[k], unknown.m[k]);
      }
    }
  }

  lemma {:induction false} DefaultsFit(unknown: Json, defaults: Json)
    requires unknown.Obj? && defaults.Obj? && Foreign(unknown, defaults)
    ensures Fits(defaults, unknown, defaults)
    decreases unknown
  {
    forall k | k in unknown.m && k in defaults.m
      ensures defaults.m[k].Obj? && Fits(defaults.m[k], unknown.m[k], defaults.m[k])
    {
      DefaultsFit(unknown.m[k], defaults.m[k]);
    }
  }

  /** What a search keeps on its way, up to its n-th document. */
  lemma {:induction false} SearchKeeps(schema: Schema, docs: seq<Json>, resets: seq<Path>, n: nat, unknown: Json)
    requires schema.WellFormed() && IsSearch(schema, docs, resets) && n <= |resets|
    requires docs[0].Obj? && unknown.Obj? && Foreign(unknown, schema.defaults)
    ensures Recovered(docs[0], docs[n], resets[..n], schema.defaults) && docs[n].Obj?
    ensures Complete(docs[0], schema.defaults) ==> Complete(docs[n], schema.defaults)
    ensures Fits(docs[0], unknown, schema.defaults) ==> Fits(docs[n], unknown, schema.defaults)
  {
    hide Next, Probe, LeafPaths, Named, GetAt, SetAt, Complete, Fits, Foreign;
    if n > 0 {
      SearchKeeps(schema, docs, resets, n - 1, unknown);
      var doc, path, next := docs[n - 1], resets[n - 1], docs[n];
      SearchGoesOn(schema, docs, resets, n - 1);
      NextMeans(schema, doc);
      assert resets[..n] == resets[..n - 1] + [path];
      ResetRecovers(docs[0], doc, resets[..n - 1], schema.defaults, path, next);
      if Complete(doc, schema.defaults) { ResetKeepsComplete(doc, path, schema.defaults, next); }
      if Fits(doc, unknown, schema.defaults) { ResetKeepsFits(doc, path, schema.defaults, next, unknown); }
    }
  }

  /** A mended document is valid, each reported leaf holds its default, nothing apart from those changed,
      no key of the schema went missing and no preserved key lost its place. */
  lemma MendedMeans(schema: Schema, data: Json, r: Recovery, unknown: Json)
    requires schema.WellFormed() && data.Obj? && Ends(schema, data, r) && r.Mended?
    requires unknown.Obj? && Foreign(unknown, schema.defaults)
    ensures schema.Validate(r.doc).Valid? && Recovered(data, r.doc, r.resets, schema.defaults) && r.doc.Obj?
    ensures Complete(data, schema.defaults) ==> Complete(r.doc, schema.defaults)
    ensures Fits(data, unknown, schema.defaults) ==> Fits(r.doc, unknown, schema.defaults)
    ensures r.resets == [] ==> r.doc == data
  {
    hide Next, Recovered, Complete, Fits, Foreign;
    var docs, resets :| IsSearch(schema, docs, resets) && EndsBy(schema, data, docs, resets, r);
    SearchKeeps(schema, docs, resets, |resets|, unknown);
    assert resets[..|resets|] == resets;
    NextMeans(schema, r.doc);
  }

  // ------------------------------------------------------------------------ the loops

  /** Resets leaves until the document is valid, gives up, or lets an exception of the validator out. */
  method RecoverKeys(schema: Schema, data: Json) returns (r: Recovery)
    requires schema.WellFormed()
    ensures Ends(schema, data, r)
  {
    hide LeafPaths, GetAt, SetAt, Named, Known;
    var candidate := data;
    var recovered: seq<Path> := [];
    ghost var docs := [data];
    while |recovered| < RECOVERY_ROUNDS
      invariant IsSearch(schema, docs, recovered)
      invariant docs[0] == data && docs[|recovered|] == candidate
      decreases RECOVERY_ROUNDS - |recovered|
    {
      var path: Path;
      match schema.Validate(candidate) {
        case Valid =>
          assert EndsBy(schema, data, docs, recovered, Mended(candidate, recovered));
          return Mended(candidate, recovered);
        case Raises =>
          assert EndsBy(schema, data, docs, recovered, Halted);
          return Halted;
        case Rejects(message) =>
          var telling := ProbeLeaves(schema, candidate);
          if telling.Some? {
            path := telling.value;
            if Probe(schema, candidate, path) == Some(Raises) {
              assert EndsBy(schema, data, docs, recovered, Halted);
              return Halted;
            }
          } else {
            var named := DeepestIn(schema.order(candidate), message);
            if named.None? || Reset(schema, candidate, named.value).None? {
              assert EndsBy(schema, data, docs, recovered, GaveUp);
              return GaveUp;
            }
            path := named.value;
          }
      }
      var next := Reset(schema, candidate, path);
      assert Follows(schema, candidate, path, next.value);
      SearchSnoc(schema, docs, recovered, path, next.value);
      candidate := next.value;
      recovered := recovered + [path];
      docs := docs + [candidate];
    }
    assert EndsBy(schema, data, docs, recovered, GaveUp);
    return GaveUp;
  }

  lemma SearchSnoc(schema: Schema, docs: seq<Json>, resets: seq<Path>, path: Path, next: Json)
    requires IsSearch(schema, docs, resets) && |resets| < RECOVERY_ROUNDS
    requires Follows(schema, docs[|resets|], path, next)
    ensures IsSearch(schema, docs + [next], resets + [path])
  {
    hide Follows;
    var more := docs + [next];
    forall i | 0 <= i < |resets| + 1 ensures Follows(schema, more[i], (resets + [path])[i], more[i + 1]) {
      if i < |resets| { assert Follows(schema, docs[i], resets[i], docs[i + 1]); }
    }
  }

  /** Probes one leaf at a time. */
  method ProbeLeaves(schema: Schema, doc: Json) returns (r: Option<Path>)
    ensures r == FirstTelling(schema, doc, schema.order(doc))
  {
    hide Tells;
    var paths := schema.order(doc);
    assert paths[0..] == paths;
    for i := 0 to |paths|
      invariant FirstTelling(schema, doc, paths) == FirstTelling(schema, doc, paths[i..])
    {
      assert paths[i..][0] == paths[i] && paths[i..][1..] == paths[i + 1..];
      if Tells(schema, doc, paths[i]) { return Some(paths[i]); }
    }
    r := None;
  }

  method DeepestIn(paths: seq<Path>, message: string) returns (r: Option<Path>)
    ensures r == FirstDeepest(paths, message)
  {
    hide Named;
    r := None;
    for i := 0 to |paths|
      invariant r == FirstDeepest(paths[..i], message)
    {
      assert paths[..i + 1][..i] == paths[..i] && paths[..i + 1][i] == paths[i];
      if Named(paths[i], message) && (r.None? || |paths[i]| > |r.value|) { r := Some(paths[i]); }
    }
    assert paths[..|paths|] == paths;
  }
}
