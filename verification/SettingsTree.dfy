/** Settings documents as trees (Coordinator/mlxbar/settings.py): merging, and splitting a document
    into the part the schema knows and the part it does not. */
module SettingsTree {
  datatype Json =
    Null | Bool(b: bool) | Num(n: real) | Str(s: string) | Arr(items: seq<Json>) | Obj(m: map<string, Json>)

  const EMPTY := Obj(map[])

  /** `stored` over `defaults`: objects are merged key by key, anything else is replaced. */
  function DeepMerge(defaults: Json, stored: Json): (r: Json)
    requires defaults.Obj? && stored.Obj?
    ensures r.Obj? && r.m.Keys == defaults.m.Keys + stored.m.Keys
    decreases stored
  {
    Obj(map k | k in defaults.m.Keys + stored.m.Keys ::
      if k !in stored.m then defaults.m[k]
      else if k in defaults.m && defaults.m[k].Obj? && stored.m[k].Obj? then DeepMerge(defaults.m[k], stored.m[k])
      else stored.m[k])
  }

  /** `value` without the keys the schema does not define. */
  function Strip(value: Json, defaults: Json): (r: Json)
    ensures value.Obj? && defaults.Obj? ==> r.Obj? && r.m.Keys == value.m.Keys * defaults.m.Keys
    ensures !value.Obj? || !defaults.Obj? ==> r == value
    decreases value
  {
    if !value.Obj? || !defaults.Obj? then value
    else Obj(map k | k in value.m && k in defaults.m :: Strip(value.m[k], defaults.m[k]))
  }

  predicate HasUnknown(value: Json, defaults: Json, k: string)
    requires value.Obj? && defaults.Obj? && k in value.m
    decreases value, 0
  {
    k !in defaults.m || Unknown(value.m[k], defaults.m[k]) != EMPTY
  }

  /** The part of `value` the schema does not define. */
  function Unknown(value: Json, defaults: Json): (r: Json)
    ensures r.Obj?
    ensures value.Obj? && defaults.Obj? ==>
              r.m.Keys == (set k | k in value.m && HasUnknown(value, defaults, k))
    ensures !value.Obj? || !defaults.Obj? ==> r == EMPTY
    decreases value, 1
  {
    if !value.Obj? || !defaults.Obj? then EMPTY
    else Obj(map k | k in value.m && HasUnknown(value, defaults, k) ::
      if k !in defaults.m then value.m[k] else Unknown(value.m[k], defaults.m[k]))
  }

  /** Re-attaches preserved keys where the document has nothing. */
  function Overlay(document: Json, unknown: Json): (r: Json)
    requires document.Obj? && unknown.Obj?
    ensures r.Obj? && r.m.Keys == document.m.Keys + unknown.m.Keys
    decreases unknown
  {
    Obj(map k | k in document.m.Keys + unknown.m.Keys ::
      if k !in document.m then unknown.m[k]
      else if k in unknown.m && unknown.m[k].Obj? && document.m[k].Obj? then Overlay(document.m[k], unknown.m[k])
      else document.m[k])
  }

  type Path = seq<string>

  /** Paths of the keys the schema does not define. */
  function UnknownPaths(value: Json, defaults: Json): set<Path>
    decreases value
  {
    if !value.Obj? || !defaults.Obj? then {}
    else
      (set k | k in value.m && k !in defaults.m :: [k]) +
      (set k, p | k in value.m && k in defaults.m && p in UnknownPaths(value.m[k], defaults.m[k]) :: [k] + p)
  }

  // ---------------------------------------------------------------- vocabulary

  /** Every key is defined by the schema. */
  predicate Known(value: Json, defaults: Json)
    decreases value
  {
    value.Obj? && defaults.Obj? ==>
      forall k :: k in value.m ==> k in defaults.m && Known(value.m[k], defaults.m[k])
  }

  /** Every key of the schema is present, at every depth. */
  predicate Complete(value: Json, defaults: Json)
    decreases defaults
  {
    value.Obj? && defaults.Obj? ==>
      forall k :: k in defaults.m ==> k in value.m && Complete(value.m[k], defaults.m[k])
  }

  /** Objects of the schema are objects in the value. */
  predicate Shaped(value: Json, defaults: Json)
    decreases defaults
  {
    defaults.Obj? ==>
      value.Obj? && forall k :: k in defaults.m && k in value.m ==> Shaped(value.m[k], defaults.m[k])
  }

  /** Preserved keys that fit beside a document: outside the schema, or inside an object both have. */
  predicate Compatible(document: Json, unknown: Json, defaults: Json)
    requires document.Obj? && unknown.Obj? && defaults.Obj?
    decreases unknown
  {
    forall k :: k in unknown.m && k in defaults.m ==>
      && unknown.m[k].Obj? && unknown.m[k] != EMPTY && defaults.m[k].Obj?
      && k in document.m && document.m[k].Obj? && Compatible(document.m[k], unknown.m[k], defaults.m[k])
  }

  /** Preserved keys as a newer file leaves them: outside the schema, or inside one of its objects. */
  predicate Foreign(unknown: Json, defaults: Json)
    requires unknown.Obj? && defaults.Obj?
    decreases unknown
  {
    forall k :: k in unknown.m && k in defaults.m ==>
      unknown.m[k].Obj? && unknown.m[k] != EMPTY && defaults.m[k].Obj? && Foreign(unknown.m[k], defaults.m[k])
  }

  /** No object that holds preserved keys is something else in `document`: it is an object there, or absent. */
  predicate Fits(document: Json, unknown: Json, defaults: Json)
    requires document.Obj? && unknown.Obj? && defaults.Obj? && Foreign(unknown, defaults)
    decreases unknown
  {
    forall k :: k in unknown.m && k in defaults.m && k in document.m ==>
      document.m[k].Obj? && Fits(document.m[k], unknown.m[k], defaults.m[k])
  }

  /** Where `patch` puts an object of the schema in the place of something else, it brings all its keys. */
  predicate Refills(data: Json, patch: Json, defaults: Json)
    requires data.Obj? && patch.Obj? && defaults.Obj?
    decreases patch
  {
    forall k :: k in defaults.m && k in patch.m && defaults.m[k].Obj? && patch.m[k].Obj? ==>
      if k in data.m && data.m[k].Obj? then Refills(data.m[k], patch.m[k], defaults.m[k])
      else Complete(patch.m[k], defaults.m[k])
  }

  // ------------------------------------------------------- three ways to be known

  lemma {:induction false} KnownIsStripped(value: Json, defaults: Json)
    ensures Known(value, defaults) <==> Strip(value, defaults) == value
    decreases value
  {
    if value.Obj? && defaults.Obj? {
      var r := Strip(value, defaults);
      forall k | k in value.m && k in defaults.m
        ensures Known(value.m[k], defaults.m[k]) <==> r.m[k] == value.m[k]
      {
        KnownIsStripped(value.m[k], defaults.m[k]);
      }
      if Known(value, defaults) { assert r.m == value.m; }
    }
  }

  lemma {:induction false} KnownHasNoUnknown(value: Json, defaults: Json)
    ensures Known(value, defaults) <==> Unknown(value, defaults) == EMPTY
    decreases value
  {
    if value.Obj? && defaults.Obj? {
      forall k | k in value.m && k in defaults.m
        ensures Known(value.m[k], defaults.m[k]) <==> Unknown(value.m[k], defaults.m[k]) == EMPTY
      {
        KnownHasNoUnknown(value.m[k], defaults.m[k]);
      }
      var keys := Unknown(value, defaults).m.Keys;
      if keys == {} {
        assert Unknown(value, defaults).m == map[];
        forall k | k in value.m ensures !HasUnknown(value, defaults, k) { assert k !in keys; }
      } else {
        var k :| k in keys;
        assert HasUnknown(value, defaults, k);
      }
    }
  }

  /** The check on a patch and the split agree on what "unknown" means. */
  lemma {:induction false} NoUnknownPaths(value: Json, defaults: Json)
    ensures Known(value, defaults) <==> UnknownPaths(value, defaults) == {}
    decreases value
  {
    if value.Obj? && defaults.Obj? {
      var paths := UnknownPaths(value, defaults);
      forall k | k in value.m && k in defaults.m
        ensures Known(value.m[k], defaults.m[k]) <==> UnknownPaths(value.m[k], defaults.m[k]) == {}
        ensures UnknownPaths(value.m[k], defaults.m[k]) != {} ==> paths != {}
      {
        NoUnknownPaths(value.m[k], defaults.m[k]);
        if UnknownPaths(value.m[k], defaults.m[k]) != {} {
          var p :| p in UnknownPaths(value.m[k], defaults.m[k]);
          assert [k] + p in paths;
        }
      }
      forall k | k in value.m && k !in defaults.m ensures paths != {} { assert [k] in paths; }
    }
  }

  // --------------------------------------------------------------- lossless split

  /** Splitting a document loses nothing: its known part with its unknown part laid over is itself. */
  lemma {:induction false} OverlayOfSplit(value: Json, defaults: Json)
    requires value.Obj? && defaults.Obj?
    ensures Overlay(Strip(value, defaults), Unknown(value, defaults)) == value
    decreases value
  {
    var s, u := Strip(value, defaults), Unknown(value, defaults);
    var r := Overlay(s, u);
    forall k | k in value.m ensures k in r.m && r.m[k] == value.m[k] {
      if k in defaults.m {
        if HasUnknown(value, defaults, k) {
          OverlayOfSplit(value.m[k], defaults.m[k]);
        } else {
          KnownHasNoUnknown(value.m[k], defaults.m[k]);
          KnownIsStripped(value.m[k], defaults.m[k]);
        }
      }
    }
    assert r.m == value.m;
  }

  /** And laying preserved keys over a known document can be undone exactly when they are compatible. */
  lemma OverlaySplitsBackExactly(document: Json, unknown: Json, defaults: Json)
    requires document.Obj? && unknown.Obj? && defaults.Obj? && Known(document, defaults)
    ensures var r := Overlay(document, unknown);
            (Strip(r, defaults) == document && Unknown(r, defaults) == unknown) <==>
            Compatible(document, unknown, defaults)
  {
    if Compatible(document, unknown, defaults) {
      StripOfOverlay(document, unknown, defaults);
      UnknownOfOverlay(document, unknown, defaults);
    } else {
      IncompatibleIsLost(document, unknown, defaults);
    }
  }

  lemma {:induction false} StripOfOverlay(document: Json, unknown: Json, defaults: Json)
    requires document.Obj? && unknown.Obj? && defaults.Obj?
    requires Known(document, defaults) && Compatible(document, unknown, defaults)
    ensures Strip(Overlay(document, unknown), defaults) == document
    decreases unknown
  {
    var r := Overlay(document, unknown);
    var s := Strip(r, defaults);
    forall k | k in document.m ensures k in s.m && s.m[k] == document.m[k] {
      if k in unknown.m {
        StripOfOverlay(document.m[k], unknown.m[k], defaults.m[k]);
      } else {
        KnownIsStripped(document.m[k], defaults.m[k]);
      }
    }
    assert s.m == document.m;
  }

  lemma {:induction false} UnknownOfOverlay(document: Json, unknown: Json, defaults: Json)
    requires document.Obj? && unknown.Obj? && defaults.Obj?
    requires Known(document, defaults) && Compatible(document, unknown, defaults)
    ensures Unknown(Overlay(document, unknown), defaults) == unknown
    decreases unknown
  {
    var r := Overlay(document, unknown);
    var u := Unknown(r, defaults);
    forall k | k in r.m ensures HasUnknown(r, defaults, k) <==> k in unknown.m
                        ensures k in unknown.m ==> k in u.m && u.m[k] == unknown.m[k] {
      if k in unknown.m {
        if k in defaults.m { UnknownOfOverlay(document.m[k], unknown.m[k], defaults.m[k]); }
      } else {
        KnownHasNoUnknown(document.m[k], defaults.m[k]);
      }
    }
    assert u.m == unknown.m;
  }

  lemma {:induction false} IncompatibleIsLost(document: Json, unknown: Json, defaults: Json)
    requires document.Obj? && unknown.Obj? && defaults.Obj?
    requires Known(document, defaults) && !Compatible(document, unknown, defaults)
    ensures var r := Overlay(document, unknown);
            Strip(r, defaults) != document || Unknown(r, defaults) != unknown
    decreases unknown
  {
    var r := Overlay(document, unknown);
    var u, s := Unknown(r, defaults), Strip(r, defaults);
    var k :| k in unknown.m && k in defaults.m &&
      !(&& unknown.m[k].Obj? && unknown.m[k] != EMPTY && defaults.m[k].Obj?
        && k in document.m && document.m[k].Obj? && Compatible(document.m[k], unknown.m[k], defaults.m[k]));
    if s == document && u == unknown {
      assert HasUnknown(r, defaults, k);
      assert u.m[k] == Unknown(r.m[k], defaults.m[k]);
      assert k in s.m;
      if document.m[k].Obj? && unknown.m[k].Obj? {
        IncompatibleIsLost(document.m[k], unknown.m[k], defaults.m[k]);
      }
    }
  }

  /** The unknown part of any document is foreign, and unknown through and through. */
  lemma {:induction false} UnknownIsForeign(value: Json, defaults: Json)
    requires value.Obj? && defaults.Obj?
    ensures Foreign(Unknown(value, defaults), defaults)
    decreases value
  {
    var u := Unknown(value, defaults);
    forall k | k in u.m && k in defaults.m
      ensures u.m[k].Obj? && u.m[k] != EMPTY && defaults.m[k].Obj? && Foreign(u.m[k], defaults.m[k])
    {
      assert HasUnknown(value, defaults, k);
      UnknownIsForeign(value.m[k], defaults.m[k]);
    }
  }

  lemma {:induction false} ForeignIsUnknown(unknown: Json, defaults: Json)
    requires unknown.Obj? && defaults.Obj? && Foreign(unknown, defaults)
    ensures Unknown(unknown, defaults) == unknown
    decreases unknown
  {
    var u := Unknown(unknown, defaults);
    forall k | k in unknown.m ensures HasUnknown(unknown, defaults, k) && u.m[k] == unknown.m[k] {
      if k in defaults.m { ForeignIsUnknown(unknown.m[k], defaults.m[k]); }
    }
    assert u.m == unknown.m;
  }

  /** A written document gives back every preserved key with its value exactly when the keys fit. */
  lemma {:induction false} UnknownSurvivesExactly(document: Json, unknown: Json, defaults: Json)
    requires document.Obj? && unknown.Obj? && defaults.Obj?
    requires Known(document, defaults) && Foreign(unknown, defaults)
    ensures Unknown(Overlay(document, unknown), defaults) == unknown <==> Fits(document, unknown, defaults)
    decreases unknown
  {
    var r := Overlay(document, unknown);
    var u := Unknown(r, defaults);
    forall k | k in r.m && k !in unknown.m ensures k !in u.m {
      KnownHasNoUnknown(document.m[k], defaults.m[k]);
    }
    forall k | k in unknown.m
      ensures (k in u.m && u.m[k] == unknown.m[k]) <==>
        (k in defaults.m && k in document.m ==>
           document.m[k].Obj? && Fits(document.m[k], unknown.m[k], defaults.m[k]))
    {
      if k in defaults.m && k in document.m && document.m[k].Obj? {
        UnknownSurvivesExactly(document.m[k], unknown.m[k], defaults.m[k]);
      } else if k in defaults.m && k !in document.m {
        ForeignIsUnknown(unknown.m[k], defaults.m[k]);
      }
    }
    if Fits(document, unknown, defaults) { assert u.m == unknown.m; }
  }

  /** What the schema knows of a written document is that document, if it lacks no key of the schema. */
  lemma {:induction false} CompleteSplitsOff(document: Json, unknown: Json, defaults: Json)
    requires document.Obj? && unknown.Obj? && defaults.Obj?
    requires Known(document, defaults) && Complete(document, defaults) && Foreign(unknown, defaults)
    ensures Strip(Overlay(document, unknown), defaults) == document
    decreases unknown
  {
    var r := Overlay(document, unknown);
    var s := Strip(r, defaults);
    forall k | k in document.m ensures k in s.m && s.m[k] == document.m[k] {
      if k in unknown.m && document.m[k].Obj? {
        CompleteSplitsOff(document.m[k], unknown.m[k], defaults.m[k]);
      } else {
        KnownIsStripped(document.m[k], defaults.m[k]);
      }
    }
    assert s.m == document.m;
  }

  lemma {:induction false} CompatibleFits(document: Json, unknown: Json, defaults: Json)
    requires document.Obj? && unknown.Obj? && defaults.Obj? && Compatible(document, unknown, defaults)
    ensures Foreign(unknown, defaults) && Fits(document, unknown, defaults)
    decreases unknown
  {
    forall k | k in unknown.m && k in defaults.m
      ensures Foreign(unknown.m[k], defaults.m[k]) && Fits(document.m[k], unknown.m[k], defaults.m[k])
    {
      CompatibleFits(document.m[k], unknown.m[k], defaults.m[k]);
    }
  }

  // ---------------------------------------------------------------------- merging

  lemma {:induction false} CompleteIsFixed(value: Json, defaults: Json)
    requires value.Obj? && defaults.Obj? && Complete(value, defaults)
    ensures DeepMerge(defaults, value) == value
    decreases value
  {
    var r := DeepMerge(defaults, value);
    forall k | k in value.m && k in defaults.m && value.m[k].Obj? && defaults.m[k].Obj? ensures r.m[k] == value.m[k] {
      CompleteIsFixed(value.m[k], defaults.m[k]);
    }
    assert r.m == value.m;
  }

  lemma {:induction false} CompleteSelf(value: Json)
    ensures Complete(value, value) && Shaped(value, value)
    decreases value
  {
    if value.Obj? {
      forall k | k in value.m ensures Complete(value.m[k], value.m[k]) && Shaped(value.m[k], value.m[k]) {
        CompleteSelf(value.m[k]);
      }
    }
  }

  lemma {:induction false} MergeOverDefaultsIsComplete(defaults: Json, stored: Json)
    requires defaults.Obj? && stored.Obj?
    ensures Complete(DeepMerge(defaults, stored), defaults)
    decreases stored
  {
    var r := DeepMerge(defaults, stored);
    forall k | k in defaults.m ensures Complete(r.m[k], defaults.m[k]) {
      if k !in stored.m {
        CompleteSelf(defaults.m[k]);
      } else if defaults.m[k].Obj? && stored.m[k].Obj? {
        MergeOverDefaultsIsComplete(defaults.m[k], stored.m[k]);
      }
    }
  }

  /** Merging a document over the defaults changes nothing exactly when it has every key of the schema. */
  lemma FixedExactlyWhenComplete(value: Json, defaults: Json)
    requires value.Obj? && defaults.Obj?
    ensures DeepMerge(defaults, value) == value <==> Complete(value, defaults)
  {
    hide DeepMerge, Complete;
    MergeOverDefaultsIsComplete(defaults, value);
    if Complete(value, defaults) { CompleteIsFixed(value, defaults); }
  }

  /** An update leaves the preserved keys their place exactly when its own patch does. */
  lemma {:induction false} MergeFitsExactly(data: Json, patch: Json, unknown: Json, defaults: Json)
    requires data.Obj? && patch.Obj? && unknown.Obj? && defaults.Obj? && Foreign(unknown, defaults)
    requires Fits(data, unknown, defaults)
    ensures Fits(DeepMerge(data, patch), unknown, defaults) <==> Fits(patch, unknown, defaults)
    decreases unknown
  {
    var r := DeepMerge(data, patch);
    forall k | k in unknown.m && k in defaults.m && k in r.m
      ensures (r.m[k].Obj? && Fits(r.m[k], unknown.m[k], defaults.m[k])) <==>
        (k in patch.m ==> patch.m[k].Obj? && Fits(patch.m[k], unknown.m[k], defaults.m[k]))
    {
      if k in patch.m && k in data.m && patch.m[k].Obj? {
        MergeFitsExactly(data.m[k], patch.m[k], unknown.m[k], defaults.m[k]);
      }
    }
  }

  /** In particular a patch that keeps objects of the schema objects leaves every preserved key its place. */
  lemma {:induction false} ShapedFits(patch: Json, unknown: Json, defaults: Json)
    requires patch.Obj? && unknown.Obj? && defaults.Obj? && Foreign(unknown, defaults) && Shaped(patch, defaults)
    ensures Fits(patch, unknown, defaults)
    decreases unknown
  {
    forall k | k in unknown.m && k in defaults.m && k in patch.m
      ensures patch.m[k].Obj? && Fits(patch.m[k], unknown.m[k], defaults.m[k])
    {
      ShapedFits(patch.m[k], unknown.m[k], defaults.m[k]);
    }
  }

  /** An update keeps every key of the schema present exactly when it refills what it replaces. */
  lemma {:induction false} MergeCompleteExactly(data: Json, patch: Json, defaults: Json)
    requires data.Obj? && patch.Obj? && defaults.Obj? && Complete(data, defaults)
    ensures Complete(DeepMerge(data, patch), defaults) <==> Refills(data, patch, defaults)
    decreases patch
  {
    var r := DeepMerge(data, patch);
    forall k | k in defaults.m
      ensures k in r.m
      ensures Complete(r.m[k], defaults.m[k]) <==>
        (k in patch.m && defaults.m[k].Obj? && patch.m[k].Obj? ==>
           if data.m[k].Obj? then Refills(data.m[k], patch.m[k], defaults.m[k])
           else Complete(patch.m[k], defaults.m[k]))
    {
      if k in patch.m && data.m[k].Obj? && patch.m[k].Obj? && defaults.m[k].Obj? {
        MergeCompleteExactly(data.m[k], patch.m[k], defaults.m[k]);
      }
    }
  }

  /** What a newer file's unknown keys look like beside the document loaded from it. */
  lemma {:induction false} LoadedIsCompatible(raw: Json, defaults: Json)
    requires raw.Obj? && defaults.Obj?
    ensures Compatible(DeepMerge(defaults, Strip(raw, defaults)), Unknown(raw, defaults), defaults)
    decreases raw
  {
    var u := Unknown(raw, defaults);
    var r := DeepMerge(defaults, Strip(raw, defaults));
    forall k | k in u.m && k in defaults.m
      ensures u.m[k].Obj? && u.m[k] != EMPTY && defaults.m[k].Obj? && k in r.m && r.m[k].Obj?
      ensures Compatible(r.m[k], u.m[k], defaults.m[k])
    {
      assert HasUnknown(raw, defaults, k);
      LoadedIsCompatible(raw.m[k], defaults.m[k]);
    }
  }

  lemma {:induction false} StripIsKnown(value: Json, defaults: Json)
    ensures Known(Strip(value, defaults), defaults)
    decreases value
  {
    if value.Obj? && defaults.Obj? {
      forall k | k in value.m && k in defaults.m ensures Known(Strip(value.m[k], defaults.m[k]), defaults.m[k]) {
        StripIsKnown(value.m[k], defaults.m[k]);
      }
    }
  }

  lemma {:induction false} KnownSelf(value: Json)
    ensures Known(value, value)
    decreases value
  {
    if value.Obj? {
      forall k | k in value.m ensures Known(value.m[k], value.m[k]) { KnownSelf(value.m[k]); }
    }
  }

  lemma {:induction false} MergeIsKnown(defaults: Json, stored: Json)
    requires defaults.Obj? && stored.Obj? && Known(stored, defaults)
    ensures Known(DeepMerge(defaults, stored), defaults)
    decreases stored
  {
    var r := DeepMerge(defaults, stored);
    forall k | k in r.m ensures k in defaults.m && Known(r.m[k], defaults.m[k]) {
      if k !in stored.m {
        KnownSelf(defaults.m[k]);
      } else if defaults.m[k].Obj? && stored.m[k].Obj? {
        MergeIsKnown(defaults.m[k], stored.m[k]);
      }
    }
  }
}
