/** The settings store (Coordinator/mlxbar/settings.py, `SettingsStore`): loading with key-by-key
    recovery, and writes that carry unknown keys through. */
module SettingsStore {
  import opened Prelude
  import opened SettingsTree
  import opened SettingsPaths
  import opened SettingsRecovery

  // --------------------------------------------------------------------- loading

  // What is on disk: nothing, something that is not a JSON object, or a document.
  datatype File = Missing | Corrupt | Document(v: Json)

  function Truncate(n: real): int {
    if n >= 0.0 then n.Floor else -(-n).Floor
  }

  /** `int(version or 1)`; None when that raises. */
  function VersionIn(version: Json, parseInt: string -> Option<int>): Option<int> {
    match version
    case Null => Some(1)
    case Bool(_) => Some(1)
    case Num(n) => if n == 0.0 then Some(1) else Some(Truncate(n))
    case Str(text) => if text == "" then Some(1) else parseInt(text)
    case Arr(items) => if items == [] then Some(1) else None
    case Obj(m) => if m == map[] then Some(1) else None
  }

  // Neither null, false, zero nor empty.
  predicate Truthy(value: Json) {
    value !in {Null, Bool(false), Num(0.0), Str(""), Arr([]), Obj(map[])}
  }

  /** How a version reads: 1 when there is nothing in it, else a number cut towards zero or a text as it
      parses; a list or an object with something in it cannot be read. */
  lemma VersionReads(version: Json, parseInt: string -> Option<int>)
    ensures !Truthy(version) ==> VersionIn(version, parseInt) == Some(1)
    ensures version == Bool(true) ==> VersionIn(version, parseInt) == Some(1)
    ensures Truthy(version) && version.Num? ==>
      var v := VersionIn(version, parseInt);
      && v.Some? && (version.n > 0.0 ==> 0 <= v.value && v.value as real <= version.n < v.value as real + 1.0)
      && (version.n < 0.0 ==> v.value <= 0 && v.value as real - 1.0 < version.n <= v.value as real)
    ensures Truthy(version) && version.Str? ==> VersionIn(version, parseInt) == parseInt(version.s)
    ensures Truthy(version) && (version.Arr? || version.Obj?) ==> VersionIn(version, parseInt) == None
  {
  }

  /** `int(raw.get("schemaVersion", 1) or 1)`. */
  function VersionOf(raw: Json, parseInt: string -> Option<int>): Option<int>
    requires raw.Obj?
  {
    if VERSION_KEY !in raw.m then Some(1) else VersionIn(raw.m[VERSION_KEY], parseInt)
  }

  predicate ForwardCompatible(raw: Json, parseInt: string -> Option<int>)
    requires raw.Obj?
  {
    var v := VersionOf(raw, parseInt);
    v.Some? && v.value > 1
  }

  /** The in-memory document a stored one loads as, before validation. */
  function LoadedFrom(raw: Json, schema: Schema): (r: Json)
    requires raw.Obj? && schema.defaults.Obj?
    ensures r.Obj?
  {
    var stored := Strip(raw, schema.defaults);
    DeepMerge(schema.defaults,
              if ForwardCompatible(raw, schema.parseInt) then WithVersion(stored, schema.defaults) else stored)
  }

  function WithVersion(stored: Json, defaults: Json): (r: Json)
    requires stored.Obj? && defaults.Obj?
    ensures r.Obj?
  {
    if VERSION_KEY in defaults.m then Obj(stored.m[VERSION_KEY := defaults.m[VERSION_KEY]]) else stored
  }

  /** What every store holds from its start on: a document of known keys, and preserved keys that lie
      outside the schema or inside its objects. */
  ghost predicate InStep(data: Json, unknown: Json, schema: Schema) {
    && data.Obj? && unknown.Obj? && schema.defaults.Obj?
    && Known(data, schema.defaults) && Foreign(unknown, schema.defaults)
  }

  /** A loaded document has every key of the schema and leaves every unknown key of its file its place. */
  lemma LoadedIsInStep(raw: Json, schema: Schema)
    requires raw.Obj? && schema.WellFormed()
    ensures InStep(LoadedFrom(raw, schema), Unknown(raw, schema.defaults), schema)
    ensures Complete(LoadedFrom(raw, schema), schema.defaults)
    ensures Fits(LoadedFrom(raw, schema), Unknown(raw, schema.defaults), schema.defaults)
  {
    hide Strip, Unknown, DeepMerge, Known, Complete, Compatible, VersionOf, Foreign, Fits;
    var d := schema.defaults;
    var stored := Strip(raw, d);
    var fixed := if ForwardCompatible(raw, schema.parseInt) then WithVersion(stored, d) else stored;
    StripIsKnown(raw, d);
    VersionIsKnown(stored, d);
    MergeIsKnown(d, fixed);
    MergeOverDefaultsIsComplete(d, fixed);
    LoadedIsCompatible(raw, d);
    if fixed != stored { VersionStaysCompatible(stored, Unknown(raw, d), d); }
    CompatibleFits(DeepMerge(d, fixed), Unknown(raw, d), d);
  }

  lemma VersionIsKnown(stored: Json, defaults: Json)
    requires stored.Obj? && defaults.Obj? && Known(stored, defaults)
    requires VERSION_KEY in defaults.m ==> !defaults.m[VERSION_KEY].Obj?
    ensures Known(WithVersion(stored, defaults), defaults)
  {
  }

  // Replacing the version, a leaf of the schema, disturbs no preserved key.
  lemma VersionStaysCompatible(stored: Json, unknown: Json, defaults: Json)
    requires stored.Obj? && unknown.Obj? && defaults.Obj? && VERSION_KEY in defaults.m && !defaults.m[VERSION_KEY].Obj?
    requires Compatible(DeepMerge(defaults, stored), unknown, defaults)
    ensures Compatible(DeepMerge(defaults, WithVersion(stored, defaults)), unknown, defaults)
  {
  }

  /** Whatever patch is accepted, the store stays in step; the preserved keys keep their place exactly when
      the patch replaces no object that holds one, and no key of the schema goes missing exactly when the
      patch refills what it replaces. */
  lemma UpdateStaysInStep(data: Json, unknown: Json, patch: Json, schema: Schema)
    requires InStep(data, unknown, schema) && Accepts(data, patch, schema)
    ensures var merged := DeepMerge(data, patch);
            && InStep(merged, unknown, schema)
            && (Fits(data, unknown, schema.defaults) ==>
                  (Fits(merged, unknown, schema.defaults) <==> Fits(patch, unknown, schema.defaults)))
            && (Complete(data, schema.defaults) ==>
                  (Complete(merged, schema.defaults) <==> Refills(data, patch, schema.defaults)))
  {
    hide DeepMerge, Known, Complete, Foreign, Fits, Refills;
    if Fits(data, unknown, schema.defaults) { MergeFitsExactly(data, patch, unknown, schema.defaults); }
    if Complete(data, schema.defaults) { MergeCompleteExactly(data, patch, schema.defaults); }
  }

  // --------------------------------------------------------------------- starting

  /** A file that holds a settings document of some kind. */
  predicate Readable(file: File) {
    file.Document? && file.v.Obj?
  }

  /** A start on this file comes up: its version reads as a number, and the search for a valid document
      does not run into an exception of the validator. */
  ghost predicate CanStart(schema: Schema, file: File)
    requires schema.defaults.Obj?
  {
    Readable(file) ==>
      VersionOf(file.v, schema.parseInt).Some? && !Ends(schema, LoadedFrom(file.v, schema), Halted)
  }

  /** And this document and these preserved keys are what it finds there. */
  ghost predicate StartsWith(schema: Schema, file: File, data: Json, unknown: Json)
    requires schema.defaults.Obj?
  {
    if !Readable(file) then data == schema.defaults && unknown == EMPTY
    else
      && VersionOf(file.v, schema.parseInt).Some?
      && unknown == Unknown(file.v, schema.defaults)
      && exists r :: Found(schema, LoadedFrom(file.v, schema), r, data)
  }

  ghost predicate Found(schema: Schema, loaded: Json, r: Recovery, data: Json) {
    && Ends(schema, loaded, r) && !r.Halted?
    && data == if r.Mended? then r.doc else schema.defaults
  }

  lemma IsFound(schema: Schema, loaded: Json, r: Recovery)
    requires Ends(schema, loaded, r)
    ensures !r.Halted? ==> Found(schema, loaded, r, if r.Mended? then r.doc else schema.defaults)
  {
    hide Ends;
  }

  /** Whatever is found, it is valid, has every key of the schema, and leaves each preserved key its place. */
  lemma FoundIsWhole(schema: Schema, raw: Json, r: Recovery, data: Json)
    requires raw.Obj? && schema.WellFormed() && Found(schema, LoadedFrom(raw, schema), r, data)
    ensures schema.Validate(data).Valid? && InStep(data, Unknown(raw, schema.defaults), schema)
    ensures Complete(data, schema.defaults) && Fits(data, Unknown(raw, schema.defaults), schema.defaults)
  {
    hide Ends, Complete, Fits, Foreign, Strip, Unknown, LoadedFrom, Known, Recovered;
    var unknown := Unknown(raw, schema.defaults);
    LoadedIsInStep(raw, schema);
    if r.Mended? {
      MendedMeans(schema, LoadedFrom(raw, schema), r, unknown);
      ValidIsKnown(schema, data);
    } else {
      KnownSelf(schema.defaults);
      CompleteSelf(schema.defaults);
      DefaultsFit(unknown, schema.defaults);
    }
  }

  lemma ValidIsKnown(schema: Schema, doc: Json)
    ensures schema.Validate(doc).Valid? ==> Known(doc, schema.defaults)
  {
    hide Known;
  }

  // A recovered document has the version the loaded one has, unless a reset put the default there.
  lemma RecoveredVersion(data: Json, doc: Json, resets: seq<Path>, defaults: Json)
    requires Recovered(data, doc, resets, defaults) && data.Obj? && doc.Obj? && defaults.Obj?
    requires VERSION_KEY in defaults.m && !defaults.m[VERSION_KEY].Obj?
    requires VERSION_KEY in data.m && data.m[VERSION_KEY] == defaults.m[VERSION_KEY]
    ensures VERSION_KEY in doc.m && doc.m[VERSION_KEY] == defaults.m[VERSION_KEY]
  {
    var version: Path := [VERSION_KEY];
    assert version[1..] == [];
    assert GetAt(defaults, version) == Some(defaults.m[VERSION_KEY]) == GetAt(data, version);
    if !Untouched(version, resets) {
      var p :| p in resets && Comparable(p, version);
      if p != version {
        assert version <= p;
        NothingBelow(defaults, version, p);
      }
    }
    assert GetAt(doc, version) == if VERSION_KEY in doc.m then GetAt(doc.m[VERSION_KEY], []) else None;
  }

  lemma NothingBelow(doc: Json, leaf: Path, p: Path)
    requires GetAt(doc, leaf).Some? && !GetAt(doc, leaf).value.Obj? && leaf <= p && leaf != p
    ensures GetAt(doc, p) == None
  {
    var rest := p[|leaf|..];
    assert p == leaf + rest && rest != [];
    GetFurther(doc, leaf, rest);
  }

  // ---------------------------------------------------------------------- reloading

  /** A version that a start can read and leaves as it is: a number no newer than 1, or the schema's own. */
  predicate Readmits(schema: Schema, version: Json)
    requires schema.defaults.Obj? && VERSION_KEY in schema.defaults.m
  {
    var v := VersionIn(version, schema.parseInt);
    v.Some? && (v.value <= 1 || version == schema.defaults.m[VERSION_KEY])
  }

  predicate VersionSurvives(data: Json, schema: Schema)
    requires data.Obj? && schema.defaults.Obj? && VERSION_KEY in schema.defaults.m
  {
    VERSION_KEY in data.m && Readmits(schema, data.m[VERSION_KEY])
  }

  /** A written file gives back every preserved key exactly when the keys fit. The next start finds the
      document itself exactly when it has every key of the schema and a version that can be read and is
      not newer; with a version that cannot be read there is no next start. */
  lemma ReloadsExactly(data: Json, unknown: Json, schema: Schema)
    requires schema.WellFormed() && InStep(data, unknown, schema) && schema.Validate(data).Valid?
    ensures var written := Overlay(data, unknown);
            var kept := Unknown(written, schema.defaults);
            && (kept == unknown <==> Fits(data, unknown, schema.defaults))
            && (StartsWith(schema, Document(written), data, kept) <==>
                Complete(data, schema.defaults) && VersionSurvives(data, schema))
    ensures Complete(data, schema.defaults) && VersionOf(data, schema.parseInt).None? ==>
              !CanStart(schema, Document(Overlay(data, unknown)))
  {
    hide Strip, Unknown, Known, VersionOf, DeepMerge, Overlay, Complete, Foreign, Fits, LoadedFrom, Ends,
      Recovered, VersionSurvives;
    var written := Overlay(data, unknown);
    UnknownSurvivesExactly(data, unknown, schema.defaults);
    if Complete(data, schema.defaults) {
      CompleteReloads(data, unknown, schema);
      if VersionSurvives(data, schema) {
        ValidEndsAtOnce(schema, data);
        assert Found(schema, LoadedFrom(written, schema), Mended(data, []), data);
      } else if StartsWith(schema, Document(written), data, Unknown(written, schema.defaults)) {
        var r :| Found(schema, LoadedFrom(written, schema), r, data);
        OnlyNewerIsOverridden(data, schema);
        OverriddenStaysAway(data, unknown, schema, r);
      }
    } else if StartsWith(schema, Document(written), data, Unknown(written, schema.defaults)) {
      var r :| Found(schema, LoadedFrom(written, schema), r, data);
      FoundIsWhole(schema, written, r, data);
    }
  }

  /** The file of a complete document has its version, and loads as it when that survives. */
  lemma CompleteReloads(data: Json, unknown: Json, schema: Schema)
    requires InStep(data, unknown, schema) && schema.WellFormed() && Complete(data, schema.defaults)
    ensures VersionOf(Overlay(data, unknown), schema.parseInt) == VersionOf(data, schema.parseInt)
    ensures VersionSurvives(data, schema) ==>
              LoadedFrom(Overlay(data, unknown), schema) == data && VersionOf(data, schema.parseInt).Some?
    ensures VERSION_KEY in data.m
    ensures ForwardCompatible(data, schema.parseInt) ==>
              var loaded := LoadedFrom(Overlay(data, unknown), schema);
              VERSION_KEY in loaded.m && loaded.m[VERSION_KEY] == schema.defaults.m[VERSION_KEY]
  {
    hide Strip, Unknown, Known, DeepMerge, Overlay, Complete, Foreign, VersionIn;
    var d := schema.defaults;
    VersionIsKept(data, unknown, schema);
    CompleteSplitsOff(data, unknown, d);
    CompleteIsFixed(data, d);
    VersionOverride(data, d);
  }

  lemma OnlyNewerIsOverridden(data: Json, schema: Schema)
    requires schema.WellFormed() && data.Obj? && VERSION_KEY in data.m
    ensures VersionOf(data, schema.parseInt).Some? && !VersionSurvives(data, schema) ==>
              ForwardCompatible(data, schema.parseInt)
  {
    hide VersionIn;
  }

  // A newer version is replaced by the schema's own, and a search from there keeps that.
  lemma OverriddenStaysAway(data: Json, unknown: Json, schema: Schema, r: Recovery)
    requires schema.WellFormed() && InStep(data, unknown, schema) && Complete(data, schema.defaults)
    requires ForwardCompatible(data, schema.parseInt) && !VersionSurvives(data, schema)
    ensures !Found(schema, LoadedFrom(Overlay(data, unknown), schema), r, data)
  {
    hide Strip, Unknown, Known, DeepMerge, Overlay, Complete, Foreign, VersionIn, Ends, LoadedFrom, Fits, Recovered;
    CompleteReloads(data, unknown, schema);
    var loaded := LoadedFrom(Overlay(data, unknown), schema);
    if Found(schema, loaded, r, data) && r.Mended? {
      EmptyIsForeign(schema.defaults);
      MendedMeans(schema, loaded, r, EMPTY);
      RecoveredVersion(loaded, data, r.resets, schema.defaults);
    }
  }

  lemma VersionIsKept(data: Json, unknown: Json, schema: Schema)
    requires InStep(data, unknown, schema) && schema.WellFormed() && Complete(data, schema.defaults)
    ensures VERSION_KEY in data.m && VERSION_KEY in Overlay(data, unknown).m
    ensures Overlay(data, unknown).m[VERSION_KEY] == data.m[VERSION_KEY]
  {
  }

  lemma VersionOverride(data: Json, defaults: Json)
    requires data.Obj? && defaults.Obj? && Complete(data, defaults)
    requires VERSION_KEY in defaults.m && VERSION_KEY in data.m
    requires !defaults.m[VERSION_KEY].Obj?
    ensures var r := DeepMerge(defaults, WithVersion(data, defaults));
            && VERSION_KEY in r.m && r.m[VERSION_KEY] == defaults.m[VERSION_KEY]
            && (r == data <==> data.m[VERSION_KEY] == defaults.m[VERSION_KEY])
  {
    hide Complete;
    var w := WithVersion(data, defaults);
    assert DeepMerge(defaults, w).m[VERSION_KEY] == defaults.m[VERSION_KEY];
    if data.m[VERSION_KEY] == defaults.m[VERSION_KEY] {
      assert w.m == data.m;
      CompleteIsFixed(data, defaults);
    }
  }

  /** An update leaves a version that survives exactly when its patch brings none or one that does. */
  lemma MergeVersionExactly(data: Json, patch: Json, schema: Schema)
    requires data.Obj? && patch.Obj? && schema.WellFormed() && VersionSurvives(data, schema)
    ensures VersionSurvives(DeepMerge(data, patch), schema) <==>
            (VERSION_KEY in patch.m ==> Readmits(schema, patch.m[VERSION_KEY]))
  {
    hide Readmits, DeepMerge;
    MergedVersion(data, patch, schema);
  }

  lemma MergedVersion(data: Json, patch: Json, schema: Schema)
    requires data.Obj? && patch.Obj? && schema.WellFormed() && VersionSurvives(data, schema)
    ensures var merged := DeepMerge(data, patch);
            && VERSION_KEY in merged.m
            && merged.m[VERSION_KEY] == (if VERSION_KEY in patch.m then patch.m[VERSION_KEY] else data.m[VERSION_KEY])
  {
    hide Known;
    if VERSION_KEY in patch.m && patch.m[VERSION_KEY].Obj? && data.m[VERSION_KEY].Obj? {
      assert data.m[VERSION_KEY].m == map[];
      assert DeepMerge(data.m[VERSION_KEY], patch.m[VERSION_KEY]).m == patch.m[VERSION_KEY].m;
    }
  }

  // ------------------------------------------------------------------------ runs

  /** The document after a sequence of updates; a refused one changes nothing. */
  function AfterUpdates(data: Json, patches: seq<Json>, schema: Schema): (r: Json)
    requires data.Obj?
    ensures r.Obj?
    decreases |patches|
  {
    if patches == [] then data
    else
      var next := if Accepts(data, patches[0], schema) then DeepMerge(data, patches[0]) else data;
      AfterUpdates(next, patches[1..], schema)
  }

  predicate Accepts(data: Json, patch: Json, schema: Schema)
    requires data.Obj?
  {
    patch.Obj? && Known(patch, schema.defaults) && schema.Validate(DeepMerge(data, patch)).Valid?
  }

  lemma {:induction false} UpdatesStayInStep(data: Json, unknown: Json, patches: seq<Json>, schema: Schema)
    requires data.Obj? && InStep(data, unknown, schema)
    ensures InStep(AfterUpdates(data, patches, schema), unknown, schema)
    decreases |patches|
  {
    hide InStep, DeepMerge, Known;
    if patches != [] {
      if Accepts(data, patches[0], schema) {
        UpdateStaysInStep(data, unknown, patches[0], schema);
        UpdatesStayInStep(DeepMerge(data, patches[0]), unknown, patches[1..], schema);
      } else {
        UpdatesStayInStep(data, unknown, patches[1..], schema);
      }
    }
  }

  lemma {:induction false} UpdatesStayValid(data: Json, patches: seq<Json>, schema: Schema)
    requires data.Obj? && schema.Validate(data).Valid?
    ensures schema.Validate(AfterUpdates(data, patches, schema)).Valid?
    decreases |patches|
  {
    hide DeepMerge, Known;
    if patches != [] {
      UpdatesStayValid(if Accepts(data, patches[0], schema) then DeepMerge(data, patches[0]) else data,
                       patches[1..], schema);
    }
  }

  /** Whatever updates follow a start, accepted or not: every preserved key is written back with its original
      value if and only if the document leaves it its place, and the next start finds the document if and
      only if it has every key of the schema and a version that survives. */
  lemma UnknownKeysSurviveUpdates(file: File, start: Json, unknown: Json, patches: seq<Json>, schema: Schema)
    requires schema.WellFormed() && StartsWith(schema, file, start, unknown) && start.Obj? && unknown.Obj?
    ensures var data := AfterUpdates(start, patches, schema);
            var written := Overlay(data, unknown);
            var kept := Unknown(written, schema.defaults);
            && schema.Validate(data).Valid? && InStep(data, unknown, schema)
            && (kept == unknown <==> Fits(data, unknown, schema.defaults))
            && (StartsWith(schema, Document(written), data, kept) <==>
                Complete(data, schema.defaults) && VersionSurvives(data, schema))
  {
    hide Unknown, Fits, DeepMerge, Known, AfterUpdates, Overlay, VersionSurvives, Complete, Foreign, StartsWith;
    StartIsWhole(schema, file, start, unknown);
    UpdatesStayInStep(start, unknown, patches, schema);
    UpdatesStayValid(start, patches, schema);
    ReloadsExactly(AfterUpdates(start, patches, schema), unknown, schema);
  }

  lemma StartIsWhole(schema: Schema, file: File, start: Json, unknown: Json)
    requires schema.WellFormed() && StartsWith(schema, file, start, unknown)
    ensures schema.Validate(start).Valid? && InStep(start, unknown, schema)
    ensures Complete(start, schema.defaults) && Fits(start, unknown, schema.defaults)
  {
    hide Unknown, Fits, Known, Complete, Foreign, Ends, LoadedFrom;
    if Readable(file) {
      var r :| Found(schema, LoadedFrom(file.v, schema), r, start);
      FoundIsWhole(schema, file.v, r, start);
    } else {
      EmptyIsForeign(schema.defaults);
      KnownSelf(start);
      CompleteSelf(start);
      DefaultsFit(EMPTY, start);
    }
  }

  /** Each patch replaces no object that holds preserved keys. */
  predicate Sparing(patches: seq<Json>, unknown: Json, defaults: Json)
    requires unknown.Obj? && defaults.Obj? && Foreign(unknown, defaults)
  {
    forall p :: p in patches && p.Obj? ==> Fits(p, unknown, defaults)
  }

  lemma {:induction false} SparingUpdatesFit(data: Json, unknown: Json, patches: seq<Json>, schema: Schema)
    requires data.Obj? && InStep(data, unknown, schema) && Fits(data, unknown, schema.defaults)
    requires Sparing(patches, unknown, schema.defaults)
    ensures Fits(AfterUpdates(data, patches, schema), unknown, schema.defaults)
    decreases |patches|
  {
    hide DeepMerge, Known, Fits, Foreign;
    if patches != [] {
      if Accepts(data, patches[0], schema) {
        UpdateStaysInStep(data, unknown, patches[0], schema);
        SparingUpdatesFit(DeepMerge(data, patches[0]), unknown, patches[1..], schema);
      } else {
        SparingUpdatesFit(data, unknown, patches[1..], schema);
      }
    }
  }

  /** A condition on the patches alone: updates that replace no object holding unknown keys of the file
      write every one of those keys back with its original value. */
  lemma SparingUpdatesKeepUnknownKeys(file: File, start: Json, unknown: Json, patches: seq<Json>, schema: Schema)
    requires schema.WellFormed() && StartsWith(schema, file, start, unknown) && start.Obj? && unknown.Obj?
    requires Foreign(unknown, schema.defaults) ==> Sparing(patches, unknown, schema.defaults)
    ensures Unknown(Overlay(AfterUpdates(start, patches, schema), unknown), schema.defaults) == unknown
  {
    hide Unknown, Fits, AfterUpdates, Overlay, Foreign, StartsWith, Complete, Known;
    StartIsWhole(schema, file, start, unknown);
    SparingUpdatesFit(start, unknown, patches, schema);
    UnknownKeysSurviveUpdates(file, start, unknown, patches, schema);
  }

  // A corner of the shipped schema whose object no rule looks at, and a newer file with one more key in it.
  const STUDIO := Obj(map["enabled" := Bool(true)])
  const CORNER := Obj(map[VERSION_KEY := Num(1.0), "models" := Obj(map["lmStudio" := STUDIO])])
  const NEWER := Obj(map["models" := Obj(map["lmStudio" := Obj(map["enabled" := Bool(true), "newKey" := Null])])])
  const CLEARS := Obj(map["models" := Obj(map["lmStudio" := Null])])
  const CLEARED := Obj(map[VERSION_KEY := Num(1.0), "models" := Obj(map["lmStudio" := Null])])
  const REOPENS := Obj(map["models" := Obj(map["lmStudio" := EMPTY])])
  const REOPENED := Obj(map[VERSION_KEY := Num(1.0), "models" := Obj(map["lmStudio" := EMPTY])])

  /** A patch that sets such an object to null is accepted and drops the key the newer file had there;
      setting it to an empty object afterwards leaves a document that the next start does not find. */
  lemma NullDropsPreservedKeys(schema: Schema)
    requires schema.WellFormed() && schema.defaults == CORNER && forall doc :: schema.rules(doc).Valid?
    ensures var u := Unknown(NEWER, CORNER);
            && Accepts(CORNER, CLEARS, schema) && DeepMerge(CORNER, CLEARS) == CLEARED
            && Unknown(Overlay(CLEARED, u), CORNER) != u
            && Accepts(CLEARED, REOPENS, schema) && DeepMerge(CLEARED, REOPENS) == REOPENED
            && !StartsWith(schema, Document(REOPENED), REOPENED, Unknown(REOPENED, CORNER))
  {
    hide DeepMerge, Unknown, Overlay, Known, Foreign, Fits, StartsWith, CanStart, Complete, VersionSurvives;
    Cleared();
    Reopened();
    UnknownIsForeign(NEWER, CORNER);
    EmptyIsForeign(CORNER);
    ClearedHasNoPlace();
    ReopenedLacksAKey();
    UnknownSurvivesExactly(CLEARED, Unknown(NEWER, CORNER), CORNER);
    NothingToOverlay(REOPENED);
    ReloadsExactly(REOPENED, EMPTY, schema);
  }

  lemma NewerHoldsAKey()
    ensures var u := Unknown(NEWER, CORNER);
            && "models" in u.m && u.m["models"].Obj? && "lmStudio" in u.m["models"].m && Foreign(u, CORNER)
  {
    var inner := NEWER.m["models"].m["lmStudio"];
    assert HasUnknown(inner, STUDIO, "newKey");
    assert "newKey" in Unknown(inner, STUDIO).m;
    assert HasUnknown(NEWER.m["models"], CORNER.m["models"], "lmStudio");
    assert "lmStudio" in Unknown(NEWER.m["models"], CORNER.m["models"]).m;
    assert HasUnknown(NEWER, CORNER, "models");
    UnknownIsForeign(NEWER, CORNER);
  }

  lemma Cleared()
    ensures DeepMerge(CORNER, CLEARS) == CLEARED && Known(CLEARS, CORNER) && Known(CLEARED, CORNER)
  {
    ClearedIsKnown();
    hide Known;
    assert DeepMerge(CORNER.m["models"], CLEARS.m["models"]).m == CLEARS.m["models"].m;
    assert DeepMerge(CORNER, CLEARS).m == CLEARED.m;
  }

  lemma ClearedIsKnown()
    ensures Known(CLEARS, CORNER) && Known(CLEARED, CORNER)
  {
    assert Known(CLEARS.m["models"], CORNER.m["models"]);
  }

  lemma Reopened()
    ensures DeepMerge(CLEARED, REOPENS) == REOPENED && Known(REOPENS, CORNER) && Known(REOPENED, CORNER)
  {
    assert DeepMerge(CLEARED.m["models"], REOPENS.m["models"]).m == REOPENS.m["models"].m;
    assert DeepMerge(CLEARED, REOPENS).m == REOPENED.m;
    assert Known(EMPTY, STUDIO);
    assert Known(REOPENS.m["models"], CORNER.m["models"]);
  }

  lemma ClearedHasNoPlace()
    ensures Foreign(Unknown(NEWER, CORNER), CORNER) ==> !Fits(CLEARED, Unknown(NEWER, CORNER), CORNER)
  {
    hide Unknown;
    NewerHoldsAKey();
    var u := Unknown(NEWER, CORNER);
    if Foreign(u, CORNER) {
      assert !Fits(CLEARED.m["models"], u.m["models"], CORNER.m["models"]) by {
        assert "lmStudio" in u.m["models"].m && !CLEARED.m["models"].m["lmStudio"].Obj?;
      }
    }
  }

  lemma ReopenedLacksAKey()
    ensures !Complete(REOPENED, CORNER)
  {
    assert !Complete(EMPTY, STUDIO) by { assert "enabled" in STUDIO.m; }
    assert !Complete(REOPENED.m["models"], CORNER.m["models"]) by {
      assert "lmStudio" in CORNER.m["models"].m && REOPENED.m["models"].m["lmStudio"] == EMPTY;
    }
  }

  // ----------------------------------------------------------------------- store

  /** A valid document stays as it is; one the validator rejects goes through recovery. */
  method Salvage(schema: Schema, loaded: Json) returns (r: Recovery)
    requires schema.WellFormed()
    ensures Ends(schema, loaded, r)
  {
    hide Ends;
    match schema.Validate(loaded)
    case Valid =>
      ValidEndsAtOnce(schema, loaded);
      r := Mended(loaded, []);
    case Raises =>
      RaisingEndsAtOnce(schema, loaded);
      r := Halted;
    case Rejects(_) =>
      r := RecoverKeys(schema, loaded);
  }

  class SettingsStore {
    const schema: Schema
    var file: File
    var data: Json
    var preservedUnknown: Json
    var forwardCompatible: bool
    var unknownKeys: set<Path>
    var recoveredKeys: seq<Path>
    var recoveredWhole: bool
    var freshInstall: bool
    var revision: nat

    constructor (schema: Schema, file: File)
      requires schema.WellFormed()
      ensures this.schema == schema && this.file == file
      ensures data == schema.defaults && preservedUnknown == EMPTY
      ensures !freshInstall && recoveredKeys == [] && !recoveredWhole
    {
      this.schema, this.file := schema, file;
      data, preservedUnknown, forwardCompatible, unknownKeys := schema.defaults, EMPTY, false, {};
      recoveredKeys, recoveredWhole, freshInstall, revision := [], false, false, 0;
    }

    /** False when the start stops: the stored version cannot be read as a number, or the validator raises
        anything but a ValueError on a document the search meets. */
    method Load() returns (ok: bool)
      requires schema.WellFormed() && preservedUnknown == EMPTY
      requires !freshInstall && recoveredKeys == [] && !recoveredWhole
      modifies this
      ensures ok <==> CanStart(schema, old(file))
      ensures ok ==> StartsWith(schema, old(file), data, preservedUnknown)
      ensures ok ==> schema.Validate(data).Valid? && InStep(data, preservedUnknown, schema)
      ensures ok ==> Complete(data, schema.defaults) && Fits(data, preservedUnknown, schema.defaults)
      ensures freshInstall <==> old(file).Missing?
      ensures revision == old(revision)
      ensures Readable(old(file)) && VersionOf(old(file).v, schema.parseInt).Some? ==>
        && forwardCompatible == ForwardCompatible(old(file).v, schema.parseInt)
        && unknownKeys == UnknownPaths(old(file).v, schema.defaults)
      ensures if !ok || (Readable(old(file)) && !recoveredWhole) then file == old(file)
              else file == Document(Overlay(data, preservedUnknown))
      ensures ok && Readable(old(file)) ==>
        Ends(schema, LoadedFrom(old(file).v, schema), if recoveredWhole then GaveUp else Mended(data, recoveredKeys))
      ensures !Readable(old(file)) ==> (recoveredWhole <==> !old(file).Missing?) && recoveredKeys == []
    {
      hide DeepMerge, Known, Overlay, VersionOf, Complete, Strip, Unknown, Foreign, Fits, Ends, LoadedFrom;
      EmptyIsForeign(schema.defaults);
      KnownSelf(schema.defaults);
      CompleteSelf(schema.defaults);
      DefaultsFit(EMPTY, schema.defaults);
      match file
      case Missing =>
        data := schema.defaults;
        AtomicWrite(data);
        freshInstall, ok := true, true;
      case Corrupt =>
        RecoverWholeFile();
        ok := true;
      case Document(raw) =>
        if !raw.Obj? {
          RecoverWholeFile();
          return true;
        }
        if VersionOf(raw, schema.parseInt).None? { return false; }
        ok := LoadDocument(raw);
    }

    /** Remembers what this build does not know of a newer file. */
    method KeepUnknown(raw: Json)
      requires schema.defaults.Obj? && raw.Obj? && preservedUnknown == EMPTY
      modifies this`forwardCompatible, this`unknownKeys, this`preservedUnknown
      ensures preservedUnknown == Unknown(raw, schema.defaults)
      ensures forwardCompatible == ForwardCompatible(raw, schema.parseInt)
      ensures unknownKeys == UnknownPaths(raw, schema.defaults)
    {
      hide Known, Unknown, ForwardCompatible;
      forwardCompatible := ForwardCompatible(raw, schema.parseInt);
      unknownKeys := UnknownPaths(raw, schema.defaults);
      NoUnknownPaths(raw, schema.defaults);
      KnownHasNoUnknown(raw, schema.defaults);
      if unknownKeys != {} { preservedUnknown := Unknown(raw, schema.defaults); }
    }

    method LoadDocument(raw: Json) returns (ok: bool)
      requires schema.WellFormed() && preservedUnknown == EMPTY && file == Document(raw) && raw.Obj?
      requires !freshInstall && recoveredKeys == [] && !recoveredWhole
      modifies this
      ensures !freshInstall && preservedUnknown == Unknown(raw, schema.defaults)
      ensures ok <==> !Ends(schema, LoadedFrom(raw, schema), Halted)
      ensures ok ==>
        var r := if recoveredWhole then GaveUp else Mended(data, recoveredKeys);
        && Found(schema, LoadedFrom(raw, schema), r, data)
        && schema.Validate(data).Valid? && InStep(data, preservedUnknown, schema)
        && Complete(data, schema.defaults) && Fits(data, preservedUnknown, schema.defaults)
      ensures file == if ok && recoveredWhole then Document(Overlay(data, preservedUnknown)) else old(file)
      ensures revision == old(revision) && forwardCompatible == ForwardCompatible(raw, schema.parseInt)
      ensures unknownKeys == UnknownPaths(raw, schema.defaults)
    {
      hide DeepMerge, Known, Overlay, VersionOf, Complete, Strip, Unknown, Foreign, Fits, Ends, LoadedFrom,
        UnknownPaths, InStep, ForwardCompatible, Found;
      KeepUnknown(raw);
      var loaded := LoadedFrom(raw, schema);
      var r := Salvage(schema, loaded);
      OnlyEnding(schema, loaded, r);
      match r {
        case Halted => return false;
        case Mended(doc, keys) => data, recoveredKeys := doc, keys;
        case GaveUp => RecoverWholeFile();
      }
      IsFound(schema, loaded, r);
      FoundIsWhole(schema, raw, r, data);
      ok := true;
    }

    method RecoverWholeFile()
      requires schema.WellFormed() && preservedUnknown.Obj?
      modifies this`recoveredWhole, this`data, this`file
      ensures recoveredWhole && data == schema.defaults
      ensures file == Document(if preservedUnknown == EMPTY then data else Overlay(data, preservedUnknown))
      ensures file == Document(Overlay(data, preservedUnknown))
    {
      recoveredWhole := true;
      data := schema.defaults;
      AtomicWrite(data);
    }

    /** The document with the preserved keys laid over it becomes the whole file. */
    method AtomicWrite(doc: Json)
      requires doc.Obj? && preservedUnknown.Obj?
      modifies this`file
      ensures file == Document(Overlay(doc, preservedUnknown))
      ensures preservedUnknown == EMPTY ==> file == Document(doc)
    {
      NothingToOverlay(doc);
      file := Document(if preservedUnknown != EMPTY then Overlay(doc, preservedUnknown) else doc);
    }

    /** An accepted patch is merged and written with the preserved keys laid over it; a refused one, or one
        on which the validator fails otherwise, changes nothing. The file gives back every preserved key
        exactly when the document leaves it its place, and the next start finds the document exactly when it
        has every key of the schema and its version survives; an update keeps each of these up exactly when
        its patch does. */
    method Update(patch: Json) returns (verdict: Verdict)
      requires schema.WellFormed() && patch.Obj? && InStep(data, preservedUnknown, schema)
      modifies this`data, this`file, this`revision
      ensures InStep(data, preservedUnknown, schema)
      ensures if !Known(patch, schema.defaults) then verdict.Rejects?
              else verdict == schema.Validate(DeepMerge(old(data), patch))
      ensures verdict.Valid? ==> data == DeepMerge(old(data), patch) && revision == old(revision) + 1
      ensures verdict.Valid? ==> schema.Validate(data).Valid? && Accepts(old(data), patch, schema)
      ensures verdict.Valid? ==> file == Document(Overlay(data, preservedUnknown))
      ensures verdict.Valid? ==>
        var kept := Unknown(file.v, schema.defaults);
        && (kept == preservedUnknown <==> Fits(data, preservedUnknown, schema.defaults))
        && (StartsWith(schema, file, data, kept) <==>
            Complete(data, schema.defaults) && VersionSurvives(data, schema))
      ensures verdict.Valid? && Fits(old(data), preservedUnknown, schema.defaults) ==>
        (Fits(data, preservedUnknown, schema.defaults) <==> Fits(patch, preservedUnknown, schema.defaults))
      ensures verdict.Valid? && Complete(old(data), schema.defaults) ==>
        (Complete(data, schema.defaults) <==> Refills(old(data), patch, schema.defaults))
      ensures verdict.Valid? && VersionSurvives(old(data), schema) ==>
        (VersionSurvives(data, schema) <==> (VERSION_KEY in patch.m ==> Readmits(schema, patch.m[VERSION_KEY])))
      ensures !verdict.Valid? ==> data == old(data) && file == old(file) && revision == old(revision)
    {
      hide DeepMerge, Known, Overlay, Strip, Unknown, UnknownPaths, Complete, Fits, Refills, Foreign,
        VersionSurvives, Readmits, StartsWith, CanStart;
      NoUnknownPaths(patch, schema.defaults);
      if UnknownPaths(patch, schema.defaults) != {} { return Rejects("unknown setting"); }
      var merged := DeepMerge(data, patch);
      verdict := schema.Validate(merged);
      if !verdict.Valid? { return; }
      UpdateStaysInStep(data, preservedUnknown, patch, schema);
      ReloadsExactly(merged, preservedUnknown, schema);
      if VersionSurvives(data, schema) { MergeVersionExactly(data, patch, schema); }
      AtomicWrite(merged);
      data := merged;
      revision := revision + 1;
    }
  }

  // --------------------------------------------------------------------- next start

  /** The next start on the file that an update left. */
  method Restart(store: SettingsStore) returns (again: SettingsStore, ok: bool)
    requires store.schema.WellFormed() && InStep(store.data, store.preservedUnknown, store.schema)
    requires store.schema.Validate(store.data).Valid?
    requires store.file == Document(Overlay(store.data, store.preservedUnknown))
    ensures fresh(again) && again.schema == store.schema
    ensures ok ==> StartsWith(store.schema, store.file, again.data, again.preservedUnknown)
    ensures ok && again.data == store.data <==>
      Complete(store.data, store.schema.defaults) && VersionSurvives(store.data, store.schema)
    ensures ok && again.data == store.data && again.preservedUnknown == store.preservedUnknown <==>
      (Complete(store.data, store.schema.defaults) && VersionSurvives(store.data, store.schema)
       && Fits(store.data, store.preservedUnknown, store.schema.defaults))
    ensures Complete(store.data, store.schema.defaults) && VersionOf(store.data, store.schema.parseInt).None? ==> !ok
  {
    hide DeepMerge, Known, Overlay, Unknown, Complete, Fits, Foreign, VersionSurvives, VersionOf, LoadedFrom, Ends;
    again := new SettingsStore(store.schema, store.file);
    ok := again.Load();
    ReloadsExactly(store.data, store.preservedUnknown, store.schema);
    if StartsWith(store.schema, store.file, store.data, Unknown(store.file.v, store.schema.defaults)) {
      StartsOneWay(store.schema, store.file, store.data, again.data, Unknown(store.file.v, store.schema.defaults));
    }
  }

  lemma StartsOneWay(schema: Schema, file: File, a: Json, b: Json, unknown: Json)
    requires schema.defaults.Obj? && StartsWith(schema, file, a, unknown)
    ensures CanStart(schema, file)
    ensures StartsWith(schema, file, b, unknown) ==> a == b
  {
    hide Ends, LoadedFrom, Unknown, VersionOf;
    if Readable(file) {
      var loaded := LoadedFrom(file.v, schema);
      var r :| Found(schema, loaded, r, a);
      OnlyEnding(schema, loaded, r);
      if t :| Found(schema, loaded, t, b) { EndsOneWay(schema, loaded, r, t); }
    }
  }

  /** Whatever version a patch brings to a fresh store: it is accepted when the rules do not look at it, the
      next start finds it exactly when it can be read and is not newer, and there is none when it cannot. */
  lemma VersionPatch(schema: Schema, version: Json)
    requires schema.WellFormed() && (forall doc :: schema.rules(doc).Valid?) && !version.Obj?
    ensures var patch := Obj(map[VERSION_KEY := version]);
            var data := DeepMerge(schema.defaults, patch);
            && Accepts(schema.defaults, patch, schema)
            && (StartsWith(schema, Document(data), data, EMPTY) <==> Readmits(schema, version))
            && (VersionIn(version, schema.parseInt).None? ==> !CanStart(schema, Document(data)))
  {
    hide DeepMerge, Known, Complete, Overlay, Unknown, Fits, Foreign, LoadedFrom, Ends, VersionIn, Readmits, StartsWith,
      CanStart;
    var data := DeepMerge(schema.defaults, Obj(map[VERSION_KEY := version]));
    VersionIsSet(schema.defaults, version);
    EmptyIsForeign(schema.defaults);
    NothingToOverlay(data);
    KnownHasNoUnknown(data, schema.defaults);
    ReloadsExactly(data, EMPTY, schema);
  }

  /** A version that is no number is accepted and written, and there is no start on that file. */
  lemma UnreadableVersionStopsTheStart(schema: Schema)
    requires schema.WellFormed() && (forall doc :: schema.rules(doc).Valid?) && schema.parseInt("x") == None
    ensures var patch := Obj(map[VERSION_KEY := Str("x")]);
            Accepts(schema.defaults, patch, schema) && !CanStart(schema, Document(DeepMerge(schema.defaults, patch)))
  {
    hide DeepMerge, Known, StartsWith, CanStart, Accepts;
    VersionPatch(schema, Str("x"));
  }

  /** A newer version is accepted and written, and no start on that file finds it. */
  lemma NewerVersionIsOverridden(schema: Schema)
    requires schema.WellFormed() && (forall doc :: schema.rules(doc).Valid?)
    requires schema.defaults.m[VERSION_KEY] == Num(1.0)
    ensures var patch := Obj(map[VERSION_KEY := Num(2.0)]);
            var data := DeepMerge(schema.defaults, patch);
            Accepts(schema.defaults, patch, schema) && !StartsWith(schema, Document(data), data, EMPTY)
  {
    hide DeepMerge, Known, StartsWith, CanStart, Accepts;
    VersionPatch(schema, Num(2.0));
  }

  // A rule that asks the value at "api" for its keys, and a file where that value is null.
  const NO_API := Obj(map["api" := Null])

  ghost predicate AsksApi(schema: Schema) {
    && schema.WellFormed() && "api" in schema.defaults.m && schema.defaults.m["api"].Obj?
    && forall doc: Json :: doc.Obj? && "api" in doc.m ==>
         schema.rules(doc) == if doc.m["api"].Obj? then Valid else Raises
  }

  /** One bad value stops the start although putting it back to its default would mend the document. */
  lemma NullStopsTheStart(schema: Schema)
    requires AsksApi(schema)
    ensures schema.WellFormed() && !CanStart(schema, Document(NO_API))
    ensures OneResetSuffices(schema, LoadedFrom(NO_API, schema))
  {
    hide LoadedFrom, Ends, OneResetSuffices, AsksApi, Known;
    NullIsLoaded(schema);
    NullRaises(schema, LoadedFrom(NO_API, schema));
    RaisingEndsAtOnce(schema, LoadedFrom(NO_API, schema));
  }

  lemma NullIsLoaded(schema: Schema)
    requires AsksApi(schema)
    ensures var loaded := LoadedFrom(NO_API, schema);
            "api" in loaded.m && loaded.m["api"] == Null && Known(loaded, schema.defaults) && schema.WellFormed()
  {
    hide Unknown, Foreign, Fits, Complete, Known;
    LoadedIsInStep(NO_API, schema);
    assert Strip(NO_API, schema.defaults).m == NO_API.m;
    assert VersionOf(NO_API, schema.parseInt) == Some(1);
  }

  lemma NullRaises(schema: Schema, doc: Json)
    requires AsksApi(schema) && doc.Obj? && "api" in doc.m && doc.m["api"] == Null && Known(doc, schema.defaults)
    ensures schema.Validate(doc).Raises? && OneResetSuffices(schema, doc)
  {
    var api: Path := ["api"];
    assert api == ["api"] + [] && [] in LeavesUnder(doc.m["api"]);
    assert api in LeafPaths(doc);
    assert api[1..] == [];
    assert GetAt(schema.defaults, api) == GetAt(schema.defaults.m["api"], []);
    var mended := Obj(doc.m["api" := schema.defaults.m["api"]]);
    assert Reset(schema, doc, api) == Some(mended);
    KnownSelf(schema.defaults.m["api"]);
    assert Known(mended, schema.defaults);
    assert IsCulprit(schema, doc, api);
  }

  lemma VersionIsSet(defaults: Json, version: Json)
    requires defaults.Obj? && VERSION_KEY in defaults.m && !defaults.m[VERSION_KEY].Obj? && !version.Obj?
    ensures var patch := Obj(map[VERSION_KEY := version]);
            var merged := DeepMerge(defaults, patch);
            && Known(patch, defaults) && Known(merged, defaults) && Complete(merged, defaults)
            && VERSION_KEY in merged.m && merged.m[VERSION_KEY] == version
  {
    var patch := Obj(map[VERSION_KEY := version]);
    MergeIsKnown(defaults, patch);
    MergeOverDefaultsIsComplete(defaults, patch);
  }

  lemma RaisingEndsAtOnce(schema: Schema, data: Json)
    requires schema.Validate(data).Raises?
    ensures Ends(schema, data, Halted)
  {
    assert IsSearch(schema, [data], []) && EndsBy(schema, data, [data], [], Halted);
  }

  lemma OnlyEnding(schema: Schema, data: Json, r: Recovery)
    requires Ends(schema, data, r)
    ensures Ends(schema, data, Halted) <==> r.Halted?
  {
    hide Ends;
    if Ends(schema, data, Halted) { EndsOneWay(schema, data, r, Halted); }
  }

  lemma EmptyIsForeign(defaults: Json)
    requires defaults.Obj?
    ensures Foreign(EMPTY, defaults)
  {
  }

  lemma NothingToOverlay(doc: Json)
    requires doc.Obj?
    ensures Overlay(doc, EMPTY) == doc
  {
  }
}
