/** Leaf-by-leaf import of exported settings (Coordinator/mlxbar/settings_export.py). */
module SettingsImport {
  import opened Prelude
  import opened SettingsTree
  import opened SettingsPaths
  import opened SettingsRecovery
  import opened SettingsStore

  datatype Leaf = Leaf(path: Path, value: Json)

  /** The leaves of a settings tree in some order, repeated or not: exactly the values that are no objects. */
  ghost predicate IsListing(leaves: seq<Leaf>, doc: Json) {
    && (forall l :: l in leaves ==> l.path != [] && GetAt(doc, l.path) == Some(l.value) && !l.value.Obj?)
    && (forall p :: p != [] && GetAt(doc, p).Some? && !GetAt(doc, p).value.Obj? ==>
          Leaf(p, GetAt(doc, p).value) in leaves)
  }

  /** A document with this one leaf. */
  function Nested(path: Path, value: Json): (r: Json)
    requires path != []
    ensures r.Obj?
    decreases |path|
  {
    if |path| == 1 then Obj(map[path[0] := value]) else Obj(map[path[0] := Nested(path[1..], value)])
  }

  // ------------------------------------------------------------- merging one leaf

  lemma {:induction false} NestedGet(path: Path, value: Json)
    requires path != []
    ensures GetAt(Nested(path, value), path) == Some(value)
    decreases |path|
  {
    if |path| == 1 { assert path[1..] == []; } else { NestedGet(path[1..], value); }
  }

  lemma {:induction false} NestedElsewhere(path: Path, value: Json, q: Path)
    requires path != [] && !Comparable(path, q)
    ensures GetAt(Nested(path, value), q) == None
    decreases |path|
  {
    if q[0] == path[0] {
      TailsDiffer(path, q);
      if |path| > 1 { NestedElsewhere(path[1..], value, q[1..]); }
    }
  }

  lemma TailsDiffer(p: Path, q: Path)
    requires p != [] && q != [] && p[0] == q[0] && !Comparable(p, q)
    ensures |p| > 1 && |q| > 1 && !Comparable(p[1..], q[1..])
  {
  }

  lemma {:induction false} MergeLeafGet(doc: Json, path: Path, value: Json)
    requires doc.Obj? && path != [] && !value.Obj?
    ensures GetAt(DeepMerge(doc, Nested(path, value)), path) == Some(value)
    decreases |path|
  {
    var n := Nested(path, value);
    if |path| == 1 {
      assert path[1..] == [];
    } else if path[0] in doc.m && doc.m[path[0]].Obj? {
      MergeLeafGet(doc.m[path[0]], path[1..], value);
    } else {
      NestedGet(path[1..], value);
    }
  }

  lemma {:induction false} MergeLeafElsewhere(doc: Json, path: Path, value: Json, q: Path)
    requires doc.Obj? && path != [] && !value.Obj? && !Comparable(path, q)
    ensures GetAt(DeepMerge(doc, Nested(path, value)), q) == GetAt(doc, q)
    decreases |path|
  {
    if q[0] == path[0] {
      TailsDiffer(path, q);
      if path[0] in doc.m && doc.m[path[0]].Obj? {
        MergeLeafElsewhere(doc.m[path[0]], path[1..], value, q[1..]);
      } else {
        NestedElsewhere(path[1..], value, q[1..]);
      }
    }
  }

  lemma {:induction false} MergeLeafSame(doc: Json, path: Path, value: Json)
    requires doc.Obj? && path != [] && !value.Obj? && GetAt(doc, path) == Some(value)
    ensures DeepMerge(doc, Nested(path, value)) == doc
    decreases |path|
  {
    var r := DeepMerge(doc, Nested(path, value));
    if |path| == 1 {
      assert path[1..] == [];
    } else {
      MergeLeafSame(doc.m[path[0]], path[1..], value);
    }
    assert r.m == doc.m;
  }

  /** Above `path`, objects of `base` are objects of `doc`. */
  ghost predicate ObjectsAbove(base: Json, doc: Json, path: Path) {
    forall r: Path :: r <= path && r != path && GetAt(base, r).Some? && GetAt(base, r).value.Obj? ==>
      GetAt(doc, r).Some? && GetAt(doc, r).value.Obj?
  }

  lemma ObjectsFurtherDown(base: Json, doc: Json, path: Path)
    requires base.Obj? && doc.Obj? && |path| > 1 && ObjectsAbove(base, doc, path)
    requires path[0] in base.m && base.m[path[0]].Obj?
    ensures path[0] in doc.m && doc.m[path[0]].Obj?
    ensures ObjectsAbove(base.m[path[0]], doc.m[path[0]], path[1..])
  {
    var k := path[0];
    assert [k] <= path && [k][1..] == [];
    assert GetAt(base, [k]) == Some(base.m[k]);
    var child := GetAt(doc, [k]);
    assert child.Some? && child.value.Obj?;
    assert child == if k in doc.m then GetAt(doc.m[k], []) else None;
    forall r: Path | r <= path[1..] && r != path[1..] && GetAt(base.m[k], r).Some? && GetAt(base.m[k], r).value.Obj?
      ensures GetAt(doc.m[k], r).Some? && GetAt(doc.m[k], r).value.Obj?
    {
      var longer := [k] + r;
      assert path == [k] + path[1..] && longer[1..] == r && longer <= path && longer != path;
      assert GetAt(base, longer) == GetAt(base.m[k], r);
      assert GetAt(doc, longer) == GetAt(doc.m[k], r);
    }
  }

  lemma {:induction false} MergeLeafComplete(base: Json, doc: Json, path: Path, value: Json)
    requires doc.Obj? && path != [] && !value.Obj? && Complete(doc, base) && ObjectsAbove(base, doc, path)
    ensures Complete(DeepMerge(doc, Nested(path, value)), base)
    decreases |path|
  {
    hide ObjectsAbove;
    if base.Obj? && |path| > 1 && path[0] in base.m && base.m[path[0]].Obj? {
      ObjectsFurtherDown(base, doc, path);
      MergeLeafComplete(base.m[path[0]], doc.m[path[0]], path[1..], value);
    }
  }

  // ------------------------------------------------------------------ one machine

  const ROOTS: Path := ["models", "roots"]
  const FOLDER: Path := ["models", "lmStudio", "folder"]
  const PORT: Path := ["api", "port"]
  const HOST: Path := ["api", "host"]
  const ALLOW_LAN: Path := ["security", "allowLan"]
  const VERSION: Path := [VERSION_KEY]

  /** Which folders exist here, and whether a port is free; a probe may be absent or fail. */
  datatype Machine = Machine(isDir: string -> bool, portProbe: Option<int -> Option<bool>>)

  function ExistingFolders(items: seq<Json>, isDir: string -> bool): seq<Json> {
    if items == [] then []
    else (if items[0].Str? && isDir(items[0].s) then [items[0]] else []) + ExistingFolders(items[1..], isDir)
  }

  datatype Filtered = Filtered(value: Json, noted: bool, blocked: bool)

  /** Drops folders that do not exist here. */
  function FilterMachineSpecific(path: Path, value: Json, isDir: string -> bool): Filtered {
    if path == ROOTS && value.Arr? then
      if value.items == [] then Filtered(value, false, false)
      else
        var kept := ExistingFolders(value.items, isDir);
        if kept == [] then Filtered(Null, true, true)
        else if |kept| < |value.items| then Filtered(Arr(kept), true, false)
        else Filtered(value, false, false)
    else if path == FOLDER && !value.Null? && !(value.Str? && isDir(value.s)) then Filtered(Null, true, true)
    else Filtered(value, false, false)
  }

  /** What an applied leaf ends up holding. */
  function Imported(l: Leaf, machine: Machine): Json {
    var f := FilterMachineSpecific(l.path, l.value, machine.isDir);
    if f.noted then f.value else l.value
  }

  /** What `isinstance(value, int)` lets through, as a number. */
  function IntegerIn(value: Json): Option<int> {
    match value
    case Num(n) => if n == n.Floor as real then Some(n.Floor) else None
    case Bool(b) => Some(if b then 1 else 0)
    case _ => None
  }

  predicate PortRefused(l: Leaf, current: Json, machine: Machine) {
    && l.path == PORT && machine.portProbe.Some? && IntegerIn(l.value).Some?
    && (GetAt(current, PORT).None? || IntegerIn(GetAt(current, PORT).value) != IntegerIn(l.value))
    && machine.portProbe.value(IntegerIn(l.value).value) != Some(true)
  }

  // ------------------------------------------------- what the machine lets through

  predicate FolderHere(item: Json, isDir: string -> bool) {
    item.Str? && isDir(item.s)
  }

  // The positions of the folders that exist here, in order.
  ghost predicate Picks(at: seq<int>, items: seq<Json>, isDir: string -> bool) {
    && (forall j :: 0 <= j < |at| ==> 0 <= at[j] < |items| && FolderHere(items[at[j]], isDir))
    && (forall j, k :: 0 <= j < k < |at| ==> at[j] < at[k])
    && (forall i :: 0 <= i < |items| && FolderHere(items[i], isDir) ==> i in at)
  }

  lemma {:induction false} ExistingSnoc(items: seq<Json>, item: Json, isDir: string -> bool)
    ensures ExistingFolders(items + [item], isDir) ==
            ExistingFolders(items, isDir) + if FolderHere(item, isDir) then [item] else []
  {
    if items == [] {
      assert [] + [item] == [item] && [item][1..] == [];
    } else {
      assert (items + [item])[1..] == items[1..] + [item];
      ExistingSnoc(items[1..], item, isDir);
    }
  }

  /** Exactly the folders that exist here stay, in their order. */
  lemma {:induction false} FoldersThatStay(items: seq<Json>, isDir: string -> bool) returns (at: seq<int>)
    ensures Picks(at, items, isDir) && |ExistingFolders(items, isDir)| == |at|
    ensures forall j :: 0 <= j < |at| ==> 0 <= at[j] < |items| && ExistingFolders(items, isDir)[j] == items[at[j]]
    decreases |items|
  {
    hide FolderHere, ExistingFolders, Picks;
    if items == [] {
      at := [];
      NothingToPick(isDir);
    } else {
      var before, item := items[..|items| - 1], items[|items| - 1];
      assert items == before + [item];
      var was := FoldersThatStay(before, isDir);
      ExistingSnoc(before, item, isDir);
      PicksOneMore(was, before, item, isDir);
      var kept := ExistingFolders(before, isDir);
      if FolderHere(item, isDir) {
        at := was + [|before|];
        assert ExistingFolders(items, isDir) == kept + [item];
      } else {
        at := was;
        assert ExistingFolders(items, isDir) == kept + [] == kept;
      }
    }
  }

  lemma NothingToPick(isDir: string -> bool)
    ensures Picks([], [], isDir) && ExistingFolders([], isDir) == []
  {
  }

  lemma PicksOneMore(at: seq<int>, items: seq<Json>, item: Json, isDir: string -> bool)
    requires Picks(at, items, isDir)
    ensures Picks(if FolderHere(item, isDir) then at + [|items|] else at, items + [item], isDir)
  {
    hide FolderHere;
    var now, more := items + [item], at + [|items|];
    assert forall i :: 0 <= i < |items| ==> now[i] == items[i];
    assert more[|at|] == |items| && forall j :: 0 <= j < |at| ==> more[j] == at[j];
    if FolderHere(item, isDir) {
      forall i | 0 <= i < |now| && FolderHere(now[i], isDir) ensures i in more {
        if i < |items| { assert i in at; }
      }
    }
  }

  /** None of the folders it names exists here. */
  ghost predicate MissingHere(l: Leaf, machine: Machine) {
    || (l.path == ["models", "roots"] && l.value.Arr? && l.value.items != []
        && forall i :: 0 <= i < |l.value.items| ==> !FolderHere(l.value.items[i], machine.isDir))
    || (l.path == ["models", "lmStudio", "folder"] && !l.value.Null? && !FolderHere(l.value, machine.isDir))
  }

  // The number a port value stands for: a whole number itself, a truth value 1 or 0.
  ghost predicate StandsFor(value: Json, n: int) {
    value == Num(n as real) || (value == Bool(true) && n == 1) || (value == Bool(false) && n == 0)
  }

  /** A port other than the store's own that is not known to be free. */
  ghost predicate PortTaken(l: Leaf, current: Json, machine: Machine) {
    && l.path == ["api", "port"] && machine.portProbe.Some?
    && exists n :: StandsFor(l.value, n) && machine.portProbe.value(n) != Some(true)
                   && !exists v :: GetAt(current, ["api", "port"]) == Some(v) && StandsFor(v, n)
  }

  lemma NumberIn(value: Json)
    ensures forall n :: StandsFor(value, n) <==> IntegerIn(value) == Some(n)
  {
  }

  lemma PortExactly(l: Leaf, current: Json, machine: Machine)
    ensures PortRefused(l, current, machine) <==> PortTaken(l, current, machine)
  {
    hide StandsFor, IntegerIn, GetAt;
    NumberIn(l.value);
    var own := GetAt(current, PORT);
    if own.Some? { NumberIn(own.value); }
    assert PORT == ["api", "port"];
    if l.path == PORT && machine.portProbe.Some? && IntegerIn(l.value).Some? {
      var n := IntegerIn(l.value).value;
      assert StandsFor(l.value, n);
      assert (exists v :: own == Some(v) && StandsFor(v, n)) <==> own.Some? && IntegerIn(own.value) == Some(n);
    }
  }

  /** A leaf is blocked exactly for a missing folder, and refused for its port exactly when that is taken. */
  lemma BlockedExactly(l: Leaf, current: Json, machine: Machine)
    ensures FilterMachineSpecific(l.path, l.value, machine.isDir).blocked <==> MissingHere(l, machine)
    ensures PortRefused(l, current, machine) <==> PortTaken(l, current, machine)
  {
    hide PortRefused, PortTaken;
    PortExactly(l, current, machine);
    if l.path == ROOTS && l.value.Arr? {
      var at := FoldersThatStay(l.value.items, machine.isDir);
      if at == [] {
        assert forall i :: 0 <= i < |l.value.items| && FolderHere(l.value.items[i], machine.isDir) ==> i in at;
      } else {
        assert FolderHere(l.value.items[at[0]], machine.isDir);
      }
    }
  }

  /** What is imported for a leaf that is not blocked: a list of folders without those missing here, and
      any other value as it is. */
  lemma ImportedExactly(l: Leaf, machine: Machine) returns (at: seq<int>)
    requires !MissingHere(l, machine)
    ensures l.path == ["models", "roots"] && l.value.Arr? ==>
      var kept := Imported(l, machine);
      && Picks(at, l.value.items, machine.isDir) && kept.Arr? && |kept.items| == |at|
      && forall j :: 0 <= j < |at| ==> kept.items[j] == l.value.items[at[j]]
    ensures !(l.path == ["models", "roots"] && l.value.Arr?) ==> Imported(l, machine) == l.value
  {
    BlockedExactly(l, Null, machine);
    at := [];
    if l.path == ROOTS && l.value.Arr? {
      at := FoldersThatStay(l.value.items, machine.isDir);
      NoneMissing(l.value.items, machine.isDir);
    }
  }

  lemma {:induction false} NoneMissing(items: seq<Json>, isDir: string -> bool)
    ensures |ExistingFolders(items, isDir)| <= |items|
    ensures |ExistingFolders(items, isDir)| == |items| ==> ExistingFolders(items, isDir) == items
  {
    if items != [] { NoneMissing(items[1..], isDir); }
  }

  ghost predicate HostAndLan(a: Path, b: Path) {
    || (a == ["api", "host"] && b == ["security", "allowLan"])
    || (a == ["security", "allowLan"] && b == ["api", "host"])
  }

  /** The document put to the validator for the host or the LAN leaf carries the other one too, when that is
      there and the two have not been put together before. */
  lemma PairIsPutTogether(base: Json, incoming: Json, leaves: seq<Leaf>, machine: Machine, p: Progress, l: Leaf,
                          other: Leaf)
    requires p.pending.Obj? && IsListing(leaves, incoming) && l in leaves && other in leaves && l.path !in p.processed
    requires HostAndLan(l.path, other.path)
    ensures var c := Candidate(base, leaves, machine, p, l);
            && c.Some? && GetAt(c.value, l.path) == Some(l.value) && GetAt(c.value, other.path) == Some(other.value)
            && forall q :: !Comparable(l.path, q) && !Comparable(other.path, q) ==>
                 GetAt(c.value, q) == GetAt(p.pending, q)
  {
    hide GetAt, DeepMerge, Nested, FilterMachineSpecific, PortRefused, Imported;
    assert HOST == ["api", "host"] && ALLOW_LAN == ["security", "allowLan"] && |VERSION| == 1;
    assert HOST[0] != ALLOW_LAN[0];
    var once := DeepMerge(p.pending, Nested(l.path, l.value));
    MergeLeafGet(p.pending, l.path, l.value);
    MergeLeafGet(once, other.path, other.value);
    MergeLeafElsewhere(once, other.path, other.value, l.path);
    assert FindLeaf(leaves, other.path) == Some(other);
    forall q | !Comparable(l.path, q) && !Comparable(other.path, q)
      ensures GetAt(DeepMerge(once, Nested(other.path, other.value)), q) == GetAt(p.pending, q)
    {
      MergeLeafElsewhere(p.pending, l.path, l.value, q);
      MergeLeafElsewhere(once, other.path, other.value, q);
    }
  }

  // --------------------------------------------------------------------- the loop

  /** `doc` differs from `base` only at, below and above applied leaves, which hold what was imported for
      them. */
  ghost predicate Applied(base: Json, doc: Json, applied: seq<Leaf>, machine: Machine) {
    && doc.Obj? && Complete(doc, base)
    && (forall l :: l in applied ==> GetAt(doc, l.path) == Some(Imported(l, machine)))
    && (forall q :: (forall l :: l in applied ==> !Comparable(l.path, q)) ==> GetAt(doc, q) == GetAt(base, q))
  }

  /** A leaf of `base` that was not applied keeps its value exactly when no applied leaf lies above or below it. */
  ghost predicate UnreportedLeaves(base: Json, doc: Json, applied: seq<Leaf>) {
    forall q: Path ::
      GetAt(base, q).Some? && !GetAt(base, q).value.Obj? && (forall l :: l in applied ==> l.path != q) ==>
      (GetAt(doc, q) == GetAt(base, q) <==> forall l :: l in applied ==> !Comparable(l.path, q))
  }

  lemma UnreportedLeavesExactly(base: Json, doc: Json, applied: seq<Leaf>, machine: Machine)
    requires Applied(base, doc, applied, machine) && forall l :: l in applied ==> !l.value.Obj?
    ensures UnreportedLeaves(base, doc, applied)
  {
    hide Complete, Imported;
    forall q: Path | GetAt(base, q).Some? && !GetAt(base, q).value.Obj? && (forall l :: l in applied ==> l.path != q)
      ensures GetAt(doc, q) == GetAt(base, q) <==> forall l :: l in applied ==> !Comparable(l.path, q)
    {
      if l :| l in applied && Comparable(l.path, q) {
        ImportedIsLeaf(l, machine);
        NearAnAppliedLeaf(doc, l.path, q);
      }
    }
  }

  // Nothing lies below a leaf, and what lies above one is an object.
  lemma NearAnAppliedLeaf(doc: Json, leaf: Path, q: Path)
    requires GetAt(doc, leaf).Some? && !GetAt(doc, leaf).value.Obj? && Comparable(leaf, q) && leaf != q
    ensures GetAt(doc, q) == None || (GetAt(doc, q).Some? && GetAt(doc, q).value.Obj?)
  {
    if leaf <= q {
      var rest := q[|leaf|..];
      assert q == leaf + rest && rest != [];
      GetFurther(doc, leaf, rest);
    } else {
      var rest := leaf[|q|..];
      assert leaf == q + rest && rest != [];
      PresentAbove(doc, q, rest);
    }
  }

  // Distinct leaves of one document are never above one another.
  lemma LeavesAreApart(doc: Json, a: Leaf, b: Leaf)
    requires GetAt(doc, a.path) == Some(a.value) && !a.value.Obj?
    requires GetAt(doc, b.path) == Some(b.value) && !b.value.Obj?
    ensures a.path == b.path || !Comparable(a.path, b.path)
  {
    BelowALeafIsNothing(doc, a, b);
    BelowALeafIsNothing(doc, b, a);
  }

  lemma BelowALeafIsNothing(doc: Json, a: Leaf, b: Leaf)
    requires GetAt(doc, a.path) == Some(a.value) && !a.value.Obj? && GetAt(doc, b.path).Some?
    ensures a.path <= b.path ==> a.path == b.path
  {
    if a.path <= b.path && a.path != b.path {
      var rest := b.path[|a.path|..];
      assert b.path == a.path + rest && rest != [];
      GetFurther(doc, a.path, rest);
    }
  }

  lemma ImportedIsLeaf(l: Leaf, machine: Machine)
    requires !l.value.Obj?
    ensures !Imported(l, machine).Obj?
  {
  }

  lemma ApplyLeaf(incoming: Json, base: Json, doc: Json, applied: seq<Leaf>, l: Leaf, machine: Machine)
    requires Applied(base, doc, applied, machine)
    requires forall a :: a in applied + [l] ==>
               a.path != [] && GetAt(incoming, a.path) == Some(a.value) && !a.value.Obj?
    ensures Applied(base, DeepMerge(doc, Nested(l.path, Imported(l, machine))), applied + [l], machine)
  {
    hide Imported, DeepMerge, Nested, Complete;
    assert l in applied + [l];
    ImportedIsLeaf(l, machine);
    var value := Imported(l, machine);
    var next := DeepMerge(doc, Nested(l.path, value));
    MergeLeafGet(doc, l.path, value);
    forall a | a in applied ensures GetAt(next, a.path) == Some(Imported(a, machine)) {
      assert a in applied + [l];
      LeavesAreApart(incoming, a, l);
      if a.path != l.path {
        MergeLeafElsewhere(doc, l.path, value, a.path);
      }
    }
    forall q | forall a :: a in applied + [l] ==> !Comparable(a.path, q) ensures GetAt(next, q) == GetAt(base, q) {
      assert forall a :: a in applied ==> a in applied + [l];
      MergeLeafElsewhere(doc, l.path, value, q);
    }
    ObjectsStayAbove(incoming, base, doc, applied, l, machine);
    MergeLeafComplete(base, doc, l.path, value);
  }

  lemma ObjectsStayAbove(incoming: Json, base: Json, doc: Json, applied: seq<Leaf>, l: Leaf, machine: Machine)
    requires Applied(base, doc, applied, machine)
    requires forall a :: a in applied + [l] ==>
               a.path != [] && GetAt(incoming, a.path) == Some(a.value) && !a.value.Obj?
    ensures ObjectsAbove(base, doc, l.path)
  {
    hide Imported;
    assert l in applied + [l];
    forall r: Path | r <= l.path && r != l.path && GetAt(base, r).Some? && GetAt(base, r).value.Obj?
      ensures GetAt(doc, r).Some? && GetAt(doc, r).value.Obj?
    {
      if a :| a in applied && Comparable(a.path, r) {
        // An applied leaf at or above `r` would be above `l`; so it lies below, and `r` is an object.
        assert a in applied + [l];
        LeavesAreApart(incoming, a, l);
        assert a.path <= r ==> a.path <= l.path;
        var rest := a.path[|r|..];
        assert a.path == r + rest && rest != [];
        PresentAbove(doc, r, rest);
      }
    }
  }

  lemma {:induction false} PresentAbove(doc: Json, r: Path, rest: Path)
    requires rest != [] && GetAt(doc, r + rest).Some?
    ensures GetAt(doc, r).Some? && GetAt(doc, r).value.Obj?
    decreases |r|
  {
    if r == [] {
      assert r + rest == rest;
    } else {
      assert (r + rest)[1..] == r[1..] + rest;
      PresentAbove(doc.m[r[0]], r[1..], rest);
    }
  }

  // The envelope of an exported document; `schemaVersion` is None when it is not a whole number.
  datatype Export = NotAnExport | Export(format: string, formatVersion: int, schemaVersion: Option<int>, settings: Json)

  predicate Understood(envelope: Export) {
    && envelope.Export? && envelope.format == "mlxbar-settings-export" && envelope.formatVersion == 1
    && envelope.schemaVersion.Some? && envelope.schemaVersion.value <= 1 && envelope.settings.Obj?
  }

  function Partner(path: Path): Path {
    if path == ALLOW_LAN then HOST else ALLOW_LAN
  }

  function FindLeaf(leaves: seq<Leaf>, path: Path): (r: Option<Leaf>)
    ensures r.Some? ==> r.value in leaves && r.value.path == path
    ensures r.None? <==> forall l :: l in leaves ==> l.path != path
  {
    if leaves == [] then None else if leaves[0].path == path then Some(leaves[0]) else FindLeaf(leaves[1..], path)
  }

  /** How far an import has come: the document built, and the halves of a pair already dealt with. */
  datatype Progress = Progress(pending: Json, processed: set<Path>)

  /** The host and LAN leaves are examined together when both are there. */
  function PairedWith(leaves: seq<Leaf>, processed: set<Path>, l: Leaf): Option<Leaf> {
    if (l.path == HOST || l.path == ALLOW_LAN) && l.path !in processed then FindLeaf(leaves, Partner(l.path))
    else None
  }

  /** The document put to the validator for one leaf; None when the leaf is passed over. */
  function Candidate(base: Json, leaves: seq<Leaf>, machine: Machine, p: Progress, l: Leaf): (r: Option<Json>)
    requires p.pending.Obj? && l.path != []
    ensures r.Some? ==> r.value.Obj?
  {
    var other := PairedWith(leaves, p.processed, l);
    if l.path == VERSION then None
    else if other.Some? then
      assert Partner(l.path) != [];
      Some(DeepMerge(DeepMerge(p.pending, Nested(l.path, l.value)), Nested(other.value.path, other.value.value)))
    else if FilterMachineSpecific(l.path, l.value, machine.isDir).blocked || PortRefused(l, base, machine) then None
    else Some(DeepMerge(p.pending, Nested(l.path, Imported(l, machine))))
  }

  predicate Proper(leaves: seq<Leaf>) {
    forall l :: l in leaves ==> l.path != []
  }

  /** A document the validator returns on becomes the one built. */
  function Step(schema: Schema, base: Json, leaves: seq<Leaf>, machine: Machine, p: Progress, l: Leaf): (r: Progress)
    requires p.pending.Obj? && l.path != []
    ensures r.pending.Obj?
  {
    var c := Candidate(base, leaves, machine, p, l);
    Progress(if c.Some? && schema.Validate(c.value).Valid? then c.value else p.pending,
             if PairedWith(leaves, p.processed, l).Some? then p.processed + {l.path, Partner(l.path)}
             else p.processed)
  }

  /** After the first i leaves. */
  function After(schema: Schema, base: Json, leaves: seq<Leaf>, machine: Machine, i: nat): (p: Progress)
    requires base.Obj? && Proper(leaves) && i <= |leaves|
    ensures p.pending.Obj?
  {
    if i == 0 then Progress(base, {})
    else Step(schema, base, leaves, machine, After(schema, base, leaves, machine, i - 1), leaves[i - 1])
  }

  /** The validator raises anything but a ValueError on the document it is given for the i-th leaf. */
  predicate RaisesAtLeaf(schema: Schema, base: Json, leaves: seq<Leaf>, machine: Machine, i: nat)
    requires base.Obj? && Proper(leaves)
  {
    && i < |leaves|
    && var c := Candidate(base, leaves, machine, After(schema, base, leaves, machine, i), leaves[i]);
       c.Some? && schema.Validate(c.value).Raises?
  }

  /** No leaf of the import lies strictly above or below a leaf of the document. */
  ghost predicate Aligned(base: Json, leaves: seq<Leaf>) {
    forall q: Path, l :: GetAt(base, q).Some? && !GetAt(base, q).value.Obj? && l in leaves && l.path != VERSION ==>
      l.path == q || !Comparable(l.path, q)
  }

  ghost predicate UnreportedStay(base: Json, doc: Json, applied: seq<Leaf>) {
    forall q: Path ::
      GetAt(base, q).Some? && !GetAt(base, q).value.Obj? && (forall l :: l in applied ==> l.path != q) ==>
      GetAt(doc, q) == GetAt(base, q)
  }

  lemma AlignedStay(base: Json, doc: Json, leaves: seq<Leaf>, applied: seq<Leaf>)
    requires UnreportedLeaves(base, doc, applied) && Aligned(base, leaves)
    requires forall l :: l in applied ==> l in leaves && l.path != VERSION
    ensures UnreportedStay(base, doc, applied)
  {
    hide GetAt;
  }

  /** Applies every leaf this machine can honour, unless the validator raises anything but a ValueError on
      a document put to it: that aborts the import and changes nothing. Otherwise the result is a valid
      document in which each applied leaf holds the imported value; a leaf not reported keeps its value
      exactly when no applied leaf lies above or below it, for which it is enough that no imported leaf lies
      strictly above or below a leaf of the store; importing a store's own settings where its folders exist
      changes nothing. */
  method ApplyImport(store: SettingsStore, envelope: Export, leaves: seq<Leaf>, machine: Machine)
    returns (verdict: Verdict, applied: seq<Leaf>, skipped: seq<Path>)
    requires store.schema.WellFormed() && InStep(store.data, store.preservedUnknown, store.schema)
    requires store.schema.Validate(store.data).Valid?
    requires Proper(leaves) && (Understood(envelope) ==> IsListing(leaves, envelope.settings))
    modifies store`data, store`file, store`revision
    ensures verdict.Rejects? <==>
      !(&& envelope.Export? && envelope.format == "mlxbar-settings-export" && envelope.formatVersion == 1
        && envelope.schemaVersion.Some? && envelope.schemaVersion.value <= 1 && envelope.settings.Obj?)
    ensures verdict.Raises? <==>
      Understood(envelope) && exists i :: RaisesAtLeaf(store.schema, old(store.data), leaves, machine, i)
    ensures !verdict.Valid? ==>
      store.data == old(store.data) && store.file == old(store.file) && store.revision == old(store.revision)
    ensures store.schema.Validate(store.data).Valid? && InStep(store.data, store.preservedUnknown, store.schema)
    ensures verdict.Valid? ==>
      && store.data == After(store.schema, old(store.data), leaves, machine, |leaves|).pending
      && store.file == Document(Overlay(store.data, store.preservedUnknown))
      && store.revision == old(store.revision) + 1
    ensures verdict.Valid? ==>
      && (forall l :: l in applied ==> l in leaves && l.path != VERSION)
      && Applied(old(store.data), store.data, applied, machine)
      && UnreportedLeaves(old(store.data), store.data, applied)
      && (Aligned(old(store.data), leaves) ==> UnreportedStay(old(store.data), store.data, applied))
    ensures verdict.Valid? ==> forall l :: l in leaves && l.path != VERSION && l !in applied ==>
              l.path in skipped && Refused(store.schema, old(store.data), leaves, applied, machine, l)
    ensures forall p :: p in skipped ==> exists l :: l in leaves && l.path == p
    ensures !verdict.Valid? ==> applied == []
    ensures verdict.Valid? && Own(old(store.data), leaves, machine, envelope.settings) ==>
              store.data == old(store.data)
  {
    hide DeepMerge, Nested, Imported, Applied, GetAt, Known, Complete, Foreign, FilterMachineSpecific, PortRefused,
      Refused, UnreportedLeaves, Unknown, Overlay, LoadedFrom, Fits, Refills, VersionSurvives, Readmits,
      StartsWith, Aligned, UnreportedStay, RaisesAtLeaf, After, IsListing;
    applied, skipped := [], [];
    if !Understood(envelope) { return Rejects("envelope"), [], []; }
    ghost var base := store.data;
    var pending;
    verdict, pending, applied, skipped := Examine(store.schema, store.data, leaves, machine, envelope.settings);
    if verdict.Raises? { return Raises, [], []; }
    PendingIsTheUpdate(store.schema, envelope.settings, base, pending, applied, machine);
    UnreportedLeavesExactly(base, pending, applied, machine);
    if Aligned(base, leaves) { AlignedStay(base, pending, leaves, applied); }
    verdict := store.Update(pending);
  }

  /** The loop over the leaves. */
  method Examine(schema: Schema, base: Json, leaves: seq<Leaf>, machine: Machine, ghost incoming: Json)
    returns (verdict: Verdict, pending: Json, applied: seq<Leaf>, skipped: seq<Path>)
    requires base.Obj? && schema.Validate(base).Valid? && Proper(leaves) && IsListing(leaves, incoming)
    ensures verdict == if exists i :: RaisesAtLeaf(schema, base, leaves, machine, i) then Raises else Valid
    ensures verdict.Valid? ==>
      && pending == After(schema, base, leaves, machine, |leaves|).pending
      && Pending(schema, incoming, base, pending, applied, machine)
      && (forall l :: l in applied ==> l in leaves && l.path != VERSION)
      && (forall l :: l in leaves && l.path != VERSION && l !in applied ==>
            l.path in skipped && Refused(schema, base, leaves, applied, machine, l))
      && (Own(base, leaves, machine, incoming) ==> pending == base)
    ensures forall q :: q in skipped ==> exists l :: l in leaves && l.path == q
  {
    hide DeepMerge, Nested, Imported, Applied, GetAt, Known, Complete, FilterMachineSpecific, PortRefused, Refused,
      Candidate, Step, Pending, IsListing;
    applied, skipped := [], [];
    NothingPending(schema, incoming, base, machine);
    var p := Progress(base, {});
    for i := 0 to |leaves|
      invariant p == After(schema, base, leaves, machine, i)
      invariant Pending(schema, incoming, base, p.pending, applied, machine)
      invariant forall k :: 0 <= k < i ==> !RaisesAtLeaf(schema, base, leaves, machine, k)
      invariant forall l :: l in applied ==> l in leaves && l.path != VERSION
      invariant forall k :: 0 <= k < i && leaves[k].path != VERSION && leaves[k] !in applied ==>
                  leaves[k].path in skipped && Refused(schema, base, leaves, applied, machine, leaves[k])
      invariant forall q :: q in skipped ==> exists l :: l in leaves && l.path == q
      invariant Own(base, leaves, machine, incoming) ==> p.pending == base
    {
      var more, left;
      verdict, p, more, left := ExamineLeaf(schema, base, leaves, machine, incoming, p, applied, leaves[i]);
      if verdict.Raises? {
        assert RaisesAtLeaf(schema, base, leaves, machine, i);
        return Raises, base, [], [];
      }
      RefusalsStay(schema, base, leaves, applied, machine, more);
      applied, skipped := applied + more, skipped + left;
    }
    return Valid, p.pending, applied, skipped;
  }

  /** Every leaf is the store's own, and none names a folder that is missing here. */
  ghost predicate Own(base: Json, leaves: seq<Leaf>, machine: Machine, incoming: Json) {
    incoming == base && forall l :: l in leaves ==> !FilterMachineSpecific(l.path, l.value, machine.isDir).noted
  }

  /** One leaf, or one pair: applied, left out, or the end of the import. */
  method ExamineLeaf(schema: Schema, base: Json, leaves: seq<Leaf>, machine: Machine, ghost incoming: Json,
                     p: Progress, ghost applied: seq<Leaf>, l: Leaf)
    returns (verdict: Verdict, next: Progress, more: seq<Leaf>, left: seq<Path>)
    requires p.pending.Obj? && Proper(leaves) && IsListing(leaves, incoming) && l in leaves
    requires Pending(schema, incoming, base, p.pending, applied, machine)
    ensures verdict.Raises? <==>
      var c := Candidate(base, leaves, machine, p, l); c.Some? && schema.Validate(c.value).Raises?
    ensures !verdict.Rejects?
    ensures verdict.Valid? ==>
      && next == Step(schema, base, leaves, machine, p, l)
      && Pending(schema, incoming, base, next.pending, applied + more, machine)
      && (forall x :: x in more ==> x in leaves && x.path != VERSION)
      && (l.path != VERSION && l !in more ==>
            l.path in left && Refused(schema, base, leaves, applied + more, machine, l))
      && (Own(base, leaves, machine, incoming) && p.pending == base ==> next.pending == base)
    ensures forall q :: q in left ==> exists l :: l in leaves && l.path == q
  {
    hide DeepMerge, Nested, Imported, Applied, GetAt, FilterMachineSpecific, PortRefused, Refused, IsListing,
      Candidate, Step, Pending, FindLeaf;
    if l.path == VERSION {
      assert applied + [] == applied;
      VersionIsPassedOver(schema, base, leaves, machine, p, l);
      return Valid, p, [], [];
    }
    if (l.path == HOST || l.path == ALLOW_LAN) && l.path !in p.processed {
      var other := FindLeaf(leaves, Partner(l.path));
      if other.Some? {
        verdict, next, more, left := ExaminePair(schema, base, leaves, machine, incoming, p, applied, l, other.value);
        return;
      }
    }
    verdict, next, more, left := ExamineAlone(schema, base, leaves, machine, incoming, p, applied, l);
  }

  lemma VersionIsPassedOver(schema: Schema, base: Json, leaves: seq<Leaf>, machine: Machine, p: Progress, l: Leaf)
    requires p.pending.Obj? && l.path == VERSION
    ensures Candidate(base, leaves, machine, p, l) == None && Step(schema, base, leaves, machine, p, l) == p
  {
    assert VERSION != HOST && VERSION != ALLOW_LAN by { assert |VERSION| == 1 && |HOST| == 2 && |ALLOW_LAN| == 2; }
  }

  method ExaminePair(schema: Schema, base: Json, leaves: seq<Leaf>, machine: Machine, ghost incoming: Json,
                     p: Progress, ghost applied: seq<Leaf>, l: Leaf, other: Leaf)
    returns (verdict: Verdict, next: Progress, more: seq<Leaf>, left: seq<Path>)
    requires p.pending.Obj? && Proper(leaves) && IsListing(leaves, incoming) && l in leaves
    requires Pending(schema, incoming, base, p.pending, applied, machine)
    requires l.path != VERSION && (l.path == HOST || l.path == ALLOW_LAN) && l.path !in p.processed
    requires FindLeaf(leaves, Partner(l.path)) == Some(other)
    ensures verdict.Raises? <==>
      var c := Candidate(base, leaves, machine, p, l); c.Some? && schema.Validate(c.value).Raises?
    ensures !verdict.Rejects?
    ensures verdict.Valid? ==>
      && next == Step(schema, base, leaves, machine, p, l)
      && Pending(schema, incoming, base, next.pending, applied + more, machine)
      && (more == [] || (more == [l, other] && other in leaves && other.path != VERSION))
      && (l !in more ==> l.path in left && Refused(schema, base, leaves, applied + more, machine, l))
      && (Own(base, leaves, machine, incoming) && p.pending == base ==> next.pending == base)
    ensures forall q :: q in left ==> exists l :: l in leaves && l.path == q
  {
    hide DeepMerge, Nested, Imported, Applied, GetAt, Known, FilterMachineSpecific, PortRefused, RefusedAt, Refused;
    assert applied + [] == applied;
    var once := DeepMerge(p.pending, Nested(l.path, l.value));
    var candidate := DeepMerge(once, Nested(other.path, other.value));
    PairFollows(schema, incoming, base, p.pending, applied, machine, l, other);
    next := p.(processed := p.processed + {l.path, other.path});
    verdict, more, left := Valid, [], [];
    match schema.Validate(candidate) {
      case Raises => verdict := Raises;
      case Rejects(_) =>
        RefusedHere(schema, incoming, base, leaves, p.pending, applied, machine, l, Some(other));
        left := [l.path, other.path];
      case Valid => next, more := next.(pending := candidate), [l, other];
    }
  }

  method ExamineAlone(schema: Schema, base: Json, leaves: seq<Leaf>, machine: Machine, ghost incoming: Json,
                      p: Progress, ghost applied: seq<Leaf>, l: Leaf)
    returns (verdict: Verdict, next: Progress, more: seq<Leaf>, left: seq<Path>)
    requires p.pending.Obj? && Proper(leaves) && IsListing(leaves, incoming) && l in leaves
    requires Pending(schema, incoming, base, p.pending, applied, machine)
    requires l.path != VERSION && PairedWith(leaves, p.processed, l).None?
    ensures verdict.Raises? <==>
      var c := Candidate(base, leaves, machine, p, l); c.Some? && schema.Validate(c.value).Raises?
    ensures !verdict.Rejects?
    ensures verdict.Valid? ==>
      && next == Step(schema, base, leaves, machine, p, l)
      && Pending(schema, incoming, base, next.pending, applied + more, machine)
      && (more == [] || more == [l])
      && (l !in more ==> l.path in left && Refused(schema, base, leaves, applied + more, machine, l))
      && (Own(base, leaves, machine, incoming) && p.pending == base ==> next.pending == base)
    ensures forall q :: q in left ==> exists l :: l in leaves && l.path == q
  {
    hide DeepMerge, Nested, Imported, Applied, GetAt, Known, Complete, FilterMachineSpecific, PortRefused, RefusedAt,
      PairedWith;
    verdict, next, more, left := Valid, p, [], [];
    assert applied + [] == applied;
    var filtered := FilterMachineSpecific(l.path, l.value, machine.isDir);
    BlockedExactly(l, base, machine);
    if filtered.blocked || PortRefused(l, base, machine) {
      left := [l.path];
      return;
    }
    var candidate := DeepMerge(p.pending, Nested(l.path, if filtered.noted then filtered.value else l.value));
    LeafFollows(schema, incoming, base, p.pending, applied, machine, l);
    match schema.Validate(candidate) {
      case Raises => verdict := Raises;
      case Rejects(_) =>
        RefusedHere(schema, incoming, base, leaves, p.pending, applied, machine, l, None);
        left := [l.path];
      case Valid =>
        next, more := p.(pending := candidate), [l];
        if filtered.noted { left := [l.path]; }
    }
  }

  lemma NothingPending(schema: Schema, incoming: Json, base: Json, machine: Machine)
    requires base.Obj? && schema.Validate(base).Valid?
    ensures Pending(schema, incoming, base, base, [], machine)
  {
    hide Applied;
    NothingApplied(base, machine);
  }

  /** What the loop has built so far: valid, and different from the start only at applied leaves. */
  ghost predicate Pending(schema: Schema, incoming: Json, base: Json, pending: Json, applied: seq<Leaf>,
                          machine: Machine)
  {
    && schema.Validate(pending).Valid? && Applied(base, pending, applied, machine)
    && forall l :: l in applied ==> l.path != [] && GetAt(incoming, l.path) == Some(l.value) && !l.value.Obj?
  }

  /** Why a leaf was not applied: its folder is missing, its port is taken, or the document built from the
      leaves applied before it would not validate with it. */
  ghost predicate Refused(schema: Schema, base: Json, leaves: seq<Leaf>, applied: seq<Leaf>, machine: Machine,
                          l: Leaf)
  {
    || MissingHere(l, machine)
    || PortTaken(l, base, machine)
    || exists n, doc :: RefusedAt(schema, base, leaves, applied, machine, l, n, doc)
  }

  ghost predicate RefusedAt(schema: Schema, base: Json, leaves: seq<Leaf>, applied: seq<Leaf>, machine: Machine,
                            l: Leaf, n: nat, doc: Json)
  {
    && n <= |applied| && l.path != [] && Applied(base, doc, applied[..n], machine) && schema.Validate(doc).Valid?
    && (|| schema.Validate(DeepMerge(doc, Nested(l.path, Imported(l, machine)))).Rejects?
        || exists other :: other in leaves && HostAndLan(l.path, other.path)
             && var both := DeepMerge(DeepMerge(doc, Nested(l.path, l.value)), Nested(other.path, other.value));
                schema.Validate(both).Rejects?)
  }

  // The candidate with `l`, or with `l` and its partner, was just found invalid.
  lemma RefusedHere(schema: Schema, incoming: Json, base: Json, leaves: seq<Leaf>, pending: Json,
                    applied: seq<Leaf>, machine: Machine,
                    l: Leaf, other: Option<Leaf>)
    requires Pending(schema, incoming, base, pending, applied, machine) && l.path != []
    requires if other.None? then schema.Validate(DeepMerge(pending, Nested(l.path, Imported(l, machine)))).Rejects?
             else && other.value in leaves && (l.path == HOST || l.path == ALLOW_LAN)
                  && other.value.path == Partner(l.path)
                  && var one := DeepMerge(pending, Nested(l.path, l.value));
                     schema.Validate(DeepMerge(one, Nested(other.value.path, other.value.value))).Rejects?
    ensures Refused(schema, base, leaves, applied, machine, l)
  {
    hide DeepMerge, Nested, Imported, Applied, FilterMachineSpecific, PortRefused;
    assert applied[..|applied|] == applied;
    assert RefusedAt(schema, base, leaves, applied, machine, l, |applied|, pending);
  }

  lemma RefusalsStay(schema: Schema, base: Json, leaves: seq<Leaf>, applied: seq<Leaf>, machine: Machine,
                     more: seq<Leaf>)
    ensures forall l :: Refused(schema, base, leaves, applied, machine, l) ==>
              Refused(schema, base, leaves, applied + more, machine, l)
  {
    hide DeepMerge, Nested, Imported, Applied, FilterMachineSpecific, PortRefused;
    forall l, n: nat, doc | RefusedAt(schema, base, leaves, applied, machine, l, n, doc)
      ensures RefusedAt(schema, base, leaves, applied + more, machine, l, n, doc)
    {
      assert (applied + more)[..n] == applied[..n];
    }
  }

  lemma NothingApplied(base: Json, machine: Machine)
    requires base.Obj?
    ensures Applied(base, base, [], machine)
  {
    CompleteSelf(base);
  }

  // The candidate built from one more leaf.
  lemma LeafFollows(schema: Schema, incoming: Json, base: Json, pending: Json, applied: seq<Leaf>,
                    machine: Machine, l: Leaf)
    requires Pending(schema, incoming, base, pending, applied, machine)
    requires l.path != [] && GetAt(incoming, l.path) == Some(l.value) && !l.value.Obj?
    ensures pending.Obj?
    ensures var candidate := DeepMerge(pending, Nested(l.path, Imported(l, machine)));
            && Applied(base, candidate, applied + [l], machine)
            && (incoming == base && pending == base && Imported(l, machine) == l.value ==> candidate == pending)
    ensures var f := FilterMachineSpecific(l.path, l.value, machine.isDir);
            Imported(l, machine) == if f.noted then f.value else l.value
  {
    hide DeepMerge, Nested, Complete, FilterMachineSpecific;
    ApplyLeaf(incoming, base, pending, applied, l, machine);
    if incoming == base && pending == base { MergeLeafSame(pending, l.path, l.value); }
  }

  // The candidate built from the host and LAN leaves together.
  lemma PairFollows(schema: Schema, incoming: Json, base: Json, pending: Json, applied: seq<Leaf>,
                    machine: Machine, l: Leaf, other: Leaf)
    requires Pending(schema, incoming, base, pending, applied, machine)
    requires l.path == HOST || l.path == ALLOW_LAN
    requires other.path == Partner(l.path)
    requires GetAt(incoming, l.path) == Some(l.value) && !l.value.Obj?
    requires GetAt(incoming, other.path) == Some(other.value) && !other.value.Obj?
    ensures pending.Obj?
    ensures var candidate := DeepMerge(DeepMerge(pending, Nested(l.path, l.value)), Nested(other.path, other.value));
            && Applied(base, candidate, applied + [l, other], machine)
            && (incoming == base && pending == base ==> candidate == pending)
  {
    hide DeepMerge, Nested, Complete, GetAt;
    PairIsNotFiltered(l, machine);
    PairIsNotFiltered(other, machine);
    ApplyLeaf(incoming, base, pending, applied, l, machine);
    var once := DeepMerge(pending, Nested(l.path, l.value));
    ApplyLeaf(incoming, base, once, applied + [l], other, machine);
    assert applied + [l, other] == applied + [l] + [other];
    if incoming == base && pending == base {
      MergeLeafSame(pending, l.path, l.value);
      MergeLeafSame(pending, other.path, other.value);
    }
  }

  lemma PairIsNotFiltered(l: Leaf, machine: Machine)
    requires l.path == HOST || l.path == ALLOW_LAN
    ensures Imported(l, machine) == l.value
  {
  }

  lemma PendingIsTheUpdate(schema: Schema, incoming: Json, base: Json, pending: Json, applied: seq<Leaf>,
                           machine: Machine)
    requires base.Obj? && Pending(schema, incoming, base, pending, applied, machine)
    ensures pending.Obj? && DeepMerge(base, pending) == pending && Accepts(base, pending, schema)
  {
    hide GetAt, Imported, Complete;
    CompleteIsFixed(pending, base);
  }

  // ---------------------------------------------------------------- three imports

  lemma {:induction false} OneLeaf(path: Path, value: Json, p: Path)
    requires path != [] && !value.Obj?
    ensures var v := GetAt(Nested(path, value), p);
            v.Some? && !v.value.Obj? ==> p == path && v.value == value
    decreases |path|
  {
    if p != [] && p[0] == path[0] {
      assert p == [p[0]] + p[1..] && path == [path[0]] + path[1..];
      if |path| > 1 { OneLeaf(path[1..], value, p[1..]); }
    }
  }

  lemma OneLeafListing(path: Path, value: Json)
    requires path != [] && !value.Obj?
    ensures Proper([Leaf(path, value)]) && IsListing([Leaf(path, value)], Nested(path, value))
  {
    hide GetAt, Nested;
    NestedGet(path, value);
    forall p | p != [] && GetAt(Nested(path, value), p).Some? && !GetAt(Nested(path, value), p).value.Obj?
      ensures Leaf(p, GetAt(Nested(path, value), p).value) in [Leaf(path, value)]
    {
      OneLeaf(path, value, p);
    }
  }

  function Enveloped(settings: Json): Export {
    Export("mlxbar-settings-export", 1, Some(1), settings)
  }

  // Leaves no machine-specific rule looks at.
  predicate Plain(path: Path) {
    path !in {ROOTS, FOLDER, PORT, HOST, ALLOW_LAN, VERSION, []}
  }

  /** What an import of one such leaf into a fresh store examines. */
  lemma OneLeafExamined(schema: Schema, base: Json, path: Path, value: Json, machine: Machine)
    requires base.Obj? && Plain(path) && !value.Obj?
    ensures var leaves := [Leaf(path, value)];
            var candidate := DeepMerge(base, Nested(path, value));
            && (RaisesAtLeaf(schema, base, leaves, machine, 0) <==> schema.Validate(candidate).Raises?)
            && (forall i :: RaisesAtLeaf(schema, base, leaves, machine, i) ==> i == 0)
            && (schema.Validate(candidate).Valid? ==> After(schema, base, leaves, machine, 1).pending == candidate)
  {
    hide DeepMerge, Nested, PortRefused, FilterMachineSpecific;
    var l := Leaf(path, value);
    PlainIsImported(l, base, machine);
    assert [l][0] == l;
    assert After(schema, base, [l], machine, 0) == Progress(base, {});
    assert Candidate(base, [l], machine, Progress(base, {}), l) == Some(DeepMerge(base, Nested(path, value)));
    assert After(schema, base, [l], machine, 1) == Step(schema, base, [l], machine, Progress(base, {}), l);
  }

  lemma PlainIsImported(l: Leaf, base: Json, machine: Machine)
    requires Plain(l.path)
    ensures Imported(l, machine) == l.value && !PortRefused(l, base, machine)
    ensures !FilterMachineSpecific(l.path, l.value, machine.isDir).blocked
  {
  }

  /** An import of one such leaf into a fresh store: exactly the document with that leaf is examined, and
      it becomes the one built when it is valid. */
  lemma OneLeafImport(schema: Schema, path: Path, value: Json, machine: Machine)
    requires schema.WellFormed() && Plain(path) && !value.Obj?
    ensures var leaves := [Leaf(path, value)];
            var candidate := DeepMerge(schema.defaults, Nested(path, value));
            && path != [] && Proper(leaves)
            && Understood(Enveloped(Nested(path, value))) && IsListing(leaves, Nested(path, value))
            && ((exists i :: RaisesAtLeaf(schema, schema.defaults, leaves, machine, i)) <==>
                schema.Validate(candidate).Raises?)
            && (schema.Validate(candidate).Valid? ==>
                  After(schema, schema.defaults, leaves, machine, 1).pending == candidate)
  {
    hide DeepMerge, Nested, Known, IsListing, After, RaisesAtLeaf, Plain;
    PlainIsProper(path);
    OneLeafListing(path, value);
    OneLeafExamined(schema, schema.defaults, path, value, machine);
  }

  lemma PlainIsProper(path: Path)
    ensures Plain(path) ==> path != []
  {
  }

  const STUDIO_LEAF: Path := ["models", "lmStudio"]
  const STUDIO_ENABLED: Path := ["models", "lmStudio", "enabled"]

  /** A leaf that takes the place of an object: the validator never looks there, the import applies it, and
      what the object held is gone under a path the import does not mention. */
  lemma ImportDropsUnreported(schema: Schema, machine: Machine)
    requires schema.WellFormed() && schema.defaults == CORNER && forall doc :: schema.rules(doc).Valid?
    ensures var leaves := [Leaf(STUDIO_LEAF, Num(5.0))];
            && Proper(leaves) && IsListing(leaves, Nested(STUDIO_LEAF, Num(5.0)))
            && (forall i :: !RaisesAtLeaf(schema, CORNER, leaves, machine, i))
            && GetAt(CORNER, STUDIO_ENABLED) == Some(Bool(true))
            && GetAt(After(schema, CORNER, leaves, machine, 1).pending, STUDIO_ENABLED) == None
            && forall l :: l in leaves ==> l.path != STUDIO_ENABLED
  {
    hide DeepMerge, Nested, GetAt, Known, IsListing, RaisesAtLeaf, After;
    StudioIsPlain(STUDIO_LEAF);
    StudioIsReplaced();
    OneLeafImport(schema, STUDIO_LEAF, Num(5.0), machine);
    assert STUDIO_ENABLED != STUDIO_LEAF by { assert |STUDIO_ENABLED| == 3 && |STUDIO_LEAF| == 2; }
  }

  lemma StudioIsPlain(leaf: Path)
    requires leaf == ["models", "lmStudio"]
    ensures Plain(leaf)
  {
    assert leaf[1] == "lmStudio" && |leaf| == 2 && leaf[0] == "models";
    assert ROOTS[1] == "roots" && |FOLDER| == 3 && PORT[0] == "api" && HOST[0] == "api" && ALLOW_LAN[0] == "security";
    assert |VERSION| == 1;
  }

  lemma StudioIsReplaced()
    ensures var doc := DeepMerge(CORNER, Nested(["models", "lmStudio"], Num(5.0)));
            && Known(doc, CORNER)
            && GetAt(CORNER, ["models", "lmStudio", "enabled"]) == Some(Bool(true))
            && GetAt(doc, ["models", "lmStudio", "enabled"]) == None
  {
    var leaf: Path := ["models", "lmStudio"];
    var q: Path := ["models", "lmStudio", "enabled"];
    assert q[1..] == ["lmStudio", "enabled"] && q[1..][1..] == ["enabled"] && q[1..][1..][1..] == [];
    assert GetAt(STUDIO, ["enabled"]) == Some(Bool(true));
    assert GetAt(CORNER.m["models"], ["lmStudio", "enabled"]) == GetAt(STUDIO, ["enabled"]);
    var doc := DeepMerge(CORNER, Nested(leaf, Num(5.0)));
    MergeLeafGet(CORNER, leaf, Num(5.0));
    NothingBelow(doc, leaf, q);
    assert leaf[1..] == ["lmStudio"];
    assert Nested(leaf, Num(5.0)) == Obj(map["models" := Obj(map["lmStudio" := Num(5.0)])]);
    assert Known(Nested(leaf, Num(5.0)).m["models"], CORNER.m["models"]);
    assert Known(Nested(leaf, Num(5.0)), CORNER);
    MergeIsKnown(CORNER, Nested(leaf, Num(5.0)));
  }

  /** A leaf below the version: it is applied and written, and there is no start on that file. */
  lemma ImportedVersionStopsTheStart(schema: Schema, machine: Machine)
    requires schema.WellFormed() && forall doc :: schema.rules(doc).Valid?
    ensures var leaves := [Leaf([VERSION_KEY, "a"], Num(1.0))];
            && Proper(leaves) && IsListing(leaves, Nested([VERSION_KEY, "a"], Num(1.0)))
            && (forall i :: !RaisesAtLeaf(schema, schema.defaults, leaves, machine, i))
            && !CanStart(schema, Document(After(schema, schema.defaults, leaves, machine, 1).pending))
  {
    hide DeepMerge, Nested, Known, Complete, Overlay, CanStart, IsListing, RaisesAtLeaf, After, Fits, Foreign,
      VersionSurvives, StartsWith, VersionOf, Unknown;
    var leaf: Path := [VERSION_KEY, "a"];
    VersionLeaf(schema, leaf);
    OneLeafImport(schema, leaf, Num(1.0), machine);
    var doc := DeepMerge(schema.defaults, Nested(leaf, Num(1.0)));
    EmptyIsForeign(schema.defaults);
    NothingToOverlay(doc);
    ReloadsExactly(doc, EMPTY, schema);
  }

  lemma VersionLeaf(schema: Schema, leaf: Path)
    requires schema.WellFormed() && leaf == [VERSION_KEY, "a"]
    ensures Plain(leaf)
    ensures var doc := DeepMerge(schema.defaults, Nested(leaf, Num(1.0)));
            && Known(doc, schema.defaults) && Complete(doc, schema.defaults)
            && VersionOf(doc, schema.parseInt) == None
  {
    var d := schema.defaults;
    assert leaf[0] == VERSION_KEY && leaf[1..] == ["a"] && |leaf| == 2;
    assert ROOTS[0] == "models" && |FOLDER| == 3 && PORT[0] == "api" && HOST[0] == "api" && ALLOW_LAN[0] == "security";
    assert VERSION_KEY != "models" by { assert VERSION_KEY[0] == 's'; }
    assert VERSION_KEY != "api" && VERSION_KEY != "security" by { assert |VERSION_KEY| == 13; }
    var inner := Obj(map["a" := Num(1.0)]);
    assert Nested(leaf, Num(1.0)) == Obj(map[VERSION_KEY := inner]);
    assert Known(inner, d.m[VERSION_KEY]);
    assert Known(Nested(leaf, Num(1.0)), d);
    MergeIsKnown(d, Nested(leaf, Num(1.0)));
    MergeOverDefaultsIsComplete(d, Nested(leaf, Num(1.0)));
    assert "a" in inner.m && inner.m != map[];
    assert DeepMerge(d, Nested(leaf, Num(1.0))).m[VERSION_KEY] == inner;
  }

  /** One bad value aborts the import instead of being left out. */
  lemma NullAbortsTheImport(schema: Schema, machine: Machine)
    requires AsksApi(schema)
    ensures var leaves := [Leaf(["api"], Null)];
            && schema.WellFormed() && Proper(leaves) && IsListing(leaves, Nested(["api"], Null))
            && exists i :: RaisesAtLeaf(schema, schema.defaults, leaves, machine, i)
  {
    hide DeepMerge, Nested, Known, AsksApi, IsListing, RaisesAtLeaf, After;
    var leaf: Path := ["api"];
    ApiLeaf(schema, leaf);
    OneLeafImport(schema, leaf, Null, machine);
  }

  lemma ApiLeaf(schema: Schema, leaf: Path)
    requires AsksApi(schema) && leaf == ["api"]
    ensures Plain(leaf) && schema.WellFormed()
    ensures schema.Validate(DeepMerge(schema.defaults, Nested(leaf, Null))).Raises?
  {
    hide Known;
    var doc := DeepMerge(schema.defaults, Nested(leaf, Null));
    assert VERSION_KEY != "api" by { assert |VERSION_KEY| == 13; }
    assert |leaf| == 1 && leaf[0] == "api";
    assert |ROOTS| == 2 && |FOLDER| == 3 && |PORT| == 2 && |HOST| == 2 && |ALLOW_LAN| == 2;
    ApiIsKnown(schema, leaf);
    NullRaises(schema, doc);
  }

  lemma ApiIsKnown(schema: Schema, leaf: Path)
    requires AsksApi(schema) && leaf == ["api"]
    ensures Known(DeepMerge(schema.defaults, Nested(leaf, Null)), schema.defaults)
  {
    MergeIsKnown(schema.defaults, Nested(leaf, Null));
  }
}
