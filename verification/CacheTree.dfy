/** Writing a captured payload as flat arrays beside a JSON manifest (Workers/common/cache_state.py). */
module CacheTree {
  import opened Prelude

  // The contents of one array.
  type Data = seq<int>

  // A dictionary key: a string, or something else that JSON writes as this text.
  datatype Key = Word(text: string) | Other(text: string)

  datatype Kind = AsTuple | AsList | AsDict(keys: seq<Key>)

  /** The state of one cache component; `Foreign` is any value that cannot be written. */
  datatype Tree = Arr(data: Data) | Branch(kind: Kind, items: seq<Tree>) | Hole | Plain(text: string) | Foreign

  /** The manifest of a tree: arrays are replaced by their names. */
  datatype Shape = Ref(name: string) | Node(kind: Kind, parts: seq<Shape>) | Missing | Value(text: string)

  /** `meta_state`, as the runtime hands it over. */
  datatype Meta = NoMeta | Atom(text: string) | TupleOf(elements: seq<Meta>) | ListOf(elements: seq<Meta>)

  datatype Item = Item(state: Tree, meta: Meta)
  datatype Record = Record(state: Shape, meta: Meta)

  predicate Supported(t: Tree) {
    match t
    case Foreign => false
    case Branch(_, items) => forall i :: 0 <= i < |items| ==> Supported(items[i])
    case _ => true
  }

  /** Dictionaries have one item per key, and no key twice. */
  predicate Proper(t: Tree) {
    t.Branch? ==>
      && (t.kind.AsDict? ==> |t.kind.keys| == |t.items| && Distinct(t.kind.keys))
      && forall i :: 0 <= i < |t.items| ==> Proper(t.items[i])
  }

  predicate Distinct(keys: seq<Key>) {
    forall i, j :: 0 <= i < j < |keys| ==> keys[i] != keys[j]
  }

  predicate Words(keys: seq<Key>) {
    forall k :: k in keys ==> k.Word?
  }

  /** Every dictionary key is a string. */
  predicate TextKeys(t: Tree) {
    t.Branch? ==>
      && (t.kind.AsDict? ==> Words(t.kind.keys))
      && forall i :: 0 <= i < |t.items| ==> TextKeys(t.items[i])
  }

  /** The arrays of a tree, left to right. */
  function ArraysOf(t: Tree): seq<Data>
    decreases t
  {
    match t
    case Arr(data) => [data]
    case Branch(_, items) => ArraysOfAll(items)
    case _ => []
  }

  function ArraysOfAll(ts: seq<Tree>): seq<Data>
    decreases ts
  {
    if ts == [] then [] else ArraysOf(ts[0]) + ArraysOfAll(ts[1..])
  }

  /** The manifest when n arrays have been named before. */
  function ShapeOf(t: Tree, n: nat): Option<Shape>
    decreases t
  {
    match t
    case Arr(_) => Some(Ref(Name(n)))
    case Branch(kind, items) =>
      var parts := ShapeOfAll(items, n);
      if parts.None? then None else Some(Node(kind, parts.value))
    case Hole => Some(Missing)
    case Plain(text) => Some(Value(text))
    case Foreign => None
  }

  function ShapeOfAll(ts: seq<Tree>, n: nat): Option<seq<Shape>>
    decreases ts
  {
    if ts == [] then Some([])
    else
      var first := ShapeOf(ts[0], n);
      if first.None? then None
      else
        var rest := ShapeOfAll(ts[1..], n + |ArraysOf(ts[0])|);
        if rest.None? then None else Some([first.value] + rest.value)
  }

  // ------------------------------------------------------------------ array names

  function Digits(n: nat): string {
    if n < 10 then ["0123456789"[n]] else Digits(n / 10) + ["0123456789"[n % 10]]
  }

  function Name(n: nat): string { "a" + Digits(n) }

  lemma {:induction false} DigitsDiffer(m: nat, n: nat)
    requires Digits(m) == Digits(n)
    ensures m == n
    decreases m
  {
    LastDigit(m);
    LastDigit(n);
    if m >= 10 && n >= 10 {
      assert Digits(m / 10) == Digits(m)[..|Digits(m)| - 1] == Digits(n)[..|Digits(n)| - 1] == Digits(n / 10);
      DigitsDiffer(m / 10, n / 10);
    }
  }

  lemma LastDigit(n: nat)
    ensures |Digits(n)| >= 1 && (n >= 10 <==> |Digits(n)| > 1)
    ensures Digits(n)[|Digits(n)| - 1] == "0123456789"[n % 10]
    ensures forall i, j :: 0 <= i < j < 10 ==> "0123456789"[i] != "0123456789"[j]
  {
  }

  lemma NamesDiffer(m: nat, n: nat)
    requires Name(m) == Name(n)
    ensures m == n
  {
    assert Name(m)[1..] == Digits(m) && Name(n)[1..] == Digits(n);
    DigitsDiffer(m, n);
  }

  /** The written arrays by name. */
  function TableOf(written: seq<Data>): map<string, Data> {
    if written == [] then map[]
    else
      var last := |written| - 1;
      TableOf(written[..last])[Name(last) := written[last]]
  }

  lemma {:induction false} TableAt(written: seq<Data>, k: nat)
    requires k < |written|
    ensures Name(k) in TableOf(written) && TableOf(written)[Name(k)] == written[k]
  {
    hide Name;
    var last := |written| - 1;
    if k < last {
      TableAt(written[..last], k);
      if Name(k) == Name(last) { NamesDiffer(k, last); }
    }
  }

  // --------------------------------------------------------------------- flatten

  class ArrayTable {
    var arrays: map<string, Data>
    var counter: nat
    ghost var written: seq<Data>

    constructor ()
      ensures Valid() && written == []
    {
      arrays, counter, written := map[], 0, [];
    }

    ghost predicate Valid()
      reads this
    {
      counter == |written| && arrays == TableOf(written)
    }

    /** The manifest of one tree; None when it holds something that cannot be written. */
    method Describe(t: Tree) returns (shape: Option<Shape>)
      requires Valid()
      modifies this
      ensures Valid()
      ensures shape == ShapeOf(t, |old(written)|)
      ensures shape.Some? ==> written == old(written) + ArraysOf(t)
      decreases t, 0
    {
      hide Name, TableOf;
      match t {
        case Arr(data) =>
          var name := Name(counter);
          TableSnoc(written, data);
          counter := counter + 1;
          arrays := arrays[name := data];
          written := written + [data];
          shape := Some(Ref(name));
        case Branch(kind, items) =>
          var parts := DescribeAll(items);
          shape := if parts.Some? then Some(Node(kind, parts.value)) else None;
        case Hole => shape := Some(Missing);
        case Plain(text) => shape := Some(Value(text));
        case Foreign => shape := None;
      }
    }

    method DescribeAll(items: seq<Tree>) returns (parts: Option<seq<Shape>>)
      requires Valid()
      modifies this
      ensures Valid()
      ensures parts == ShapeOfAll(items, |old(written)|)
      ensures parts.Some? ==> written == old(written) + ArraysOfAll(items)
      decreases items
    {
      hide Name, TableOf, ShapeOf, ArraysOf;
      ghost var start := written;
      var shapes: seq<Shape> := [];
      assert items[0..] == items;
      PrependedNothing(ShapeOfAll(items, |start|));
      for i := 0 to |items|
        invariant Valid()
        invariant Prepended(shapes, ShapeOfAll(items[i..], |written|), ShapeOfAll(items, |start|))
        invariant written + ArraysOfAll(items[i..]) == start + ArraysOfAll(items)
      {
        assert items[i..][0] == items[i] && items[i..][1..] == items[i + 1..];
        ghost var before := written;
        var first := Describe(items[i]);
        if first.None? { return None; }
        assert before + (ArraysOf(items[i]) + ArraysOfAll(items[i + 1..])) == written + ArraysOfAll(items[i + 1..]);
        PrependedOne(shapes, first.value, ShapeOfAll(items[i + 1..], |written|), ShapeOfAll(items, |start|));
        shapes := shapes + [first.value];
      }
      assert items[|items|..] == [] && written + [] == written && shapes + [] == shapes;
      parts := Some(shapes);
    }
  }

  ghost predicate Prepended(shapes: seq<Shape>, rest: Option<seq<Shape>>, all: Option<seq<Shape>>) {
    if rest.None? then all.None? else all == Some(shapes + rest.value)
  }

  lemma PrependedNothing(all: Option<seq<Shape>>)
    ensures Prepended([], all, all)
  {
    if all.Some? { assert [] + all.value == all.value; }
  }

  lemma PrependedOne(shapes: seq<Shape>, next: Shape, rest: Option<seq<Shape>>, all: Option<seq<Shape>>)
    requires Prepended(shapes, if rest.None? then None else Some([next] + rest.value), all)
    ensures Prepended(shapes + [next], rest, all)
  {
    if rest.Some? { assert shapes + ([next] + rest.value) == shapes + [next] + rest.value; }
  }

  lemma TableSnoc(written: seq<Data>, data: Data)
    ensures TableOf(written + [data]) == TableOf(written)[Name(|written|) := data]
  {
  }

  // ------------------------------------------------------------------- unflatten

  /** The tree of a manifest; None when an array name is unknown. */
  function Build(arrays: map<string, Data>, shape: Shape): Option<Tree>
    decreases shape
  {
    match shape
    case Ref(name) => if name in arrays then Some(Arr(arrays[name])) else None
    case Node(kind, parts) =>
      var items := BuildAll(arrays, parts);
      if items.None? then None else Some(Branch(kind, items.value))
    case Missing => Some(Hole)
    case Value(text) => Some(Plain(text))
  }

  function BuildAll(arrays: map<string, Data>, parts: seq<Shape>): Option<seq<Tree>>
    decreases parts
  {
    if parts == [] then Some([])
    else
      var first := Build(arrays, parts[0]);
      var rest := BuildAll(arrays, parts[1..]);
      if first.None? || rest.None? then None else Some([first.value] + rest.value)
  }

  /** A tree can be written exactly when nothing in it is foreign. */
  lemma {:induction false} WrittenWhenSupported(t: Tree, n: nat)
    ensures ShapeOf(t, n).Some? <==> Supported(t)
    decreases t, 0
  {
    if t.Branch? { AllWrittenWhenSupported(t.items, n); }
  }

  lemma {:induction false} AllWrittenWhenSupported(ts: seq<Tree>, n: nat)
    ensures ShapeOfAll(ts, n).Some? <==> forall i :: 0 <= i < |ts| ==> Supported(ts[i])
    decreases ts
  {
    if ts != [] {
      WrittenWhenSupported(ts[0], n);
      AllWrittenWhenSupported(ts[1..], n + |ArraysOf(ts[0])|);
      assert (forall i :: 0 <= i < |ts| ==> Supported(ts[i]))
        <==> Supported(ts[0]) && forall i :: 0 <= i < |ts[1..]| ==> Supported(ts[1..][i]) by {
        if Supported(ts[0]) && forall i :: 0 <= i < |ts[1..]| ==> Supported(ts[1..][i]) {
          forall i | 0 <= i < |ts| ensures Supported(ts[i]) {
            if i > 0 { assert ts[i] == ts[1..][i - 1]; }
          }
        }
      }
    }
  }

  /** The arrays `more` were written from position n on. */
  ghost predicate WrittenAt(written: seq<Data>, n: nat, more: seq<Data>) {
    n + |more| <= |written| && written[n..n + |more|] == more
  }

  lemma WrittenSplit(written: seq<Data>, n: nat, a: seq<Data>, b: seq<Data>)
    requires WrittenAt(written, n, a + b)
    ensures WrittenAt(written, n, a) && WrittenAt(written, n + |a|, b)
  {
    assert (a + b)[..|a|] == a && (a + b)[|a|..] == b;
    assert written[n..n + |a + b|][..|a|] == written[n..n + |a|];
    assert written[n..n + |a + b|][|a|..] == written[n + |a|..n + |a| + |b|];
  }

  lemma {:induction false} BuildUndoesShape(t: Tree, n: nat, written: seq<Data>)
    requires ShapeOf(t, n).Some? && WrittenAt(written, n, ArraysOf(t))
    ensures Build(TableOf(written), ShapeOf(t, n).value) == Some(t)
    decreases t, 0
  {
    hide TableOf, Name;
    match t {
      case Arr(data) => TableAt(written, n);
      case Branch(kind, items) => BuildUndoesShapes(items, n, written);
      case _ =>
    }
  }

  lemma {:induction false} BuildUndoesShapes(ts: seq<Tree>, n: nat, written: seq<Data>)
    requires ShapeOfAll(ts, n).Some? && WrittenAt(written, n, ArraysOfAll(ts))
    ensures BuildAll(TableOf(written), ShapeOfAll(ts, n).value) == Some(ts)
    decreases ts
  {
    hide TableOf, Name;
    if ts != [] {
      WrittenSplit(written, n, ArraysOf(ts[0]), ArraysOfAll(ts[1..]));
      BuildUndoesShape(ts[0], n, written);
      BuildUndoesShapes(ts[1..], n + |ArraysOf(ts[0])|, written);
      assert ts == [ts[0]] + ts[1..];
    }
  }

  // -------------------------------------------------------------------- payloads

  function ArraysOfItems(payload: seq<Item>): seq<Data> {
    if payload == [] then [] else ArraysOf(payload[0].state) + ArraysOfItems(payload[1..])
  }

  function ManifestOf(payload: seq<Item>, n: nat): Option<seq<Record>>
    decreases |payload|
  {
    if payload == [] then Some([])
    else
      var first := ShapeOf(payload[0].state, n);
      var rest := ManifestOf(payload[1..], n + |ArraysOf(payload[0].state)|);
      if first.None? || rest.None? then None else Some([Record(first.value, payload[0].meta)] + rest.value)
  }

  ghost predicate AllSupported(payload: seq<Item>) {
    forall i :: 0 <= i < |payload| ==> Supported(payload[i].state)
  }

  datatype Written = Written(arrays: map<string, Data>, manifest: seq<Record>)

  /** The arrays and the manifest of a payload, or None when it cannot be written. */
  method Flatten(payload: seq<Item>) returns (r: Option<Written>)
    ensures r.Some? <==> AllSupported(payload)
    ensures r.Some? ==> ManifestOf(payload, 0) == Some(r.value.manifest)
    ensures r.Some? ==> r.value.arrays == TableOf(ArraysOfItems(payload))
  {
    hide ShapeOf, ArraysOf, Supported, TableOf;
    var table := new ArrayTable();
    var manifest: seq<Record> := [];
    assert payload[0..] == payload;
    PrependedNoRecord(ManifestOf(payload, 0));
    for i := 0 to |payload|
      invariant fresh(table) && table.Valid()
      invariant PrependedRecords(manifest, ManifestOf(payload[i..], |table.written|), ManifestOf(payload, 0))
      invariant table.written + ArraysOfItems(payload[i..]) == ArraysOfItems(payload)
      invariant forall j :: 0 <= j < i ==> Supported(payload[j].state)
    {
      assert payload[i..][0] == payload[i] && payload[i..][1..] == payload[i + 1..];
      ghost var before := table.written;
      WrittenWhenSupported(payload[i].state, |before|);
      var state := table.Describe(payload[i].state);
      if state.None? { return None; }
      assert before + (ArraysOf(payload[i].state) + ArraysOfItems(payload[i + 1..]))
          == table.written + ArraysOfItems(payload[i + 1..]);
      PrependedRecord(manifest, Record(state.value, payload[i].meta), ManifestOf(payload[i + 1..], |table.written|),
                      ManifestOf(payload, 0));
      manifest := manifest + [Record(state.value, payload[i].meta)];
    }
    assert payload[|payload|..] == [] && table.written + [] == table.written && manifest + [] == manifest;
    r := Some(Written(table.arrays, manifest));
  }

  ghost predicate PrependedRecords(records: seq<Record>, rest: Option<seq<Record>>, all: Option<seq<Record>>) {
    if rest.None? then all.None? else all == Some(records + rest.value)
  }

  lemma PrependedNoRecord(all: Option<seq<Record>>)
    ensures PrependedRecords([], all, all)
  {
    if all.Some? { assert [] + all.value == all.value; }
  }

  lemma PrependedRecord(records: seq<Record>, next: Record, rest: Option<seq<Record>>, all: Option<seq<Record>>)
    requires PrependedRecords(records, if rest.None? then None else Some([next] + rest.value), all)
    ensures PrependedRecords(records + [next], rest, all)
  {
    if rest.Some? { assert records + ([next] + rest.value) == records + [next] + rest.value; }
  }

  /** What a JSON file gives back for a meta value: tuples have become lists, at every depth. */
  function Jsoned(m: Meta): Meta {
    match m
    case TupleOf(elements) => ListOf(seq(|elements|, i requires 0 <= i < |elements| => Jsoned(elements[i])))
    case ListOf(elements) => ListOf(seq(|elements|, i requires 0 <= i < |elements| => Jsoned(elements[i])))
    case _ => m
  }

  /** Only the outermost list is turned back into a tuple. */
  function Retupled(m: Meta): Meta {
    if m.ListOf? then TupleOf(m.elements) else m
  }

  predicate TupleFree(m: Meta) {
    match m
    case TupleOf(_) => false
    case ListOf(elements) => forall i :: 0 <= i < |elements| ==> TupleFree(elements[i])
    case _ => true
  }

  predicate MetaSurvives(m: Meta) {
    match m
    case ListOf(_) => false
    case TupleOf(elements) => forall i :: 0 <= i < |elements| ==> TupleFree(elements[i])
    case _ => true
  }

  lemma {:induction false} JsonKeepsTupleFree(m: Meta)
    ensures Jsoned(m) == m <==> TupleFree(m)
  {
    if m.ListOf? {
      forall i | 0 <= i < |m.elements| ensures Jsoned(m.elements[i]) == m.elements[i] <==> TupleFree(m.elements[i]) {
        JsonKeepsTupleFree(m.elements[i]);
      }
      assert Jsoned(m) == m <==> Jsoned(m).elements == m.elements;
    }
  }

  /** A meta value comes back from disk unchanged exactly when it is no list and nests no tuple. */
  lemma MetaRoundTrip(m: Meta)
    ensures Retupled(Jsoned(m)) == m <==> MetaSurvives(m)
  {
    if m.TupleOf? {
      forall i | 0 <= i < |m.elements| ensures Jsoned(m.elements[i]) == m.elements[i] <==> TupleFree(m.elements[i]) {
        JsonKeepsTupleFree(m.elements[i]);
      }
      assert Retupled(Jsoned(m)) == m <==> Jsoned(m).elements == m.elements;
    }
  }

  // ------------------------------------------------------------ dictionaries in JSON

  /** Reading an object: a later pair with a key already there takes its place. */
  function Put<T>(pairs: seq<(Key, T)>, key: Key, value: T): seq<(Key, T)> {
    if pairs == [] then [(key, value)]
    else if pairs[0].0 == key then [(key, value)] + pairs[1..]
    else [pairs[0]] + Put(pairs[1..], key, value)
  }

  /** What a dictionary is read back as: every key has become a string. */
  function ReadPairs<T>(keys: seq<Key>, values: seq<T>): seq<(Key, T)>
    decreases |keys|
  {
    if keys == [] || values == [] then []
    else
      var n := if |keys| <= |values| then |keys| - 1 else |values| - 1;
      Put(ReadPairs(keys[..n], values[..n]), Word(keys[n].text), values[n])
  }

  function KeysOf<T>(pairs: seq<(Key, T)>): seq<Key> {
    seq(|pairs|, i requires 0 <= i < |pairs| => pairs[i].0)
  }

  function ValuesOf<T>(pairs: seq<(Key, T)>): seq<T> {
    seq(|pairs|, i requires 0 <= i < |pairs| => pairs[i].1)
  }

  /** The shape of a state as read back. */
  function JsonShape(s: Shape): Shape
    decreases s
  {
    match s
    case Node(kind, parts) =>
      if kind.AsDict? then
        var pairs := ReadPairs(kind.keys, JsonShapes(parts));
        Node(AsDict(KeysOf(pairs)), ValuesOf(pairs))
      else Node(kind, JsonShapes(parts))
    case _ => s
  }

  function JsonShapes(parts: seq<Shape>): (r: seq<Shape>)
    ensures |r| == |parts|
    decreases parts
  {
    if parts == [] then [] else [JsonShape(parts[0])] + JsonShapes(parts[1..])
  }

  lemma {:induction false} PutPairs<T>(pairs: seq<(Key, T)>, key: Key, value: T)
    ensures forall p :: p in Put(pairs, key, value) ==> p in pairs || p == (key, value)
    ensures key !in KeysOf(pairs) ==> Put(pairs, key, value) == pairs + [(key, value)]
  {
    if pairs != [] {
      PutPairs(pairs[1..], key, value);
      assert KeysOf(pairs)[0] == pairs[0].0;
      assert forall i :: 0 <= i < |pairs| - 1 ==> KeysOf(pairs[1..])[i] == KeysOf(pairs)[i + 1];
      if key !in KeysOf(pairs) {
        assert key !in KeysOf(pairs[1..]);
        assert pairs + [(key, value)] == [pairs[0]] + (pairs[1..] + [(key, value)]);
      }
    }
  }

  // Every key read back is a string, every value one of those written.
  lemma {:induction false} PairsRead<T>(keys: seq<Key>, values: seq<T>)
    ensures forall p :: p in ReadPairs(keys, values) ==> p.0.Word? && p.1 in values
    decreases |keys|
  {
    if keys != [] && values != [] {
      var n := if |keys| <= |values| then |keys| - 1 else |values| - 1;
      PairsRead(keys[..n], values[..n]);
      PutPairs(ReadPairs(keys[..n], values[..n]), Word(keys[n].text), values[n]);
    }
  }

  // Distinct strings come back as they are.
  lemma {:induction false} WordsRead<T>(keys: seq<Key>, values: seq<T>)
    requires |keys| == |values| && Words(keys) && Distinct(keys)
    ensures KeysOf(ReadPairs(keys, values)) == keys && ValuesOf(ReadPairs(keys, values)) == values
    decreases |keys|
  {
    if keys != [] {
      var n := |keys| - 1;
      var before := ReadPairs(keys[..n], values[..n]);
      WordsRead(keys[..n], values[..n]);
      assert keys[n] in keys && keys[n] !in keys[..n];
      PutPairs(before, keys[n], values[n]);
      assert ReadPairs(keys, values) == before + [(keys[n], values[n])];
    }
  }

  /** A state with string keys only is written and read in one shape. */
  lemma {:induction false} TextKeysStay(t: Tree, n: nat)
    requires ShapeOf(t, n).Some? && Proper(t) && TextKeys(t)
    ensures JsonShape(ShapeOf(t, n).value) == ShapeOf(t, n).value
    decreases t, 0
  {
    if t.Branch? {
      AllTextKeysStay(t.items, n);
      var parts := ShapeOfAll(t.items, n).value;
      ShapesOfAll(t.items, n);
      if t.kind.AsDict? { WordsRead(t.kind.keys, parts); }
    }
  }

  lemma {:induction false} AllTextKeysStay(ts: seq<Tree>, n: nat)
    requires ShapeOfAll(ts, n).Some? && forall i :: 0 <= i < |ts| ==> Proper(ts[i]) && TextKeys(ts[i])
    ensures JsonShapes(ShapeOfAll(ts, n).value) == ShapeOfAll(ts, n).value
    decreases ts
  {
    if ts != [] {
      TextKeysStay(ts[0], n);
      AllTextKeysStay(ts[1..], n + |ArraysOf(ts[0])|);
      assert ShapeOfAll(ts, n).value[1..] == ShapeOfAll(ts[1..], n + |ArraysOf(ts[0])|).value;
    }
  }

  lemma {:induction false} ShapesOfAll(ts: seq<Tree>, n: nat)
    ensures ShapeOfAll(ts, n).Some? ==> |ShapeOfAll(ts, n).value| == |ts|
    decreases ts
  {
    if ts != [] { ShapesOfAll(ts[1..], n + |ArraysOf(ts[0])|); }
  }

  /** Whatever was written, what is read back can be built and has string keys only. */
  lemma {:induction false} ReadBackIsText(arrays: map<string, Data>, s: Shape)
    requires Build(arrays, s).Some?
    ensures Build(arrays, JsonShape(s)).Some? && TextKeys(Build(arrays, JsonShape(s)).value)
    decreases s, 0
  {
    if s.Node? {
      AllReadBackAreText(arrays, s.parts);
      if s.kind.AsDict? {
        var pairs := ReadPairs(s.kind.keys, JsonShapes(s.parts));
        PairsRead(s.kind.keys, JsonShapes(s.parts));
        forall v | v in ValuesOf(pairs) ensures v in JsonShapes(s.parts) {
          var i :| 0 <= i < |pairs| && ValuesOf(pairs)[i] == v;
          assert pairs[i] in pairs;
        }
        forall k | k in KeysOf(pairs) ensures k.Word? {
          var i :| 0 <= i < |pairs| && KeysOf(pairs)[i] == k;
          assert pairs[i] in pairs;
        }
        BuiltAll(arrays, ValuesOf(pairs));
      } else {
        BuiltAll(arrays, JsonShapes(s.parts));
      }
    }
  }

  lemma {:induction false} AllReadBackAreText(arrays: map<string, Data>, parts: seq<Shape>)
    requires BuildAll(arrays, parts).Some?
    ensures forall v :: v in JsonShapes(parts) ==> Build(arrays, v).Some? && TextKeys(Build(arrays, v).value)
    decreases parts
  {
    if parts != [] {
      ReadBackIsText(arrays, parts[0]);
      AllReadBackAreText(arrays, parts[1..]);
    }
  }

  lemma {:induction false} BuiltAll(arrays: map<string, Data>, parts: seq<Shape>)
    requires forall v :: v in parts ==> Build(arrays, v).Some? && TextKeys(Build(arrays, v).value)
    ensures BuildAll(arrays, parts).Some?
    ensures var ts := BuildAll(arrays, parts).value; forall i :: 0 <= i < |ts| ==> TextKeys(ts[i])
    decreases |parts|
  {
    if parts != [] {
      assert parts[0] in parts;
      BuiltAll(arrays, parts[1..]);
    }
  }

  /** A state comes back from disk unchanged exactly when every dictionary key in it is a string. */
  lemma StateRoundTrip(t: Tree, n: nat, written: seq<Data>)
    requires ShapeOf(t, n).Some? && WrittenAt(written, n, ArraysOf(t)) && Proper(t)
    ensures var back := Build(TableOf(written), JsonShape(ShapeOf(t, n).value));
            back.Some? && (back.value == t <==> TextKeys(t))
  {
    hide Build, JsonShape, ShapeOf, ArraysOf, TableOf, TextKeys, Proper;
    BuildUndoesShape(t, n, written);
    ReadBackIsText(TableOf(written), ShapeOf(t, n).value);
    if TextKeys(t) { TextKeysStay(t, n); }
  }

  /** The manifest as read back from its file. */
  function Reread(manifest: seq<Record>): seq<Record> {
    seq(|manifest|, i requires 0 <= i < |manifest| =>
      Record(JsonShape(manifest[i].state), Jsoned(manifest[i].meta)))
  }

  function Unflatten(arrays: map<string, Data>, manifest: seq<Record>): Option<seq<Item>>
    decreases |manifest|
  {
    if manifest == [] then Some([])
    else
      var state := Build(arrays, manifest[0].state);
      var rest := Unflatten(arrays, manifest[1..]);
      if state.None? || rest.None? then None
      else Some([Item(state.value, Retupled(manifest[0].meta))] + rest.value)
  }

  /** One item as read back. */
  ghost predicate ReadBack(item: Item, back: Item) {
    && (back.state == item.state <==> TextKeys(item.state))
    && back.meta == Retupled(Jsoned(item.meta))
  }

  lemma {:induction false} UnflattenFrom(payload: seq<Item>, n: nat, written: seq<Data>)
    requires ManifestOf(payload, n).Some? && WrittenAt(written, n, ArraysOfItems(payload))
    requires forall i :: 0 <= i < |payload| ==> Proper(payload[i].state)
    ensures var back := Unflatten(TableOf(written), Reread(ManifestOf(payload, n).value));
            && back.Some? && |back.value| == |payload|
            && forall i :: 0 <= i < |payload| ==> ReadBack(payload[i], back.value[i])
    decreases |payload|
  {
    hide TableOf, ShapeOf, ArraysOf, Jsoned, Retupled, Build, JsonShape, TextKeys, Proper;
    if payload != [] {
      var manifest := ManifestOf(payload, n).value;
      var rest := payload[1..];
      WrittenSplit(written, n, ArraysOf(payload[0].state), ArraysOfItems(rest));
      StateRoundTrip(payload[0].state, n, written);
      UnflattenFrom(rest, n + |ArraysOf(payload[0].state)|, written);
      assert Reread(manifest)[1..] == Reread(manifest[1..]);
      assert Reread(manifest)[0] == Record(JsonShape(manifest[0].state), Jsoned(payload[0].meta));
      var back := Unflatten(TableOf(written), Reread(manifest)).value;
      forall i | 0 <= i < |payload| ensures ReadBack(payload[i], back[i]) {
        if i > 0 { assert payload[i] == rest[i - 1] && back[i] == back[1..][i - 1]; }
      }
    }
  }

  /** Written to disk and read back, a payload is unchanged exactly when every dictionary key in its states
      is a string and every meta value survives. */
  lemma DiskRoundTrip(payload: seq<Item>)
    requires ManifestOf(payload, 0).Some?
    requires forall i :: 0 <= i < |payload| ==> Proper(payload[i].state)
    ensures var back := Unflatten(TableOf(ArraysOfItems(payload)), Reread(ManifestOf(payload, 0).value));
            && back.Some? && |back.value| == |payload|
            && (forall i :: 0 <= i < |payload| ==>
                  (back.value[i].state == payload[i].state <==> TextKeys(payload[i].state)))
            && (back.value == payload <==>
                (forall i :: 0 <= i < |payload| ==>
                   TextKeys(payload[i].state) && MetaSurvives(payload[i].meta)))
  {
    hide Jsoned, Retupled, MetaSurvives, TableOf, ManifestOf, Unflatten, TextKeys, Proper;
    UnflattenFrom(payload, 0, ArraysOfItems(payload));
    var back := Unflatten(TableOf(ArraysOfItems(payload)), Reread(ManifestOf(payload, 0).value)).value;
    forall i | 0 <= i < |payload|
      ensures back[i] == payload[i] <==> TextKeys(payload[i].state) && MetaSurvives(payload[i].meta)
    {
      assert ReadBack(payload[i], back[i]);
      MetaRoundTrip(payload[i].meta);
    }
    assert back == payload <==> forall i :: 0 <= i < |payload| ==> back[i] == payload[i];
  }
}
