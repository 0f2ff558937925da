/** Deep copies between live cache components and captured payloads (Workers/common/cache_state.py). */
module Snapshot {
  import opened Prelude
  import T = CacheTree

  /** State of a live component: arrays are shared objects that the runtime updates in place. */
  datatype Node =
    Arr(buffer: array<int>) | Branch(kind: T.Kind, items: seq<Node>) | Hole | Plain(text: string) | Foreign

  datatype Captured = Captured(state: Node, meta: T.Meta)

  function Arrays(n: Node): seq<array<int>>
    decreases n
  {
    match n
    case Arr(buffer) => [buffer]
    case Branch(_, items) => ArraysOfAll(items)
    case _ => []
  }

  function ArraysOfAll(ns: seq<Node>): seq<array<int>>
    decreases ns
  {
    if ns == [] then [] else Arrays(ns[0]) + ArraysOfAll(ns[1..])
  }

  /** What a state holds right now. */
  function ValueOf(n: Node): T.Tree
    reads set a | a in Arrays(n)
    decreases n
  {
    match n
    case Arr(buffer) => T.Arr(buffer[..])
    case Branch(kind, items) => T.Branch(kind, ValuesOf(items))
    case Hole => T.Hole
    case Plain(text) => T.Plain(text)
    case Foreign => T.Foreign
  }

  function ValuesOf(ns: seq<Node>): seq<T.Tree>
    reads set a | a in ArraysOfAll(ns)
    decreases ns
  {
    if ns == [] then []
    else
      assert ArraysOfAll(ns) == Arrays(ns[0]) + ArraysOfAll(ns[1..]);
      [ValueOf(ns[0])] + ValuesOf(ns[1..])
  }

  lemma {:induction false} ArraysSnoc(ns: seq<Node>, n: Node)
    ensures ArraysOfAll(ns + [n]) == ArraysOfAll(ns) + Arrays(n)
  {
    if ns == [] {
      assert [n] == [n] + [] && ns + [n] == [n];
      assert ArraysOfAll([n]) == Arrays(n) + ArraysOfAll([]);
    } else {
      assert (ns + [n])[1..] == ns[1..] + [n];
      ArraysSnoc(ns[1..], n);
    }
  }

  /** A tree only holds arrays that exist. */
  lemma {:induction false} Allocated(ns: seq<Node>)
    ensures forall a :: a in ArraysOfAll(ns) ==> allocated(a)
    decreases ns
  {
    if ns != [] {
      match ns[0] {
        case Arr(buffer) => assert allocated(buffer);
        case Branch(_, items) => Allocated(items);
        case _ =>
      }
      Allocated(ns[1..]);
      assert ArraysOfAll(ns) == Arrays(ns[0]) + ArraysOfAll(ns[1..]);
    }
  }

  lemma NoNodes()
    ensures ArraysOfAll([]) == [] && ValuesOf([]) == []
  {
  }

  lemma {:induction false} ValuesSnoc(ns: seq<Node>, n: Node)
    ensures ValuesOf(ns + [n]) == ValuesOf(ns) + [ValueOf(n)]
  {
    if ns == [] {
      assert ns + [n] == [n];
      assert ValuesOf([n]) == [ValueOf(n)] + ValuesOf([]);
    } else {
      assert (ns + [n])[1..] == ns[1..] + [n];
      ValuesSnoc(ns[1..], n);
    }
  }

  /** The same tree with every array copied. */
  method CopyTree(n: Node) returns (copy: Node)
    ensures forall a :: a in Arrays(copy) ==> fresh(a)
    ensures ValueOf(copy) == ValueOf(n)
    decreases n, 0
  {
    match n {
      case Arr(buffer) =>
        var b := new int[buffer.Length](i requires 0 <= i < buffer.Length reads buffer => buffer[i]);
        assert b[..] == buffer[..];
        copy := Arr(b);
      case Branch(kind, items) =>
        var copies := CopyAll(items);
        copy := Branch(kind, copies);
      case _ => copy := n;
    }
  }

  method CopyAll(items: seq<Node>) returns (copies: seq<Node>)
    ensures forall a :: a in ArraysOfAll(copies) ==> fresh(a)
    ensures ValuesOf(copies) == ValuesOf(items)
    decreases items
  {
    hide Arrays, ArraysOfAll, ValueOf, ValuesOf;
    copies := [];
    NoNodes();
    for i := 0 to |items|
      invariant forall a :: a in ArraysOfAll(copies) ==> fresh(a)
      invariant ValuesOf(copies) == ValuesOf(items[..i])
    {
      Allocated(items[..i]);
      Allocated(copies);
      var copy := CopyTree(items[i]);
      ArraysSnoc(copies, copy);
      ValuesSnoc(copies, copy);
      ValuesSnoc(items[..i], items[i]);
      assert items[..i + 1] == items[..i] + [items[i]];
      copies := copies + [copy];
    }
    assert items[..|items|] == items;
  }

  // ------------------------------------------------------------------ components

  /** One component of a runtime cache. `stateful`: its type has a readable and writable state;
      `readable` and `accepts`: reading and writing it does not raise. */
  class Component {
    var state: Node
    var meta: T.Meta
    const stateful: bool
    const readable: bool
    const accepts: bool
    const hasMeta: bool

    constructor (state: Node, meta: T.Meta, stateful: bool, readable: bool, accepts: bool, hasMeta: bool)
      ensures this.state == state && this.meta == meta
    {
      this.state, this.meta := state, meta;
      this.stateful, this.readable, this.accepts, this.hasMeta := stateful, readable, accepts, hasMeta;
    }
  }

  ghost predicate Separate(cache: seq<Component>) {
    forall i, j :: 0 <= i < j < |cache| ==> cache[i] != cache[j]
  }

  function StatesOf(cache: seq<Component>): seq<Node>
    reads cache
    ensures |StatesOf(cache)| == |cache|
  {
    seq(|cache|, i requires 0 <= i < |cache| reads cache => cache[i].state)
  }

  function PayloadStates(payload: seq<Captured>): seq<Node> {
    seq(|payload|, i requires 0 <= i < |payload| => payload[i].state)
  }

  method CaptureOne(c: Component) returns (item: Captured)
    ensures forall a :: a in Arrays(item.state) ==> fresh(a)
    ensures ValueOf(item.state) == ValueOf(c.state)
    ensures item.meta == if c.hasMeta then c.meta else T.NoMeta
  {
    var copy := CopyTree(c.state);
    item := Captured(copy, if c.hasMeta then c.meta else T.NoMeta);
  }

  ghost predicate MetaCopied(items: seq<Captured>, cache: seq<Component>)
    reads cache
  {
    && |items| <= |cache|
    && forall i :: 0 <= i < |items| ==> items[i].meta == if cache[i].hasMeta then cache[i].meta else T.NoMeta
  }

  lemma NothingCaptured(cache: seq<Component>)
    ensures PayloadStates([]) == [] && StatesOf(cache)[..0] == [] && MetaCopied([], cache)
  {
  }

  /** One more captured component keeps the copied part equal to the live part. */
  lemma CapturedSnoc(items: seq<Captured>, item: Captured, cache: seq<Component>)
    requires |items| < |cache|
    requires ValuesOf(PayloadStates(items)) == ValuesOf(StatesOf(cache)[..|items|])
    requires ValueOf(item.state) == ValueOf(cache[|items|].state)
    requires MetaCopied(items, cache)
    requires item.meta == if cache[|items|].hasMeta then cache[|items|].meta else T.NoMeta
    ensures MetaCopied(items + [item], cache)
    ensures ValuesOf(PayloadStates(items + [item])) == ValuesOf(StatesOf(cache)[..|items| + 1])
    ensures ArraysOfAll(PayloadStates(items + [item])) == ArraysOfAll(PayloadStates(items)) + Arrays(item.state)
  {
    hide Arrays, ArraysOfAll, ValueOf, ValuesOf;
    assert PayloadStates(items + [item]) == PayloadStates(items) + [item.state];
    assert StatesOf(cache)[..|items| + 1] == StatesOf(cache)[..|items|] + [cache[|items|].state];
    ArraysSnoc(PayloadStates(items), item.state);
    ValuesSnoc(PayloadStates(items), item.state);
    ValuesSnoc(StatesOf(cache)[..|items|], cache[|items|].state);
  }

  /** Copies every component's state, or refuses. */
  method Capture(cache: seq<Component>) returns (payload: Option<seq<Captured>>)
    ensures payload.Some? <==> cache != [] && forall c :: c in cache ==> c.stateful && c.readable
    ensures payload.Some? ==>
      && |payload.value| == |cache|
      && (forall a :: a in ArraysOfAll(PayloadStates(payload.value)) ==> fresh(a))
      && ValuesOf(PayloadStates(payload.value)) == ValuesOf(StatesOf(cache))
      && MetaCopied(payload.value, cache)
  {
    hide Arrays, ArraysOfAll, ValueOf, ValuesOf, PayloadStates, StatesOf, MetaCopied;
    if cache == [] || exists c :: c in cache && !c.stateful { return None; }
    payload := CaptureStates(cache);
  }

  /** Copies the components one by one; None when reading one raises. */
  method CaptureStates(cache: seq<Component>) returns (payload: Option<seq<Captured>>)
    ensures payload.Some? <==> forall i :: 0 <= i < |cache| ==> cache[i].readable
    ensures payload.Some? ==>
      && |payload.value| == |cache|
      && (forall a :: a in ArraysOfAll(PayloadStates(payload.value)) ==> fresh(a))
      && ValuesOf(PayloadStates(payload.value)) == ValuesOf(StatesOf(cache))
      && MetaCopied(payload.value, cache)
  {
    hide Arrays, ArraysOfAll, ValueOf, ValuesOf, PayloadStates, StatesOf, MetaCopied;
    NoNodes();
    var items: seq<Captured> := [];
    NothingCaptured(cache);
    for i := 0 to |cache|
      invariant |items| == i
      invariant forall a :: a in ArraysOfAll(PayloadStates(items)) ==> fresh(a)
      invariant ValuesOf(PayloadStates(items)) == ValuesOf(StatesOf(cache)[..i])
      invariant MetaCopied(items, cache)
      invariant forall j :: 0 <= j < i ==> cache[j].readable
    {
      if !cache[i].readable { return None; }
      Allocated(StatesOf(cache)[..i]);
      Allocated(PayloadStates(items));
      var item := CaptureOne(cache[i]);
      CapturedSnoc(items, item, cache);
      items := items + [item];
    }
    assert StatesOf(cache)[..|cache|] == StatesOf(cache);
    payload := Some(items);
  }

  function RestoredMeta(item: Captured, hasMeta: bool, was: T.Meta): T.Meta {
    if item.meta != T.NoMeta && hasMeta then item.meta else was
  }

  method RestoreOne(c: Component, item: Captured) returns (copy: Node)
    modifies c
    ensures c.state == copy && (forall a :: a in Arrays(copy) ==> fresh(a)) && ValueOf(copy) == ValueOf(item.state)
    ensures c.meta == RestoredMeta(item, c.hasMeta, old(c.meta))
  {
    copy := CopyTree(item.state);
    c.state := copy;
    if item.meta != T.NoMeta && c.hasMeta { c.meta := item.meta; }
  }

  /** How many components come before the first that refuses. */
  function Leading(cache: seq<Component>): (n: nat)
    ensures n <= |cache| && (forall j :: 0 <= j < n ==> cache[j].accepts) && (n < |cache| ==> !cache[n].accepts)
  {
    if cache == [] || !cache[0].accepts then 0 else 1 + Leading(cache[1..])
  }

  /** Writes a copy of the payload into freshly made components. On a refusal exactly the components before
      the refusing one are written; on a shape mismatch none is. */
  method Restore(cache: seq<Component>, payload: seq<Captured>) returns (ok: bool)
    requires Separate(cache)
    modifies cache
    ensures ok <==> payload != [] && |cache| == |payload| && forall c :: c in cache ==> c.accepts
    ensures ok ==>
      && (forall a :: a in ArraysOfAll(StatesOf(cache)) ==> fresh(a))
      && ValuesOf(StatesOf(cache)) == ValuesOf(PayloadStates(payload))
    ensures var n := if payload == [] || |cache| != |payload| then 0 else Leading(cache);
      && (n > 0 ==> ValuesOf(StatesOf(cache)[..n]) == ValuesOf(PayloadStates(payload)[..n]))
      && (forall i :: 0 <= i < n ==>
            cache[i].meta == RestoredMeta(payload[i], cache[i].hasMeta, old(cache[i].meta)))
      && (forall i :: n <= i < |cache| ==> unchanged(cache[i]))
  {
    hide Arrays, ArraysOfAll, ValueOf, ValuesOf, Leading;
    if payload == [] || |cache| != |payload| { return false; }
    NoNodes();
    assert PayloadStates(payload)[..0] == [] && StatesOf(cache)[..0] == [];
    for i := 0 to |cache|
      invariant forall j :: i <= j < |cache| ==> unchanged(cache[j])
      invariant forall a :: a in ArraysOfAll(StatesOf(cache)[..i]) ==> fresh(a)
      invariant ValuesOf(StatesOf(cache)[..i]) == ValuesOf(PayloadStates(payload)[..i])
      invariant forall j :: 0 <= j < i ==> cache[j].accepts
      invariant forall j :: 0 <= j < i ==>
        cache[j].meta == RestoredMeta(payload[j], cache[j].hasMeta, old(cache[j].meta))
    {
      if !cache[i].accepts { return false; }
      ghost var done := StatesOf(cache)[..i];
      Allocated(PayloadStates(payload)[..i]);
      Allocated(StatesOf(cache)[..i]);
      var copy := RestoreOne(cache[i], payload[i]);
      assert StatesOf(cache)[..i + 1] == done + [copy];
      assert PayloadStates(payload)[..i + 1] == PayloadStates(payload)[..i] + [payload[i].state];
      ArraysSnoc(done, copy);
      ValuesSnoc(done, copy);
      ValuesSnoc(PayloadStates(payload)[..i], payload[i].state);
    }
    assert StatesOf(cache)[..|cache|] == StatesOf(cache);
    assert PayloadStates(payload)[..|cache|] == PayloadStates(payload);
    ok := true;
  }

  // -------------------------------------------------------------- later generation

  datatype Write = Write(which: nat, at: nat, value: int)

  /** Generation updates a cache's arrays in place. */
  method Advance(states: seq<Node>, writes: seq<Write>)
    modifies set a | a in ArraysOfAll(states)
  {
    var arrays := ArraysOfAll(states);
    for i := 0 to |writes| {
      var w := writes[i];
      if w.which < |arrays| && w.at < arrays[w.which].Length {
        arrays[w.which][w.at] := w.value;
      }
    }
  }

  /** Whatever generation later writes in place into the captured cache, or into a cache restored from the
      snapshot, a second restore still gives exactly what was captured. */
  method RestoreTwice(live: seq<Component>, first: seq<Component>, second: seq<Component>,
                      onLive: seq<Write>, onFirst: seq<Write>) returns (ok: bool)
    requires Separate(first) && Separate(second) && forall c :: c in second ==> c !in first
    requires |live| == |first| == |second|
    requires forall c :: c in live ==> c !in first && c !in second
    modifies first, second, set a | a in ArraysOfAll(StatesOf(live))
    ensures ok ==> ValuesOf(StatesOf(second)) == old(ValuesOf(StatesOf(live)))
    ensures ok <==> live != [] && (forall c :: c in live ==> c.stateful && c.readable)
                    && (forall c :: c in first ==> c.accepts) && (forall c :: c in second ==> c.accepts)
  {
    hide Arrays, ArraysOfAll, ValueOf, ValuesOf, StatesOf, PayloadStates;
    ghost var captured := ValuesOf(StatesOf(live));
    Allocated(StatesOf(live));
    var payload := Capture(live);
    if payload.None? { return false; }
    Allocated(PayloadStates(payload.value));
    Advance(StatesOf(live), onLive);
    assert ValuesOf(PayloadStates(payload.value)) == captured;
    ok := Restore(first, payload.value);
    if !ok { return; }
    assert ValuesOf(StatesOf(first)) == captured;
    Advance(StatesOf(first), onFirst);
    assert ValuesOf(PayloadStates(payload.value)) == captured;
    ok := Restore(second, payload.value);
  }
}
