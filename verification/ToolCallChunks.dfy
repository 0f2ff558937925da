/** Tool calls cut into stream chunks and folded back (Coordinator/mlxbar/api/openai_compat.py). */
module ToolCallChunks {
  import opened Prelude

  const CHUNK := 256

  // A missing id is replaced by a random one: `Generated(k)` is the one drawn for the k-th call listed,
  // `Placeholder` one drawn while a list is padded.
  datatype CallId = Given(id: string) | Generated(k: nat) | Placeholder

  /** A call as reported by the model side; `name` is None when it is not a string, and arguments that
      are not text are serialised. */
  datatype RawCall = NotAnObject | RawCall(id: Option<string>, name: Option<string>, arguments: RawArguments)
  datatype RawArguments = NoArguments | Text(s: string) | Value(json: string)

  datatype Call = Call(id: CallId, name: string, arguments: string)

  /** One streamed fragment. */
  datatype Delta = Delta(index: Option<int>, id: Option<CallId>, name: string, arguments: string)

  function ArgumentText(a: RawArguments): string {
    match a case NoArguments => "{}" case Text(s) => s case Value(json) => json
  }

  predicate Usable(call: RawCall) { call.RawCall? && call.name.Some? }

  function NormalizeCall(call: RawCall, k: nat): Call
    requires Usable(call)
  {
    Call(if call.id.Some? && call.id.value != "" then Given(call.id.value) else Generated(k),
         call.name.value, ArgumentText(call.arguments))
  }

  /** Usable calls among the first n, in order: anything without a name is dropped. */
  function NormalizeUpTo(calls: seq<RawCall>, n: nat): seq<Call>
    requires n <= |calls|
  {
    if n == 0 then []
    else if Usable(calls[n - 1]) then NormalizeUpTo(calls, n - 1) + [NormalizeCall(calls[n - 1], n - 1)]
    else NormalizeUpTo(calls, n - 1)
  }

  function Normalize(calls: seq<RawCall>): seq<Call> {
    NormalizeUpTo(calls, |calls|)
  }

  /** `at` lists exactly the positions of usable calls, in order. */
  ghost predicate Selects(at: seq<int>, calls: seq<RawCall>) {
    && (forall j :: 0 <= j < |at| ==> 0 <= at[j] < |calls| && calls[at[j]].RawCall? && calls[at[j]].name.Some?)
    && (forall j, k :: 0 <= j < k < |at| ==> at[j] < at[k])
    && (forall i :: 0 <= i < |calls| && calls[i].RawCall? && calls[i].name.Some? ==> i in at)
  }

  /** One call per selected position, with its name and argument text, and with its own id or, when it has
      none, one that no other call gets. */
  ghost predicate Describes(result: seq<Call>, at: seq<int>, calls: seq<RawCall>)
    requires Selects(at, calls)
  {
    && |result| == |at|
    && forall j :: 0 <= j < |at| ==>
         var c := calls[at[j]];
         && result[j].name == c.name.value
         && (c.arguments.NoArguments? ==> result[j].arguments == "{}")
         && (c.arguments.Text? ==> result[j].arguments == c.arguments.s)
         && (c.arguments.Value? ==> result[j].arguments == c.arguments.json)
         && result[j].id == (if c.id.None? || c.id.value == "" then Generated(at[j]) else Given(c.id.value))
  }

  ghost predicate IsNormalized(result: seq<Call>, calls: seq<RawCall>) {
    exists at :: Selects(at, calls) && Describes(result, at, calls)
  }

  /** Normalising keeps every usable call, in order, and nothing else. */
  lemma {:induction false} NormalizedCalls(calls: seq<RawCall>, n: nat)
    requires n <= |calls|
    ensures IsNormalized(NormalizeUpTo(calls, n), calls[..n])
    decreases n
  {
    hide NormalizeCall, NormalizeUpTo, IsNormalized;
    if n == 0 {
      NoneNormalized(calls);
    } else {
      NormalizedCalls(calls, n - 1);
      assert calls[..n] == calls[..n - 1] + [calls[n - 1]];
      NormalizeOneMore(calls, n);
      OneMoreNormalized(NormalizeUpTo(calls, n - 1), calls[..n - 1], calls[n - 1]);
    }
  }

  lemma NoneNormalized(calls: seq<RawCall>)
    ensures NormalizeUpTo(calls, 0) == [] && IsNormalized([], [])
  {
    assert Selects([], []) && Describes([], [], []);
  }

  lemma NormalizeOneMore(calls: seq<RawCall>, n: nat)
    requires 0 < n <= |calls|
    ensures NormalizeUpTo(calls, n) ==
            NormalizeUpTo(calls, n - 1) + if Usable(calls[n - 1]) then [NormalizeCall(calls[n - 1], n - 1)] else []
  {
  }

  lemma OneMoreNormalized(result: seq<Call>, calls: seq<RawCall>, call: RawCall)
    requires IsNormalized(result, calls)
    ensures IsNormalized(result + if Usable(call) then [NormalizeCall(call, |calls|)] else [], calls + [call])
  {
    hide NormalizeCall, Selects, Describes;
    var at :| Selects(at, calls) && Describes(result, at, calls);
    hide IsNormalized;
    if Usable(call) {
      OneMoreUsable(result, at, calls, call);
    } else {
      OneMoreUnusable(result, at, calls, call);
      assert result + [] == result;
    }
  }

  lemma OneMoreUnusable(result: seq<Call>, at: seq<int>, calls: seq<RawCall>, call: RawCall)
    requires Selects(at, calls) && Describes(result, at, calls) && !Usable(call)
    ensures IsNormalized(result, calls + [call])
  {
    var now := calls + [call];
    assert forall i :: 0 <= i < |calls| ==> now[i] == calls[i];
    assert Selects(at, now) && Describes(result, at, now);
  }

  lemma OneMoreUsable(result: seq<Call>, at: seq<int>, calls: seq<RawCall>, call: RawCall)
    requires Selects(at, calls) && Describes(result, at, calls) && Usable(call)
    ensures IsNormalized(result + [NormalizeCall(call, |calls|)], calls + [call])
  {
    var now, more := calls + [call], at + [|calls|];
    assert forall i :: 0 <= i < |calls| ==> now[i] == calls[i];
    assert more[|at|] == |calls| && forall j :: 0 <= j < |at| ==> more[j] == at[j];
    forall i | 0 <= i < |now| && now[i].RawCall? && now[i].name.Some? ensures i in more {
      if i < |calls| { assert i in at; }
    }
    assert Selects(more, now);
    assert Describes(result + [NormalizeCall(call, |calls|)], more, now);
  }

  method NormalizeOutputToolCalls(calls: seq<RawCall>) returns (result: seq<Call>)
    ensures result == Normalize(calls) && IsNormalized(result, calls)
  {
    hide IsNormalized;
    NormalizedCalls(calls, |calls|);
    assert calls[..|calls|] == calls;
    result := [];
    for i := 0 to |calls|
      invariant result == NormalizeUpTo(calls, i)
    {
      if Usable(calls[i]) { result := result + [NormalizeCall(calls[i], i)]; }
    }
  }

  // ----------------------------------------------------------------------- chunks

  function Pieces(index: nat, arguments: string): seq<Delta>
    decreases |arguments|
  {
    if arguments == "" then []
    else if |arguments| <= CHUNK then [Delta(Some(index), None, "", arguments)]
    else [Delta(Some(index), None, "", arguments[..CHUNK])] + Pieces(index, arguments[CHUNK..])
  }

  function CallChunks(index: nat, call: Call): seq<Delta> {
    [Delta(Some(index), Some(call.id), call.name, "")] + Pieces(index, call.arguments)
  }

  function Chunks(calls: seq<Call>, from: nat): seq<Delta>
    requires from <= |calls|
    decreases |calls| - from
  {
    if from == |calls| then [] else CallChunks(from, calls[from]) + Chunks(calls, from + 1)
  }

  /** The pieces of one argument text, 256 characters each but the last. */
  method StreamArguments(index: nat, arguments: string) returns (chunks: seq<Delta>)
    ensures chunks == Pieces(index, arguments)
    ensures forall d :: d in chunks ==> 0 < |d.arguments| <= 256
    ensures forall i :: 0 <= i < |chunks| - 1 ==> |chunks[i].arguments| == 256
  {
    hide Pieces, PiecesAfter;
    chunks := [];
    var offset := 0;
    AllPieces(index, arguments);
    while offset < |arguments|
      invariant 0 <= offset
      invariant chunks + PiecesAfter(index, arguments, offset) == Pieces(index, arguments)
      invariant forall d :: d in chunks ==> 0 < |d.arguments| <= 256
      invariant forall i :: 0 <= i < |chunks| ==>
        |chunks[i].arguments| == 256 || (i == |chunks| - 1 && offset >= |arguments|)
    {
      var end := if offset + CHUNK < |arguments| then offset + CHUNK else |arguments|;
      ghost var before := chunks;
      var piece := Delta(Some(index), None, "", arguments[offset..end]);
      chunks := chunks + [piece];
      NextPiece(index, arguments, offset, end);
      assert before + ([piece] + PiecesAfter(index, arguments, offset + CHUNK)) ==
             chunks + PiecesAfter(index, arguments, offset + CHUNK);
      offset := offset + CHUNK;
    }
    NoPieceAfter(index, arguments, offset);
  }

  ghost function PiecesAfter(index: nat, arguments: string, offset: nat): seq<Delta> {
    if offset < |arguments| then Pieces(index, arguments[offset..]) else []
  }

  lemma AllPieces(index: nat, arguments: string)
    ensures PiecesAfter(index, arguments, 0) == Pieces(index, arguments)
  {
  }

  lemma NoPieceAfter(index: nat, arguments: string, offset: nat)
    requires |arguments| <= offset
    ensures PiecesAfter(index, arguments, offset) == []
  {
  }

  lemma NextPiece(index: nat, arguments: string, offset: nat, end: nat)
    requires offset < end == (if offset + CHUNK < |arguments| then offset + CHUNK else |arguments|)
    ensures PiecesAfter(index, arguments, offset)
         == [Delta(Some(index), None, "", arguments[offset..end])] + PiecesAfter(index, arguments, offset + CHUNK)
  {
    var rest := arguments[offset..];
    if |rest| <= CHUNK {
      assert rest == arguments[offset..end];
    } else {
      assert rest[..CHUNK] == arguments[offset..end];
      assert rest[CHUNK..] == arguments[offset + CHUNK..];
    }
  }

  /** The chunks sent for a list of calls, one fragment each. */
  method ToolCallStreamChunks(raw: seq<RawCall>) returns (chunks: seq<Delta>)
    ensures chunks == Chunks(Normalize(raw), 0)
    ensures forall d :: d in chunks ==> |d.arguments| <= 256
  {
    hide Pieces, Normalize, IsNormalized, CallChunks;
    var calls := NormalizeOutputToolCalls(raw);
    chunks := [];
    for index := 0 to |calls|
      invariant chunks + Chunks(calls, index) == Chunks(calls, 0)
      invariant forall d :: d in chunks ==> |d.arguments| <= 256
    {
      var call := calls[index];
      ghost var before := chunks;
      var opening := Delta(Some(index), Some(call.id), call.name, "");
      var pieces := StreamArguments(index, call.arguments);
      chunks := chunks + [opening] + pieces;
      OneCallsChunks(index, call);
      assert before + (([opening] + pieces) + Chunks(calls, index + 1)) == chunks + Chunks(calls, index + 1);
    }
  }

  lemma OneCallsChunks(index: nat, call: Call)
    ensures CallChunks(index, call) ==
            [Delta(Some(index), Some(call.id), call.name, "")] + Pieces(index, call.arguments)
  {
  }

  // --------------------------------------------------------------------- merging

  /** Placeholders up to and including `index`. */
  function Padded(current: seq<Call>, index: nat): (r: seq<Call>)
    ensures |r| > index && current <= r
  {
    current + seq(if index < |current| then 0 else index + 1 - |current|, _ => Call(Placeholder, "", ""))
  }

  /** The list position a fragment addresses; negative indices count from the end, as in a list, and
      None stands for an index error. */
  function Position(current: seq<Call>, d: Delta, ordinal: nat): Option<nat> {
    var index := if d.index.Some? then d.index.value else ordinal;
    if index >= 0 then Some(index) else if |current| + index >= 0 then Some(|current| + index) else None
  }

  // An empty id is no id.
  predicate HasId(d: Delta) {
    d.id.Some? && d.id.value != Given("")
  }

  function MergeOne(current: seq<Call>, d: Delta, ordinal: nat): Option<seq<Call>> {
    var p := Position(current, d, ordinal);
    if p.None? then None
    else
      var padded := Padded(current, p.value);
      var target := padded[p.value];
      Some(padded[p.value := Call(if HasId(d) then d.id.value else target.id, target.name + d.name,
                                  target.arguments + d.arguments)])
  }

  function MergeFrom(current: seq<Call>, deltas: seq<Delta>, ordinal: nat): Option<seq<Call>>
    decreases |deltas|
  {
    if deltas == [] then Some(current)
    else
      var r := MergeOne(current, deltas[0], ordinal);
      if r.None? then None else MergeFrom(r.value, deltas[1..], ordinal + 1)
  }

  /** What one fragment does: the addressed call gets its id when it brings one, and its name and arguments
      behind those it had; calls the list was too short for are blank, and every other one stays. */
  ghost predicate Merged(before: seq<Call>, d: Delta, ordinal: nat, after: seq<Call>)
    requires (if d.index.Some? then d.index.value else ordinal) >= -|before|
  {
    var index := if d.index.Some? then d.index.value else ordinal;
    var place := if index >= 0 then index else |before| + index;
    var blank := Call(Placeholder, "", "");
    && |after| == (if place < |before| then |before| else place + 1)
    && (forall i :: 0 <= i < |after| && i != place ==> after[i] == if i < |before| then before[i] else blank)
    && var was := if place < |before| then before[place] else blank;
       && after[place].name == was.name + d.name && after[place].arguments == was.arguments + d.arguments
       && after[place].id == (if d.id.Some? && d.id.value != Given("") then d.id.value else was.id)
  }

  /** The growing list a client-facing response is built from. */
  class CallList {
    var current: seq<Call>

    constructor ()
      ensures current == []
    {
      current := [];
    }

    /** Folds the fragments of one chunk in; false when an index addresses nothing. */
    method MergeToolCallDeltas(deltas: seq<Delta>) returns (ok: bool)
      modifies this
      ensures ok == MergeFrom(old(current), deltas, 0).Some?
      ensures ok ==> MergeFrom(old(current), deltas, 0) == Some(current)
    {
      hide MergeOne, Padded;
      for position := 0 to |deltas|
        invariant MergeFrom(current, deltas[position..], position) == MergeFrom(old(current), deltas, 0)
      {
        assert deltas[position..][0] == deltas[position] && deltas[position..][1..] == deltas[position + 1..];
        ok := MergeDelta(deltas[position], position);
        if !ok { return; }
      }
      ok := true;
    }

    method MergeDelta(d: Delta, ordinal: nat) returns (ok: bool)
      modifies this
      ensures ok == MergeOne(old(current), d, ordinal).Some?
      ensures ok ==> MergeOne(old(current), d, ordinal) == Some(current)
      ensures var index := if d.index.Some? then d.index.value else ordinal;
              ok <==> index >= -|old(current)|
      ensures ok ==> Merged(old(current), d, ordinal, current)
    {
      var index := if d.index.Some? then d.index.value else ordinal;
      ghost var before := current;
      while |current| <= index
        invariant |before| <= |current| && (|current| > index + 1 ==> current == before)
        invariant current == before + seq(|current| - |before|, _ => Call(Placeholder, "", ""))
      {
        current := current + [Call(Placeholder, "", "")];
      }
      var place := if index >= 0 then index else |current| + index;
      if place < 0 { return false; }
      assert current == Padded(before, place);
      var target := current[place];
      if HasId(d) { target := target.(id := d.id.value); }
      target := target.(name := target.name + d.name, arguments := target.arguments + d.arguments);
      current := current[place := target];
      ok := true;
    }
  }

  /** Every chunk carries one fragment and is folded on its own. */
  function Fold(current: seq<Call>, chunks: seq<Delta>): Option<seq<Call>>
    decreases |chunks|
  {
    if chunks == [] then Some(current)
    else
      var r := MergeFrom(current, [chunks[0]], 0);
      if r.None? then None else Fold(r.value, chunks[1..])
  }

  lemma {:induction false} FoldAppend(current: seq<Call>, a: seq<Delta>, b: seq<Delta>)
    requires Fold(current, a).Some?
    ensures Fold(current, a + b) == Fold(Fold(current, a).value, b)
    decreases |a|
  {
    if a == [] {
      assert a + b == b;
    } else {
      assert (a + b)[1..] == a[1..] + b;
      FoldAppend(MergeFrom(current, [a[0]], 0).value, a[1..], b);
    }
  }

  lemma FoldOne(current: seq<Call>, d: Delta)
    ensures Fold(current, [d]) == MergeOne(current, d, 0)
  {
    hide MergeOne;
    var r := MergeOne(current, d, 0);
    assert [d][0] == d && [d][1..] == [];
    assert MergeFrom(current, [d], 0) == r by {
      if r.Some? { assert MergeFrom(r.value, [], 1) == r; }
    }
    if r.Some? { assert Fold(r.value, []) == r; }
  }

  lemma {:induction false} PiecesRebuild(done: seq<Call>, call: Call, arguments: string)
    ensures Fold(done + [call], Pieces(|done|, arguments)) ==
            Some(done + [call.(arguments := call.arguments + arguments)])
    decreases |arguments|
  {
    hide Fold;
    if arguments == "" {
      assert Fold(done + [call], []) == Some(done + [call]) by { FoldNone(done + [call]); }
      assert call.arguments + "" == call.arguments;
    } else {
      var head := if |arguments| <= CHUNK then arguments else arguments[..CHUNK];
      var tail := if |arguments| <= CHUNK then "" else arguments[CHUNK..];
      var d := Delta(Some(|done|), None, "", head);
      var next := call.(arguments := call.arguments + head);
      FoldOne(done + [call], d);
      AppendsToLast(done, call, d);
      assert arguments == head + tail;
      assert call.arguments + arguments == next.arguments + tail;
      PiecesRebuild(done, next, tail);
      FoldAppend(done + [call], [d], Pieces(|done|, tail));
      assert Pieces(|done|, arguments) == [d] + Pieces(|done|, tail);
    }
  }

  lemma FoldNone(current: seq<Call>)
    ensures Fold(current, []) == Some(current)
  {
  }

  lemma AppendsToLast(done: seq<Call>, call: Call, d: Delta)
    requires d.index == Some(|done|) && d.id.None? && d.name == ""
    ensures MergeOne(done + [call], d, 0) == Some(done + [call.(arguments := call.arguments + d.arguments)])
  {
    assert Padded(done + [call], |done|) == done + [call];
    assert call.name + "" == call.name;
    var next := call.(arguments := call.arguments + d.arguments);
    assert (done + [call])[|done| := next] == done + [next];
  }

  // A call with an empty id gets a generated one.
  function Identified(call: Call): Call {
    if call.id == Given("") then call.(id := Placeholder) else call
  }

  lemma OpensNext(done: seq<Call>, call: Call)
    ensures MergeOne(done, Delta(Some(|done|), Some(call.id), call.name, ""), 0) ==
            Some(done + [Identified(call).(arguments := "")])
  {
    assert "" + call.name == call.name;
    assert "" + "" == "";
    var blank := Call(Placeholder, "", "");
    assert Padded(done, |done|) == done + [blank];
    var d := Delta(Some(|done|), Some(call.id), call.name, "");
    assert Position(done, d, 0) == Some(|done|);
    assert (done + [blank])[|done|] == blank;
    var begun := Identified(call).(arguments := "");
    assert (done + [blank])[|done| := begun] == done + [begun];
  }

  lemma {:induction false} ChunksRebuildFrom(calls: seq<Call>, from: nat)
    requires from <= |calls| && forall c :: c in calls ==> c.id != Given("")
    ensures Fold(calls[..from], Chunks(calls, from)) == Some(calls)
    decreases |calls| - from
  {
    hide Fold, CallChunks;
    assert Chunks(calls, |calls|) == [] && calls[..|calls|] == calls;
    var done := calls[..from];
    if from == |calls| {
      FoldNone(done);
    } else {
      var call := calls[from];
      OneCallRebuilt(done, call);
      assert done + [call] == calls[..from + 1];
      FoldAppend(done, CallChunks(from, call), Chunks(calls, from + 1));
      ChunksRebuildFrom(calls, from + 1);
    }
  }

  /** The chunks of one call add exactly that call at the end of the list, an empty id replaced. */
  lemma OneCallRebuilt(done: seq<Call>, call: Call)
    ensures var rebuilt := if call.id == Given("") then call.(id := Placeholder) else call;
            Fold(done, CallChunks(|done|, call)) == Some(done + [rebuilt])
  {
    hide Fold, Pieces, MergeOne;
    var first := Delta(Some(|done|), Some(call.id), call.name, "");
    FoldOne(done, first);
    OpensNext(done, call);
    PiecesRebuild(done, Identified(call).(arguments := ""), call.arguments);
    FoldAppend(done, [first], Pieces(|done|, call.arguments));
    assert "" + call.arguments == call.arguments;
  }

  lemma {:induction false} NormalizedIds(calls: seq<RawCall>, n: nat)
    requires n <= |calls|
    ensures forall c :: c in NormalizeUpTo(calls, n) ==> c.id != Given("")
    decreases n
  {
    if n > 0 { NormalizedIds(calls, n - 1); }
  }

  /** Cutting calls into chunks and folding every chunk back into an empty list rebuilds exactly the
      normalised calls: ids, names, arguments and order. */
  lemma ChunksRebuildCalls(raw: seq<RawCall>)
    ensures Fold([], Chunks(Normalize(raw), 0)) == Some(Normalize(raw))
  {
    var calls := Normalize(raw);
    assert calls[..0] == [];
    NormalizedIds(raw, |raw|);
    ChunksRebuildFrom(calls, 0);
  }
}
