/** Worker events as Anthropic messages (Coordinator/mlxbar/api/anthropic_stream.py,
    `AnthropicMessageBuilder`): one rendering as framed blocks, one as a single message. */
module AnthropicStream {
  import opened Prelude

  // -------------------------------------------------------------- worker events

  datatype Arguments = NoArguments | RawText(raw: string) | Structured
  datatype Call = Call(id: Option<string>, name: Option<string>, arguments: Arguments)
  datatype CallDelta =
    CallDelta(index: Option<nat>, id: Option<string>, name: Option<string>, arguments: Option<string>)

  datatype Event =
    | Delta(text: string)
    | Reasoning(text: string)
    | ToolCalls(calls: seq<Call>)
    | ToolCallDelta(deltas: seq<CallDelta>)
    | Counts(prompt: Option<int>, completion: Option<int>)   // `usage` and `metrics`
    | Completed(finishReason: string, stopSequence: Option<string>)
    | Progress                                               // phase, heartbeat, queue, progress
    | Error(code: Option<string>, message: string)
    | Unknown

  // ------------------------------------------------------------------- messages

  // An absent id is replaced by a random one; two renderings draw different ones.
  datatype ToolId = Given(id: string) | Generated

  /** A parsed JSON value: an object, `Object(0)` being {}, or something else. */
  datatype Input = Object(n: nat) | OtherValue(n: nat)

  const EMPTY_INPUT := Object(0)

  // `json.loads`; None when it raises.
  type Parser = string -> Option<Input>

  /** The object a text parses to, {} when it is no object. */
  function AsObject(parse: Parser, raw: string): Input {
    var v := parse(raw);
    if v.Some? && v.value.Object? then v.value else EMPTY_INPUT
  }

  datatype Block = Text(text: string) | Thinking(thinking: string) | ToolUse(id: ToolId, name: string, input: Input)

  datatype Usage = Usage(input: nat, output: nat)
  datatype Message = Message(content: seq<Block>, stopReason: string, stopSequence: Option<string>, usage: Usage)

  // --------------------------------------------------------------------- frames

  datatype Kind = TextKind | ThinkingKind | ToolKind
  datatype Opening = OpenText | OpenThinking | OpenTool(id: ToolId, name: string) {
    function Kind(): Kind {
      match this case OpenText => TextKind case OpenThinking => ThinkingKind case OpenTool(_, _) => ToolKind
    }
  }
  datatype Piece = TextPiece(s: string) | ThinkingPiece(s: string) | Signature(of: string) | JsonPiece(s: string)

  datatype Frame =
    | Ping
    | BlockStart(index: int, block: Opening)
    | BlockDelta(index: int, delta: Piece)
    | BlockStop(index: int)
    | MessageDelta(stopReason: string, stopSequence: Option<string>, usage: Usage)
    | MessageStop
    | ErrorFrame(code: Option<string>, message: string)

  // -------------------------------------------------------------- builder state

  datatype Builder = Builder(
    content: seq<Block>, inputTokens: nat, outputChars: nat, reported: Option<nat>,
    stopReason: Option<string>, stopSequence: Option<string>,
    toolArgs: map<nat, string>, toolIds: map<nat, string>,
    index: int, openKind: Option<Kind>, thinkingText: string, failed: bool)

  function Fresh(inputTokens: nat): Builder {
    Builder([], inputTokens, 0, None, None, None, map[], map[], -1, None, "", false)
  }

  // The reported count, or a quarter of the characters, rounded up.
  function OutputTokens(outputChars: nat, reported: Option<nat>): nat {
    if reported.Some? then reported.value else (outputChars + 3) / 4
  }

  function UsageOf(b: Builder): Usage {
    Usage(b.inputTokens, OutputTokens(b.outputChars, b.reported))
  }

  function StopReasonFor(finish: string): string {
    if finish == "length" then "max_tokens"
    else if finish == "tool_calls" || finish == "function_call" then "tool_use"
    else "end_turn"
  }

  predicate IsSpace(c: char) {
    || c in {' ', '\t', '\n', '\r'}
    || c in {11 as char, 12 as char, 28 as char, 29 as char, 30 as char, 31 as char, 133 as char, 160 as char}
  }

  predicate Blank(s: string) {
    forall c :: c in s ==> IsSpace(c)
  }

  function CallId(c: Call): ToolId {
    if c.id.Some? && c.id.value != "" then Given(c.id.value) else Generated
  }

  function CallName(c: Call): string {
    if c.name.Some? then c.name.value else ""
  }

  function CallInput(c: Call, parse: Parser): Input {
    if c.arguments.RawText? && !Blank(c.arguments.raw) then AsObject(parse, c.arguments.raw) else EMPTY_INPUT
  }

  function NoteText(b: Builder, text: string): Builder {
    b.(outputChars := b.outputChars + |text|)
  }

  // -------------------------------------------------- the single-message rendering

  function AppendText(content: seq<Block>, text: string): (r: seq<Block>)
    ensures |r| >= |content|
  {
    if content != [] && content[|content| - 1].Text?
    then content[..|content| - 1] + [Text(content[|content| - 1].text + text)]
    else content + [Text(text)]
  }

  function AppendThinking(content: seq<Block>, text: string): (r: seq<Block>)
    ensures |r| >= |content|
  {
    if content != [] && content[|content| - 1].Thinking?
    then content[..|content| - 1] + [Thinking(content[|content| - 1].thinking + text)]
    else content + [Thinking(text)]
  }

  function AppendCalls(content: seq<Block>, calls: seq<Call>, parse: Parser): (r: seq<Block>)
    ensures |r| >= |content|
    decreases |calls|
  {
    if calls == [] then content
    else
      var call := ToolUse(CallId(calls[0]), CallName(calls[0]), CallInput(calls[0], parse));
      AppendCalls(content + [call], calls[1..], parse)
  }

  function NoteCounts(b: Builder, prompt: Option<int>, completion: Option<int>): Builder {
    b.(inputTokens := if prompt.Some? && prompt.value > 0 then prompt.value else b.inputTokens,
       reported := if completion.Some? && completion.value >= 0 then Some(completion.value) else b.reported)
  }

  function EndReason(soFar: Option<string>, finish: string, sequence: Option<string>): Option<string> {
    if sequence.Some? && sequence.value != "" then Some("stop_sequence")
    else if soFar != Some("tool_use") then Some(StopReasonFor(finish))
    else soFar
  }

  function EndSequence(soFar: Option<string>, sequence: Option<string>): Option<string> {
    if sequence.Some? && sequence.value != "" then sequence else soFar
  }

  function Complete(b: Builder, finish: string, sequence: Option<string>): Builder {
    b.(stopReason := EndReason(b.stopReason, finish, sequence), stopSequence := EndSequence(b.stopSequence, sequence))
  }

  // Placeholder blocks up to and including `index`.
  function Padded(content: seq<Block>, index: nat, id: ToolId): (r: seq<Block>)
    ensures |r| > index && content <= r
  {
    content + seq(if index < |content| then 0 else index + 1 - |content|, _ => ToolUse(id, "", EMPTY_INPUT))
  }

  predicate HasArguments(d: CallDelta) {
    d.arguments.Some? && d.arguments.value != ""
  }

  predicate HasId(d: CallDelta) {
    d.id.Some? && d.id.value != ""
  }

  predicate HasName(d: CallDelta) {
    d.name.Some? && d.name.value != ""
  }

  // The block a fragment addresses; without an index it is the next one.
  function IndexOf(b: Builder, d: CallDelta): nat {
    if d.index.Some? then d.index.value else |b.content|
  }

  function ArgsAt(toolArgs: map<nat, string>, index: nat): string {
    if index in toolArgs then toolArgs[index] else ""
  }

  function DeltaIds(toolIds: map<nat, string>, index: nat, d: CallDelta): map<nat, string> {
    if HasId(d) then toolIds[index := d.id.value] else toolIds
  }

  function PlaceholderId(toolIds: map<nat, string>, index: nat): ToolId {
    if index in toolIds && toolIds[index] != "" then Given(toolIds[index]) else Generated
  }

  function DeltaArgs(toolArgs: map<nat, string>, index: nat, d: CallDelta): map<nat, string> {
    if HasArguments(d) then toolArgs[index := ArgsAt(toolArgs, index) + d.arguments.value] else toolArgs
  }

  function EditedBlock(block: Block, d: CallDelta, args: map<nat, string>, index: nat, parse: Parser): Block
    requires block.ToolUse? && (HasArguments(d) ==> index in args)
  {
    block.(name := if d.name.Some? then block.name + d.name.value else block.name,
           input := if HasArguments(d) && parse(args[index]).Some? then parse(args[index]).value else block.input)
  }

  // Streamed fragments of a call, folded into the block their index names.
  function MergeDelta(b: Builder, d: CallDelta, parse: Parser): Builder {
    var index := IndexOf(b, d);
    var ids := DeltaIds(b.toolIds, index, d);
    var content := Padded(b.content, index, PlaceholderId(ids, index));
    if !content[index].ToolUse? then b.(content := content, toolIds := ids)
    else
      var args := DeltaArgs(b.toolArgs, index, d);
      b.(content := content[index := EditedBlock(content[index], d, args, index, parse)],
         toolIds := ids, toolArgs := args,
         stopReason := if b.stopReason.None? then Some("tool_use") else b.stopReason)
  }

  function MergeDeltas(b: Builder, deltas: seq<CallDelta>, parse: Parser): Builder
    decreases |deltas|
  {
    if deltas == [] then b else MergeDeltas(MergeDelta(b, deltas[0], parse), deltas[1..], parse)
  }

  function Handle(b: Builder, e: Event, emitThinking: bool, parse: Parser): Builder {
    match e
    case Delta(text) => if text == "" then b else NoteText(b, text).(content := AppendText(b.content, text))
    case Reasoning(text) =>
      if text == "" || !emitThinking then b else NoteText(b, text).(content := AppendThinking(b.content, text))
    case ToolCalls(calls) =>
      b.(content := AppendCalls(b.content, calls, parse),
         stopReason := if b.stopReason.None? then Some("tool_use") else b.stopReason)
    case ToolCallDelta(deltas) => MergeDeltas(b, deltas, parse)
    case Counts(prompt, completion) => NoteCounts(b, prompt, completion)
    case Completed(finish, sequence) => Complete(b, finish, sequence)
    case _ => b
  }

  function HandleAll(b: Builder, events: seq<Event>, emitThinking: bool, parse: Parser): Builder
    decreases |events|
  {
    if events == [] then b else HandleAll(Handle(b, events[0], emitThinking, parse), events[1..], emitThinking, parse)
  }

  function FinalMessage(b: Builder): Message {
    Message(if b.content == [] then [Text("")] else b.content,
            OrEndTurn(b.stopReason), b.stopSequence, UsageOf(b))
  }

  function OrEndTurn(reason: Option<string>): string {
    if reason.Some? && reason.value != "" then reason.value else "end_turn"
  }

  // ---------------------------------------------------------- the framed rendering

  datatype Out = Out(b: Builder, frames: seq<Frame>)

  function CloseOpen(b: Builder): Out {
    if b.openKind.None? then Out(b, [])
    else if b.openKind.value.ThinkingKind? then
      Out(b.(openKind := None, thinkingText := ""),
          [BlockDelta(b.index, Signature(b.thinkingText)), BlockStop(b.index)])
    else Out(b.(openKind := None), [BlockStop(b.index)])
  }

  function OpenBlock(b: Builder, block: Opening): Out {
    var closed := CloseOpen(b);
    var c := closed.b;
    Out(c.(index := c.index + 1, openKind := Some(block.Kind()),
           thinkingText := if block.OpenThinking? then "" else c.thinkingText),
        closed.frames + [BlockStart(c.index + 1, block)])
  }

  function EnsureOpen(b: Builder, block: Opening): Out {
    if b.openKind == Some(block.Kind()) then Out(b, []) else OpenBlock(b, block)
  }

  function StreamCall(b: Builder, c: Call): Out {
    var start := OpenBlock(b, OpenTool(CallId(c), CallName(c)));
    var json := if c.arguments.RawText? && !Blank(c.arguments.raw)
                then [BlockDelta(start.b.index, JsonPiece(c.arguments.raw))] else [];
    var closed := CloseOpen(start.b);
    Out(closed.b, start.frames + json + closed.frames)
  }

  function StreamCalls(b: Builder, calls: seq<Call>): Out
    decreases |calls|
  {
    if calls == [] then Out(b, [])
    else
      var first := StreamCall(b, calls[0]);
      var rest := StreamCalls(first.b, calls[1..]);
      Out(rest.b, first.frames + rest.frames)
  }

  // A fragment with an id, or met while no call is open, starts a call.
  predicate StartsCall(b: Builder, d: CallDelta) {
    b.openKind != Some(ToolKind) || HasId(d)
  }

  function OpeningOf(d: CallDelta): Opening {
    OpenTool(if HasId(d) then Given(d.id.value) else Generated, if d.name.Some? then d.name.value else "")
  }

  function StreamDelta(b: Builder, d: CallDelta): Out {
    var start := if StartsCall(b, d) then OpenBlock(b, OpeningOf(d)) else Out(b, []);
    var json := if HasArguments(d) then [BlockDelta(start.b.index, JsonPiece(d.arguments.value))] else [];
    Out(start.b, start.frames + json)
  }

  function StreamDeltas(b: Builder, deltas: seq<CallDelta>): Out
    decreases |deltas|
  {
    if deltas == [] then Out(b, [])
    else
      var first := StreamDelta(b, deltas[0]);
      var rest := StreamDeltas(first.b, deltas[1..]);
      Out(rest.b, first.frames + rest.frames)
  }

  function StreamCompleted(b: Builder, finish: string, sequence: Option<string>): Out {
    var ended := Complete(b, finish, sequence);
    var start := if ended.index < 0 then OpenBlock(ended, OpenText) else Out(ended, []);
    var closed := CloseOpen(start.b);
    var m := FinalMessage(closed.b);
    Out(closed.b, start.frames + closed.frames + [MessageDelta(m.stopReason, m.stopSequence, m.usage), MessageStop])
  }

  function Stream(b: Builder, e: Event, emitThinking: bool): Out {
    match e
    case Progress => Out(b, [Ping])
    case Reasoning(text) =>
      if !emitThinking || text == "" then Out(b, [])
      else
        var noted := NoteText(b, text);
        var start := EnsureOpen(noted.(thinkingText := noted.thinkingText + text), OpenThinking);
        Out(start.b, start.frames + [BlockDelta(start.b.index, ThinkingPiece(text))])
    case Delta(text) =>
      if text == "" then Out(b, [])
      else
        var start := EnsureOpen(NoteText(b, text), OpenText);
        Out(start.b, start.frames + [BlockDelta(start.b.index, TextPiece(text))])
    case ToolCalls(calls) =>
      var out := StreamCalls(b, calls);
      out.(b := out.b.(stopReason := Some("tool_use")))
    case ToolCallDelta(deltas) =>
      var out := StreamDeltas(b, deltas);
      out.(b := out.b.(stopReason := Some("tool_use")))
    case Counts(prompt, completion) => Out(NoteCounts(b, prompt, completion), [])
    case Completed(finish, sequence) => StreamCompleted(b, finish, sequence)
    case Error(code, message) => Out(b.(failed := true), [ErrorFrame(code, message)])
    case Unknown => Out(b, [])
  }

  function StreamAll(b: Builder, events: seq<Event>, emitThinking: bool): Out
    decreases |events|
  {
    if events == [] then Out(b, [])
    else
      var first := Stream(b, events[0], emitThinking);
      var rest := StreamAll(first.b, events[1..], emitThinking);
      Out(rest.b, first.frames + rest.frames)
  }

  // -------------------------------------------------------------- framing grammar

  /** Where a client stands in the stream: the next block index, the open block, whether it has been
      signed, and how far the closing frames have come. */
  datatype Grammar = Grammar(next: int, open: Option<Kind>, signed: bool, ended: nat)

  predicate Fits(k: Kind, d: Piece) {
    match d
    case TextPiece(_) => k.TextKind?
    case ThinkingPiece(_) => k.ThinkingKind?
    case Signature(_) => k.ThinkingKind?
    case JsonPiece(_) => k.ToolKind?
  }

  function Accept(g: Grammar, f: Frame): Option<Grammar> {
    match f
    case Ping => if g.ended == 0 && !g.signed then Some(g) else None
    case ErrorFrame(_, _) => if g.ended == 0 && !g.signed then Some(g) else None
    case BlockStart(i, block) =>
      if g.ended == 0 && g.open.None? && i == g.next
      then Some(Grammar(g.next + 1, Some(block.Kind()), false, 0))
      else None
    case BlockDelta(i, d) =>
      if g.open.Some? && i == g.next - 1 && !g.signed && Fits(g.open.value, d)
      then Some(g.(signed := d.Signature?))
      else None
    case BlockStop(i) =>
      // A thinking block stops exactly once it has been signed; no other block is ever signed.
      if g.open.Some? && i == g.next - 1 && g.signed == g.open.value.ThinkingKind?
      then Some(g.(open := None, signed := false)) else None
    case MessageDelta(_, _, _) => if g.open.None? && g.ended == 0 then Some(g.(ended := 1)) else None
    case MessageStop => if g.ended == 1 then Some(g.(ended := 2)) else None
  }

  function AcceptAll(g: Grammar, frames: seq<Frame>): Option<Grammar>
    decreases |frames|
  {
    if frames == [] then Some(g)
    else
      var r := Accept(g, frames[0]);
      if r.None? then None else AcceptAll(r.value, frames[1..])
  }

  lemma {:induction false} AcceptAppend(g: Grammar, a: seq<Frame>, h: Grammar, b: seq<Frame>)
    requires AcceptAll(g, a) == Some(h)
    ensures AcceptAll(g, a + b) == AcceptAll(h, b)
    decreases |a|
  {
    if a == [] {
      assert a + b == b;
    } else {
      AcceptAppend(Accept(g, a[0]).value, a[1..], h, b);
      assert (a + b)[1..] == a[1..] + b;
    }
  }

  lemma OneMore(g: Grammar, f: Frame)
    ensures AcceptAll(g, [f]) == Accept(g, f)
  {
  }

  function At(b: Builder): Grammar {
    Grammar(b.index + 1, b.openKind, false, 0)
  }

  // `out` moves a client that is where `b` is to where `out.b` is.
  ghost predicate Framed(b: Builder, out: Out) {
    AcceptAll(At(b), out.frames) == Some(At(out.b))
  }

  lemma CloseFramed(b: Builder)
    ensures Framed(b, CloseOpen(b)) && CloseOpen(b).b.openKind.None?
  {
    var frames := CloseOpen(b).frames;
    if b.openKind.Some? && b.openKind.value.ThinkingKind? {
      assert frames[1..] == [BlockStop(b.index)];
      OneMore(At(b).(signed := true), BlockStop(b.index));
    }
  }

  lemma OpenFramed(b: Builder, block: Opening)
    ensures Framed(b, OpenBlock(b, block))
  {
    hide CloseOpen;
    CloseFramed(b);
    var c := CloseOpen(b);
    AcceptAppend(At(b), c.frames, At(c.b), [BlockStart(c.b.index + 1, block)]);
  }

  lemma PieceFramed(b: Builder, out: Out, d: Piece)
    requires Framed(b, out) && out.b.openKind.Some? && Fits(out.b.openKind.value, d) && !d.Signature?
    ensures Framed(b, Out(out.b, out.frames + [BlockDelta(out.b.index, d)]))
  {
    AcceptAppend(At(b), out.frames, At(out.b), [BlockDelta(out.b.index, d)]);
  }

  lemma SequenceFramed(b: Builder, x: Out, y: Out)
    requires Framed(b, x) && Framed(x.b, y)
    ensures Framed(b, Out(y.b, x.frames + y.frames))
  {
    AcceptAppend(At(b), x.frames, At(x.b), y.frames);
  }

  lemma NothingFramed(b: Builder)
    ensures Framed(b, Out(b, []))
  {
  }

  lemma CallFramed(b: Builder, c: Call)
    ensures Framed(b, StreamCall(b, c))
  {
    hide OpenBlock, CloseOpen, Framed, Blank;
    var start := OpenBlock(b, OpenTool(CallId(c), CallName(c)));
    OpenFramed(b, OpenTool(CallId(c), CallName(c)));
    OpenBlockKind(b, OpenTool(CallId(c), CallName(c)));
    CloseFramed(start.b);
    if c.arguments.RawText? && !Blank(c.arguments.raw) {
      PieceFramed(b, start, JsonPiece(c.arguments.raw));
      var piece := BlockDelta(start.b.index, JsonPiece(c.arguments.raw));
      SequenceFramed(b, Out(start.b, start.frames + [piece]), CloseOpen(start.b));
    } else {
      assert start.frames + [] == start.frames;
      SequenceFramed(b, start, CloseOpen(start.b));
    }
  }

  lemma OpenBlockKind(b: Builder, block: Opening)
    ensures OpenBlock(b, block).b.openKind == Some(block.Kind())
  {
  }

  lemma {:induction false} CallsFramed(b: Builder, calls: seq<Call>)
    ensures Framed(b, StreamCalls(b, calls))
    decreases |calls|
  {
    hide StreamCall, Framed;
    if calls == [] {
      NothingFramed(b);
    } else {
      var first := StreamCall(b, calls[0]);
      CallFramed(b, calls[0]);
      CallsFramed(first.b, calls[1..]);
      SequenceFramed(b, first, StreamCalls(first.b, calls[1..]));
    }
  }

  lemma DeltaFramed(b: Builder, d: CallDelta)
    ensures Framed(b, StreamDelta(b, d))
  {
    hide OpenBlock, Framed;
    OpenFramed(b, OpeningOf(d));
    OpenBlockKind(b, OpeningOf(d));
    NothingFramed(b);
    var start := if StartsCall(b, d) then OpenBlock(b, OpeningOf(d)) else Out(b, []);
    if HasArguments(d) {
      PieceFramed(b, start, JsonPiece(d.arguments.value));
    } else {
      assert start.frames + [] == start.frames;
    }
  }

  lemma {:induction false} DeltasFramed(b: Builder, deltas: seq<CallDelta>)
    ensures Framed(b, StreamDeltas(b, deltas))
    decreases |deltas|
  {
    hide StreamDelta, Framed;
    if deltas == [] {
      NothingFramed(b);
    } else {
      var first := StreamDelta(b, deltas[0]);
      DeltaFramed(b, deltas[0]);
      DeltasFramed(first.b, deltas[1..]);
      SequenceFramed(b, first, StreamDeltas(first.b, deltas[1..]));
    }
  }

  lemma EnsureFramed(b: Builder, block: Opening)
    ensures Framed(b, EnsureOpen(b, block)) && EnsureOpen(b, block).b.openKind == Some(block.Kind())
  {
    hide OpenBlock, Framed;
    OpenFramed(b, block);
    OpenBlockKind(b, block);
    NothingFramed(b);
  }

  lemma EventFramed(b: Builder, e: Event, emitThinking: bool)
    requires !e.Completed?
    ensures Framed(b, Stream(b, e, emitThinking))
  {
    hide EnsureOpen, StreamCalls, StreamDeltas, AcceptAll;
    match e
    case Reasoning(text) =>
      var noted := NoteText(b, text).(thinkingText := b.thinkingText + text);
      EnsureFramed(noted, OpenThinking);
      PieceFramed(noted, EnsureOpen(noted, OpenThinking), ThinkingPiece(text));
      NothingFramed(b);
    case Delta(text) =>
      var noted := NoteText(b, text);
      EnsureFramed(noted, OpenText);
      PieceFramed(noted, EnsureOpen(noted, OpenText), TextPiece(text));
      NothingFramed(b);
    case ToolCalls(calls) => CallsFramed(b, calls);
    case ToolCallDelta(deltas) => DeltasFramed(b, deltas);
    case Progress => OneFrame(At(b), Ping);
    case Error(code, message) => OneFrame(At(b), ErrorFrame(code, message));
    case _ => NothingFramed(b);
  }

  lemma OneFrame(g: Grammar, f: Frame)
    requires f.Ping? || f.ErrorFrame?
    requires g.ended == 0 && !g.signed
    ensures AcceptAll(g, [f]) == Some(g)
  {
  }

  /** Every event keeps the stream well framed: indices run on, at most one block is open, every delta
      fits it, and a thinking block is signed once, right before it stops. */
  lemma {:induction false} StreamIsFramed(b: Builder, events: seq<Event>, emitThinking: bool)
    requires forall e :: e in events ==> !e.Completed?
    ensures Framed(b, StreamAll(b, events, emitThinking))
    decreases |events|
  {
    hide Stream, Framed;
    if events == [] {
      NothingFramed(b);
    } else {
      var first := Stream(b, events[0], emitThinking);
      EventFramed(b, events[0], emitThinking);
      StreamIsFramed(first.b, events[1..], emitThinking);
      SequenceFramed(b, first, StreamAll(first.b, events[1..], emitThinking));
    }
  }

  /** A whole reply: everything is closed, `message_delta` and `message_stop` come last. */
  lemma CompletedReplyIsFramed(inputTokens: nat, events: seq<Event>, finish: string, sequence: Option<string>,
                               emitThinking: bool)
    requires forall e :: e in events ==> !e.Completed?
    ensures var body := StreamAll(Fresh(inputTokens), events, emitThinking);
            var last := Stream(body.b, Completed(finish, sequence), emitThinking);
            var closed := Grammar(last.b.index + 1, None, false, 2);
            && AcceptAll(Grammar(0, None, false, 0), body.frames + last.frames) == Some(closed)
            && |last.frames| >= 2
            && last.frames[|last.frames| - 2].MessageDelta? && last.frames[|last.frames| - 1].MessageStop?
  {
    hide AcceptAll, StreamAll, CloseOpen, OpenBlock, FinalMessage;
    var body := StreamAll(Fresh(inputTokens), events, emitThinking);
    StreamIsFramed(Fresh(inputTokens), events, emitThinking);
    var ended := Complete(body.b, finish, sequence);
    var start := if ended.index < 0 then OpenBlock(ended, OpenText) else Out(ended, []);
    OpenFramed(ended, OpenText);
    NothingFramed(ended);
    CloseFramed(start.b);
    var closed := CloseOpen(start.b);
    SequenceFramed(ended, start, closed);
    var m := FinalMessage(closed.b);
    ClosingFrames(At(closed.b), m);
    AcceptAppend(At(ended), start.frames + closed.frames, At(closed.b),
                 [MessageDelta(m.stopReason, m.stopSequence, m.usage), MessageStop]);
    var last := Stream(body.b, Completed(finish, sequence), emitThinking);
    AcceptAppend(At(Fresh(inputTokens)), body.frames, At(body.b), last.frames);
  }

  lemma ClosingFrames(g: Grammar, m: Message)
    requires g.open.None? && !g.signed && g.ended == 0
    ensures AcceptAll(g, [MessageDelta(m.stopReason, m.stopSequence, m.usage), MessageStop]) == Some(g.(ended := 2))
  {
    assert [MessageDelta(m.stopReason, m.stopSequence, m.usage), MessageStop][1..] == [MessageStop];
    OneMore(g.(ended := 1), MessageStop);
  }

  // ----------------------------------------------------------- what a client rebuilds

  datatype Received = RText(s: string) | RThinking(s: string) | RTool(id: ToolId, name: string, json: string)

  function Extend(r: Received, d: Piece): Received {
    match (r, d)
    case (RText(s), TextPiece(t)) => RText(s + t)
    case (RThinking(s), ThinkingPiece(t)) => RThinking(s + t)
    case (RTool(id, name, json), JsonPiece(t)) => RTool(id, name, json + t)
    case _ => r
  }

  function Receive(blocks: seq<Received>, f: Frame): seq<Received> {
    match f
    case BlockStart(_, OpenText) => blocks + [RText("")]
    case BlockStart(_, OpenThinking) => blocks + [RThinking("")]
    case BlockStart(_, OpenTool(id, name)) => blocks + [RTool(id, name, "")]
    case BlockDelta(i, d) => if 0 <= i < |blocks| then blocks[i := Extend(blocks[i], d)] else blocks
    case _ => blocks
  }

  function ReceiveAll(blocks: seq<Received>, frames: seq<Frame>): seq<Received>
    decreases |frames|
  {
    if frames == [] then blocks else ReceiveAll(Receive(blocks, frames[0]), frames[1..])
  }

  function Rebuilt(r: Received, parse: Parser): Block {
    match r
    case RText(s) => Text(s)
    case RThinking(s) => Thinking(s)
    case RTool(id, name, json) => ToolUse(id, name, if json == "" then EMPTY_INPUT else AsObject(parse, json))
  }

  function Blocks(blocks: seq<Received>, parse: Parser): (r: seq<Block>)
    ensures |r| == |blocks|
  {
    seq(|blocks|, i requires 0 <= i < |blocks| => Rebuilt(blocks[i], parse))
  }

  /** The message a client ends up with: the rebuilt blocks and what `message_delta` said. */
  function Reassembled(frames: seq<Frame>, parse: Parser): Option<Message> {
    if |frames| < 2 || !frames[|frames| - 2].MessageDelta? then None
    else
      var d := frames[|frames| - 2];
      Some(Message(Blocks(ReceiveAll([], frames), parse), d.stopReason, d.stopSequence, d.usage))
  }

  lemma {:induction false} ReceiveAppend(blocks: seq<Received>, a: seq<Frame>, b: seq<Frame>)
    ensures ReceiveAll(blocks, a + b) == ReceiveAll(ReceiveAll(blocks, a), b)
    decreases |a|
  {
    if a == [] {
      assert a + b == b;
    } else {
      ReceiveAppend(Receive(blocks, a[0]), a[1..], b);
      assert (a + b)[1..] == a[1..] + b;
    }
  }

  lemma ReceiveOne(blocks: seq<Received>, f: Frame)
    ensures ReceiveAll(blocks, [f]) == Receive(blocks, f)
  {
  }

  function OpenAfter(content: seq<Block>): Option<Kind> {
    if content == [] then None
    else
      match content[|content| - 1]
      case Text(_) => Some(TextKind)
      case Thinking(_) => Some(ThinkingKind)
      case ToolUse(_, _, _) => None
  }

  /** The client holds the folded blocks, and both builders have counted the same. */
  ghost predicate Level(h: Builder, s: Builder, blocks: seq<Received>, parse: Parser) {
    && Blocks(blocks, parse) == h.content && s.index == |blocks| - 1 && SameCounts(h, s)
  }

  predicate SameCounts(h: Builder, s: Builder) {
    && s.inputTokens == h.inputTokens && s.outputChars == h.outputChars && s.reported == h.reported
    && (h.stopReason == None || h.stopReason == Some("tool_use"))
    && s.stopSequence == None && h.stopSequence == None
  }

  /** A call is being streamed: it is the last block, and the client's text of its arguments is the fold's. */
  predicate ToolOpen(h: Builder, s: Builder, blocks: seq<Received>) {
    && s.openKind == Some(ToolKind) && blocks != [] && blocks[|blocks| - 1].RTool?
    && blocks[|blocks| - 1].json == ArgsAt(h.toolArgs, |blocks| - 1)
    && h.stopReason == Some("tool_use")
  }

  /** The two builders and the client stand at the same point of the blocks. */
  ghost predicate SameBlocks(h: Builder, s: Builder, blocks: seq<Received>, parse: Parser) {
    && Level(h, s, blocks, parse)
    && (s.openKind == OpenAfter(h.content) || ToolOpen(h, s, blocks))
    && (forall k :: k in h.toolArgs ==> k < |h.content|) && (forall k :: k in h.toolIds ==> k < |h.content|)
  }

  /** And would end for the same reason. */
  ghost predicate Agree(h: Builder, s: Builder, blocks: seq<Received>, parse: Parser) {
    SameBlocks(h, s, blocks, parse) && s.stopReason == h.stopReason
  }

  lemma OpenPlace(h: Builder, s: Builder, blocks: seq<Received>, parse: Parser)
    requires SameBlocks(h, s, blocks, parse)
    ensures s.openKind == OpenAfter(h.content) || (s.openKind == Some(ToolKind) && OpenAfter(h.content) == None)
    ensures s.openKind == Some(ToolKind) <==> ToolOpen(h, s, blocks)
  {
    if ToolOpen(h, s, blocks) { assert h.content[|blocks| - 1] == Rebuilt(blocks[|blocks| - 1], parse); }
  }

  // Closing a block shows the client nothing new.
  lemma CloseReceives(b: Builder, blocks: seq<Received>)
    requires b.index == |blocks| - 1
    ensures ReceiveAll(blocks, CloseOpen(b).frames) == blocks
  {
    var frames := CloseOpen(b).frames;
    if b.openKind.Some? && b.openKind.value.ThinkingKind? {
      assert frames[1..] == [BlockStop(b.index)];
      ReceiveOne(blocks, BlockStop(b.index));
      if 0 <= b.index < |blocks| {
        assert Extend(blocks[b.index], Signature(b.thinkingText)) == blocks[b.index];
        assert blocks[b.index := blocks[b.index]] == blocks;
      }
    } else if b.openKind.Some? {
      ReceiveOne(blocks, BlockStop(b.index));
    }
  }

  lemma OpenReceives(b: Builder, block: Opening, blocks: seq<Received>)
    requires b.index == |blocks| - 1
    ensures ReceiveAll(blocks, OpenBlock(b, block).frames) == Receive(blocks, BlockStart(b.index + 1, block))
  {
    hide CloseOpen, ReceiveAll, Receive;
    CloseReceives(b, blocks);
    CloseKeepsIndex(b);
    ReceiveAppend(blocks, CloseOpen(b).frames, [BlockStart(b.index + 1, block)]);
    ReceiveOne(blocks, BlockStart(b.index + 1, block));
  }

  lemma CloseKeepsIndex(b: Builder)
    ensures CloseOpen(b).b == b.(openKind := None, thinkingText := CloseOpen(b).b.thinkingText)
  {
  }

  lemma PieceReceives(blocks: seq<Received>, frames: seq<Frame>, index: int, d: Piece)
    requires var now := ReceiveAll(blocks, frames); now != [] && index == |now| - 1
    ensures var now := ReceiveAll(blocks, frames);
            ReceiveAll(blocks, frames + [BlockDelta(index, d)]) == now[..index] + [Extend(now[index], d)]
  {
    var now := ReceiveAll(blocks, frames);
    ReceiveAppend(blocks, frames, [BlockDelta(index, d)]);
    ReceiveOne(now, BlockDelta(index, d));
  }

  lemma BlocksSnoc(blocks: seq<Received>, r: Received, parse: Parser)
    ensures Blocks(blocks + [r], parse) == Blocks(blocks, parse) + [Rebuilt(r, parse)]
  {
  }

  function Fragment(thinking: bool, text: string): Piece {
    if thinking then ThinkingPiece(text) else TextPiece(text)
  }

  function Appended(content: seq<Block>, thinking: bool, text: string): seq<Block> {
    if thinking then AppendThinking(content, text) else AppendText(content, text)
  }

  // The fragment continues the open block.
  lemma FragmentContinues(s: Builder, blocks: seq<Received>, thinking: bool, text: string, parse: Parser)
    requires s.index == |blocks| - 1
    requires OpenAfter(Blocks(blocks, parse)) == Some(if thinking then ThinkingKind else TextKind)
    ensures var now := ReceiveAll(blocks, [BlockDelta(s.index, Fragment(thinking, text))]);
            Blocks(now, parse) == Appended(Blocks(blocks, parse), thinking, text) && |now| == |blocks|
  {
  }

  // The fragment starts a block of its own.
  lemma FragmentOpens(s: Builder, blocks: seq<Received>, thinking: bool, text: string, parse: Parser)
    requires s.index == |blocks| - 1
    requires OpenAfter(Blocks(blocks, parse)) != Some(if thinking then ThinkingKind else TextKind)
    ensures var start := OpenBlock(s, if thinking then OpenThinking else OpenText);
            var now := ReceiveAll(blocks, start.frames + [BlockDelta(start.b.index, Fragment(thinking, text))]);
            Blocks(now, parse) == Appended(Blocks(blocks, parse), thinking, text) && |now| == |blocks| + 1
  {
    hide ReceiveAll, CloseOpen;
    var block := if thinking then OpenThinking else OpenText;
    var empty := if thinking then RThinking("") else RText("");
    OpenReceives(s, block, blocks);
    CloseKeepsIndex(s);
    PieceReceives(blocks, OpenBlock(s, block).frames, |blocks|, Fragment(thinking, text));
    assert (blocks + [empty])[..|blocks|] == blocks && "" + text == text;
    BlocksSnoc(blocks, Extend(empty, Fragment(thinking, text)), parse);
  }

  // Either way it lands in the block both renderings consider current.
  lemma FragmentAgrees(s: Builder, blocks: seq<Received>, thinking: bool, text: string, parse: Parser)
    requires s.index == |blocks| - 1
    requires || s.openKind == OpenAfter(Blocks(blocks, parse))
             || (s.openKind == Some(ToolKind) && OpenAfter(Blocks(blocks, parse)) == None)
    ensures var start := EnsureOpen(s, if thinking then OpenThinking else OpenText);
            var content := Appended(Blocks(blocks, parse), thinking, text);
            var now := ReceiveAll(blocks, start.frames + [BlockDelta(start.b.index, Fragment(thinking, text))]);
            && Blocks(now, parse) == content
            && start.b == s.(index := |now| - 1, openKind := OpenAfter(content), thinkingText := start.b.thinkingText)
  {
    hide ReceiveAll, OpenBlock, Blocks;
    var block := if thinking then OpenThinking else OpenText;
    OpenKeepsCounts(s, block);
    AppendedIsOpen(Blocks(blocks, parse), thinking, text);
    if s.openKind == Some(block.Kind()) {
      var frames := [BlockDelta(s.index, Fragment(thinking, text))];
      assert [] + frames == frames;
      FragmentContinues(s, blocks, thinking, text, parse);
    } else {
      FragmentOpens(s, blocks, thinking, text, parse);
    }
  }

  lemma AppendedIsOpen(content: seq<Block>, thinking: bool, text: string)
    ensures OpenAfter(Appended(content, thinking, text)) == Some(if thinking then ThinkingKind else TextKind)
  {
  }

  lemma ReceiveNothing(blocks: seq<Received>)
    ensures ReceiveAll(blocks, []) == blocks
  {
  }

  lemma CallReceives(b: Builder, c: Call, blocks: seq<Received>, parse: Parser)
    requires b.index == |blocks| - 1
    ensures var out := StreamCall(b, c);
            var now := ReceiveAll(blocks, out.frames);
            && Blocks(now, parse) == Blocks(blocks, parse) + [ToolUse(CallId(c), CallName(c), CallInput(c, parse))]
            && out.b == b.(index := |now| - 1, openKind := None, thinkingText := out.b.thinkingText)
  {
    hide ReceiveAll, CloseOpen, Blank;
    var block := OpenTool(CallId(c), CallName(c));
    var start := OpenBlock(b, block);
    OpenReceives(b, block, blocks);
    CloseKeepsIndex(b);
    CloseKeepsIndex(start.b);
    var empty := RTool(CallId(c), CallName(c), "");
    var closed := CloseOpen(start.b);
    BlankIsEmpty();
    if c.arguments.RawText? && !Blank(c.arguments.raw) {
      var raw := c.arguments.raw;
      PieceReceives(blocks, start.frames, |blocks|, JsonPiece(raw));
      assert (blocks + [empty])[..|blocks|] == blocks && "" + raw == raw;
      var mid := start.frames + [BlockDelta(start.b.index, JsonPiece(raw))];
      ReceiveAppend(blocks, mid, closed.frames);
      CloseReceives(start.b, ReceiveAll(blocks, mid));
      BlocksSnoc(blocks, RTool(CallId(c), CallName(c), raw), parse);
    } else {
      assert start.frames + [] == start.frames;
      ReceiveAppend(blocks, start.frames, closed.frames);
      CloseReceives(start.b, ReceiveAll(blocks, start.frames));
      BlocksSnoc(blocks, empty, parse);
    }
  }

  lemma BlankIsEmpty()
    ensures Blank("")
  {
  }

  lemma {:induction false} CallsReceive(b: Builder, calls: seq<Call>, blocks: seq<Received>, parse: Parser)
    requires b.index == |blocks| - 1
    ensures var out := StreamCalls(b, calls);
            var now := ReceiveAll(blocks, out.frames);
            && Blocks(now, parse) == AppendCalls(Blocks(blocks, parse), calls, parse)
            && out.b == b.(index := |now| - 1, openKind := if calls == [] then b.openKind else None,
                           thinkingText := out.b.thinkingText)
            && (calls != [] ==> OpenAfter(Blocks(now, parse)) == None) && (calls == [] ==> now == blocks)
    decreases |calls|
  {
    hide StreamCall, ReceiveAll, Blocks;
    if calls == [] {
      ReceiveNothing(blocks);
    } else {
      var first := StreamCall(b, calls[0]);
      CallReceives(b, calls[0], blocks, parse);
      var mid := ReceiveAll(blocks, first.frames);
      CallsReceive(first.b, calls[1..], mid, parse);
      ReceiveAppend(blocks, first.frames, StreamCalls(first.b, calls[1..]).frames);
    }
  }

  lemma EventAgrees(h: Builder, s: Builder, blocks: seq<Received>, e: Event, emitThinking: bool, parse: Parser)
    requires Agree(h, s, blocks, parse) && !e.ToolCallDelta? && !e.Completed?
    ensures var out := Stream(s, e, emitThinking);
            Agree(Handle(h, e, emitThinking, parse), out.b, ReceiveAll(blocks, out.frames), parse)
  {
    hide EnsureOpen, StreamCalls, ReceiveAll, AppendText, AppendThinking, AppendCalls, Blocks, OpenAfter, MergeDeltas;
    ReceiveNothing(blocks);
    OpenPlace(h, s, blocks, parse);
    match e
    case Delta(text) => FragmentAgrees(NoteText(s, text), blocks, false, text, parse);
    case Reasoning(text) =>
      FragmentAgrees(NoteText(s, text).(thinkingText := s.thinkingText + text), blocks, true, text, parse);
    case ToolCalls(calls) => CallsReceive(s, calls, blocks, parse);
    case Progress => ReceiveOne(blocks, Ping);
    case Error(code, message) => ReceiveOne(blocks, ErrorFrame(code, message));
    case _ =>
  }

  lemma {:induction false} EventsAgree(h: Builder, s: Builder, blocks: seq<Received>, events: seq<Event>,
                                       emitThinking: bool, parse: Parser)
    requires Agree(h, s, blocks, parse) && forall e :: e in events ==> !e.ToolCallDelta? && !e.Completed?
    ensures var out := StreamAll(s, events, emitThinking);
            Agree(HandleAll(h, events, emitThinking, parse), out.b, ReceiveAll(blocks, out.frames), parse)
    decreases |events|
  {
    hide Agree, Stream, Handle, ReceiveAll;
    if events == [] {
      ReceiveNothing(blocks);
    } else {
      var first := Stream(s, events[0], emitThinking);
      EventAgrees(h, s, blocks, events[0], emitThinking, parse);
      EventsAgree(Handle(h, events[0], emitThinking, parse), first.b, ReceiveAll(blocks, first.frames),
                  events[1..], emitThinking, parse);
      ReceiveAppend(blocks, first.frames, StreamAll(first.b, events[1..], emitThinking).frames);
    }
  }

  /** Closing a reply shows the client an empty text block if it had none, and nothing else. */
  lemma CompletionShows(s: Builder, blocks: seq<Received>, finish: string, sequence: Option<string>, parse: Parser)
    requires s.index == |blocks| - 1
    ensures var out := StreamCompleted(s, finish, sequence);
            var shown := if blocks == [] then [Text("")] else Blocks(blocks, parse);
            && Blocks(ReceiveAll(blocks, out.frames), parse) == shown
            && |out.frames| >= 2 && out.frames[|out.frames| - 2].MessageDelta?
  {
    hide ReceiveAll, CloseOpen, OpenBlock, Complete, FinalMessage;
    var ended := Complete(s, finish, sequence);
    CompleteKeepsPlace(s, finish, sequence);
    var start := if ended.index < 0 then OpenBlock(ended, OpenText) else Out(ended, []);
    OpenKeepsCounts(ended, OpenText);
    if ended.index < 0 {
      OpenReceives(ended, OpenText, blocks);
    } else {
      ReceiveNothing(blocks);
    }
    var mid := ReceiveAll(blocks, start.frames);
    CloseReceives(start.b, mid);
    CloseKeepsIndex(start.b);
    var closed := CloseOpen(start.b);
    ReceiveAppend(blocks, start.frames, closed.frames);
    var m := FinalMessage(closed.b);
    var tail := [MessageDelta(m.stopReason, m.stopSequence, m.usage), MessageStop];
    ReceiveAppend(blocks, start.frames + closed.frames, tail);
    TailShowsNothing(mid, m);
    if blocks == [] { assert Blocks([RText("")], parse) == [Text("")]; }
  }

  lemma CompletionAgrees(h: Builder, s: Builder, blocks: seq<Received>, finish: string, sequence: Option<string>,
                         parse: Parser)
    requires Level(h, s, blocks, parse) && s.stopReason == h.stopReason
    ensures var out := StreamCompleted(s, finish, sequence);
            var m := FinalMessage(Complete(h, finish, sequence));
            && Blocks(ReceiveAll(blocks, out.frames), parse) == m.content
            && |out.frames| >= 2
            && out.frames[|out.frames| - 2] == MessageDelta(m.stopReason, m.stopSequence, m.usage)
  {
    hide ReceiveAll, CloseOpen, OpenBlock, Complete, FinalMessage;
    CompletionShows(s, blocks, finish, sequence, parse);
    var ended := Complete(s, finish, sequence);
    CompleteKeepsPlace(s, finish, sequence);
    var start := if ended.index < 0 then OpenBlock(ended, OpenText) else Out(ended, []);
    OpenKeepsCounts(ended, OpenText);
    CloseKeepsIndex(start.b);
    SameEnding(CloseOpen(start.b).b, h, s, finish, sequence);
  }

  lemma CompleteKeepsPlace(b: Builder, finish: string, sequence: Option<string>)
    ensures var c := Complete(b, finish, sequence);
            c == b.(stopReason := c.stopReason, stopSequence := c.stopSequence)
  {
  }

  // Both routes end for the same reason and report the same usage.
  lemma SameEnding(closed: Builder, h: Builder, s: Builder, finish: string, sequence: Option<string>)
    requires s.inputTokens == h.inputTokens && s.outputChars == h.outputChars && s.reported == h.reported
    requires s.stopReason == h.stopReason && s.stopSequence == h.stopSequence
    requires var ended := Complete(s, finish, sequence);
             closed == ended.(index := closed.index, openKind := closed.openKind, thinkingText := closed.thinkingText)
    ensures var m, n := FinalMessage(closed), FinalMessage(Complete(h, finish, sequence));
            m.stopReason == n.stopReason && m.stopSequence == n.stopSequence && m.usage == n.usage
    ensures FinalMessage(Complete(h, finish, sequence)).content == if h.content == [] then [Text("")] else h.content
  {
  }

  lemma OpenKeepsCounts(b: Builder, block: Opening)
    ensures var o := OpenBlock(b, block).b;
            o == b.(index := b.index + 1, openKind := Some(block.Kind()), thinkingText := o.thinkingText)
  {
  }

  lemma TailShowsNothing(blocks: seq<Received>, m: Message)
    ensures ReceiveAll(blocks, [MessageDelta(m.stopReason, m.stopSequence, m.usage), MessageStop]) == blocks
  {
    assert [MessageDelta(m.stopReason, m.stopSequence, m.usage), MessageStop][1..] == [MessageStop];
    ReceiveOne(blocks, MessageStop);
  }

  /** The two routes cannot drift: for every reply without streamed call fragments, a client that
      reassembles the frames holds exactly the message the non-streaming route returns. */
  lemma RenderingsAgree(inputTokens: nat, events: seq<Event>, finish: string, sequence: Option<string>,
                        emitThinking: bool, parse: Parser)
    requires forall e :: e in events ==> !e.ToolCallDelta? && !e.Completed?
    ensures var body := StreamAll(Fresh(inputTokens), events, emitThinking);
            var last := Stream(body.b, Completed(finish, sequence), emitThinking);
            var folded := Handle(HandleAll(Fresh(inputTokens), events, emitThinking, parse),
                                 Completed(finish, sequence), emitThinking, parse);
            Reassembled(body.frames + last.frames, parse) == Some(FinalMessage(folded))
  {
    hide ReceiveAll, StreamAll, HandleAll, StreamCompleted, FinalMessage, Complete;
    var b := Fresh(inputTokens);
    assert Agree(b, b, [], parse) by { assert Blocks([], parse) == []; }
    EventsAgree(b, b, [], events, emitThinking, parse);
    var body := StreamAll(b, events, emitThinking);
    var now := ReceiveAll([], body.frames);
    CompletionAgrees(HandleAll(b, events, emitThinking, parse), body.b, now, finish, sequence, parse);
    ReceiveAppend([], body.frames, StreamCompleted(body.b, finish, sequence).frames);
  }

  // ------------------------------------------------------------- streamed fragments

  /** What appending to a call's arguments does to its input in the fold is what the client makes of the
      whole text: it parses to an object, or it parses to nothing and the input so far was {}. */
  predicate Follows(input: Input, text: string, parse: Parser) {
    if parse(text).Some? then parse(text).value.Object? else input == EMPTY_INPUT
  }

  /** The fold's edit of the block a fragment addresses shows nothing. */
  predicate EditsNothing(h: Builder, index: nat, d: CallDelta, parse: Parser)
    requires index < |h.content|
  {
    h.content[index].ToolUse? ==>
      && !HasName(d)
      && (HasArguments(d) ==>
            var v := parse(ArgsAt(h.toolArgs, index) + d.arguments.value);
            v.None? || v.value == h.content[index].input)
  }

  /** A fragment that the two renderings put in the same place with the same effect. One that starts a call
      must address the next block, with arguments that parse to an object or not at all. One that continues
      the open call must address it, add no name, and leave its input what the client makes of the text; or
      it must show nothing in either rendering. */
  predicate FragmentFits(h: Builder, s: Builder, d: CallDelta, parse: Parser)
  {
    var n, index := |h.content|, IndexOf(h, d);
    if StartsCall(s, d) then
      index == n && (HasArguments(d) ==> Follows(EMPTY_INPUT, d.arguments.value, parse))
    else
      && index < n && h.content[n - 1].ToolUse?
      && var text := ArgsAt(h.toolArgs, n - 1) + (if HasArguments(d) then d.arguments.value else "");
         if index == n - 1 then
           !HasName(d) && (HasArguments(d) ==> Follows(h.content[n - 1].input, text, parse))
         else
           EditsNothing(h, index, d, parse) && (HasArguments(d) ==> AsObject(parse, text) == h.content[n - 1].input)
  }

  /** The client's view of a fragment that starts a call. */
  lemma DeltaStarts(s: Builder, d: CallDelta, blocks: seq<Received>)
    requires s.index == |blocks| - 1 && StartsCall(s, d)
    ensures var out := StreamDelta(s, d);
            var o := OpeningOf(d);
            && ReceiveAll(blocks, out.frames) ==
                 blocks + [RTool(o.id, o.name, if HasArguments(d) then d.arguments.value else "")]
            && out.b == s.(index := |blocks|, openKind := Some(ToolKind), thinkingText := out.b.thinkingText)
  {
    hide ReceiveAll, CloseOpen;
    var o := OpeningOf(d);
    OpenReceives(s, o, blocks);
    CloseKeepsIndex(s);
    var start := OpenBlock(s, o);
    if HasArguments(d) {
      PieceReceives(blocks, start.frames, |blocks|, JsonPiece(d.arguments.value));
      assert (blocks + [RTool(o.id, o.name, "")])[..|blocks|] == blocks && "" + d.arguments.value == d.arguments.value;
    } else {
      assert start.frames + [] == start.frames;
    }
  }

  lemma ContinuedFrames(s: Builder, d: CallDelta)
    requires !StartsCall(s, d)
    ensures StreamDelta(s, d) ==
            Out(s, if HasArguments(d) then [BlockDelta(s.index, JsonPiece(d.arguments.value))] else [])
  {
    if HasArguments(d) {
      var pieces := [BlockDelta(s.index, JsonPiece(d.arguments.value))];
      assert [] + pieces == pieces;
    }
  }

  lemma Extended(last: Received, text: string)
    requires last.RTool?
    ensures Extend(last, JsonPiece(text)) == last.(json := last.json + text)
  {
  }

  /** And of one that continues the open call. */
  lemma DeltaContinues(s: Builder, d: CallDelta, blocks: seq<Received>)
    requires s.index == |blocks| - 1 && !StartsCall(s, d) && blocks != [] && blocks[|blocks| - 1].RTool?
    ensures var out := StreamDelta(s, d);
            var last := blocks[|blocks| - 1];
            && out.b == s
            && ReceiveAll(blocks, out.frames) ==
                 blocks[..|blocks| - 1] + [last.(json := last.json + if HasArguments(d) then d.arguments.value else "")]
  {
    hide ReceiveAll, StreamDelta, Extend, OpenBlock, Receive, StartsCall;
    ContinuedFrames(s, d);
    if HasArguments(d) {
      OpenCallGrows(blocks, d.arguments.value);
      assert StreamDelta(s, d).frames == [BlockDelta(|blocks| - 1, JsonPiece(d.arguments.value))];
    } else {
      OpenCallStays(blocks);
      assert StreamDelta(s, d).frames == [];
    }
  }

  lemma OpenCallGrows(blocks: seq<Received>, text: string)
    requires blocks != [] && blocks[|blocks| - 1].RTool?
    ensures var last := blocks[|blocks| - 1];
            ReceiveAll(blocks, [BlockDelta(|blocks| - 1, JsonPiece(text))]) ==
            blocks[..|blocks| - 1] + [last.(json := last.json + text)]
  {
    hide ReceiveAll, Extend, Receive;
    var piece := BlockDelta(|blocks| - 1, JsonPiece(text));
    ReceiveNothing(blocks);
    assert [] + [piece] == [piece];
    PieceReceives(blocks, [], |blocks| - 1, JsonPiece(text));
    Extended(blocks[|blocks| - 1], text);
  }

  lemma OpenCallStays(blocks: seq<Received>)
    requires blocks != [] && blocks[|blocks| - 1].RTool?
    ensures var last := blocks[|blocks| - 1];
            ReceiveAll(blocks, []) == blocks[..|blocks| - 1] + [last.(json := last.json + "")]
  {
    hide ReceiveAll, Receive;
    var last := blocks[|blocks| - 1];
    ReceiveNothing(blocks);
    assert last.json + "" == last.json;
    assert last.(json := last.json + "") == last && blocks[..|blocks| - 1] + [last] == blocks;
  }

  lemma MergeLength(h: Builder, d: CallDelta, parse: Parser)
    ensures var n, index := |h.content|, IndexOf(h, d);
            |MergeDelta(h, d, parse).content| == if index < n then n else index + 1
  {
  }

  lemma DeltaKeepsCounts(h: Builder, s: Builder, d: CallDelta, parse: Parser)
    requires SameCounts(h, s)
    ensures var m, b := MergeDelta(h, d, parse), StreamDelta(s, d).b;
            && SameCounts(m, b) && b.stopReason == s.stopReason
            && (h.stopReason == Some("tool_use") ==> m.stopReason == Some("tool_use"))
  {
    hide Padded, EditedBlock, DeltaIds, DeltaArgs, PlaceholderId;
    OpenKeepsCounts(s, OpeningOf(d));
  }

  // A fragment for the next block adds one.
  lemma MergeAtEnd(h: Builder, d: CallDelta, parse: Parser)
    requires IndexOf(h, d) == |h.content| && |h.content| !in h.toolArgs && |h.content| !in h.toolIds
    ensures var n, m, o := |h.content|, MergeDelta(h, d, parse), OpeningOf(d);
            var v := if HasArguments(d) then parse(d.arguments.value) else None;
            && m.content == h.content + [ToolUse(o.id, o.name, if v.Some? then v.value else EMPTY_INPUT)]
            && m.toolArgs == (if HasArguments(d) then h.toolArgs[n := d.arguments.value] else h.toolArgs)
            && m.stopReason == (if h.stopReason.None? then Some("tool_use") else h.stopReason)
            && m.toolIds == DeltaIds(h.toolIds, n, d)
  {
    var n, ids := |h.content|, DeltaIds(h.toolIds, |h.content|, d);
    var blank := ToolUse(PlaceholderId(ids, n), "", EMPTY_INPUT);
    assert Padded(h.content, n, PlaceholderId(ids, n)) == h.content + [blank];
    if HasArguments(d) { assert "" + d.arguments.value == d.arguments.value; }
    if d.name.Some? { assert "" + d.name.value == d.name.value; }
    var m := MergeDelta(h, d, parse);
    assert m.content[..n] == h.content;
    assert m.content == h.content + [m.content[n]];
  }

  // A fragment for a block that exists edits it alone.
  lemma MergeInside(h: Builder, d: CallDelta, parse: Parser)
    requires IndexOf(h, d) < |h.content|
    ensures var index, m := IndexOf(h, d), MergeDelta(h, d, parse);
            && m.content == (if h.content[index].ToolUse?
                             then h.content[index := EditedBlock(h.content[index], d, m.toolArgs, index, parse)]
                             else h.content)
            && m.toolArgs == (if h.content[index].ToolUse? then DeltaArgs(h.toolArgs, index, d) else h.toolArgs)
            && m.toolIds == DeltaIds(h.toolIds, index, d)
            && (h.stopReason.Some? ==> m.stopReason == h.stopReason)
  {
    var index := IndexOf(h, d);
    assert Padded(h.content, index, PlaceholderId(DeltaIds(h.toolIds, index, d), index)) == h.content;
  }

  /** After one fragment the client holds the folded blocks exactly when the fragment fits. */
  lemma FragmentAgreesExactly(h: Builder, s: Builder, blocks: seq<Received>, d: CallDelta, parse: Parser)
    requires SameBlocks(h, s, blocks, parse)
    ensures var now := ReceiveAll(blocks, StreamDelta(s, d).frames);
            Blocks(now, parse) == MergeDelta(h, d, parse).content <==> FragmentFits(h, s, d, parse)
  {
    hide ReceiveAll, StreamDelta, MergeDelta;
    MergeLength(h, d, parse);
    OpenPlace(h, s, blocks, parse);
    if StartsCall(s, d) {
      DeltaStarts(s, d, blocks);
      StartAgreesExactly(h, blocks, d, parse);
    } else {
      DeltaContinues(s, d, blocks);
      ContinuationAgreesExactly(h, s, blocks, d, parse);
    }
  }

  lemma StartAgreesExactly(h: Builder, blocks: seq<Received>, d: CallDelta, parse: Parser)
    requires Blocks(blocks, parse) == h.content
    requires (forall k :: k in h.toolArgs ==> k < |h.content|) && (forall k :: k in h.toolIds ==> k < |h.content|)
    ensures var o := OpeningOf(d);
            var now := blocks + [RTool(o.id, o.name, if HasArguments(d) then d.arguments.value else "")];
            Blocks(now, parse) == MergeDelta(h, d, parse).content <==>
              IndexOf(h, d) == |h.content| && (HasArguments(d) ==> Follows(EMPTY_INPUT, d.arguments.value, parse))
  {
    hide MergeDelta, Blocks;
    var o := OpeningOf(d);
    BlocksSnoc(blocks, RTool(o.id, o.name, if HasArguments(d) then d.arguments.value else ""), parse);
    MergeLength(h, d, parse);
    if IndexOf(h, d) == |h.content| {
      MergeAtEnd(h, d, parse);
      var rebuilt := Rebuilt(RTool(o.id, o.name, if HasArguments(d) then d.arguments.value else ""), parse);
      var folded := MergeDelta(h, d, parse).content[|h.content|];
      assert (h.content + [rebuilt])[|h.content|] == rebuilt;
      assert rebuilt == folded <==> rebuilt.input == folded.input;
    }
  }

  lemma ContinuationAgreesExactly(h: Builder, s: Builder, blocks: seq<Received>, d: CallDelta, parse: Parser)
    requires SameBlocks(h, s, blocks, parse) && !StartsCall(s, d) && ToolOpen(h, s, blocks)
    ensures var last := blocks[|blocks| - 1];
            var text := last.json + if HasArguments(d) then d.arguments.value else "";
            var now := blocks[..|blocks| - 1] + [last.(json := text)];
            Blocks(now, parse) == MergeDelta(h, d, parse).content <==> FragmentFits(h, s, d, parse)
  {
    hide MergeDelta;
    var n, index, last := |blocks|, IndexOf(h, d), blocks[|blocks| - 1];
    var text := last.json + if HasArguments(d) then d.arguments.value else "";
    var now := blocks[..n - 1] + [last.(json := text)];
    assert h.content[n - 1] == Rebuilt(last, parse);
    assert Blocks(now, parse) == h.content[n - 1 := Rebuilt(last.(json := text), parse)];
    MergeLength(h, d, parse);
    if index < n {
      MergeInside(h, d, parse);
      assert !HasArguments(d) ==> text == last.json;
      if index < n - 1 {
        EditExactly(h, index, d, parse);
        TwoPlaces(h.content, n - 1, Rebuilt(last.(json := text), parse), index, MergeDelta(h, d, parse).content);
      } else {
        var edited := EditedBlock(h.content[index], d, MergeDelta(h, d, parse).toolArgs, index, parse);
        assert h.content[index := edited][index] == edited;
        assert Blocks(now, parse)[index] == Rebuilt(last.(json := text), parse);
        NameStays(h.content[index].name, d);
      }
    }
  }

  lemma EditExactly(h: Builder, index: nat, d: CallDelta, parse: Parser)
    requires index < |h.content| && index == IndexOf(h, d)
    ensures MergeDelta(h, d, parse).content == h.content <==> EditsNothing(h, index, d, parse)
  {
    hide MergeDelta;
    MergeInside(h, d, parse);
    if h.content[index].ToolUse? {
      var block := h.content[index];
      var edited := EditedBlock(block, d, MergeDelta(h, d, parse).toolArgs, index, parse);
      assert h.content[index := edited][index] == edited;
      assert h.content[index := edited] == h.content <==> edited == block;
      assert edited == block <==> edited.name == block.name && edited.input == block.input;
      NameStays(block.name, d);
    }
  }

  lemma NameStays(name: string, d: CallDelta)
    ensures (if d.name.Some? then name + d.name.value else name) == name <==> !HasName(d)
  {
    if d.name.Some? { assert |name + d.name.value| == |name| + |d.name.value|; }
    if d.name == Some("") { assert name + "" == name; }
  }

  // Changes at two places cancel only when neither shows.
  lemma TwoPlaces(content: seq<Block>, i: nat, x: Block, j: nat, other: seq<Block>)
    requires i < |content| && j < |content| && i != j && |other| == |content|
    requires forall k :: 0 <= k < |content| && k != j ==> other[k] == content[k]
    ensures content[i := x] == other <==> x == content[i] && other == content
  {
    if content[i := x] == other { assert other[i] == content[i] && other[j] == content[j]; }
  }

  // A fragment that fits is one of a call.
  lemma FittingSetsReason(h: Builder, s: Builder, blocks: seq<Received>, d: CallDelta, parse: Parser)
    requires SameBlocks(h, s, blocks, parse) && FragmentFits(h, s, d, parse)
    ensures MergeDelta(h, d, parse).stopReason == Some("tool_use")
  {
    hide MergeDelta, StreamDelta, Blocks;
    DeltaKeepsCounts(h, s, d, parse);
    OpenPlace(h, s, blocks, parse);
    if StartsCall(s, d) { MergeAtEnd(h, d, parse); }
  }

  lemma OneDelta(h: Builder, s: Builder, d: CallDelta, emitThinking: bool, parse: Parser)
    ensures Handle(h, ToolCallDelta([d]), emitThinking, parse) == MergeDelta(h, d, parse)
    ensures var first := StreamDelta(s, d);
            Stream(s, ToolCallDelta([d]), emitThinking) == Out(first.b.(stopReason := Some("tool_use")), first.frames)
  {
    hide MergeDelta, StreamDelta;
    assert [d][1..] == [];
    assert MergeDeltas(MergeDelta(h, d, parse), [], parse) == MergeDelta(h, d, parse);
    assert StreamDeltas(StreamDelta(s, d).b, []) == Out(StreamDelta(s, d).b, []);
    assert StreamDelta(s, d).frames + [] == StreamDelta(s, d).frames;
  }

  /** A fragment sent at a point where the renderings agree, and then the end of the reply: the client
      rebuilds exactly the message of the non-streaming route if and only if the fragment fits. */
  lemma FragmentKeepsMessageExactly(h: Builder, s: Builder, frames: seq<Frame>, d: CallDelta, finish: string,
                                    sequence: Option<string>, emitThinking: bool, parse: Parser)
    requires Agree(h, s, ReceiveAll([], frames), parse)
    ensures var out := Stream(s, ToolCallDelta([d]), emitThinking);
            var last := Stream(out.b, Completed(finish, sequence), emitThinking);
            var folded := Handle(Handle(h, ToolCallDelta([d]), emitThinking, parse),
                                 Completed(finish, sequence), emitThinking, parse);
            (Reassembled(frames + out.frames + last.frames, parse) == Some(FinalMessage(folded)))
            <==> FragmentFits(h, s, d, parse)
  {
    hide ReceiveAll, MergeDelta, StreamDelta, FragmentFits, StreamCompleted, Complete, Blocks, MergeDeltas,
      StreamDeltas;
    var blocks, m := ReceiveAll([], frames), MergeDelta(h, d, parse);
    OneDelta(h, s, d, emitThinking, parse);
    var out := Stream(s, ToolCallDelta([d]), emitThinking);
    var now := ReceiveAll(blocks, out.frames);
    FragmentAgreesExactly(h, s, blocks, d, parse);
    FragmentKeepsIndex(h, s, blocks, d, parse);
    DeltaKeepsCounts(h, s, d, parse);
    MergeLength(h, d, parse);
    var last := StreamCompleted(out.b, finish, sequence);
    ReceiveAppend([], frames, out.frames);
    ReceiveAppend([], frames + out.frames, last.frames);
    CompletionShows(out.b, now, finish, sequence, parse);
    EndOfMessage(frames + out.frames, last.frames, parse);
    CompleteKeepsPlace(m, finish, sequence);
    if FragmentFits(h, s, d, parse) {
      FittingSetsReason(h, s, blocks, d, parse);
      CompletionAgrees(m, out.b, now, finish, sequence, parse);
    }
  }

  lemma EndOfMessage(a: seq<Frame>, b: seq<Frame>, parse: Parser)
    requires |b| >= 2 && b[|b| - 2].MessageDelta?
    ensures var d := b[|b| - 2];
            var shown := Blocks(ReceiveAll([], a + b), parse);
            Reassembled(a + b, parse) == Some(Message(shown, d.stopReason, d.stopSequence, d.usage))
  {
  }

  lemma FragmentKeepsIndex(h: Builder, s: Builder, blocks: seq<Received>, d: CallDelta, parse: Parser)
    requires SameBlocks(h, s, blocks, parse)
    ensures var now := ReceiveAll(blocks, StreamDelta(s, d).frames);
            now != [] && StreamDelta(s, d).b.index == |now| - 1
            && StreamDelta(s, d).b.openKind == Some(ToolKind)
  {
    hide ReceiveAll, StreamDelta;
    OpenPlace(h, s, blocks, parse);
    if StartsCall(s, d) { DeltaStarts(s, d, blocks); } else { DeltaContinues(s, d, blocks); }
  }

  /** A fitting fragment after which the two renderings go on in step: it starts a call, continues the open
      one, or brings no arguments. */
  predicate Steady(h: Builder, s: Builder, d: CallDelta, parse: Parser) {
    FragmentFits(h, s, d, parse) && (StartsCall(s, d) || IndexOf(h, d) == |h.content| - 1 || !HasArguments(d))
  }

  lemma SteadyKeepsBlocks(h: Builder, s: Builder, blocks: seq<Received>, d: CallDelta, parse: Parser)
    requires SameBlocks(h, s, blocks, parse) && Steady(h, s, d, parse)
    ensures var d' := StreamDelta(s, d);
            SameBlocks(MergeDelta(h, d, parse), d'.b, ReceiveAll(blocks, d'.frames), parse)
    ensures MergeDelta(h, d, parse).stopReason == Some("tool_use")
  {
    hide ReceiveAll, StreamDelta, MergeDelta, Blocks;
    FragmentAgreesExactly(h, s, blocks, d, parse);
    FittingSetsReason(h, s, blocks, d, parse);
    DeltaKeepsCounts(h, s, d, parse);
    FragmentKeepsIndex(h, s, blocks, d, parse);
    OpenPlace(h, s, blocks, parse);
    if StartsCall(s, d) {
      DeltaStarts(s, d, blocks);
      MergeAtEnd(h, d, parse);
    } else {
      DeltaContinues(s, d, blocks);
      MergeInside(h, d, parse);
      var json := blocks[|blocks| - 1].json;
      assert json + "" == json;
    }
  }

  /** Each fragment of an event is steady where it comes. */
  predicate SteadyDeltas(h: Builder, s: Builder, deltas: seq<CallDelta>, parse: Parser)
    decreases |deltas|
  {
    deltas == [] || (Steady(h, s, deltas[0], parse)
                     && SteadyDeltas(MergeDelta(h, deltas[0], parse), StreamDelta(s, deltas[0]).b, deltas[1..], parse))
  }

  lemma {:induction false} SteadyDeltasKeepBlocks(h: Builder, s: Builder, blocks: seq<Received>,
                                                  deltas: seq<CallDelta>, parse: Parser)
    requires SameBlocks(h, s, blocks, parse) && SteadyDeltas(h, s, deltas, parse)
    ensures var out := StreamDeltas(s, deltas);
            SameBlocks(MergeDeltas(h, deltas, parse), out.b, ReceiveAll(blocks, out.frames), parse)
    ensures deltas != [] || h.stopReason == Some("tool_use") ==>
              MergeDeltas(h, deltas, parse).stopReason == Some("tool_use")
    decreases |deltas|
  {
    hide SameBlocks, Steady, MergeDelta, StreamDelta, ReceiveAll;
    if deltas == [] {
      ReceiveNothing(blocks);
    } else {
      var first := StreamDelta(s, deltas[0]);
      SteadyKeepsBlocks(h, s, blocks, deltas[0], parse);
      var received := ReceiveAll(blocks, first.frames);
      SteadyDeltasKeepBlocks(MergeDelta(h, deltas[0], parse), first.b, received, deltas[1..], parse);
      ReceiveAppend(blocks, first.frames, StreamDeltas(first.b, deltas[1..]).frames);
    }
  }

  /** Every fragment of a reply is steady where it comes, and no fragment event is empty. */
  predicate SteadyEvents(h: Builder, s: Builder, events: seq<Event>, emitThinking: bool, parse: Parser)
    decreases |events|
  {
    events == [] ||
    (&& (events[0].ToolCallDelta? ==> events[0].deltas != [] && SteadyDeltas(h, s, events[0].deltas, parse))
     && SteadyEvents(Handle(h, events[0], emitThinking, parse), Stream(s, events[0], emitThinking).b,
                     events[1..], emitThinking, parse))
  }

  lemma FragmentEventAgrees(h: Builder, s: Builder, blocks: seq<Received>, deltas: seq<CallDelta>,
                            emitThinking: bool, parse: Parser)
    requires Agree(h, s, blocks, parse) && deltas != [] && SteadyDeltas(h, s, deltas, parse)
    ensures var e := ToolCallDelta(deltas);
            var out := Stream(s, e, emitThinking);
            Agree(Handle(h, e, emitThinking, parse), out.b, ReceiveAll(blocks, out.frames), parse)
  {
    hide SteadyDeltas, MergeDeltas, StreamDeltas, ReceiveAll, Blocks;
    SteadyDeltasKeepBlocks(h, s, blocks, deltas, parse);
  }

  lemma {:induction false} SteadyEventsAgree(h: Builder, s: Builder, blocks: seq<Received>, events: seq<Event>,
                                             emitThinking: bool, parse: Parser)
    requires Agree(h, s, blocks, parse) && (forall e :: e in events ==> !e.Completed?)
    requires SteadyEvents(h, s, events, emitThinking, parse)
    ensures var out := StreamAll(s, events, emitThinking);
            Agree(HandleAll(h, events, emitThinking, parse), out.b, ReceiveAll(blocks, out.frames), parse)
    decreases |events|
  {
    hide Agree, Stream, Handle, ReceiveAll, SteadyDeltas;
    if events == [] {
      ReceiveNothing(blocks);
    } else {
      var first := Stream(s, events[0], emitThinking);
      if events[0].ToolCallDelta? {
        FragmentEventAgrees(h, s, blocks, events[0].deltas, emitThinking, parse);
      } else {
        EventAgrees(h, s, blocks, events[0], emitThinking, parse);
      }
      SteadyEventsAgree(Handle(h, events[0], emitThinking, parse), first.b, ReceiveAll(blocks, first.frames),
                        events[1..], emitThinking, parse);
      ReceiveAppend(blocks, first.frames, StreamAll(first.b, events[1..], emitThinking).frames);
    }
  }

  /** The same with streamed call fragments, as long as each is steady where it comes. */
  lemma RenderingsAgreeOnFragments(inputTokens: nat, events: seq<Event>, finish: string, sequence: Option<string>,
                                   emitThinking: bool, parse: Parser)
    requires forall e :: e in events ==> !e.Completed?
    requires SteadyEvents(Fresh(inputTokens), Fresh(inputTokens), events, emitThinking, parse)
    ensures var body := StreamAll(Fresh(inputTokens), events, emitThinking);
            var last := Stream(body.b, Completed(finish, sequence), emitThinking);
            var folded := Handle(HandleAll(Fresh(inputTokens), events, emitThinking, parse),
                                 Completed(finish, sequence), emitThinking, parse);
            Reassembled(body.frames + last.frames, parse) == Some(FinalMessage(folded))
  {
    hide ReceiveAll, StreamAll, HandleAll, StreamCompleted, FinalMessage, Complete, SteadyEvents;
    var b := Fresh(inputTokens);
    assert Agree(b, b, [], parse) by { assert Blocks([], parse) == []; }
    SteadyEventsAgree(b, b, [], events, emitThinking, parse);
    var body := StreamAll(b, events, emitThinking);
    var now := ReceiveAll([], body.frames);
    CompletionAgrees(HandleAll(b, events, emitThinking, parse), body.b, now, finish, sequence, parse);
    ReceiveAppend([], body.frames, StreamCompleted(body.b, finish, sequence).frames);
  }

  /** Where they part: a fragment that addresses the text block before it is dropped by the fold, while the
      stream opens a tool block for it. */
  lemma FragmentsDrift(finish: string, sequence: Option<string>, parse: Parser)
    ensures var fragment := ToolCallDelta([CallDelta(Some(0), Some("x"), Some("f"), Some("{}"))]);
            var body := StreamAll(Fresh(1), [Delta("a"), fragment], false);
            var last := Stream(body.b, Completed(finish, sequence), false);
            var folded := Handle(HandleAll(Fresh(1), [Delta("a"), fragment], false, parse),
                                 Completed(finish, sequence), false, parse);
            Reassembled(body.frames + last.frames, parse) != Some(FinalMessage(folded))
  {
    hide ReceiveAll, StreamCompleted, Complete, FinalMessage, MergeDelta, StreamDelta, Reassembled, EnsureOpen;
    var d := CallDelta(Some(0), Some("x"), Some("f"), Some("{}"));
    var events := [Delta("a"), ToolCallDelta([d])];
    var b, emit := Fresh(1), false;
    assert Agree(b, b, [], parse) by { assert Blocks([], parse) == []; }
    var h, first := Handle(b, events[0], emit, parse), Stream(b, events[0], emit);
    EventAgrees(b, b, [], events[0], emit, parse);
    assert h.content == [Text("a")];
    TwoEvents(b, events[0], events[1], emit, parse);
    FragmentKeepsMessageExactly(h, first.b, first.frames, d, finish, sequence, emit, parse);
    assert OpenAfter(h.content) == Some(TextKind);
    OpenPlace(h, first.b, ReceiveAll([], first.frames), parse);
    assert !FragmentFits(h, first.b, d, parse);
  }

  lemma TwoEvents(b: Builder, e: Event, f: Event, emitThinking: bool, parse: Parser)
    ensures HandleAll(b, [e, f], emitThinking, parse) ==
            Handle(Handle(b, e, emitThinking, parse), f, emitThinking, parse)
    ensures var x := Stream(b, e, emitThinking);
            var y := Stream(x.b, f, emitThinking);
            StreamAll(b, [e, f], emitThinking) == Out(y.b, x.frames + y.frames)
  {
    hide Handle, Stream;
    assert [e, f][1..] == [f] && [f][1..] == [];
    var y := Stream(Stream(b, e, emitThinking).b, f, emitThinking);
    assert y.frames + [] == y.frames;
    assert StreamAll(y.b, [], emitThinking) == Out(y.b, []);
    assert StreamAll(Stream(b, e, emitThinking).b, [f], emitThinking) == y;
    var h := Handle(b, e, emitThinking, parse);
    assert HandleAll(h, [f], emitThinking, parse) ==
           HandleAll(Handle(h, f, emitThinking, parse), [], emitThinking, parse);
  }

  class AnthropicMessageBuilder {
    const emitThinking: bool
    const parse: Parser
    var content: seq<Block>
    var inputTokens: nat
    var outputChars: nat
    var reported: Option<nat>
    var stopReason: Option<string>
    var stopSequence: Option<string>
    var toolArgs: map<nat, string>
    var toolIds: map<nat, string>
    var index: int
    var openKind: Option<Kind>
    var thinkingText: string
    var failed: bool

    constructor (inputTokens: nat, emitThinking: bool, parse: Parser)
      ensures State() == Fresh(inputTokens) && this.emitThinking == emitThinking && this.parse == parse
    {
      this.emitThinking, this.parse := emitThinking, parse;
      content, this.inputTokens, outputChars, reported := [], inputTokens, 0, None;
      stopReason, stopSequence, toolArgs, toolIds := None, None, map[], map[];
      index, openKind, thinkingText, failed := -1, None, "", false;
    }

    function State(): Builder
      reads this
    {
      Builder(content, inputTokens, outputChars, reported, stopReason, stopSequence, toolArgs, toolIds,
              index, openKind, thinkingText, failed)
    }

    /** Folds one event into the message, as the non-streaming route does. */
    method HandleEvent(e: Event)
      modifies this
      ensures State() == Handle(old(State()), e, emitThinking, parse)
    {
      hide MergeDelta, EndReason, EndSequence, Blank;
      match e
      case Delta(text) =>
        if text != "" {
          outputChars := outputChars + |text|;
          content := AppendText(content, text);
        }
      case Reasoning(text) =>
        if emitThinking && text != "" {
          outputChars := outputChars + |text|;
          content := AppendThinking(content, text);
        }
      case ToolCalls(calls) =>
        AppendToolUses(calls);
        if stopReason.None? { stopReason := Some("tool_use"); }
      case ToolCallDelta(deltas) =>
        ghost var b0 := State();
        for i := 0 to |deltas|
          invariant MergeDeltas(State(), deltas[i..], parse) == MergeDeltas(b0, deltas, parse)
        {
          assert deltas[i..][0] == deltas[i] && deltas[i..][1..] == deltas[i + 1..];
          MergeToolCallDelta(deltas[i]);
        }
      case Counts(prompt, completion) =>
        NoteUsage(prompt, completion);
      case Completed(finish, sequence) =>
        NoteCompletion(finish, sequence);
      case _ =>
    }

    method NoteUsage(prompt: Option<int>, completion: Option<int>)
      modifies this`inputTokens, this`reported
      ensures State() == NoteCounts(old(State()), prompt, completion)
    {
      if prompt.Some? && prompt.value > 0 { inputTokens := prompt.value; }
      if completion.Some? && completion.value >= 0 { reported := Some(completion.value); }
    }

    method NoteCompletion(finish: string, sequence: Option<string>)
      modifies this`stopReason, this`stopSequence
      ensures State() == Complete(old(State()), finish, sequence)
    {
      if sequence.Some? && sequence.value != "" {
        stopReason, stopSequence := Some("stop_sequence"), sequence;
      } else if stopReason != Some("tool_use") {
        stopReason := Some(StopReasonFor(finish));
      }
    }

    method AppendToolUses(calls: seq<Call>)
      modifies this`content
      ensures content == AppendCalls(old(content), calls, parse)
    {
      hide Blank;
      for i := 0 to |calls|
        invariant AppendCalls(content, calls[i..], parse) == AppendCalls(old(content), calls, parse)
      {
        assert calls[i..][0] == calls[i] && calls[i..][1..] == calls[i + 1..];
        content := content + [ToolUse(CallId(calls[i]), CallName(calls[i]), CallInput(calls[i], parse))];
      }
    }

    method MergeToolCallDelta(d: CallDelta)
      modifies this`content, this`toolArgs, this`toolIds, this`stopReason
      ensures State() == MergeDelta(old(State()), d, parse)
    {
      hide Padded, EditedBlock;
      var place := if d.index.Some? then d.index.value else |content|;
      toolIds := DeltaIds(toolIds, place, d);
      PadTo(place, PlaceholderId(toolIds, place));
      var block := content[place];
      if !block.ToolUse? { return; }
      toolArgs := DeltaArgs(toolArgs, place, d);
      content := content[place := EditedBlock(block, d, toolArgs, place, parse)];
      if stopReason.None? { stopReason := Some("tool_use"); }
    }

    method PadTo(place: nat, id: ToolId)
      modifies this`content
      ensures content == Padded(old(content), place, id)
    {
      ghost var before := content;
      while |content| <= place
        invariant |before| <= |content| && (|content| > place + 1 ==> content == before)
        invariant content == before + seq(|content| - |before|, _ => ToolUse(id, "", EMPTY_INPUT))
      {
        content := content + [ToolUse(id, "", EMPTY_INPUT)];
      }
    }

    method CloseOpenBlock() returns (frames: seq<Frame>)
      modifies this`openKind, this`thinkingText
      ensures Out(State(), frames) == CloseOpen(old(State()))
    {
      frames := [];
      if openKind.None? { return; }
      if openKind.value.ThinkingKind? {
        frames := [BlockDelta(index, Signature(thinkingText))];
        thinkingText := "";
      }
      openKind := None;
      frames := frames + [BlockStop(index)];
    }

    method OpenNewBlock(block: Opening) returns (frames: seq<Frame>)
      modifies this`openKind, this`thinkingText, this`index
      ensures Out(State(), frames) == OpenBlock(old(State()), block)
    {
      hide CloseOpen;
      frames := CloseOpenBlock();
      index := index + 1;
      openKind := Some(block.Kind());
      if block.OpenThinking? { thinkingText := ""; }
      frames := frames + [BlockStart(index, block)];
    }

    method StreamOneCall(c: Call) returns (frames: seq<Frame>)
      modifies this`openKind, this`thinkingText, this`index
      ensures Out(State(), frames) == StreamCall(old(State()), c)
    {
      hide CloseOpen, OpenBlock, Blank;
      frames := OpenNewBlock(OpenTool(CallId(c), CallName(c)));
      if c.arguments.RawText? && !Blank(c.arguments.raw) {
        frames := frames + [BlockDelta(index, JsonPiece(c.arguments.raw))];
      } else {
        assert frames + [] == frames;
      }
      var closing := CloseOpenBlock();
      frames := frames + closing;
    }

    method StreamOneDelta(d: CallDelta) returns (frames: seq<Frame>)
      modifies this`openKind, this`thinkingText, this`index
      ensures Out(State(), frames) == StreamDelta(old(State()), d)
    {
      hide CloseOpen, OpenBlock;
      frames := [];
      if openKind != Some(ToolKind) || HasId(d) { frames := OpenNewBlock(OpeningOf(d)); }
      if HasArguments(d) {
        frames := frames + [BlockDelta(index, JsonPiece(d.arguments.value))];
      } else {
        assert frames + [] == frames;
      }
    }

    method StreamFragment(thinking: bool, text: string) returns (frames: seq<Frame>)
      modifies this`outputChars, this`openKind, this`thinkingText, this`index
      ensures text != "" ==>
                Out(State(), frames) == Stream(old(State()), if thinking then Reasoning(text) else Delta(text), true)
    {
      hide OpenBlock;
      outputChars := outputChars + |text|;
      if thinking { thinkingText := thinkingText + text; }
      frames := [];
      if openKind != Some(if thinking then ThinkingKind else TextKind) {
        frames := OpenNewBlock(if thinking then OpenThinking else OpenText);
      }
      frames := frames + [BlockDelta(index, Fragment(thinking, text))];
    }

    method Finish(finish: string, sequence: Option<string>) returns (frames: seq<Frame>)
      modifies this
      ensures Out(State(), frames) == StreamCompleted(old(State()), finish, sequence)
    {
      hide CloseOpen, OpenBlock, Complete;
      CompleteKeepsPlace(State(), finish, sequence);
      NoteCompletion(finish, sequence);
      frames := [];
      if index < 0 { frames := OpenNewBlock(OpenText); }
      var closing := CloseOpenBlock();
      frames := frames + closing +
        [MessageDelta(OrEndTurn(stopReason), stopSequence, Usage(inputTokens, OutputTokens(outputChars, reported))),
         MessageStop];
    }

    /** The Anthropic events for one worker event, as the streaming route sends them. */
    method StreamEvents(e: Event) returns (frames: seq<Frame>)
      modifies this
      ensures Out(State(), frames) == Stream(old(State()), e, emitThinking)
    {
      hide StreamCall, StreamDelta, EnsureOpen, StreamCompleted;
      frames := [];
      ghost var b0 := State();
      match e
      case Progress => frames := [Ping];
      case Reasoning(text) => if emitThinking && text != "" { frames := StreamFragment(true, text); }
      case Delta(text) => if text != "" { frames := StreamFragment(false, text); }
      case ToolCalls(calls) =>
        for i := 0 to |calls|
          invariant var rest := StreamCalls(State(), calls[i..]);
                    Out(rest.b, frames + rest.frames) == StreamCalls(b0, calls)
        {
          ghost var b1 := State();
          assert calls[i..][0] == calls[i] && calls[i..][1..] == calls[i + 1..];
          var more := StreamOneCall(calls[i]);
          assert frames + (more + StreamCalls(State(), calls[i + 1..]).frames) ==
                 (frames + more) + StreamCalls(State(), calls[i + 1..]).frames;
          frames := frames + more;
        }
        stopReason := Some("tool_use");
      case ToolCallDelta(deltas) =>
        for i := 0 to |deltas|
          invariant var rest := StreamDeltas(State(), deltas[i..]);
                    Out(rest.b, frames + rest.frames) == StreamDeltas(b0, deltas)
        {
          assert deltas[i..][0] == deltas[i] && deltas[i..][1..] == deltas[i + 1..];
          var more := StreamOneDelta(deltas[i]);
          assert frames + (more + StreamDeltas(State(), deltas[i + 1..]).frames) ==
                 (frames + more) + StreamDeltas(State(), deltas[i + 1..]).frames;
          frames := frames + more;
        }
        stopReason := Some("tool_use");
      case Counts(prompt, completion) => NoteUsage(prompt, completion);
      case Completed(finish, sequence) => frames := Finish(finish, sequence);
      case Error(code, message) =>
        failed := true;
        frames := [ErrorFrame(code, message)];
      case Unknown =>
    }
  }
}
