/** What a folded message says of the worker's events, told from the events' own fields
    (Coordinator/mlxbar/api/anthropic_stream.py, `handle` and `final_message`). */
module AnthropicTranscript {
  import opened Prelude
  import opened AnthropicStream

  /** One character of text or of thinking, or one call. */
  datatype Atom = Shown(thinking: bool, c: char) | Use(id: ToolId, name: string, input: Input)

  function Chars(text: string, thinking: bool): (r: seq<Atom>)
    ensures |r| == |text|
  {
    seq(|text|, i requires 0 <= i < |text| => Shown(thinking, text[i]))
  }

  // ------------------------------------------------------------- told by a message

  function BlockTold(block: Block): seq<Atom> {
    match block
    case Text(text) => Chars(text, false)
    case Thinking(text) => Chars(text, true)
    case ToolUse(id, name, input) => [Use(id, name, input)]
  }

  function Told(content: seq<Block>): seq<Atom> {
    if content == [] then [] else Told(content[..|content| - 1]) + BlockTold(content[|content| - 1])
  }

  /** No empty text or thinking, and no two of a kind side by side. */
  predicate Merged(content: seq<Block>) {
    && (forall i :: 0 <= i < |content| && content[i].Text? ==> content[i].text != "")
    && (forall i :: 0 <= i < |content| && content[i].Thinking? ==> content[i].thinking != "")
    && (forall i :: 0 < i < |content| && content[i].Text? ==> !content[i - 1].Text?)
    && (forall i :: 0 < i < |content| && content[i].Thinking? ==> !content[i - 1].Thinking?)
  }

  // -------------------------------------------------------------- said by the events

  /** A call as its event gives it: no id or an empty one is replaced, no name is an empty one, and
      arguments that are no object, or none at all, are {}. */
  function Said(call: Call, parse: Parser): Atom {
    var id := match call.id case Some(s) => if |s| > 0 then Given(s) else Generated case None => Generated;
    var name := match call.name case Some(s) => s case None => "";
    Use(id, name, InputSaid(call.arguments, parse))
  }

  function InputSaid(arguments: Arguments, parse: Parser): Input {
    match arguments
    case RawText(raw) =>
      if exists i :: 0 <= i < |raw| && !IsSpace(raw[i]) then
        match parse(raw)
        case Some(Object(n)) => Object(n)
        case _ => Object(0)
      else Object(0)
    case _ => Object(0)
  }

  function CallsSaid(calls: seq<Call>, parse: Parser): seq<Atom> {
    seq(|calls|, i requires 0 <= i < |calls| => Said(calls[i], parse))
  }

  function EventSaid(e: Event, emitThinking: bool, parse: Parser): seq<Atom> {
    match e
    case Delta(text) => Chars(text, false)
    case Reasoning(text) => if emitThinking then Chars(text, true) else []
    case ToolCalls(calls) => CallsSaid(calls, parse)
    case _ => []
  }

  function AllSaid(events: seq<Event>, emitThinking: bool, parse: Parser): seq<Atom> {
    if events == [] then []
    else AllSaid(events[..|events| - 1], emitThinking, parse) +
         EventSaid(events[|events| - 1], emitThinking, parse)
  }

  // -------------------------------------------------------------------- the content

  lemma ToldSnoc(content: seq<Block>, block: Block)
    ensures Told(content + [block]) == Told(content) + BlockTold(block)
  {
    assert (content + [block])[..|content + [block]| - 1] == content;
  }

  lemma CharsAppend(a: string, b: string, thinking: bool)
    ensures Chars(a + b, thinking) == Chars(a, thinking) + Chars(b, thinking)
  {
  }

  lemma ToldText(content: seq<Block>, text: string)
    ensures Told(AppendText(content, text)) == Told(content) + Chars(text, false)
  {
    hide Told, Chars;
    if content != [] && content[|content| - 1].Text? {
      var before, last := content[..|content| - 1], content[|content| - 1];
      assert content == before + [last];
      ToldSnoc(before, last);
      ToldSnoc(before, Text(last.text + text));
      CharsAppend(last.text, text, false);
      assert (Told(before) + Chars(last.text, false)) + Chars(text, false) ==
             Told(before) + (Chars(last.text, false) + Chars(text, false));
    } else {
      ToldSnoc(content, Text(text));
    }
  }

  lemma ToldThinking(content: seq<Block>, text: string)
    ensures Told(AppendThinking(content, text)) == Told(content) + Chars(text, true)
  {
    hide Told, Chars;
    if content != [] && content[|content| - 1].Thinking? {
      var before, last := content[..|content| - 1], content[|content| - 1];
      assert content == before + [last];
      ToldSnoc(before, last);
      ToldSnoc(before, Thinking(last.thinking + text));
      CharsAppend(last.thinking, text, true);
      assert (Told(before) + Chars(last.thinking, true)) + Chars(text, true) ==
             Told(before) + (Chars(last.thinking, true) + Chars(text, true));
    } else {
      ToldSnoc(content, Thinking(text));
    }
  }

  // A block joins merged content when it says something and does not continue the last one.
  lemma MergedAdd(before: seq<Block>, block: Block)
    requires Merged(before)
    requires block.Text? ==> block.text != "" && (before != [] ==> !before[|before| - 1].Text?)
    requires block.Thinking? ==> block.thinking != "" && (before != [] ==> !before[|before| - 1].Thinking?)
    ensures Merged(before + [block])
  {
    var all := before + [block];
    assert all[|before|] == block && forall i :: 0 <= i < |before| ==> all[i] == before[i];
  }

  lemma MergedInit(content: seq<Block>)
    requires Merged(content) && content != []
    ensures var before, last := content[..|content| - 1], content[|content| - 1];
            && Merged(before)
            && (last.Text? ==> last.text != "" && (before != [] ==> !before[|before| - 1].Text?))
            && (last.Thinking? ==> last.thinking != "" && (before != [] ==> !before[|before| - 1].Thinking?))
  {
  }

  lemma StaysMerged(content: seq<Block>, text: string, call: Block)
    requires Merged(content)
    ensures text != "" ==> Merged(AppendText(content, text)) && Merged(AppendThinking(content, text))
    ensures call.ToolUse? ==> Merged(content + [call])
  {
    hide Merged;
    if text != "" {
      if content != [] {
        MergedInit(content);
        var before, last := content[..|content| - 1], content[|content| - 1];
        if last.Text? { MergedAdd(before, Text(last.text + text)); }
        if last.Thinking? { MergedAdd(before, Thinking(last.thinking + text)); }
      }
      if content == [] || !content[|content| - 1].Text? { MergedAdd(content, Text(text)); }
      if content == [] || !content[|content| - 1].Thinking? { MergedAdd(content, Thinking(text)); }
    }
    if call.ToolUse? { MergedAdd(content, call); }
  }

  lemma CallIsSaid(c: Call, parse: Parser)
    ensures Said(c, parse) == Use(CallId(c), CallName(c), CallInput(c, parse))
  {
    if c.arguments.RawText? {
      var raw := c.arguments.raw;
      if exists i :: 0 <= i < |raw| && !IsSpace(raw[i]) {
        var i :| 0 <= i < |raw| && !IsSpace(raw[i]);
        assert raw[i] in raw;
      }
    }
  }

  lemma {:induction false} ToldCalls(content: seq<Block>, calls: seq<Call>, parse: Parser)
    ensures Told(AppendCalls(content, calls, parse)) == Told(content) + CallsSaid(calls, parse)
    ensures Merged(content) ==> Merged(AppendCalls(content, calls, parse))
    decreases |calls|
  {
    hide CallId, CallName, CallInput, Said, Told, Merged;
    if calls != [] {
      var call := ToolUse(CallId(calls[0]), CallName(calls[0]), CallInput(calls[0], parse));
      CallIsSaid(calls[0], parse);
      ToldSnoc(content, call);
      ToldCalls(content + [call], calls[1..], parse);
      if Merged(content) { StaysMerged(content, "", call); }
      assert CallsSaid(calls, parse) == [Said(calls[0], parse)] + CallsSaid(calls[1..], parse);
      assert (Told(content) + [Said(calls[0], parse)]) + CallsSaid(calls[1..], parse) ==
             Told(content) + ([Said(calls[0], parse)] + CallsSaid(calls[1..], parse));
    }
  }

  lemma EventTells(b: Builder, e: Event, emitThinking: bool, parse: Parser)
    requires !e.ToolCallDelta?
    ensures var h := Handle(b, e, emitThinking, parse);
            && Told(h.content) == Told(b.content) + EventSaid(e, emitThinking, parse)
            && (Merged(b.content) ==> Merged(h.content))
  {
    hide AppendText, AppendThinking, AppendCalls, Merged, Told, Chars, CallsSaid;
    if Merged(b.content) && (e.Delta? || e.Reasoning?) { StaysMerged(b.content, e.text, Text("")); }
    match e
    case Delta(text) => ToldText(b.content, text);
    case Reasoning(text) => ToldThinking(b.content, text);
    case ToolCalls(calls) => ToldCalls(b.content, calls, parse);
    case _ =>
    NoChars();
  }

  lemma NoChars()
    ensures Chars("", false) == [] && Chars("", true) == []
  {
  }

  lemma {:induction false} HandleAllSnoc(b: Builder, events: seq<Event>, e: Event, emitThinking: bool, parse: Parser)
    ensures HandleAll(b, events + [e], emitThinking, parse) ==
            Handle(HandleAll(b, events, emitThinking, parse), e, emitThinking, parse)
    decreases |events|
  {
    hide Handle;
    if events == [] {
      assert [] + [e] == [e] && [e][1..] == [];
    } else {
      assert (events + [e])[1..] == events[1..] + [e];
      HandleAllSnoc(Handle(b, events[0], emitThinking, parse), events[1..], e, emitThinking, parse);
    }
  }

  /** The folded blocks are the events' own texts and calls, nothing lost, added or reordered, joined as
      far as they can be. */
  lemma {:induction false} ContentIsWhatWasSaid(inputTokens: nat, events: seq<Event>, emitThinking: bool, parse: Parser)
    requires forall e :: e in events ==> !e.ToolCallDelta?
    ensures var content := HandleAll(Fresh(inputTokens), events, emitThinking, parse).content;
            Told(content) == AllSaid(events, emitThinking, parse) && Merged(content)
    decreases |events|
  {
    hide Handle, EventSaid, Told, Merged;
    if events == [] {
      assert Told([]) == [] && Merged([]) by { NothingTold(); }
    } else {
      var before, e := events[..|events| - 1], events[|events| - 1];
      assert events == before + [e];
      ContentIsWhatWasSaid(inputTokens, before, emitThinking, parse);
      HandleAllSnoc(Fresh(inputTokens), before, e, emitThinking, parse);
      EventTells(HandleAll(Fresh(inputTokens), before, emitThinking, parse), e, emitThinking, parse);
    }
  }

  lemma NothingTold()
    ensures Told([]) == [] && Merged([])
  {
  }

  // Told atoms make one content only.

  function Remade(atoms: seq<Atom>): seq<Block> {
    if atoms == [] then [] else Grown(Remade(atoms[..|atoms| - 1]), atoms[|atoms| - 1])
  }

  function Grown(content: seq<Block>, atom: Atom): seq<Block> {
    match atom
    case Shown(thinking, c) => Appended(content, thinking, [c])
    case Use(id, name, input) => content + [ToolUse(id, name, input)]
  }

  lemma RemadeSnoc(atoms: seq<Atom>, atom: Atom)
    ensures Remade(atoms + [atom]) == Grown(Remade(atoms), atom)
  {
    assert (atoms + [atom])[..|atoms + [atom]| - 1] == atoms;
  }

  lemma TextTwice(content: seq<Block>, a: string, b: string)
    ensures AppendText(AppendText(content, a), b) == AppendText(content, a + b)
  {
    if content != [] && content[|content| - 1].Text? {
      var before, was := content[..|content| - 1], content[|content| - 1].text;
      OntoText(before, was + a, b);
      assert was + a + b == was + (a + b);
    } else {
      OntoText(content, a, b);
    }
  }

  lemma OntoText(before: seq<Block>, was: string, b: string)
    ensures AppendText(before + [Text(was)], b) == before + [Text(was + b)]
  {
    assert (before + [Text(was)])[..|before|] == before;
  }

  lemma ThinkingTwice(content: seq<Block>, a: string, b: string)
    ensures AppendThinking(AppendThinking(content, a), b) == AppendThinking(content, a + b)
  {
    if content != [] && content[|content| - 1].Thinking? {
      var before, was := content[..|content| - 1], content[|content| - 1].thinking;
      OntoThinking(before, was + a, b);
      assert was + a + b == was + (a + b);
    } else {
      OntoThinking(content, a, b);
    }
  }

  lemma OntoThinking(before: seq<Block>, was: string, b: string)
    ensures AppendThinking(before + [Thinking(was)], b) == before + [Thinking(was + b)]
  {
    assert (before + [Thinking(was)])[..|before|] == before;
  }

  lemma AppendedTwice(content: seq<Block>, thinking: bool, a: string, b: string)
    ensures Appended(Appended(content, thinking, a), thinking, b) == Appended(content, thinking, a + b)
  {
    hide AppendText, AppendThinking;
    TextTwice(content, a, b);
    ThinkingTwice(content, a, b);
  }

  lemma {:induction false} RemadeChars(atoms: seq<Atom>, text: string, thinking: bool)
    requires text != ""
    ensures Remade(atoms + Chars(text, thinking)) == Appended(Remade(atoms), thinking, text)
    decreases |text|
  {
    hide Remade, Appended;
    var n := |text| - 1;
    var last := Shown(thinking, text[n]);
    assert text == text[..n] + [text[n]];
    assert atoms + Chars(text, thinking) == (atoms + Chars(text[..n], thinking)) + [last];
    RemadeSnoc(atoms + Chars(text[..n], thinking), last);
    if n > 0 {
      RemadeChars(atoms, text[..n], thinking);
      AppendedTwice(Remade(atoms), thinking, text[..n], [text[n]]);
    } else {
      assert atoms + Chars(text[..n], thinking) == atoms && text == [text[n]];
    }
  }

  lemma MergedSnoc(before: seq<Block>, last: Block)
    requires Merged(before + [last])
    ensures Merged(before)
    ensures last.Text? ==> last.text != "" && Appended(before, false, last.text) == before + [last]
    ensures last.Thinking? ==> last.thinking != "" && Appended(before, true, last.thinking) == before + [last]
  {
    var all := before + [last];
    assert all[|before|] == last && all[..|before|] == before;
    assert forall i :: 0 <= i < |before| ==> before[i] == all[i];
    if before != [] { assert all[|before| - 1] == before[|before| - 1]; }
  }

  lemma {:induction false} MergedIsRemade(content: seq<Block>)
    requires Merged(content)
    ensures Remade(Told(content)) == content
    decreases |content|
  {
    hide Merged, Remade, Appended, Chars, Told;
    if content == [] {
      assert Told([]) == [] && Remade([]) == [] by { NothingTold(); NothingRemade(); }
    } else {
      var before, last := content[..|content| - 1], content[|content| - 1];
      assert content == before + [last];
      MergedSnoc(before, last);
      ToldSnoc(before, last);
      MergedIsRemade(before);
      match last
      case Text(text) => RemadeChars(Told(before), text, false);
      case Thinking(text) => RemadeChars(Told(before), text, true);
      case ToolUse(id, name, input) => RemadeSnoc(Told(before), Use(id, name, input));
    }
  }

  lemma NothingRemade()
    ensures Remade([]) == []
  {
  }

  /** What is said leaves one content: two joined contents that tell the same are the same. */
  lemma SameToldSameContent(a: seq<Block>, b: seq<Block>)
    requires Merged(a) && Merged(b) && Told(a) == Told(b)
    ensures a == b
  {
    MergedIsRemade(a);
    MergedIsRemade(b);
  }

  // ------------------------------------------------------- ending, usage, whole message

  // Characters of the texts that were counted.
  function TextLength(events: seq<Event>, emitThinking: bool): nat {
    if events == [] then 0
    else
      TextLength(events[..|events| - 1], emitThinking) + OneLength(events[|events| - 1], emitThinking)
  }

  function OneLength(e: Event, emitThinking: bool): nat {
    match e
    case Delta(text) => |text|
    case Reasoning(text) => if emitThinking then |text| else 0
    case _ => 0
  }

  predicate GivesPrompt(e: Event, n: nat) {
    e.Counts? && e.prompt == Some(n) && n > 0
  }

  predicate GivesCompletion(e: Event, n: nat) {
    e.Counts? && e.completion == Some(n)
  }

  // `n` is what the last event that says anything of the kind says.
  ghost predicate LastSaid(said: (Event, nat) -> bool, events: seq<Event>, n: nat) {
    exists i :: 0 <= i < |events| && said(events[i], n) &&
                forall k, m :: i < k < |events| ==> !said(events[k], m)
  }

  ghost predicate NeverSaid(said: (Event, nat) -> bool, events: seq<Event>) {
    forall i, m :: 0 <= i < |events| ==> !said(events[i], m)
  }

  lemma NoneOrLast(said: (Event, nat) -> bool, events: seq<Event>, e: Event, n: nat)
    ensures said(e, n) ==> LastSaid(said, events + [e], n)
    ensures (forall m :: !said(e, m)) && LastSaid(said, events, n) ==> LastSaid(said, events + [e], n)
    ensures (forall m :: !said(e, m)) && NeverSaid(said, events) ==> NeverSaid(said, events + [e])
  {
    var all := events + [e];
    if said(e, n) {
      assert said(all[|events|], n);
    }
    if (forall m :: !said(e, m)) && LastSaid(said, events, n) {
      var i :| 0 <= i < |events| && said(events[i], n) && forall k, m :: i < k < |events| ==> !said(events[k], m);
      assert said(all[i], n);
      forall k, m | i < k < |all| ensures !said(all[k], m) {
        assert k < |events| ==> all[k] == events[k];
      }
    }
  }

  lemma EventCounts(b: Builder, e: Event, emitThinking: bool, parse: Parser)
    requires !e.ToolCallDelta?
    ensures var h := Handle(b, e, emitThinking, parse);
            && h.outputChars == b.outputChars + OneLength(e, emitThinking)
            && (GivesPrompt(e, h.inputTokens) || (h.inputTokens == b.inputTokens && forall m :: !GivesPrompt(e, m)))
            && ((h.reported.Some? && GivesCompletion(e, h.reported.value))
                || (h.reported == b.reported && forall m :: !GivesCompletion(e, m)))
            && (!e.Completed? ==>
                  && h.stopSequence == b.stopSequence
                  && h.stopReason == if e.ToolCalls? && b.stopReason.None? then Some("tool_use") else b.stopReason)
  {
    hide AppendText, AppendThinking, AppendCalls;
  }

  /** The counts the fold keeps: the last positive prompt count, the last completion count, and otherwise
      the characters of every text shown. */
  lemma {:induction false} CountsAreWhatWasSaid(inputTokens: nat, events: seq<Event>, emitThinking: bool, parse: Parser)
    requires forall e :: e in events ==> !e.ToolCallDelta?
    ensures var b := HandleAll(Fresh(inputTokens), events, emitThinking, parse);
            && b.outputChars == TextLength(events, emitThinking)
            && (LastSaid(GivesPrompt, events, b.inputTokens)
                || (NeverSaid(GivesPrompt, events) && b.inputTokens == inputTokens))
            && (b.reported.Some? ==> LastSaid(GivesCompletion, events, b.reported.value))
            && (b.reported.None? ==> NeverSaid(GivesCompletion, events))
    decreases |events|
  {
    hide Handle, LastSaid, NeverSaid, GivesPrompt, GivesCompletion, OneLength;
    if events == [] {
      NothingSaid(events);
    } else {
      var before, e := events[..|events| - 1], events[|events| - 1];
      assert events == before + [e];
      CountsAreWhatWasSaid(inputTokens, before, emitThinking, parse);
      HandleAllSnoc(Fresh(inputTokens), before, e, emitThinking, parse);
      var was := HandleAll(Fresh(inputTokens), before, emitThinking, parse);
      EventCounts(was, e, emitThinking, parse);
      var b := Handle(was, e, emitThinking, parse);
      NoneOrLast(GivesPrompt, before, e, b.inputTokens);
      NoneOrLast(GivesCompletion, before, e, if b.reported.Some? then b.reported.value else 0);
    }
  }

  lemma NothingSaid(events: seq<Event>)
    requires events == []
    ensures NeverSaid(GivesPrompt, events) && NeverSaid(GivesCompletion, events)
  {
  }

  lemma {:induction false} CallsAreNoted(inputTokens: nat, events: seq<Event>, emitThinking: bool, parse: Parser)
    requires forall e :: e in events ==> !e.ToolCallDelta? && !e.Completed?
    ensures var b := HandleAll(Fresh(inputTokens), events, emitThinking, parse);
            && b.stopSequence == None
            && b.stopReason == if SomeCalls(events) then Some("tool_use") else None
    decreases |events|
  {
    hide Handle, SomeCalls;
    if events == [] {
      assert !SomeCalls([]) by { NoCalls(); }
    } else {
      var before, e := events[..|events| - 1], events[|events| - 1];
      assert events == before + [e];
      CallsAreNoted(inputTokens, before, emitThinking, parse);
      HandleAllSnoc(Fresh(inputTokens), before, e, emitThinking, parse);
      EventCounts(HandleAll(Fresh(inputTokens), before, emitThinking, parse), e, emitThinking, parse);
      CallsSnoc(before, e);
    }
  }

  predicate SomeCalls(events: seq<Event>) {
    exists i :: 0 <= i < |events| && events[i].ToolCalls?
  }

  lemma NoCalls()
    ensures !SomeCalls([])
  {
  }

  lemma CallsSnoc(events: seq<Event>, e: Event)
    ensures SomeCalls(events + [e]) <==> SomeCalls(events) || e.ToolCalls?
  {
    var all := events + [e];
    assert all[|events|] == e;
    if SomeCalls(events) {
      var i :| 0 <= i < |events| && events[i].ToolCalls?;
      assert all[i].ToolCalls?;
    }
  }

  /** The message a completed reply folds to, told from its events alone: its content, why it stopped, and
      what it counts. With `RenderingsAgree` it is also what a streaming client ends up with. */
  lemma MessageTellsTheEvents(inputTokens: nat, events: seq<Event>, finish: string, sequence: Option<string>,
                              emitThinking: bool, parse: Parser)
    requires forall e :: e in events ==> !e.ToolCallDelta? && !e.Completed?
    ensures var m := FinalMessage(Handle(HandleAll(Fresh(inputTokens), events, emitThinking, parse),
                                         Completed(finish, sequence), emitThinking, parse));
            var stopped := sequence.Some? && |sequence.value| > 0;
            && Told(m.content) == AllSaid(events, emitThinking, parse)
            && (Merged(m.content) || m.content == [Text("")])
            && m.stopSequence == (if stopped then sequence else None)
            && m.stopReason == (if stopped then "stop_sequence"
                                else if SomeCalls(events) || finish in {"tool_calls", "function_call"} then "tool_use"
                                else if finish == "length" then "max_tokens"
                                else "end_turn")
            && (LastSaid(GivesPrompt, events, m.usage.input)
                || (NeverSaid(GivesPrompt, events) && m.usage.input == inputTokens))
            && (LastSaid(GivesCompletion, events, m.usage.output)
                || (NeverSaid(GivesCompletion, events)
                    && TextLength(events, emitThinking) <= 4 * m.usage.output < TextLength(events, emitThinking) + 4))
  {
    hide HandleAll, LastSaid, NeverSaid, Told, Merged, AllSaid, TextLength, SomeCalls;
    ContentIsWhatWasSaid(inputTokens, events, emitThinking, parse);
    CountsAreWhatWasSaid(inputTokens, events, emitThinking, parse);
    CallsAreNoted(inputTokens, events, emitThinking, parse);
    EmptyTextTellsNothing();
  }

  lemma EmptyTextTellsNothing()
    ensures Told([Text("")]) == Told([])
  {
    assert [Text("")][..0] == [];
  }

  // ------------------------------------------------------------- a call in fragments

  /** What a fragment adds to its call. */
  datatype Shard = Shard(name: string, arguments: string)

  function Names(shards: seq<Shard>): string {
    if shards == [] then "" else Names(shards[..|shards| - 1]) + shards[|shards| - 1].name
  }

  function Raw(shards: seq<Shard>): string {
    if shards == [] then "" else Raw(shards[..|shards| - 1]) + shards[|shards| - 1].arguments
  }

  /** What the longest text so far that parses parses to, or {}. */
  function LastParsed(shards: seq<Shard>, parse: Parser): Input {
    if shards == [] then Object(0)
    else if Raw(shards) != "" && parse(Raw(shards)).Some? then parse(Raw(shards)).value
    else LastParsed(shards[..|shards| - 1], parse)
  }

  // The fragments that follow the first one of a call.
  function Pieces(index: nat, shards: seq<Shard>): seq<CallDelta> {
    seq(|shards|, i requires 0 <= i < |shards| =>
      CallDelta(Some(index), None, Some(shards[i].name), Some(shards[i].arguments)))
  }

  lemma {:induction false} MergeDeltasSnoc(b: Builder, deltas: seq<CallDelta>, d: CallDelta, parse: Parser)
    ensures MergeDeltas(b, deltas + [d], parse) == MergeDelta(MergeDeltas(b, deltas, parse), d, parse)
    decreases |deltas|
  {
    hide MergeDelta;
    if deltas == [] {
      assert [] + [d] == [d] && [d][1..] == [];
    } else {
      assert (deltas + [d])[1..] == deltas[1..] + [d];
      MergeDeltasSnoc(MergeDelta(b, deltas[0], parse), deltas[1..], d, parse);
    }
  }

  // Where a call in fragments stands after these.
  predicate Formed(b: Builder, after: Builder, id: string, shards: seq<Shard>, parse: Parser) {
    var n, text := |b.content|, Raw(shards);
    && |after.content| == n + 1 && after.content[..n] == b.content
    && after.content[n] == ToolUse(Given(id), Names(shards), LastParsed(shards, parse))
    && (if text == "" then n !in after.toolArgs else n in after.toolArgs && after.toolArgs[n] == text)
  }

  lemma NothingYet(parse: Parser)
    ensures Names([]) == Raw([]) == "" && LastParsed([], parse) == Object(0)
  {
  }

  lemma ShardsSnoc(shards: seq<Shard>, x: Shard, parse: Parser)
    ensures var all := shards + [x];
            && Names(all) == Names(shards) + x.name && Raw(all) == Raw(shards) + x.arguments
            && LastParsed(all, parse) == (if Raw(all) != "" && parse(Raw(all)).Some? then parse(Raw(all)).value
                                          else LastParsed(shards, parse))
  {
    assert (shards + [x])[..|shards + [x]| - 1] == shards;
  }

  lemma {:induction false} ParsedSoFar(shards: seq<Shard>, parse: Parser)
    ensures Raw(shards) != "" && parse(Raw(shards)).Some? ==> LastParsed(shards, parse) == parse(Raw(shards)).value
  {
  }

  lemma HeadForms(b: Builder, id: string, parse: Parser)
    requires id != "" && |b.content| !in b.toolArgs
    ensures Formed(b, MergeDelta(b, CallDelta(Some(|b.content|), Some(id), None, None), parse), id, [], parse)
  {
    var n := |b.content|;
    NothingYet(parse);
    assert Padded(b.content, n, Given(id))[n] == ToolUse(Given(id), "", EMPTY_INPUT);
  }

  lemma PieceForms(b: Builder, was: Builder, id: string, shards: seq<Shard>, x: Shard, parse: Parser)
    requires Formed(b, was, id, shards, parse)
    ensures Formed(b, MergeDelta(was, CallDelta(Some(|b.content|), None, Some(x.name), Some(x.arguments)), parse), id,
                   shards + [x], parse)
  {
    hide Names, Raw, LastParsed;
    var n := |b.content|;
    ShardsSnoc(shards, x, parse);
    ParsedSoFar(shards, parse);
    assert Padded(was.content, n, PlaceholderId(was.toolIds, n)) == was.content;
    if x.arguments == "" {
      assert Raw(shards) + x.arguments == Raw(shards);
    } else {
      assert "" + x.arguments == x.arguments;
      assert ArgsAt(was.toolArgs, n) + x.arguments == Raw(shards) + x.arguments;
    }
  }

  /** A call that arrives as its id and then its name and arguments in any pieces becomes one new block with
      that id, all of that name, and the input all of those arguments parse to; if they do not parse, the
      longest part of them up to a fragment's end that does. */
  lemma {:induction false} FragmentsMakeTheCall(b: Builder, id: string, shards: seq<Shard>, parse: Parser)
    requires id != "" && |b.content| !in b.toolArgs
    ensures var n := |b.content|;
            var head := CallDelta(Some(n), Some(id), None, None);
            Formed(b, MergeDeltas(b, [head] + Pieces(n, shards), parse), id, shards, parse)
    decreases |shards|
  {
    hide MergeDelta, Formed, MergeDeltas;
    var n := |b.content|;
    var head := CallDelta(Some(n), Some(id), None, None);
    if shards == [] {
      assert [] + [head] == [head] + Pieces(n, shards);
      MergeDeltasSnoc(b, [], head, parse);
      MergeNothing(b, parse);
      HeadForms(b, id, parse);
    } else {
      var before, last := shards[..|shards| - 1], shards[|shards| - 1];
      var d := CallDelta(Some(n), None, Some(last.name), Some(last.arguments));
      assert shards == before + [last];
      FragmentsMakeTheCall(b, id, before, parse);
      assert [head] + Pieces(n, shards) == ([head] + Pieces(n, before)) + [d];
      MergeDeltasSnoc(b, [head] + Pieces(n, before), d, parse);
      PieceForms(b, MergeDeltas(b, [head] + Pieces(n, before), parse), id, before, last, parse);
    }
  }

  lemma MergeNothing(b: Builder, parse: Parser)
    ensures MergeDeltas(b, [], parse) == b
  {
  }

  // ------------------------------------------------------------- the thinking signature

  function Joined(pieces: seq<string>): string {
    if pieces == [] then "" else Joined(pieces[..|pieces| - 1]) + pieces[|pieces| - 1]
  }

  // A stretch of thinking as the worker sends it.
  function Thoughts(texts: seq<string>): seq<Event> {
    seq(|texts|, i requires 0 <= i < |texts| => Reasoning(texts[i]))
  }

  lemma {:induction false} StreamAllSnoc(b: Builder, events: seq<Event>, e: Event, emitThinking: bool)
    ensures StreamAll(b, events + [e], emitThinking).b ==
            Stream(StreamAll(b, events, emitThinking).b, e, emitThinking).b
    decreases |events|
  {
    hide Stream;
    if events == [] {
      assert [] + [e] == [e] && [e][1..] == [];
    } else {
      assert (events + [e])[1..] == events[1..] + [e];
      StreamAllSnoc(Stream(b, events[0], emitThinking).b, events[1..], e, emitThinking);
    }
  }

  lemma ThoughtStep(b: Builder, text: string)
    requires text != ""
    ensures var after := Stream(b, Reasoning(text), true).b;
            && after.openKind == Some(ThinkingKind)
            && after.thinkingText == if b.openKind == Some(ThinkingKind) then b.thinkingText + text else ""
  {
  }

  lemma ClosingSigns(b: Builder)
    requires b.openKind == Some(ThinkingKind)
    ensures CloseOpen(b).frames == [BlockDelta(b.index, Signature(b.thinkingText)), BlockStop(b.index)]
  {
  }

  lemma NoThoughts(b: Builder)
    ensures StreamAll(b, Thoughts([]), true).b == b && Joined([]) == ""
  {
  }

  lemma ThoughtsSnoc(texts: seq<string>, text: string)
    ensures Thoughts(texts + [text]) == Thoughts(texts) + [Reasoning(text)]
    ensures Joined(texts + [text]) == Joined(texts) + text
  {
    assert (texts + [text])[..|texts + [text]| - 1] == texts;
  }

  lemma {:induction false} ThoughtsStream(b: Builder, first: string, rest: seq<string>)
    requires b.openKind != Some(ThinkingKind) && first != "" && forall i :: 0 <= i < |rest| ==> rest[i] != ""
    ensures var last := StreamAll(b, Thoughts([first] + rest), true).b;
            last.openKind == Some(ThinkingKind) && last.thinkingText == Joined(rest)
    decreases |rest|
  {
    hide Stream, StreamAll, Thoughts, Joined;
    NoThoughts(b);
    if rest == [] {
      assert [first] + rest == [] + [first];
      ThoughtsSnoc([], first);
      StreamAllSnoc(b, Thoughts([]), Reasoning(first), true);
      ThoughtStep(b, first);
    } else {
      var before, text := rest[..|rest| - 1], rest[|rest| - 1];
      assert rest == before + [text] && [first] + rest == ([first] + before) + [text];
      ThoughtsStream(b, first, before);
      ThoughtsSnoc([first] + before, text);
      ThoughtsSnoc(before, text);
      StreamAllSnoc(b, Thoughts([first] + before), Reasoning(text), true);
      ThoughtStep(StreamAll(b, Thoughts([first] + before), true).b, text);
    }
  }

  lemma {:induction false} JoinedCons(first: string, rest: seq<string>)
    ensures Joined([first] + rest) == first + Joined(rest)
    decreases |rest|
  {
    hide Thoughts;
    if rest == [] {
      assert [first] + rest == [] + [first];
      ThoughtsSnoc([], first);
    } else {
      var before, text := rest[..|rest| - 1], rest[|rest| - 1];
      assert rest == before + [text] && [first] + rest == ([first] + before) + [text];
      JoinedCons(first, before);
      ThoughtsSnoc([first] + before, text);
    }
  }

  /** A streamed thinking block is signed for its text without the first fragment, and so never for all of
      it: opening the block forgets the fragment that opened it. */
  lemma SignatureOmitsTheFirstFragment(b: Builder, first: string, rest: seq<string>)
    requires b.openKind != Some(ThinkingKind) && first != "" && forall i :: 0 <= i < |rest| ==> rest[i] != ""
    ensures var last := StreamAll(b, Thoughts([first] + rest), true).b;
            && CloseOpen(last).frames == [BlockDelta(last.index, Signature(Joined(rest))), BlockStop(last.index)]
            && Joined([first] + rest) == first + Joined(rest) && Joined(rest) != first + Joined(rest)
  {
    hide Stream, StreamAll, Thoughts, Joined, CloseOpen;
    ThoughtsStream(b, first, rest);
    ClosingSigns(StreamAll(b, Thoughts([first] + rest), true).b);
    JoinedCons(first, rest);
    assert |first + Joined(rest)| == |first| + |Joined(rest)|;
  }

  // --------------------------------------------------------------- pings and errors

  predicate Signal(f: Frame) {
    f.Ping? || f.ErrorFrame?
  }

  ghost predicate Quiet(frames: seq<Frame>) {
    forall f :: f in frames ==> !Signal(f)
  }

  function Signals(frames: seq<Frame>): seq<Frame> {
    if frames == [] then [] else (if Signal(frames[0]) then [frames[0]] else []) + Signals(frames[1..])
  }

  function Announced(events: seq<Event>): seq<Frame> {
    if events == [] then []
    else
      (match events[0]
       case Progress => [Ping]
       case Error(code, message) => [ErrorFrame(code, message)]
       case _ => [])
      + Announced(events[1..])
  }

  lemma {:induction false} SignalsAppend(a: seq<Frame>, b: seq<Frame>)
    ensures Signals(a + b) == Signals(a) + Signals(b)
    decreases |a|
  {
    if a == [] {
      assert a + b == b;
    } else {
      hide Signal;
      var head := if Signal(a[0]) then [a[0]] else [];
      assert (a + b)[1..] == a[1..] + b && (a + b)[0] == a[0];
      SignalsAppend(a[1..], b);
      assert Signals(a) == head + Signals(a[1..]) && Signals(a + b) == head + Signals(a[1..] + b);
      assert (head + Signals(a[1..])) + Signals(b) == head + (Signals(a[1..]) + Signals(b));
    }
  }

  lemma {:induction false} QuietSignals(frames: seq<Frame>)
    requires Quiet(frames)
    ensures Signals(frames) == []
  {
    if frames != [] { QuietSignals(frames[1..]); }
  }

  lemma OpeningIsQuiet(b: Builder, block: Opening)
    ensures Quiet(CloseOpen(b).frames) && Quiet(OpenBlock(b, block).frames) && Quiet(EnsureOpen(b, block).frames)
  {
  }

  lemma CallIsQuiet(b: Builder, c: Call)
    ensures Quiet(StreamCall(b, c).frames)
  {
    hide CloseOpen, OpenBlock;
    var block := OpenTool(CallId(c), CallName(c));
    OpeningIsQuiet(b, block);
    OpeningIsQuiet(OpenBlock(b, block).b, block);
  }

  lemma {:induction false} CallsAreQuiet(b: Builder, calls: seq<Call>)
    ensures Quiet(StreamCalls(b, calls).frames)
    decreases |calls|
  {
    hide StreamCall;
    if calls != [] {
      CallIsQuiet(b, calls[0]);
      CallsAreQuiet(StreamCall(b, calls[0]).b, calls[1..]);
    }
  }

  lemma DeltaIsQuiet(b: Builder, d: CallDelta)
    ensures Quiet(StreamDelta(b, d).frames)
  {
    hide CloseOpen, OpenBlock;
    OpeningIsQuiet(b, OpeningOf(d));
  }

  lemma {:induction false} DeltasAreQuiet(b: Builder, deltas: seq<CallDelta>)
    ensures Quiet(StreamDeltas(b, deltas).frames)
    decreases |deltas|
  {
    hide StreamDelta;
    if deltas != [] {
      DeltaIsQuiet(b, deltas[0]);
      DeltasAreQuiet(StreamDelta(b, deltas[0]).b, deltas[1..]);
    }
  }

  lemma TextIsQuiet(b: Builder, text: string, emitThinking: bool)
    ensures Quiet(Stream(b, Delta(text), emitThinking).frames)
    ensures Quiet(Stream(b, Reasoning(text), emitThinking).frames)
  {
    hide EnsureOpen;
    var noted := NoteText(b, text);
    OpeningIsQuiet(noted, OpenText);
    OpeningIsQuiet(noted.(thinkingText := noted.thinkingText + text), OpenThinking);
  }

  lemma EndIsQuiet(b: Builder, finish: string, sequence: Option<string>)
    ensures Quiet(StreamCompleted(b, finish, sequence).frames)
  {
    hide CloseOpen, OpenBlock, Complete, FinalMessage;
    var ended := Complete(b, finish, sequence);
    OpeningIsQuiet(ended, OpenText);
    OpeningIsQuiet(OpenBlock(ended, OpenText).b, OpenText);
  }

  lemma OneAnnounced(b: Builder, e: Event, emitThinking: bool)
    ensures Signals(Stream(b, e, emitThinking).frames) == Announced([e])
  {
    hide StreamCalls, StreamDeltas, StreamCompleted, EnsureOpen, Quiet;
    var frames := Stream(b, e, emitThinking).frames;
    if e.Progress? || e.Error? {
      assert |frames| == 1 && Signal(frames[0]) && frames[1..] == [];
    } else {
      if e.ToolCalls? { CallsAreQuiet(b, e.calls); }
      if e.ToolCallDelta? { DeltasAreQuiet(b, e.deltas); }
      if e.Delta? || e.Reasoning? { TextIsQuiet(b, e.text, emitThinking); }
      if e.Completed? { EndIsQuiet(b, e.finishReason, e.stopSequence); }
      if e.Counts? || e.Unknown? { NothingIsQuiet(); }
      QuietSignals(frames);
    }
  }

  lemma NothingIsQuiet()
    ensures Quiet([])
  {
  }

  /** A client gets one ping for each sign of progress and each failure with its code and message, in the
      order of the events, and no other. */
  lemma {:induction false} SignalsAreAnnounced(b: Builder, events: seq<Event>, emitThinking: bool)
    ensures Signals(StreamAll(b, events, emitThinking).frames) == Announced(events)
    decreases |events|
  {
    hide Stream, Signals;
    if events == [] {
      NothingIsQuiet();
      QuietSignals([]);
    } else {
      var first := Stream(b, events[0], emitThinking);
      OneAnnounced(b, events[0], emitThinking);
      SignalsAreAnnounced(first.b, events[1..], emitThinking);
      SignalsAppend(first.frames, StreamAll(first.b, events[1..], emitThinking).frames);
      assert [events[0]][1..] == [];
    }
  }
}
