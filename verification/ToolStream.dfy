/** The reasoning / tool-markup splitter (Workers/common/tool_calls.py, `IncrementalToolStream`).

    Reference meaning: `Scan`, one left-to-right pass over the whole text. */
module ToolStream {
  import opened Prelude
  import opened MarkerSearch

  /** The marker tables of one splitter: what opens a tool call, the two reasoning tags,
      and the wrapper tags that are discarded. */
  datatype Dialect = Dialect(toolStart: seq<string>, thinkStart: string, thinkEnd: string, assistantTags: seq<string>) {
    function All(): seq<string> {
      toolStart + [thinkStart, thinkEnd] + assistantTags
    }

    function Active(inReasoning: bool): seq<string> {
      if inReasoning then [thinkEnd] + toolStart
      else toolStart + [thinkStart, thinkEnd] + assistantTags
    }

    ghost predicate WellFormed() {
      forall m :: m in All() ==> Angled(m)
    }

    function NextMode(marker: string, inReasoning: bool): bool {
      if marker in toolStart then inReasoning
      else if marker == thinkStart then true
      else if marker == thinkEnd then false
      else inReasoning
    }
  }

  const BUILTIN := Dialect(
    ["<tool_call>", "<|tool_call>", "<tool_call|>",
     "<|tool_call_start|>", "<|tool_list_start|>",
     "<atem:function_calls>", "<longcat_tool_call>", "<minimax:tool_call>",
     "<start_function_call>", "<|START_ACTION|>"],
    "<think>", "</think>", ["<assistant>", "</assistant>"])

  /** Requests without tools keep the reasoning split but treat tool markup as ordinary text. */
  function DialectFor(reasoningOnly: bool): Dialect {
    if reasoningOnly then BUILTIN.(toolStart := []) else BUILTIN
  }

  /** `<...>` with no other angle bracket inside. */
  predicate Angled(m: string) {
    && |m| >= 2 && m[0] == '<' && m[|m| - 1] == '>'
    && forall i :: 0 < i < |m| - 1 ==> m[i] != '<' && m[i] != '>'
  }

  lemma PipeMarkersAreAngled()
    ensures Angled("<tool_call>") && Angled("<|tool_call>") && Angled("<tool_call|>")
    ensures Angled("<|tool_call_start|>") && Angled("<|tool_list_start|>")
  {
  }

  lemma NamedMarkersAreAngled()
    ensures Angled("<atem:function_calls>") && Angled("<longcat_tool_call>") && Angled("<minimax:tool_call>")
    ensures Angled("<start_function_call>") && Angled("<|START_ACTION|>")
  {
  }

  lemma BuiltinToolMarkersAreAngled()
    ensures forall m :: m in BUILTIN.toolStart ==> Angled(m)
  {
    hide Angled;
    PipeMarkersAreAngled();
    NamedMarkersAreAngled();
  }

  lemma BuiltinIsWellFormed(reasoningOnly: bool)
    ensures DialectFor(reasoningOnly).WellFormed()
  {
    BuiltinToolMarkersAreAngled();
    assert Angled(BUILTIN.thinkStart) && Angled(BUILTIN.thinkEnd);
    assert forall m :: m in BUILTIN.assistantTags ==> Angled(m);
  }

  lemma ActiveMarkersDoNotNest(d: Dialect, inReasoning: bool)
    requires d.WellFormed()
    ensures NonNesting(d.Active(inReasoning))
    ensures NonEmptyAll(d.Active(inReasoning))
    ensures forall m :: m in d.Active(inReasoning) ==> Angled(m)
  {
    var markers := d.Active(inReasoning);
    assert forall m :: m in markers ==> m in d.All();
    forall m1, m2, p: int | m1 in markers && m2 in markers && MatchAt(m1, p, m2)
      ensures p == 0 && m1 == m2
    {
      assert m1[p..p + |m2|][0] == m1[p];
      assert m1[p..p + |m2|][|m2| - 1] == m1[p + |m2| - 1];
    }
  }

  datatype TextEvent = TextEvent(reasoning: bool, text: string)
  datatype Tagged = Tagged(c: char, reasoning: bool)

  function Tag(text: string, reasoning: bool): (r: seq<Tagged>)
    ensures |r| == |text|
  {
    seq(|text|, i requires 0 <= i < |text| => Tagged(text[i], reasoning))
  }

  function Tags(events: seq<TextEvent>): seq<Tagged> {
    if events == [] then [] else Tag(events[0].text, events[0].reasoning) + Tags(events[1..])
  }

  lemma TagAppend(a: string, b: string, reasoning: bool)
    ensures Tag(a + b, reasoning) == Tag(a, reasoning) + Tag(b, reasoning)
  {
  }

  lemma TagsNil()
    ensures Tags([]) == []
  {
  }

  lemma TagsSingle(e: TextEvent)
    ensures Tags([e]) == Tag(e.text, e.reasoning)
  {
  }

  lemma Assoc<T>(a: seq<T>, b: seq<T>, c: seq<T>)
    ensures (a + b) + c == a + (b + c)
  {
  }

  lemma {:induction false} TagsAppend(a: seq<TextEvent>, b: seq<TextEvent>)
    ensures Tags(a + b) == Tags(a) + Tags(b)
  {
    if a == [] {
      assert a + b == b;
    } else {
      TagsAppend(a[1..], b);
      assert (a + b)[1..] == a[1..] + b && (a + b)[0] == a[0];
      Assoc(Tag(a[0].text, a[0].reasoning), Tags(a[1..]), Tags(b));
    }
  }

  lemma TagsSnoc(events: seq<TextEvent>, last: TextEvent)
    ensures Tags(events + [last]) == Tags(events) + Tag(last.text, last.reasoning)
  {
    TagsAppend(events, [last]);
    TagsSingle(last);
  }

  /** Leftmost marker, mode switch, stop for good at a tool marker. */
  function Scan(d: Dialect, text: string, inReasoning: bool): seq<Tagged>
    requires d.WellFormed()
    decreases |text|, 1
  {
    var hit := FirstMarker(text, d.Active(inReasoning));
    if hit.Miss? then Tag(text, inReasoning)
    else
      var past := ScanPast(d, hit.marker, text[hit.pos + |hit.marker|..], inReasoning, |text|);
      Tag(text[..hit.pos], inReasoning) + past
  }

  // The rest of the scan once `marker` has been consumed.
  function ScanPast(d: Dialect, marker: string, rest: string, inReasoning: bool, ghost bound: nat): seq<Tagged>
    requires d.WellFormed() && marker in d.Active(inReasoning) && |rest| + |marker| <= bound
    decreases bound, 0
  {
    ActiveMarkersDoNotNest(d, inReasoning);
    if marker in d.toolStart then [] else Scan(d, rest, d.NextMode(marker, inReasoning))
  }

  /** The stretches of text between markers, each with the mode it was scanned in. */
  function Segments(d: Dialect, text: string, inReasoning: bool): seq<TextEvent>
    requires d.WellFormed()
    decreases |text|
  {
    var hit := FirstMarker(text, d.Active(inReasoning));
    if hit.Miss? then [TextEvent(inReasoning, text)]
    else if hit.marker in d.toolStart then [TextEvent(inReasoning, text[..hit.pos])]
    else
      ActiveMarkersDoNotNest(d, inReasoning);
      [TextEvent(inReasoning, text[..hit.pos])] +
      Segments(d, text[hit.pos + |hit.marker|..], d.NextMode(hit.marker, inReasoning))
  }

  ghost predicate SegmentsFree(d: Dialect, segments: seq<TextEvent>) {
    forall e :: e in segments ==> MarkerFree(e.text, d.Active(e.reasoning))
  }

  lemma SegmentsUnfold(d: Dialect, text: string, inReasoning: bool)
    requires d.WellFormed()
    ensures var hit := FirstMarker(text, d.Active(inReasoning));
            Segments(d, text, inReasoning) ==
            if hit.Miss? then [TextEvent(inReasoning, text)]
            else [TextEvent(inReasoning, text[..hit.pos])] +
                 if hit.marker in d.toolStart then []
                 else Segments(d, text[hit.pos + |hit.marker|..], d.NextMode(hit.marker, inReasoning))
  {
    hide FirstMarker, NonNesting, Angled;
    ActiveMarkersDoNotNest(d, inReasoning);
  }

  /** The segments in order are the scan. */
  lemma {:induction false} SegmentsAreTheScan(d: Dialect, text: string, inReasoning: bool)
    requires d.WellFormed()
    ensures Tags(Segments(d, text, inReasoning)) == Scan(d, text, inReasoning)
    decreases |text|
  {
    hide Scan, ScanPast, Tag, Tags, FirstMarker, Segments;
    var hit := FirstMarker(text, d.Active(inReasoning));
    SegmentsUnfold(d, text, inReasoning);
    ActiveMarkersDoNotNest(d, inReasoning);
    ScanUnfold(d, text, inReasoning);
    if hit.Miss? {
      TagsSingle(TextEvent(inReasoning, text));
    } else {
      var head := TextEvent(inReasoning, text[..hit.pos]);
      TagsSingle(head);
      var tail := text[hit.pos + |hit.marker|..];
      if hit.marker !in d.toolStart {
        var mode := d.NextMode(hit.marker, inReasoning);
        SegmentsAreTheScan(d, tail, mode);
        TagsAppend([head], Segments(d, tail, mode));
        ScanPastGoesOn(d, hit.marker, tail, inReasoning, |text|);
      } else {
        assert [head] + [] == [head];
        ScanPastStops(d, hit.marker, tail, inReasoning, |text|);
      }
    }
  }

  /** Nothing shown between two markers contains a marker of the mode it was shown in. */
  lemma {:induction false} SegmentsAreMarkerFree(d: Dialect, text: string, inReasoning: bool)
    requires d.WellFormed()
    ensures SegmentsFree(d, Segments(d, text, inReasoning))
    decreases |text|
  {
    hide FirstMarker, MarkerFree, Segments, NonNesting, Angled;
    var hit := FirstMarker(text, d.Active(inReasoning));
    ActiveMarkersDoNotNest(d, inReasoning);
    SegmentsUnfold(d, text, inReasoning);
    if hit.Miss? {
      MissIsFree(text, d.Active(inReasoning));
    } else {
      PrefixIsFree(text, hit.pos, d.Active(inReasoning));
      if hit.marker !in d.toolStart {
        SegmentsAreMarkerFree(d, text[hit.pos + |hit.marker|..], d.NextMode(hit.marker, inReasoning));
      }
    }
  }

  lemma ScanPastStops(d: Dialect, marker: string, rest: string, inReasoning: bool, bound: nat)
    requires d.WellFormed() && marker in d.Active(inReasoning) && |rest| + |marker| <= bound
    requires marker in d.toolStart
    ensures ScanPast(d, marker, rest, inReasoning, bound) == []
  {
  }

  lemma ScanPastGoesOn(d: Dialect, marker: string, rest: string, inReasoning: bool, bound: nat)
    requires d.WellFormed() && marker in d.Active(inReasoning) && |rest| + |marker| <= bound
    requires marker !in d.toolStart
    ensures ScanPast(d, marker, rest, inReasoning, bound) == Scan(d, rest, d.NextMode(marker, inReasoning))
  {
  }

  /** A stretch of ordinary text and the marker that ends it. */
  datatype Piece = Piece(text: string, marker: string)

  // What the given mode recognises: tool markers and the closing think tag always, the opening
  // think tag and the wrapper tags only outside reasoning.
  predicate Counts(d: Dialect, reasoning: bool, m: string) {
    m in d.toolStart || m == d.thinkEnd || (!reasoning && (m == d.thinkStart || m in d.assistantTags))
  }

  ghost predicate FreeOf(d: Dialect, reasoning: bool, text: string) {
    forall q: int, m :: Counts(d, reasoning, m) ==> !MatchAt(text, q, m)
  }

  /** The text of stretch `i` is reasoning: the last think tag before it opened one, or there was
      none and the reply began in one. */
  ghost predicate Reasons(d: Dialect, pieces: seq<Piece>, start: bool, i: nat)
    requires i <= |pieces|
  {
    || (start && forall k :: 0 <= k < i ==> pieces[k].marker != d.thinkEnd)
    || exists j :: 0 <= j < i && pieces[j].marker == d.thinkStart &&
                   forall k :: j < k < i ==> pieces[k].marker != d.thinkEnd
  }

  ghost predicate Stopped(d: Dialect, pieces: seq<Piece>) {
    pieces != [] && pieces[|pieces| - 1].marker in d.toolStart
  }

  function JoinedFrom(pieces: seq<Piece>, last: string, i: nat): string
    requires i <= |pieces|
    decreases |pieces| - i
  {
    if i == |pieces| then last else pieces[i].text + pieces[i].marker + JoinedFrom(pieces, last, i + 1)
  }

  /** `text` is cut at its markers: each stretch is free of what its mode recognises, each marker is
      recognised where it stands, and nothing is cut behind a tool marker. */
  ghost predicate Reads(d: Dialect, text: string, start: bool, pieces: seq<Piece>, last: string) {
    && text == JoinedFrom(pieces, last, 0)
    && (forall i :: 0 <= i < |pieces| ==> FreeOf(d, Reasons(d, pieces, start, i), pieces[i].text))
    && (forall i :: 0 <= i < |pieces| ==> Counts(d, Reasons(d, pieces, start, i), pieces[i].marker))
    && (forall i :: 0 <= i < |pieces| - 1 ==> pieces[i].marker !in d.toolStart)
    && (!Stopped(d, pieces) ==> FreeOf(d, Reasons(d, pieces, start, |pieces|), last))
  }

  /** Every stretch with its mode; what follows a tool marker is not shown. */
  ghost function ShownFrom(d: Dialect, pieces: seq<Piece>, last: string, start: bool, i: nat): seq<Tagged>
    requires i <= |pieces|
    decreases |pieces| - i
  {
    if i < |pieces| then
      Tag(pieces[i].text, Reasons(d, pieces, start, i)) + ShownFrom(d, pieces, last, start, i + 1)
    else if Stopped(d, pieces) then []
    else Tag(last, Reasons(d, pieces, start, i))
  }

  lemma CountsIsActive(d: Dialect, reasoning: bool, m: string)
    ensures Counts(d, reasoning, m) <==> m in d.Active(reasoning)
  {
  }

  lemma ReasonsStep(d: Dialect, pieces: seq<Piece>, start: bool, i: nat)
    requires i < |pieces| && pieces[i].marker !in d.toolStart
    ensures Reasons(d, pieces, start, i + 1) == d.NextMode(pieces[i].marker, Reasons(d, pieces, start, i))
  {
    if Reasons(d, pieces, start, i + 1) && pieces[i].marker != d.thinkStart {
      assert pieces[i].marker != d.thinkEnd;
      if j :| 0 <= j < i + 1 && pieces[j].marker == d.thinkStart &&
              forall k :: j < k < i + 1 ==> pieces[k].marker != d.thinkEnd {
        assert Reasons(d, pieces, start, i);
      }
    }
  }

  // A stretch free of markers stays free when a marker follows: none can start in one and end in the other.
  lemma FreeUpToMarker(d: Dialect, reasoning: bool, text: string, marker: string, rest: string)
    requires d.WellFormed() && FreeOf(d, reasoning, text) && Counts(d, reasoning, marker)
    ensures FirstMarker(text + marker + rest, d.Active(reasoning)) == Hit(|text|, marker)
  {
    hide FirstMarker;
    var markers, whole := d.Active(reasoning), text + marker + rest;
    ActiveMarkersDoNotNest(d, reasoning);
    CountsIsActive(d, reasoning, marker);
    assert MatchAt(whole, |text|, marker);
    assert Occurs(whole, |text|, markers);
    var hit := FirstMarker(whole, markers);
    assert hit.Hit? && hit.pos <= |text|;
    CountsIsActive(d, reasoning, hit.marker);
    if hit.pos < |text| {
      ExtendMatch(text, marker + rest, hit.pos, hit.marker);
      assert whole == text + (marker + rest);
      AngledDoNotOverlap(whole, hit.pos, hit.marker, |text|, marker);
    }
    SamePlaceSameMarker(whole, |text|, hit.marker, marker, markers);
  }

  lemma AngledDoNotOverlap(t: string, p: nat, m: string, q: nat, n: string)
    requires Angled(m) && Angled(n) && MatchAt(t, p, m) && MatchAt(t, q, n) && p < q
    ensures p + |m| <= q
  {
    assert t[q..q + |n|][0] == t[q];
    assert forall k :: p <= k < p + |m| ==> t[k] == t[p..p + |m|][k - p];
  }

  lemma FreeIsMiss(d: Dialect, reasoning: bool, text: string)
    requires FreeOf(d, reasoning, text)
    ensures FirstMarker(text, d.Active(reasoning)).Miss?
  {
    hide FirstMarker;
    var hit := FirstMarker(text, d.Active(reasoning));
    if hit.Hit? { CountsIsActive(d, reasoning, hit.marker); }
  }

  lemma {:induction false} ScanFollows(d: Dialect, text: string, start: bool, pieces: seq<Piece>, last: string, i: nat)
    requires d.WellFormed() && Reads(d, text, start, pieces, last) && i <= |pieces|
    requires i == |pieces| ==> !Stopped(d, pieces)
    ensures Scan(d, JoinedFrom(pieces, last, i), Reasons(d, pieces, start, i)) ==
            ShownFrom(d, pieces, last, start, i)
    decreases |pieces| - i
  {
    hide Scan, ScanPast, Tag, FirstMarker, Reasons, FreeOf, Counts;
    var here, mode := JoinedFrom(pieces, last, i), Reasons(d, pieces, start, i);
    ScanUnfold(d, here, mode);
    if i == |pieces| {
      FreeIsMiss(d, mode, last);
    } else {
      var p, rest := pieces[i], JoinedFrom(pieces, last, i + 1);
      FreeUpToMarker(d, mode, p.text, p.marker, rest);
      CountsIsActive(d, mode, p.marker);
      assert here[..|p.text|] == p.text && here[|p.text| + |p.marker|..] == rest;
      if p.marker in d.toolStart {
        assert i == |pieces| - 1;
        ScanPastStops(d, p.marker, rest, mode, |here|);
      } else {
        ScanPastGoesOn(d, p.marker, rest, mode, |here|);
        ReasonsStep(d, pieces, start, i);
        ScanFollows(d, text, start, pieces, last, i + 1);
      }
    }
  }

  /** However a reply is cut at its markers, the reader is shown exactly its stretches, each as
      reasoning exactly when the last think tag before it opened one (or none came and the reply began
      in one), and nothing from a tool marker on. */
  lemma ReplyIsShown(d: Dialect, text: string, start: bool, pieces: seq<Piece>, last: string)
    requires d.WellFormed() && Reads(d, text, start, pieces, last)
    ensures Scan(d, text, start) == ShownFrom(d, pieces, last, start, 0)
  {
    ScanFollows(d, text, start, pieces, last, 0);
  }

  lemma JoinedCons(p: Piece, pieces: seq<Piece>, last: string, i: nat)
    requires i <= |pieces|
    ensures JoinedFrom([p] + pieces, last, i + 1) == JoinedFrom(pieces, last, i)
    decreases |pieces| - i
  {
    if i < |pieces| { JoinedCons(p, pieces, last, i + 1); }
  }

  lemma ReasonsCons(d: Dialect, p: Piece, pieces: seq<Piece>, start: bool, i: nat)
    requires i <= |pieces| && p.marker !in d.toolStart
    requires forall k :: 0 <= k < i ==> pieces[k].marker !in d.toolStart
    ensures Reasons(d, [p] + pieces, start, i + 1) == Reasons(d, pieces, d.NextMode(p.marker, start), i)
  {
    ReasonsStep(d, [p] + pieces, start, i);
    if i > 0 {
      ReasonsCons(d, p, pieces, start, i - 1);
      ReasonsStep(d, pieces, d.NextMode(p.marker, start), i - 1);
    }
  }

  /** Every reply can be cut at its markers. */
  lemma {:induction false} EveryReplyReads(d: Dialect, text: string, start: bool)
      returns (pieces: seq<Piece>, last: string)
    requires d.WellFormed()
    ensures Reads(d, text, start, pieces, last)
    decreases |text|
  {
    hide FirstMarker, Angled, NonNesting;
    var markers := d.Active(start);
    var hit := FirstMarker(text, markers);
    ActiveMarkersDoNotNest(d, start);
    if hit.Miss? {
      MissIsFree(text, markers);
      FreeIsFree(d, start, text);
      return [], text;
    }
    var p, rest := Piece(text[..hit.pos], hit.marker), text[hit.pos + |hit.marker|..];
    PrefixIsFree(text, hit.pos, markers);
    FreeIsFree(d, start, p.text);
    CountsIsActive(d, start, p.marker);
    assert text == p.text + p.marker + rest;
    if p.marker in d.toolStart {
      pieces, last := [p], rest;
      assert JoinedFrom(pieces, last, 1) == rest;
    } else {
      var more, end := EveryReplyReads(d, rest, d.NextMode(p.marker, start));
      ReadsCons(d, p, rest, start, more, end);
      pieces, last := [p] + more, end;
    }
  }

  lemma FreeIsFree(d: Dialect, reasoning: bool, text: string)
    requires MarkerFree(text, d.Active(reasoning))
    ensures FreeOf(d, reasoning, text)
  {
    forall q: int, m | Counts(d, reasoning, m) ensures !MatchAt(text, q, m) {
      CountsIsActive(d, reasoning, m);
      assert !Occurs(text, q, d.Active(reasoning));
    }
  }

  lemma ReadsCons(d: Dialect, p: Piece, rest: string, start: bool, more: seq<Piece>, last: string)
    requires p.marker !in d.toolStart && FreeOf(d, start, p.text) && Counts(d, start, p.marker)
    requires Reads(d, rest, d.NextMode(p.marker, start), more, last)
    ensures Reads(d, p.text + p.marker + rest, start, [p] + more, last)
  {
    hide FreeOf, Counts, Reasons;
    var pieces, mode := [p] + more, d.NextMode(p.marker, start);
    JoinedCons(p, more, last, 0);
    StartReasons(d, pieces, start);
    forall i: nat | i <= |more| && forall k :: 0 <= k < i ==> more[k].marker !in d.toolStart
      ensures Reasons(d, pieces, start, i + 1) == Reasons(d, more, mode, i)
    {
      ReasonsCons(d, p, more, start, i);
    }
    forall i | 0 <= i < |pieces|
      ensures FreeOf(d, Reasons(d, pieces, start, i), pieces[i].text)
      ensures Counts(d, Reasons(d, pieces, start, i), pieces[i].marker)
    {
      if i > 0 {
        assert pieces[i] == more[i - 1];
        assert Reasons(d, pieces, start, (i - 1) + 1) == Reasons(d, more, mode, i - 1);
      }
    }
    assert Stopped(d, pieces) <==> Stopped(d, more);
    if !Stopped(d, pieces) {
      assert Reasons(d, pieces, start, |more| + 1) == Reasons(d, more, mode, |more|);
    }
  }

  lemma StartReasons(d: Dialect, pieces: seq<Piece>, start: bool)
    ensures Reasons(d, pieces, start, 0) == start
  {
  }

  /** One piece of reasoning in a reply of either built-in dialect, to the letter. */
  lemma ReasoningIsShownApart(reasoningOnly: bool, a: string, b: string, c: string)
    requires FreeOf(DialectFor(reasoningOnly), false, a) && FreeOf(DialectFor(reasoningOnly), true, b)
    requires FreeOf(DialectFor(reasoningOnly), false, c)
    ensures DialectFor(reasoningOnly).WellFormed()
    ensures Scan(DialectFor(reasoningOnly), a + "<think>" + b + "</think>" + c, false) ==
            Tag(a, false) + Tag(b, true) + Tag(c, false)
  {
    hide Scan, Tag, FreeOf, Angled;
    BuiltinIsWellFormed(reasoningOnly);
    var d, pieces := DialectFor(reasoningOnly), [Piece(a, "<think>"), Piece(b, "</think>")];
    var text := a + "<think>" + b + "</think>" + c;
    assert "</think>" !in d.toolStart && "<think>" !in d.toolStart;
    ThinkModes(d, pieces);
    JoinedTwo(a, "<think>", b, "</think>", c);
    assert Reads(d, text, false, pieces, c) by { hide Reasons; }
    ReplyIsShown(d, text, false, pieces, c);
    assert ShownFrom(d, pieces, c, false, 2) == Tag(c, false);
    assert ShownFrom(d, pieces, c, false, 1) == Tag(b, true) + ShownFrom(d, pieces, c, false, 2);
    assert ShownFrom(d, pieces, c, false, 0) == Tag(a, false) + ShownFrom(d, pieces, c, false, 1);
    Assoc(Tag(a, false), Tag(b, true), Tag(c, false));
  }

  lemma JoinedTwo(a: string, m: string, b: string, n: string, c: string)
    ensures JoinedFrom([Piece(a, m), Piece(b, n)], c, 0) == a + m + b + n + c
  {
    var pieces := [Piece(a, m), Piece(b, n)];
    assert JoinedFrom(pieces, c, 2) == c;
    assert JoinedFrom(pieces, c, 1) == b + n + c;
    assert JoinedFrom(pieces, c, 0) == a + m + (b + n + c);
  }

  lemma ThinkModes(d: Dialect, pieces: seq<Piece>)
    requires |pieces| == 2 && pieces[0].marker == d.thinkStart && pieces[1].marker == d.thinkEnd
    requires d.thinkStart != d.thinkEnd
    ensures !Reasons(d, pieces, false, 0) && Reasons(d, pieces, false, 1) && !Reasons(d, pieces, false, 2)
  {
  }

  const TOOL_MARKERS := {
    "<tool_call>", "<|tool_call>", "<tool_call|>", "<|tool_call_start|>", "<|tool_list_start|>",
    "<atem:function_calls>", "<longcat_tool_call>", "<minimax:tool_call>", "<start_function_call>",
    "<|START_ACTION|>"}

  lemma ToolMarkersAreListed(marker: string)
    requires marker in TOOL_MARKERS
    ensures marker in DialectFor(false).toolStart
  {
    var listed := BUILTIN.toolStart;
    assert listed[0] == "<tool_call>" && listed[1] == "<|tool_call>" && listed[2] == "<tool_call|>";
    assert listed[3] == "<|tool_call_start|>" && listed[4] == "<|tool_list_start|>";
    assert listed[5] == "<atem:function_calls>" && listed[6] == "<longcat_tool_call>";
    assert listed[7] == "<minimax:tool_call>" && listed[8] == "<start_function_call>";
    assert listed[9] == "<|START_ACTION|>";
  }

  /** With tools a reply ends, for the reader, at the first tool marker of any kind. */
  lemma ToolMarkupEndsTheReply(a: string, marker: string, rest: string)
    requires FreeOf(DialectFor(false), false, a) && marker in TOOL_MARKERS
    ensures DialectFor(false).WellFormed()
    ensures Scan(DialectFor(false), a + marker + rest, false) == Tag(a, false)
  {
    hide Scan, Tag, FreeOf, Angled, DialectFor;
    BuiltinIsWellFormed(false);
    ToolMarkersAreListed(marker);
    var d, pieces := DialectFor(false), [Piece(a, marker)];
    assert JoinedFrom(pieces, rest, 1) == rest;
    assert JoinedFrom(pieces, rest, 0) == a + marker + rest;
    StartReasons(d, pieces, false);
    assert Reads(d, a + marker + rest, false, pieces, rest) by { hide Reasons; }
    ReplyIsShown(d, a + marker + rest, false, pieces, rest);
    assert ShownFrom(d, pieces, rest, false, 1) == [];
    assert ShownFrom(d, pieces, rest, false, 0) == Tag(a, false) + [];
  }

  /** Without tools only the two think tags and the two wrapper tags are looked for. */
  lemma ToolMarkupIsText(text: string)
    requires forall q: int, m ::
      m in {"<think>", "</think>", "<assistant>", "</assistant>"} ==> !MatchAt(text, q, m)
    ensures DialectFor(true).WellFormed()
    ensures Scan(DialectFor(true), text, false) == Tag(text, false)
  {
    hide Scan, Tag, Angled;
    BuiltinIsWellFormed(true);
    var d, none := DialectFor(true), [];
    assert forall m :: Counts(d, false, m) ==> m in {"<think>", "</think>", "<assistant>", "</assistant>"};
    StartReasons(d, none, false);
    assert Reads(d, text, false, none, text);
    ReplyIsShown(d, text, false, none, text);
  }

  /** A wrapper tag is dropped, and the mode stays. */
  lemma WrapperTagsAreDropped(reasoningOnly: bool, a: string, tag: string, b: string)
    requires FreeOf(DialectFor(reasoningOnly), false, a) && FreeOf(DialectFor(reasoningOnly), false, b)
    requires tag == "<assistant>" || tag == "</assistant>"
    ensures DialectFor(reasoningOnly).WellFormed()
    ensures Scan(DialectFor(reasoningOnly), a + tag + b, false) == Tag(a, false) + Tag(b, false)
  {
    hide Scan, Tag, FreeOf, Angled;
    BuiltinIsWellFormed(reasoningOnly);
    var d, pieces := DialectFor(reasoningOnly), [Piece(a, tag)];
    assert d.assistantTags[0] == "<assistant>" && d.assistantTags[1] == "</assistant>";
    TagIsNoTool(d, tag);
    StartReasons(d, pieces, false);
    assert !Reasons(d, pieces, false, 1);
    assert JoinedFrom(pieces, b, 1) == b;
    assert JoinedFrom(pieces, b, 0) == a + tag + b;
    assert Reads(d, a + tag + b, false, pieces, b) by { hide Reasons; }
    ReplyIsShown(d, a + tag + b, false, pieces, b);
    assert ShownFrom(d, pieces, b, false, 1) == Tag(b, false);
  }

  lemma TagIsNoTool(d: Dialect, tag: string)
    requires d.toolStart == [] || d.toolStart == BUILTIN.toolStart
    requires tag == "<assistant>" || tag == "</assistant>"
    ensures tag !in d.toolStart
  {
  }

  datatype SplitState = SplitState(pending: string, inReasoning: bool, toolDetected: bool)

  /** Everything still to be shown if exactly `rest` arrives from here on. */
  function Residual(d: Dialect, s: SplitState, rest: string): seq<Tagged>
    requires d.WellFormed()
  {
    if s.toolDetected then [] else Scan(d, s.pending + rest, s.inReasoning)
  }

  /** Moving from `before` to `after` on input `text` showed exactly `shown`: for every future
      input, what was left to show before is `shown` followed by what is left to show after. */
  ghost predicate Continues(d: Dialect, before: SplitState, text: string, shown: seq<Tagged>, after: SplitState)
    requires d.WellFormed()
  {
    forall rest: string :: Residual(d, before, text + rest) == shown + Residual(d, after, rest)
  }

  lemma ContinuesCompose(d: Dialect, s0: SplitState, t1: string, o1: seq<Tagged>, s1: SplitState,
                         t2: string, o2: seq<Tagged>, s2: SplitState)
    requires d.WellFormed()
    requires Continues(d, s0, t1, o1, s1) && Continues(d, s1, t2, o2, s2)
    ensures Continues(d, s0, t1 + t2, o1 + o2, s2)
  {
    hide Scan;
    forall rest: string ensures Residual(d, s0, (t1 + t2) + rest) == (o1 + o2) + Residual(d, s2, rest) {
      assert (t1 + t2) + rest == t1 + (t2 + rest);
      assert Residual(d, s0, t1 + (t2 + rest)) == o1 + Residual(d, s1, t2 + rest);
      Assoc(o1, o2, Residual(d, s2, rest));
    }
  }

  lemma ContinuesBuffer(d: Dialect, s: SplitState, text: string)
    requires d.WellFormed()
    ensures Continues(d, s, text, [], s.(pending := s.pending + text))
  {
    hide Scan;
    forall rest: string
      ensures Residual(d, s, text + rest) == [] + Residual(d, s.(pending := s.pending + text), rest)
    {
      assert s.pending + (text + rest) == (s.pending + text) + rest;
    }
  }

  lemma ContinuesIdle(d: Dialect, s: SplitState, text: string)
    requires d.WellFormed() && (text == "" || s.toolDetected)
    ensures Continues(d, s, text, [], s)
  {
    hide Scan;
    forall rest: string ensures Residual(d, s, text + rest) == [] + Residual(d, s, rest) {
      assert text == "" ==> text + rest == rest;
    }
  }

  lemma ContinuesEnd(d: Dialect, s0: SplitState, text: string, shown: seq<Tagged>, s1: SplitState)
    requires d.WellFormed() && Continues(d, s0, text, shown, s1)
    requires s0.pending == "" && !s0.toolDetected
    ensures Scan(d, text, s0.inReasoning) == shown + Residual(d, s1, "")
  {
    hide Scan;
    hide Residual;
    var rest := "";
    assert Residual(d, s0, text + rest) == shown + Residual(d, s1, rest);
    assert text + rest == text;
    ResidualAtStart(d, s0, text);
  }

  lemma ResidualAtStart(d: Dialect, s: SplitState, text: string)
    requires d.WellFormed() && s.pending == "" && !s.toolDetected
    ensures Residual(d, s, text) == Scan(d, text, s.inReasoning)
  {
    hide Scan;
    assert "" + text == text;
  }

  // One marker found at `hit`: everything before it is shown, the marker is consumed.
  lemma HitStep(d: Dialect, s: SplitState, hit: Hit, next: SplitState)
    requires d.WellFormed()
    requires !s.toolDetected && hit == FirstMarker(s.pending, d.Active(s.inReasoning)) && hit.Hit?
    requires next == SplitState(s.pending[hit.pos + |hit.marker|..], d.NextMode(hit.marker, s.inReasoning),
                                hit.marker in d.toolStart)
    ensures Continues(d, s, "", Tag(s.pending[..hit.pos], s.inReasoning), next)
  {
    hide Scan;
    forall rest: string
      ensures Residual(d, s, "" + rest) == Tag(s.pending[..hit.pos], s.inReasoning) + Residual(d, next, rest)
    {
      assert "" + rest == rest;
      ScanHit(d, s.pending, rest, s.inReasoning, hit);
    }
  }

  lemma ScanHit(d: Dialect, text: string, rest: string, inReasoning: bool, hit: Hit)
    requires d.WellFormed() && hit == FirstMarker(text, d.Active(inReasoning)) && hit.Hit?
    ensures Scan(d, text + rest, inReasoning) ==
            Tag(text[..hit.pos], inReasoning) +
            ScanPast(d, hit.marker, text[hit.pos + |hit.marker|..] + rest, inReasoning, |text + rest|)
  {
    hide Scan, ScanPast, Tag, NonNesting, Angled, FirstMarker;
    ScanUnfold(d, text + rest, inReasoning);
    ActiveMarkersDoNotNest(d, inReasoning);
    HitIsFinal(text, rest, d.Active(inReasoning));
    assert (text + rest)[..hit.pos] == text[..hit.pos];
    assert (text + rest)[hit.pos + |hit.marker|..] == text[hit.pos + |hit.marker|..] + rest;
  }

  // No marker in sight: the part that cannot become one is shown.
  lemma MissStep(d: Dialect, s: SplitState, safe: nat, next: SplitState)
    requires d.WellFormed()
    requires !s.toolDetected && FirstMarker(s.pending, d.Active(s.inReasoning)).Miss?
    requires safe <= |s.pending| && IsHold(s.pending, d.Active(s.inReasoning), |s.pending| - safe)
    requires next == s.(pending := s.pending[safe..])
    ensures Continues(d, s, "", Tag(s.pending[..safe], s.inReasoning), next)
  {
    hide Scan;
    var markers := d.Active(s.inReasoning);
    MissIsFree(s.pending, markers);
    forall rest: string
      ensures Residual(d, s, "" + rest) == Tag(s.pending[..safe], s.inReasoning) + Residual(d, next, rest)
    {
      assert "" + rest == rest;
      SafePartIsFree(s.pending, rest, markers, |s.pending| - safe);
      assert s.pending + rest == s.pending[..safe] + (s.pending[safe..] + rest);
      ScanSkips(d, s.pending[..safe], s.pending[safe..] + rest, s.inReasoning);
    }
  }

  lemma ScanSkips(d: Dialect, a: string, b: string, inReasoning: bool)
    requires d.WellFormed() && FreeBefore(a + b, d.Active(inReasoning), |a|)
    ensures Scan(d, a + b, inReasoning) == Tag(a, inReasoning) + Scan(d, b, inReasoning)
  {
    hide Scan;
    hide ScanPast;
    hide Tag;
    ShiftFirst(a, b, d.Active(inReasoning));
    ScanUnfold(d, a + b, inReasoning);
    ScanUnfold(d, b, inReasoning);
    var hit := FirstMarker(b, d.Active(inReasoning));
    if hit.Miss? {
      TagAppend(a, b, inReasoning);
    } else {
      var rest := b[hit.pos + |hit.marker|..];
      assert (a + b)[..|a| + hit.pos] == a + b[..hit.pos];
      TagAppend(a, b[..hit.pos], inReasoning);
      assert (a + b)[|a| + hit.pos + |hit.marker|..] == rest;
      ScanPastBound(d, hit.marker, rest, inReasoning, |b|, |a + b|);
      Assoc(Tag(a, inReasoning), Tag(b[..hit.pos], inReasoning), ScanPast(d, hit.marker, rest, inReasoning, |b|));
    }
  }

  lemma ScanUnfold(d: Dialect, text: string, inReasoning: bool)
    requires d.WellFormed()
    ensures var hit := FirstMarker(text, d.Active(inReasoning));
            Scan(d, text, inReasoning) ==
            if hit.Miss? then Tag(text, inReasoning)
            else Tag(text[..hit.pos], inReasoning) +
                 ScanPast(d, hit.marker, text[hit.pos + |hit.marker|..], inReasoning, |text|)
  {
    hide ScanPast;
    hide Tag;
  }

  lemma ScanPastBound(d: Dialect, marker: string, rest: string, inReasoning: bool, n: nat, k: nat)
    requires d.WellFormed() && marker in d.Active(inReasoning) && |rest| + |marker| <= n && |rest| + |marker| <= k
    ensures ScanPast(d, marker, rest, inReasoning, n) == ScanPast(d, marker, rest, inReasoning, k)
  {
  }

  lemma WithheldIsUnclosed(d: Dialect, pending: string, inReasoning: bool)
    requires d.WellFormed() && Withheld(pending, d.Active(inReasoning))
    ensures '>' !in pending
  {
    ActiveMarkersDoNotNest(d, inReasoning);
  }

  lemma UnclosedIsShown(d: Dialect, s: SplitState)
    requires d.WellFormed() && (!s.toolDetected ==> '>' !in s.pending)
    ensures Residual(d, s, "") == if s.toolDetected then [] else Tag(s.pending, s.inReasoning)
  {
    assert s.pending + "" == s.pending;
    ActiveMarkersDoNotNest(d, s.inReasoning);
    forall q, m | m in d.Active(s.inReasoning) && MatchAt(s.pending, q, m) ensures '>' in s.pending {
      assert s.pending[q..q + |m|][|m| - 1] == s.pending[q + |m| - 1];
    }
  }

  class IncrementalToolStream {
    const dialect: Dialect
    var pending: string
    var inReasoning: bool
    var toolDetected: bool

    constructor (dialect: Dialect)
      requires dialect.WellFormed()
      ensures Valid() && this.dialect == dialect && State() == SplitState("", false, false)
    {
      this.dialect := dialect;
      pending, inReasoning, toolDetected := "", false, false;
    }

    function State(): SplitState
      reads this
    {
      SplitState(pending, inReasoning, toolDetected)
    }

    /** Held-back text is never a complete marker in either mode: it has no closing bracket. */
    ghost predicate Valid()
      reads this
    {
      dialect.WellFormed() && (!toolDetected ==> '>' !in pending)
    }

    method StartReasoning()
      requires Valid()
      modifies this
      ensures Valid() && State() == old(State()).(inReasoning := true)
    {
      inReasoning := true;
    }

    /** Shows exactly what the reference scan would, and withholds nothing but a proper prefix of a marker. */
    method Feed(text: string) returns (events: seq<TextEvent>)
      requires Valid()
      modifies this
      ensures Valid()
      ensures Continues(dialect, old(State()), text, Tags(events), State())
      ensures forall e :: e in events ==> e.text != ""
      ensures text != "" && !toolDetected ==> Withheld(pending, dialect.Active(inReasoning))
    {
      hide Scan, Residual, Continues, Tags, Tag, NonNesting, NonEmptyAll, Angled, FirstMarker, Emit, IsHold;
      TagsNil();
      events := [];
      ghost var s0 := State();
      if text == "" || toolDetected {
        ContinuesIdle(dialect, s0, text);
        return;
      }
      pending := pending + text;
      ContinuesBuffer(dialect, s0, text);
      while pending != "" && !toolDetected
        invariant Continues(dialect, s0, text, Tags(events), State())
        invariant forall e :: e in events ==> e.text != ""
        invariant dialect.WellFormed() && (pending == "" || toolDetected ==> Valid())
        decreases |pending|
      {
        ghost var s1, shown := State(), Tags(events);
        var markers := dialect.Active(inReasoning);
        var hit := FirstMarker(pending, markers);
        if hit.Miss? {
          var safe := SafePrefixLength(pending, markers);
          HeldIsMarkerPrefix(pending, markers, |pending| - safe);
          WithheldIsUnclosed(dialect, pending[safe..], inReasoning);
          events := Emit(events, inReasoning, pending[..safe]);
          pending := pending[safe..];
          MissStep(dialect, s1, safe, State());
          ContinuesCompose(dialect, s0, text, shown, s1, "", Tag(s1.pending[..safe], s1.inReasoning), State());
          assert text + "" == text;
          break;
        }
        events := Emit(events, inReasoning, pending[..hit.pos]);
        pending := pending[hit.pos + |hit.marker|..];
        if hit.marker in dialect.toolStart {
          toolDetected := true;
        } else if hit.marker == dialect.thinkStart {
          inReasoning := true;
        } else if hit.marker == dialect.thinkEnd {
          inReasoning := false;
        }
        ActiveMarkersDoNotNest(dialect, s1.inReasoning);
        HitStep(dialect, s1, hit, State());
        ContinuesCompose(dialect, s0, text, shown, s1, "", Tag(s1.pending[..hit.pos], s1.inReasoning), State());
        assert text + "" == text;
      }
    }

    /** Flushes exactly what the scan would show if the text ended here. */
    method Finish() returns (events: seq<TextEvent>)
      requires Valid()
      modifies this
      ensures Valid() && State() == old(State()).(pending := "")
      ensures Tags(events) == Residual(dialect, old(State()), "")
      ensures forall e :: e in events ==> e.text != ""
    {
      UnclosedIsShown(dialect, State());
      if toolDetected || pending == "" {
        pending := "";
        return [];
      }
      events := [TextEvent(inReasoning, pending)];
      TagsSingle(TextEvent(inReasoning, pending));
      pending := "";
    }
  }

  // Empty events are dropped before they reach the caller.
  function Emit(events: seq<TextEvent>, reasoning: bool, text: string): (r: seq<TextEvent>)
    ensures Tags(r) == Tags(events) + Tag(text, reasoning)
    ensures forall e :: e in r ==> e in events || (e.text != "" && e == TextEvent(reasoning, text))
  {
    TagsSnoc(events, TextEvent(reasoning, text));
    if text == "" then events else events + [TextEvent(reasoning, text)]
  }

  /** The worker's reply loop: one splitter, fed delta by delta, then flushed. However the text
      was cut into deltas, the reader gets the one reference scan of the whole text. */
  method Relay(dialect: Dialect, deltas: seq<string>, startsInReasoning: bool) returns (shown: seq<TextEvent>)
    requires dialect.WellFormed()
    ensures Tags(shown) == Scan(dialect, Concat(deltas), startsInReasoning)
    ensures forall e :: e in shown ==> e.text != ""
  {
    hide Scan;
    hide Residual;
    hide Continues;
    var stream := new IncrementalToolStream(dialect);
    if startsInReasoning { stream.StartReasoning(); }
    ghost var s0 := stream.State();
    shown := [];
    ContinuesIdle(dialect, s0, "");
    assert deltas[..0] == [];
    for i := 0 to |deltas|
      invariant stream.Valid() && fresh(stream) && stream.dialect == dialect
      invariant Continues(dialect, s0, Concat(deltas[..i]), Tags(shown), stream.State())
      invariant forall e :: e in shown ==> e.text != ""
    {
      ghost var before := stream.State();
      var events := stream.Feed(deltas[i]);
      ContinuesCompose(dialect, s0, Concat(deltas[..i]), Tags(shown), before, deltas[i], Tags(events), stream.State());
      ConcatSnoc(deltas[..i], deltas[i]);
      assert deltas[..i + 1] == deltas[..i] + [deltas[i]];
      TagsAppend(shown, events);
      shown := shown + events;
    }
    assert deltas[..|deltas|] == deltas;
    ContinuesEnd(dialect, s0, Concat(deltas), Tags(shown), stream.State());
    var events := stream.Finish();
    TagsAppend(shown, events);
    shown := shown + events;
  }

  method RelayReply(deltas: seq<string>, startsInReasoning: bool, reasoningOnly: bool) returns (shown: seq<TextEvent>)
    ensures DialectFor(reasoningOnly).WellFormed()
    ensures Tags(shown) == Scan(DialectFor(reasoningOnly), Concat(deltas), startsInReasoning)
    ensures forall pieces, last :: Reads(DialectFor(reasoningOnly), Concat(deltas), startsInReasoning, pieces, last) ==>
              Tags(shown) == ShownFrom(DialectFor(reasoningOnly), pieces, last, startsInReasoning, 0)
  {
    hide Scan, Tags, Angled, Reads;
    BuiltinIsWellFormed(reasoningOnly);
    var d := DialectFor(reasoningOnly);
    shown := Relay(d, deltas, startsInReasoning);
    forall pieces, last | Reads(d, Concat(deltas), startsInReasoning, pieces, last)
      ensures Tags(shown) == ShownFrom(d, pieces, last, startsInReasoning, 0)
    {
      ReplyIsShown(d, Concat(deltas), startsInReasoning, pieces, last);
    }
  }
}
