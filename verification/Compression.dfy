/** Context compression (Coordinator/mlxbar/api/context_compression.py): which middle of a
    conversation may be summarised, and what the compressed conversation looks like. */
module Compression {
  import opened Prelude

  datatype Role = System | User | Assistant | Tool

  /** A chat message: its role, whether it carries tool calls or an image, and the rest. */
  datatype Message = Message(role: Role, hasCalls: bool, hasImage: bool, content: string)

  const SUMMARY_PREFIX := "[Earlier conversation summarized]\n"
  const MIN_MIDDLE_MESSAGES := 2

  predicate CallTurn(m: Message) {
    m.role.Assistant? && m.hasCalls
  }

  /** Tool results follow their calls: a `tool` message comes right after another one or after a call
      turn, and a call turn that is not the last message is followed by a `tool` message. */
  ghost predicate Paired(ms: seq<Message>) {
    && (forall i :: 0 <= i < |ms| && ms[i].role.Tool? ==> i > 0 && (ms[i - 1].role.Tool? || CallTurn(ms[i - 1])))
    && (forall i :: 0 < i < |ms| && CallTurn(ms[i - 1]) ==> ms[i].role.Tool?)
  }

  /** A boundary that separates no result from its call. */
  predicate Splits(ms: seq<Message>, t: nat)
    requires 0 < t < |ms|
  {
    ms[t].role.Tool? || CallTurn(ms[t - 1])
  }

  datatype SplitResult = NoSplit | Split(start: nat, tailStart: nat)

  function Start(ms: seq<Message>): nat {
    if ms != [] && ms[0].role.System? then 1 else 0
  }

  /** The largest boundary the tail length and the images allow. */
  function Bound(ms: seq<Message>, keepTail: nat): nat
    requires Start(ms) + keepTail < |ms|
  {
    var naive := |ms| - keepTail;
    var image := FirstImage(ms, Start(ms));
    if image.Some? && image.value < naive then image.value else naive
  }

  function FirstImage(ms: seq<Message>, from: nat): (r: Option<nat>)
    requires from <= |ms|
    ensures r.Some? ==> from <= r.value < |ms| && ms[r.value].hasImage
    ensures forall i :: from <= i < (if r.Some? then r.value else |ms|) ==> !ms[i].hasImage
    decreases |ms| - from
  {
    if from == |ms| then None else if ms[from].hasImage then Some(from) else FirstImage(ms, from + 1)
  }

  ghost predicate NoImage(ms: seq<Message>, from: nat, to: nat)
    requires to <= |ms|
  {
    forall i :: from <= i < to ==> !ms[i].hasImage
  }

  /** A boundary that leaves the last `keepTail` messages and every image alone and splits no pair. */
  ghost predicate Legal(ms: seq<Message>, keepTail: nat, t: int)
    requires keepTail >= 1
  {
    && Start(ms) < t <= |ms| - keepTail
    && ms[t].role != Tool && !(ms[t - 1].role == Assistant && ms[t - 1].hasCalls)
    && NoImage(ms, Start(ms), t)
  }

  ghost predicate Rightmost(ms: seq<Message>, keepTail: nat, t: nat)
    requires keepTail >= 1
  {
    && Start(ms) + MIN_MIDDLE_MESSAGES <= t && Legal(ms, keepTail, t)
    && forall u :: t < u ==> !Legal(ms, keepTail, u)
  }

  /** The chosen boundary is the rightmost one that is allowed: it leaves the last `keepTail` messages
      and every image alone and splits no pair; there is no split only when every such boundary would
      leave fewer than two messages to summarise. */
  method SplitPoint(ms: seq<Message>, keepTail: nat) returns (r: SplitResult)
    requires keepTail >= 1
    ensures r.Split? ==> r.start == Start(ms) && Rightmost(ms, keepTail, r.tailStart)
    ensures r.Split? ==> r.start == if ms[0].role == System then 1 else 0
    ensures r.NoSplit? <==> forall t :: Start(ms) + MIN_MIDDLE_MESSAGES <= t ==> !Legal(ms, keepTail, t)
  {
    if ms == [] { return NoSplit; }
    var start := Start(ms);
    assert forall t :: Legal(ms, keepTail, t) ==> !Splits(ms, t);
    if |ms| - start <= keepTail { return NoSplit; }
    var tailStart := Bound(ms, keepTail);
    ghost var bound := tailStart;
    assert forall t :: bound < t <= |ms| - keepTail ==> !NoImage(ms, start, t);
    while tailStart > start && Splits(ms, tailStart)
      invariant start <= tailStart <= bound <= |ms| - keepTail
      invariant forall t :: tailStart < t <= bound ==> Splits(ms, t)
    {
      tailStart := tailStart - 1;
    }
    if tailStart < start + MIN_MIDDLE_MESSAGES { return NoSplit; }
    r := Split(start, tailStart);
  }

  // ------------------------------------------------------------------- reassembly

  function Summary(text: string): Message {
    Message(System, false, false, SUMMARY_PREFIX + text)
  }

  function Compressed(ms: seq<Message>, start: nat, tailStart: nat, summary: string): seq<Message>
    requires start <= tailStart <= |ms|
  {
    ms[..start] + [Summary(summary)] + ms[tailStart..]
  }

  /** What the summarising model is shown: the middle, then the instruction. */
  function SummaryPrompt(ms: seq<Message>, start: nat, tailStart: nat, instruction: string): seq<Message>
    requires start <= tailStart <= |ms|
  {
    ms[start..tailStart] + [Message(User, false, false, instruction)]
  }

  /** Compression keeps tool pairing, in the conversation and in the summariser's prompt. */
  lemma CompressionKeepsPairing(ms: seq<Message>, tailStart: nat, summary: string, instruction: string)
    requires Paired(ms) && Start(ms) < tailStart < |ms| && !Splits(ms, tailStart)
    ensures Paired(Compressed(ms, Start(ms), tailStart, summary))
    ensures Paired(SummaryPrompt(ms, Start(ms), tailStart, instruction))
  {
    var start := Start(ms);
    var c := Compressed(ms, start, tailStart, summary);
    var shift := tailStart - start - 1;
    assert forall i :: start < i < |c| ==> c[i] == ms[i + shift];
    forall i | 0 <= i < |c| && c[i].role.Tool? ensures i > 0 && (c[i - 1].role.Tool? || CallTurn(c[i - 1])) {
      if i > start { assert ms[i + shift].role.Tool?; }
    }
    forall i | 0 < i < |c| && CallTurn(c[i - 1]) ensures c[i].role.Tool? {
      if i > start + 1 { assert CallTurn(ms[i - 1 + shift]); }
    }
    var p := SummaryPrompt(ms, start, tailStart, instruction);
    assert forall i :: 0 <= i < tailStart - start ==> p[i] == ms[start + i];
    forall i | 0 <= i < |p| && p[i].role.Tool? ensures i > 0 && (p[i - 1].role.Tool? || CallTurn(p[i - 1])) {
      assert ms[start + i].role.Tool?;
    }
    forall i | 0 < i < |p| && CallTurn(p[i - 1]) ensures p[i].role.Tool? {
      assert CallTurn(ms[start + i - 1]);
    }
  }

  /** `out` is the conversation with everything between the head and `t` replaced by its summary, and the
      summariser was shown that middle with tool results paired if they were. */
  ghost predicate SummarisedAt(ms: seq<Message>, t: nat, summarise: seq<Message> -> Option<string>, instruction: string,
                               out: seq<Message>)
    requires ms != [] && 1 <= t <= |ms|
  {
    var head := if ms[0].role == System then 1 else 0;
    var prompt := ms[head..t] + [Message(User, false, false, instruction)];
    && Answers(summarise, ms, t, instruction)
    && out == ms[..head]
              + [Message(System, false, false, "[Earlier conversation summarized]\n" + summarise(prompt).value)]
              + ms[t..]
    && (Paired(ms) ==> Paired(prompt))
  }

  /** Shown what lies between the leading system message and `t`, then the instruction, the summariser says
      something. */
  ghost predicate Answers(summarise: seq<Message> -> Option<string>, ms: seq<Message>, t: nat, instruction: string)
    requires ms != [] && 1 <= t <= |ms|
  {
    var head := if ms[0].role == System then 1 else 0;
    var prompt := ms[head..t] + [Message(User, false, false, instruction)];
    summarise(prompt).Some? && summarise(prompt).value != ""
  }

  /** Compression at a legal boundary keeps the head, the tail and every image. */
  lemma CompressionKeepsTheRest(ms: seq<Message>, keepTail: nat, t: nat, summary: string)
    requires keepTail >= 1 && Legal(ms, keepTail, t)
    ensures var out := Compressed(ms, Start(ms), t, summary);
            && |out| == |ms| - (t - Start(ms)) + 1 && |out| >= keepTail
            && out[|out| - keepTail..] == ms[|ms| - keepTail..]
            && out[..Start(ms)] == ms[..Start(ms)]
            && forall m :: m in ms && m.hasImage ==> m in out
  {
    var out := Compressed(ms, Start(ms), t, summary);
    var shift := t - Start(ms) - 1;
    forall m | m in ms && m.hasImage ensures m in out {
      var i :| 0 <= i < |ms| && ms[i] == m;
      if i < Start(ms) { assert out[i] == m; } else { assert out[i - shift] == m; }
    }
  }

  /** Best effort: the conversation is either untouched or compressed at the chosen split, keeping the
      leading system message, every image turn and the last `keepTail` messages word for word. */
  method MaybeCompress(ms: seq<Message>, enabled: bool, overTrigger: bool, keepTail: nat,
                       summarise: seq<Message> -> Option<string>, instruction: string)
    returns (out: seq<Message>, dropped: nat)
    requires keepTail >= 1
    ensures Paired(ms) ==> Paired(out)
    ensures dropped == 0 ==> out == ms
    ensures dropped > 0 ==> enabled && overTrigger && |out| == |ms| - dropped + 1
    ensures |ms| >= keepTail && |out| >= keepTail ==> out[|out| - keepTail..] == ms[|ms| - keepTail..]
    ensures Start(ms) <= |out| && out[..Start(ms)] == ms[..Start(ms)]
    ensures forall m :: m in ms && m.hasImage ==> m in out
    ensures enabled && overTrigger ==>
              forall t: nat ::
                Rightmost(ms, keepTail, t) && Answers(summarise, ms, t, instruction) ==>
                dropped == t - Start(ms)
    ensures dropped > 0 ==>
              && Rightmost(ms, keepTail, Start(ms) + dropped)
              && SummarisedAt(ms, Start(ms) + dropped, summarise, instruction, out)
  {
    hide Paired, NoImage;
    out, dropped := ms, 0;
    if !enabled || !overTrigger { return; }
    var split := SplitPoint(ms, keepTail);
    if split.NoSplit? { return; }
    var summary := summarise(SummaryPrompt(ms, split.start, split.tailStart, instruction));
    if summary.None? || summary.value == "" { return; }
    out := Compressed(ms, split.start, split.tailStart, summary.value);
    dropped := split.tailStart - split.start;
    if Paired(ms) { CompressionKeepsPairing(ms, split.tailStart, summary.value, instruction); }
    CompressionKeepsTheRest(ms, keepTail, split.tailStart, summary.value);
  }
}
