/** Prompt-cache reuse of the mlx-vlm worker: the guarded state
    (Workers/mlx_vlm_worker/prompt_cache.py, `build_guarded_state`) and the adapter that feeds,
    settles and snapshots it (Workers/mlx_vlm_worker/adapter.py). */
module VlmCache {
  import opened Prelude
  import opened CacheState
  import opened Checkpoints

  // The cache list handed to the runtime; its identity matters, callers keep references to it.
  class CacheList {
    var parts: seq<Part>

    constructor (parts: seq<Part>)
      ensures this.parts == parts
    {
      this.parts := parts;
    }

    /** The runtime drops the last tokens in place; only a cache that can do so may be asked. */
    method DropTail(shape: seq<Part>, drop: nat)
      requires WellShaped(shape, parts) && CanTrim(parts) && drop <= |Held(parts)|
      modifies this
      ensures WellShaped(shape, parts) && parts != []
      ensures Held(parts) == old(Held(parts))[..|old(Held(parts))| - drop]
    {
      parts := Filled(shape, Held(parts)[..|Held(parts)| - drop]);
    }

    /** The runtime feeds further tokens to every component, on top of whatever they hold. */
    method Advance(shape: seq<Part>, more: seq<Token>)
      requires WellShaped(shape, parts) && parts != []
      modifies this
      ensures WellShaped(shape, parts) && parts != [] && Held(parts) == old(Held(parts)) + more
    {
      parts := Filled(shape, Held(parts) + more);
    }

    /** A reused cache: drop what it holds past the shared prefix, then feed the rest. */
    method Resume(shape: seq<Part>, prompt: seq<Token>, n: nat, full: seq<Token>, consumed: nat)
      requires ReportsLength(shape) && WellShaped(shape, parts) && parts != []
      requires n <= |prompt| && Begins(parts, prompt[..n])
      requires prompt <= full && consumed <= |full|
      requires CanTrim(parts) || CachedLength(parts).None? || CachedLength(parts).value <= n
      modifies this
      ensures WellShaped(shape, parts) && parts != []
      ensures Held(parts) <= full && consumed <= |Held(parts)|
    {
      hide CachedLength, Filled, CanTrim, ReportsLength, Begins;
      ReusedPrefix(shape, parts, prompt, n);
      var drop := CachedLength(parts).value - n;
      if drop > 0 { DropTail(shape, drop); }
      assert Held(parts) == full[..n];
      var m := if consumed < n then n else consumed;
      Advance(shape, full[n..m]);
      assert full[..n] + full[n..m] == full[..m];
    }
  }

  /** Empty, or a cache of this shape whose components all hold the same tokens and report their number. */
  ghost predicate WellShaped(shape: seq<Part>, parts: seq<Part>) {
    shape != [] && (parts == [] || parts == Filled(shape, Held(parts)))
  }

  lemma HeldFilled(shape: seq<Part>, ids: seq<Token>)
    requires ReportsLength(shape)
    ensures Held(Filled(shape, ids)) == ids && Filled(shape, ids) != [] && WellShaped(shape, Filled(shape, ids))
    ensures shape != []
  {
  }

  function Held(parts: seq<Part>): seq<Token> {
    if parts == [] then [] else parts[0].held
  }

  /** Length of the longest common prefix, as the runtime's own state computes it. */
  function SharedPrefix(a: seq<Token>, b: seq<Token>): (n: nat)
    ensures n <= |a| && n <= |b| && a[..n] == b[..n]
    ensures n < |a| && n < |b| ==> a[n] != b[n]
  {
    if a == [] || b == [] || a[0] != b[0] then 0
    else
      var n := SharedPrefix(a[1..], b[1..]);
      assert a[..n + 1] == [a[0]] + a[1..][..n] && b[..n + 1] == [b[0]] + b[1..][..n];
      n + 1
  }

  lemma {:induction false} WholePrefixIsShared(a: seq<Token>, b: seq<Token>)
    requires a <= b
    ensures SharedPrefix(a, b) == |a|
  {
  }

  /** One pass of the runtime over a prompt: whether it gets as far as asking for the shared prefix, the
      tokens it would produce, how many tokens of prompt and reply the cache had consumed when the pass
      ended, and how many of those it labels when it finishes. */
  datatype Pass = Pass(asks: bool, produced: seq<Token>, consumed: nat, labelled: nat) {
    predicate Possible(prompt: seq<Token>) {
      labelled <= consumed <= |prompt| + |produced| && (!asks ==> produced == [] && consumed == 0)
    }
  }

  /** How a request ends: finished, or interrupted after `collected` response tokens. */
  datatype Ending = Finished | Interrupted(collected: nat, memoryPressure: bool)

  /** A request. `retry` is the second pass after a reuse failure before the first token. */
  datatype Request = Request(prompt: seq<Token>, first: Pass, retry: Option<Pass>, ending: Ending) {
    function Last(): Pass {
      if retry.Some? then retry.value else first
    }

    /** What the model would have seen on a cold prefill. */
    function Full(): seq<Token> {
      prompt + Last().produced
    }

    // Every streamed response reports its token id, so the collected ids are a prefix of the reply.
    predicate Possible() {
      && first.Possible(prompt) && (retry.Some? ==> retry.value.Possible(prompt))
      && (if ending.Interrupted? then ending.collected <= |Last().produced| else Last().asks)
    }

    /** What an interrupted request expects its cache to hold. */
    function Settled(): seq<Token>
      requires Possible() && ending.Interrupted?
    {
      prompt + Last().produced[..ending.collected]
    }
  }

  datatype BoundaryEnv = BoundaryEnv(underPressure: bool, evaluates: bool, now: int, writes: bool)

  datatype Action = Reuse | Trim | Restore | Cold
  datatype RestoreEnv = RestoreEnv(makesCache: bool, unreadable: set<Digest>)

  function LabelsOf(tokenIds: Option<seq<Token>>): seq<Token> {
    if tokenIds.Some? then tokenIds.value else []
  }

  /** The four answers: cold, plain continuation, trim, and (for a cache that cannot trim) either a
      restored snapshot or an emptied cache. `0` is the state before the question, `1` after it. */
  ghost predicate Answer(parts0: seq<Part>, ids0: Option<seq<Token>>, newIds: seq<Token>, shape: seq<Part>,
                         n: nat, parts1: seq<Part>, ids1: Option<seq<Token>>, action: Option<Action>) {
    var natural := SharedPrefix(LabelsOf(ids0), newIds);
    if parts0 == [] || natural == 0 then
      n == 0 && action == Some(Cold) && ids1 == ids0 && parts1 == parts0
    else if natural >= |LabelsOf(ids0)| && (CachedLength(parts0).None? || CachedLength(parts0).value <= natural) then
      n == natural && action == Some(Reuse) && ids1 == ids0 && parts1 == parts0
    else if CanTrim(parts0) then
      n == natural && action == Some(Trim) && ids1 == ids0 && parts1 == parts0
    else
      || (n == 0 && action == Some(Cold) && ids1 == None && parts1 == [])
      || (MIN_REUSABLE_TOKENS <= n < |newIds| && action == Some(Restore)
          && ids1 == Some(newIds[..n]) && parts1 == Filled(shape, newIds[..n]))
  }

  ghost predicate Sound(parts: seq<Part>, ids: Option<seq<Token>>) {
    parts != [] ==> Begins(parts, LabelsOf(ids))
  }

  /** Whichever answer is given: never past the prompt, never positive against an empty cache, never
      shorter than a cache that cannot trim; and sound labels stay sound and make it true of what is held. */
  lemma AnswerFacts(parts0: seq<Part>, ids0: Option<seq<Token>>, newIds: seq<Token>, shape: seq<Part>,
                    n: nat, parts1: seq<Part>, ids1: Option<seq<Token>>, action: Option<Action>)
    requires ReportsLength(shape)
    requires Answer(parts0, ids0, newIds, shape, n, parts1, ids1, action)
    ensures n <= |newIds| && (n > 0 ==> parts1 != [])
    ensures n > 0 && !CanTrim(parts1) ==> CachedLength(parts1).None? || CachedLength(parts1).value <= n
    ensures Sound(parts0, ids0) ==> (n > 0 ==> Begins(parts1, newIds[..n])) && Sound(parts1, ids1)
  {
  }

  /** Whatever the answer is called: a cache that can be trimmed, or that the prompt just goes on from, is
      reused for all the prompt and its labels share, and no further. */
  lemma AnswerIsLongest(parts0: seq<Part>, ids0: Option<seq<Token>>, newIds: seq<Token>, shape: seq<Part>,
                        n: nat, parts1: seq<Part>, ids1: Option<seq<Token>>, action: Option<Action>)
    requires Answer(parts0, ids0, newIds, shape, n, parts1, ids1, action)
    requires parts0 != [] && (CanTrim(parts0) || GoesOn(parts0, LabelsOf(ids0), newIds))
    ensures LongestShared(LabelsOf(ids0), newIds, n)
  {
    hide CanTrim, CachedLength, Filled;
    var labels := LabelsOf(ids0);
    var natural := SharedPrefix(labels, newIds);
    if labels <= newIds { WholePrefixIsShared(labels, newIds); }
    assert LongestShared(labels, newIds, natural);
  }

  lemma NaturalIsLongest(parts: seq<Part>, labels: seq<Token>, newIds: seq<Token>)
    requires parts != []
    ensures var natural := SharedPrefix(labels, newIds);
            && LongestShared(labels, newIds, natural)
            && (GoesOn(parts, labels, newIds) <==>
                natural >= |labels| && (CachedLength(parts).None? || CachedLength(parts).value <= natural))
  {
    hide CachedLength;
    if labels <= newIds { WholePrefixIsShared(labels, newIds); }
  }

  lemma SharesFirst(labels: seq<Token>, newIds: seq<Token>)
    ensures SharedPrefix(labels, newIds) == 0 <==> newIds == [] || labels == [] || newIds[0] != labels[0]
  {
  }

  /** The prompt extends the labels, and the cache reports no more than they are. */
  predicate GoesOn(parts: seq<Part>, labels: seq<Token>, newIds: seq<Token>) {
    parts != [] && labels <= newIds && (CachedLength(parts).None? || CachedLength(parts).value <= |labels|)
  }

  /** The first n tokens are shared, and no more. */
  predicate LongestShared(labels: seq<Token>, newIds: seq<Token>, n: nat) {
    && n <= |labels| && n <= |newIds| && newIds[..n] == labels[..n]
    && (n < |labels| && n < |newIds| ==> labels[n] != newIds[n])
  }

  lemma AnswerKeepsShape(parts0: seq<Part>, ids0: Option<seq<Token>>, newIds: seq<Token>, shape: seq<Part>,
                         n: nat, parts1: seq<Part>, ids1: Option<seq<Token>>, action: Option<Action>)
    requires ReportsLength(shape) && WellShaped(shape, parts0)
    requires Answer(parts0, ids0, newIds, shape, n, parts1, ids1, action)
    ensures WellShaped(shape, parts1)
  {
  }

  /** What shares a prefix can go on from it as it stands: nothing is dropped, or the tail can be. */
  predicate Continues(parts: seq<Part>, ids: Option<seq<Token>>, prompt: seq<Token>) {
    var natural := SharedPrefix(LabelsOf(ids), prompt);
    && parts != []
    && (|| CanTrim(parts)
        || (natural >= |LabelsOf(ids)| && (CachedLength(parts).None? || CachedLength(parts).value <= natural)))
  }

  /** A prompt that shares nothing with the labels, or that shares all of itself with them while the cache
      can be reused or trimmed as it stands, leaves the retained cache as it is: the runtime reuses only a
      proper, non-empty part of a prompt. */
  predicate LeftAlone(parts: seq<Part>, ids: Option<seq<Token>>, prompt: seq<Token>) {
    var natural := SharedPrefix(LabelsOf(ids), prompt);
    natural == 0 || (natural == |prompt| && Continues(parts, ids, prompt))
  }

  lemma AnswerLeavesAlone(parts0: seq<Part>, ids0: Option<seq<Token>>, newIds: seq<Token>, shape: seq<Part>,
                          n: nat, parts1: seq<Part>, ids1: Option<seq<Token>>, action: Option<Action>)
    requires Answer(parts0, ids0, newIds, shape, n, parts1, ids1, action)
    ensures LeftAlone(parts0, ids0, newIds) ==> !(0 < n < |newIds|) && parts1 == parts0
    ensures !LeftAlone(parts0, ids0, newIds) && Continues(parts0, ids0, newIds) ==> 0 < n < |newIds|
    ensures !LeftAlone(parts0, ids0, newIds) && !(0 < n < |newIds|) ==> parts1 == []
  {
    hide CanTrim, CachedLength, SharedPrefix, Filled;
  }

  /** A request that will leave false labels behind: it is interrupted without memory pressure on its only
      pass, after asking for the shared prefix; the retained cache was left alone and happens to be as long
      as prompt and collected tokens together, and does not hold exactly those. */
  predicate Mislabels(parts: seq<Part>, ids: Option<seq<Token>>, r: Request)
    requires r.Possible()
  {
    && r.retry.None? && r.first.asks && r.ending.Interrupted? && !r.ending.memoryPressure
    && LeftAlone(parts, ids, r.prompt)
    && Clashes(parts, r)
  }

  /** As long as prompt and collected tokens together, and yet not holding exactly those. */
  predicate Clashes(parts: seq<Part>, r: Request)
    requires r.Possible() && r.ending.Interrupted?
  {
    CachedLength(parts) == Some(|r.prompt| + r.ending.collected) && !(r.Settled() <= Held(parts))
  }

  lemma EmptyClashesNever(r: Request)
    requires r.Possible()
    ensures r.ending.Interrupted? ==> !Clashes([], r)
  {
  }

  class GuardedState {
    var cache: CacheList?
    var tokenIds: Option<seq<Token>>
    var lastProbe: Option<Action>

    constructor ()
      ensures cache == null && tokenIds == None && lastProbe == None
    {
      cache, tokenIds, lastProbe := null, None, None;
    }

    method BeginRequest()
      modifies this`lastProbe
      ensures lastProbe == None
    {
      lastProbe := None;
    }

    /** What a finished generation writes back. */
    method Update(ids: seq<Token>, kv: CacheList)
      modifies this`cache, this`tokenIds
      ensures cache == kv && tokenIds == Some(ids)
    {
      cache, tokenIds := kv, Some(ids);
    }

    function Labels(): seq<Token>
      reads this
    {
      LabelsOf(tokenIds)
    }

    ghost predicate HasCache()
      reads this, cache
    {
      cache != null && cache.parts != []
    }

    /** Every component really begins with the tokens the state claims for it. */
    ghost predicate LabelsSound()
      reads this, cache
    {
      cache != null ==> Sound(cache.parts, tokenIds)
    }

    /** Empties the retained list in place and keeps it. */
    method TakeHeldList() returns (held: CacheList)
      requires cache != null
      modifies cache
      ensures held == cache && cache.parts == []
    {
      held := cache;
      held.parts := [];
    }

    /** How many leading tokens of the prompt the runtime may skip.

        Whatever the state held before: a positive answer is never given against an empty cache,
        and never shorter than the cache when the cache cannot drop its tail. The list object a
        caller read before asking stays the retained list. With sound labels, the first `n` tokens
        really held are the first `n` tokens of the prompt. */
    method FindPrefixLength(newIds: seq<Token>, controller: VlmAdapter, env: RestoreEnv) returns (n: nat)
      requires controller.SnapshotsFaithful()
      modifies this, cache, controller`pendingPromptIds, controller.checkpoints
      ensures controller.SnapshotsFaithful() && controller.pendingPromptIds == Some(newIds)
      ensures cache == old(cache)
      ensures n <= |newIds| && (n > 0 ==> HasCache())
      ensures n > 0 && !CanTrim(cache.parts) ==>
                CachedLength(cache.parts).None? || CachedLength(cache.parts).value <= n
      ensures n > 0 && old(LabelsSound()) ==> Begins(cache.parts, newIds[..n])
      ensures old(LabelsSound()) ==> LabelsSound()
      ensures cache == null ==> n == 0 && lastProbe == Some(Cold) && tokenIds == old(tokenIds)
      ensures cache != null ==>
                Answer(old(cache.parts), old(tokenIds), newIds, controller.shape, n, cache.parts, tokenIds, lastProbe)
      ensures old(HasCache()) && old(CanTrim(cache.parts) || GoesOn(cache.parts, Labels(), newIds)) ==>
                LongestShared(old(Labels()), newIds, n)
      ensures old(HasCache()) && !old(CanTrim(cache.parts) || GoesOn(cache.parts, Labels(), newIds)) ==>
                if newIds == [] || old(Labels()) == [] || newIds[0] != old(Labels())[0] then n == 0
                else if n > 0 then old(controller.HasSnapshot(newIds, env, n))
                else forall k: nat :: !old(controller.HasSnapshot(newIds, env, k))
    {
      hide CheckpointStore.Best, GoesOn, LongestShared;
      SharesFirst(Labels(), newIds);
      hide SharedPrefix, CanTrim, CachedLength, Filled, Begins, Sound;
      ghost var before := if cache == null then [] else cache.parts;
      ghost var labels := tokenIds;
      if HasCache() { NaturalIsLongest(before, Labels(), newIds); }
      var held := Labels();
      var natural := SharedPrefix(held, newIds);
      var cached := if cache == null then None else CachedLength(cache.parts);
      controller.ObservePrompt(newIds);
      if cache == null || cache.parts == [] || natural == 0 {
        lastProbe := Some(Cold);
        AnswerFacts(before, labels, newIds, controller.shape, 0, before, labels, lastProbe);
        return 0;
      }
      if natural >= |held| && (cached.None? || cached.value <= natural) {
        lastProbe := Some(Reuse);
        AnswerFacts(before, labels, newIds, controller.shape, natural, before, labels, lastProbe);
        return natural;
      }
      if CanTrim(cache.parts) {
        lastProbe := Some(Trim);
        AnswerFacts(before, labels, newIds, controller.shape, natural, before, labels, lastProbe);
        return natural;
      }
      label Asked:
      n := RestoreOrRefuse(newIds, controller, env);
      assert forall k: nat ::
        old(controller.HasSnapshot(newIds, env, k)) == old@Asked(controller.HasSnapshot(newIds, env, k));
      AnswerFacts(before, labels, newIds, controller.shape, n, cache.parts, tokenIds, lastProbe);
    }

    /** A cache that cannot drop its tail: a snapshot is written into the list the caller holds, or the
        list is left empty. */
    method RestoreOrRefuse(newIds: seq<Token>, controller: VlmAdapter, env: RestoreEnv) returns (n: nat)
      requires controller.SnapshotsFaithful() && cache != null
      modifies this, cache, controller.checkpoints
      ensures controller.SnapshotsFaithful() && cache == old(cache)
      ensures || (n == 0 && lastProbe == Some(Cold) && tokenIds == None && cache.parts == [])
              || (MIN_REUSABLE_TOKENS <= n < |newIds| && lastProbe == Some(Restore)
                  && tokenIds == Some(newIds[..n]) && cache.parts == Filled(controller.shape, newIds[..n]))
      ensures n > 0 ==> old(controller.HasSnapshot(newIds, env, n))
      ensures n == 0 && newIds != [] ==> forall k: nat :: !old(controller.HasSnapshot(newIds, env, k))
    {
      hide Filled, CheckpointStore.Best;
      var heldList := TakeHeldList();
      label Asked:
      var restored := controller.RestoreFor(newIds, env);
      assert forall k: nat ::
        old(controller.HasSnapshot(newIds, env, k)) == old@Asked(controller.HasSnapshot(newIds, env, k));
      if restored.Some? {
        heldList.parts := heldList.parts + restored.value.cache;
        cache := heldList;
        tokenIds := Some(restored.value.ids);
        lastProbe := Some(Restore);
        n := |restored.value.ids|;
        assert [] + restored.value.cache == restored.value.cache;
        return n;
      }
      tokenIds := None;
      lastProbe := Some(Cold);
      return 0;
    }
  }

  datatype Command =
    Chat(request: Request, env: RestoreEnv, boundary: BoundaryEnv) | ClearMemory | LoseSnapshot(d: Digest)

  /** The retained cache and its labels before a command; no cache is an empty one. */
  datatype Standing = Standing(parts: seq<Part>, ids: Option<seq<Token>>)

  ghost function StandingOf(state: GuardedState?): Standing
    reads state, if state == null then null else state.cache
  {
    if state == null || state.cache == null then NOTHING else Standing(state.cache.parts, state.tokenIds)
  }

  ghost predicate Goes(c: Command) {
    c.Chat? ==> c.request.Possible()
  }

  ghost predicate Spoils(c: Command, found: Standing)
    requires Goes(c)
  {
    c.Chat? && Mislabels(found.parts, found.ids, c.request)
  }

  /** The context a request was answered from: a leading part of its own prompt and reply, at least as long
      as what the pass consumed. */
  ghost predicate AnsweredFrom(c: Command, context: seq<Token>)
    requires Goes(c)
  {
    c.Chat? ==> context <= c.request.Full() && c.request.Last().consumed <= |context|
  }

  const NOTHING := Standing([], None)

  /** What a request leaves for the next: finished, its own context under its own labels. Interrupted, a
      cache that was left alone stays if it is as long as prompt and collected tokens, under their labels,
      and goes otherwise; one that was reused stays if it holds exactly those. Whether a cache that cannot
      go on as it stands is reused is up to the snapshots. */
  ghost predicate Leaves(shape: seq<Part>, r: Request, found: Standing, context: seq<Token>, next: Standing)
    requires r.Possible()
  {
    match r.ending
    case Finished =>
      r.Last().labelled <= |context| && next == Standing(Filled(shape, context), Some(context[..r.Last().labelled]))
    case Interrupted(_, memoryPressure) =>
      var settled := r.Settled();
      if memoryPressure || r.retry.Some? || !r.first.asks then next == NOTHING
      else if LeftAlone(found.parts, found.ids, r.prompt) then
        next == if CachedLength(found.parts) == Some(|settled|) then Standing(found.parts, Some(settled)) else NOTHING
      else
        || next == (if context == settled then Standing(Filled(shape, settled), Some(settled)) else NOTHING)
        || (next == NOTHING && !Continues(found.parts, found.ids, r.prompt))
  }

  ghost predicate Leads(shape: seq<Part>, hasState: bool, c: Command, found: Standing, context: seq<Token>,
                        next: Standing)
    requires Goes(c)
  {
    if !hasState then next == NOTHING
    else
      match c
      case Chat(r, _, _) => Leaves(shape, r, found, context, next)
      case ClearMemory => next == NOTHING
      case LoseSnapshot(_) => next == found
  }

  /** Where the passes of a request leave the retained cache: `observed` when its prompt was noted beside a
      retained cache. */
  ghost predicate AfterPasses(r: Request, found: Standing, reused: bool, observed: bool, parts: seq<Part>) {
    if r.retry.Some? || !r.first.asks then !reused && !observed
    else
      && (reused ==> observed) && (observed || found.parts == [])
      && (LeftAlone(found.parts, found.ids, r.prompt) ==> !reused && parts == found.parts)
      && (!LeftAlone(found.parts, found.ids, r.prompt) && Continues(found.parts, found.ids, r.prompt) ==> reused)
      && (!LeftAlone(found.parts, found.ids, r.prompt) && !reused ==> parts == [])
  }

  /** An interrupted request: what settling makes of that is what the request leaves, and it makes the
      labels false exactly when that could be told beforehand. */
  lemma PassesLead(shape: seq<Part>, r: Request, found: Standing, reused: bool, observed: bool, parts: seq<Part>,
                   context: seq<Token>, next: Standing)
    requires r.Possible() && r.ending.Interrupted? && ReportsLength(shape)
    requires AfterPasses(r, found, reused, observed, parts)
    requires context <= r.Full() && (reused ==> parts == Filled(shape, context))
    requires next == if !r.ending.memoryPressure && observed && CachedLength(parts) == Some(|r.Settled()|)
                     then Standing(parts, Some(r.Settled())) else NOTHING
    ensures Leaves(shape, r, found, context, next)
    ensures (!reused && observed && !r.ending.memoryPressure && Clashes(parts, r)) <==>
            Mislabels(found.parts, found.ids, r)
  {
    hide CachedLength, Filled, LeftAlone, Continues, ReportsLength;
    EmptyClashesNever(r);
    assert CachedLength([]) == None by { NoLength(); }
    if reused {
      FilledLength(shape, context);
      assert r.Settled() <= r.Full() by { SettledIsPrefix(r); }
      assert |context| == |r.Settled()| ==> context == r.Settled();
    }
  }

  lemma NoLength()
    ensures CachedLength([]) == None
  {
  }

  lemma SettledIsPrefix(r: Request)
    requires r.Possible() && r.ending.Interrupted?
    ensures r.Settled() <= r.Full()
  {
  }

  lemma NothingMislabels()
    ensures forall c :: Goes(c) ==> !Spoils(c, NOTHING)
  {
  }

  class VlmAdapter {
    // What `make_prompt_cache` builds for the loaded model, before its first token.
    const shape: seq<Part>
    const runtimeHasState: bool
    var state: GuardedState?
    var checkpoints: CheckpointStore?
    var pendingPromptIds: Option<seq<Token>>
    var persistedTokens: nat

    ghost predicate SnapshotsFaithful()
      reads this, checkpoints
    {
      && ReportsLength(shape)
      && (checkpoints != null ==>
            checkpoints.Valid() && forall c :: c in checkpoints.captured ==> c.1 == Filled(shape, c.0))
    }

    /** Everything the next request relies on except the labels. */
    ghost predicate Structural()
      reads this, checkpoints, state, if state == null then null else state.cache
    {
      && SnapshotsFaithful() && (state != null ==> runtimeHasState)
      && (state != null && state.cache != null ==> WellShaped(shape, state.cache.parts))
    }

    ghost predicate Valid()
      reads this, checkpoints, state, if state == null then null else state.cache
    {
      Structural() && (state != null ==> state.LabelsSound())
    }

    constructor (shape: seq<Part>, runtimeHasState: bool, checkpoints: CheckpointStore?)
      requires ReportsLength(shape)
      requires checkpoints != null ==>
        checkpoints.Valid() && forall c :: c in checkpoints.captured ==> c.1 == Filled(shape, c.0)
      ensures Valid() && this.shape == shape && this.checkpoints == checkpoints
      ensures this.runtimeHasState == runtimeHasState
      ensures state != null ==> fresh(state) && state.cache == null
      ensures (state == null <==> !runtimeHasState) && pendingPromptIds == None
    {
      this.shape, this.runtimeHasState, this.checkpoints := shape, runtimeHasState, checkpoints;
      state, pendingPromptIds, persistedTokens := null, None, 0;
      new;
      ResetPromptCache();
    }

    method ResetPromptCache()
      requires SnapshotsFaithful()
      modifies this`state, this`pendingPromptIds
      ensures Valid() && (state == null <==> !runtimeHasState)
      ensures state != null ==> fresh(state) && state.cache == null && state.tokenIds == None
      ensures pendingPromptIds == (if runtimeHasState then None else old(pendingPromptIds))
    {
      if !runtimeHasState {
        state := null;
        return;
      }
      pendingPromptIds := None;
      state := new GuardedState();
    }

    /** The user asks for memory back: the live cache and the in-memory snapshot go, the disk tier stays. */
    method ClearPromptCache()
      requires Valid()
      modifies this`state, this`pendingPromptIds, checkpoints
      ensures Valid() && (state != null ==> fresh(state) && state.cache == null)
      ensures state == null <==> !runtimeHasState
      ensures checkpoints != null ==>
        && checkpoints.memoryIds == None && checkpoints.memoryPayload == None
        && checkpoints.index == old(checkpoints.index) && checkpoints.files == old(checkpoints.files)
    {
      state := null;
      if checkpoints != null { checkpoints.Forget(); }
      ResetPromptCache();
    }

    method ObservePrompt(ids: seq<Token>)
      modifies this`pendingPromptIds
      ensures pendingPromptIds == Some(ids)
    {
      pendingPromptIds := Some(ids);
    }

    /** The snapshot of the first n tokens is the one to restore for this prompt. */
    ghost predicate HasSnapshot(ids: seq<Token>, env: RestoreEnv, n: nat)
      requires checkpoints != null ==> checkpoints.Valid()
      reads this`checkpoints, checkpoints
    {
      checkpoints != null && checkpoints.Best(ids, BlankCache(env), env.unreadable, n)
    }

    function BlankCache(env: RestoreEnv): Option<seq<Part>> {
      if env.makesCache then Some(Filled(shape, [])) else None
    }

    method RestoreFor(ids: seq<Token>, env: RestoreEnv) returns (r: Option<Hit>)
      requires SnapshotsFaithful()
      modifies checkpoints
      ensures SnapshotsFaithful()
      ensures r.Some? ==>
                && MIN_REUSABLE_TOKENS <= |r.value.ids| && StrictPrefix(r.value.ids, ids)
                && r.value.cache == Filled(shape, r.value.ids)
      ensures r.Some? ==> old(HasSnapshot(ids, env, |r.value.ids|))
      ensures r.None? && ids != [] ==> forall k: nat :: !old(HasSnapshot(ids, env, k))
      ensures checkpoints != null ==>
        && checkpoints.memoryIds == old(checkpoints.memoryIds)
        && checkpoints.memoryPayload == old(checkpoints.memoryPayload)
        && (if ids == [] || (r.Some? && r.value.tier.Memory?)
            then checkpoints.index == old(checkpoints.index) && checkpoints.files == old(checkpoints.files)
            else checkpoints.AfterSearch(old(checkpoints.index), old(checkpoints.files), ids, env.unreadable, Reach(r),
                                         checkpoints.index, checkpoints.files))
    {
      if checkpoints == null { return None; }
      r := checkpoints.RestoreBest(ids, BlankCache(env), env.unreadable);
      if r.Some? {
        RestoreOfCapture(shape, r.value.ids);
      }
    }

    /** Re-labels an interrupted cache with the tokens it should hold, or drops it. The relabelling
        happens exactly when the reported length equals the number of those tokens. */
    method SettleInterruptedCache(generatedIds: seq<Token>, memoryPressure: bool)
      requires Structural()
      modifies this`state, this`pendingPromptIds, state, checkpoints
      ensures Structural() && pendingPromptIds == None
      ensures var keeps := && !memoryPressure && old(state) != null && old(pendingPromptIds).Some?
                           && old(state.cache) != null
                           && CachedLength(old(state.cache.parts)) ==
                              Some(|old(pendingPromptIds).value| + |generatedIds|);
              if keeps then
                && state == old(state) && state.cache == old(state.cache)
                && state.tokenIds == Some(old(pendingPromptIds).value + generatedIds)
              else
                Valid() && (state != null ==> fresh(state) && state.cache == null)
      ensures checkpoints != null ==>
        && checkpoints.memoryIds == (if memoryPressure then None else old(checkpoints.memoryIds))
        && checkpoints.index == old(checkpoints.index) && checkpoints.files == old(checkpoints.files)
      ensures old(state) != null ==> state != null
    {
      hide CachedLength, Filled;
      var promptIds := pendingPromptIds;
      pendingPromptIds := None;
      if memoryPressure {
        if checkpoints != null { checkpoints.Forget(); }
        ResetPromptCache();
        return;
      }
      if state == null || promptIds.None? || state.cache == null {
        ResetPromptCache();
        return;
      }
      var expected := |promptIds.value| + |generatedIds|;
      var observed := CachedLength(state.cache.parts);
      if observed.None? || observed.value != expected {
        ResetPromptCache();
        return;
      }
      state.tokenIds := Some(promptIds.value + generatedIds);
    }

    /** One pass of the runtime: it asks for the shared prefix, drops what lies beyond it, and feeds
        the rest; with no usable prefix it prefills a cache of its own. Either way the cache ends up
        holding what a cold prefill would hold. */
    method Generate(prompt: seq<Token>, a: Pass, env: RestoreEnv) returns (kv: CacheList, reused: bool)
      requires Valid() && state != null && a.Possible(prompt)
      modifies this`pendingPromptIds, state, state.cache, checkpoints
      ensures Structural() && state.cache == old(state.cache)
      ensures WellShaped(shape, kv.parts) && kv.parts != []
      ensures Held(kv.parts) <= prompt + a.produced && a.consumed <= |Held(kv.parts)|
      ensures reused ==> kv == state.cache
      ensures !reused ==> fresh(kv) && state.LabelsSound()
      ensures old(state.cache) == null || !a.asks ==> !reused && pendingPromptIds == old(pendingPromptIds)
      ensures old(state.cache) != null && a.asks ==>
        && pendingPromptIds == Some(prompt)
        && (if old(LeftAlone(state.cache.parts, state.tokenIds, prompt))
            then !reused && state.cache.parts == old(state.cache.parts)
            else reused || (state.cache.parts == [] && !old(Continues(state.cache.parts, state.tokenIds, prompt))))
    {
      hide CachedLength, Filled, CanTrim, Answer, ReportsLength, SharedPrefix, LeftAlone, Continues;
      var full := prompt + a.produced;
      HeldFilled(shape, full[..a.consumed]);
      if state.cache == null || !a.asks {
        kv := new CacheList(Filled(shape, full[..a.consumed]));
        return kv, false;
      }
      ghost var parts0, ids0 := state.cache.parts, state.tokenIds;
      var n := state.FindPrefixLength(prompt, this, env);
      AnswerKeepsShape(parts0, ids0, prompt, shape, n, state.cache.parts, state.tokenIds, state.lastProbe);
      AnswerLeavesAlone(parts0, ids0, prompt, shape, n, state.cache.parts, state.tokenIds, state.lastProbe);
      kv := state.cache;
      if 0 < n < |prompt| {
        reused := true;
        kv.Resume(shape, prompt, n, full, a.consumed);
      } else {
        kv := new CacheList(Filled(shape, full[..a.consumed]));
        reused := false;
      }
    }

    predicate ShouldPersist(tokens: nat)
      reads this
    {
      if tokens < 256 then false
      else if persistedTokens <= 0 then true
      else 4 * tokens >= 5 * persistedTokens || tokens - persistedTokens >= 8192
    }

    /** Worth a write: long enough, and a quarter or 8192 tokens longer than the last one written, if any. */
    static ghost predicate GrownEnough(written: int, tokens: nat) {
      tokens >= 256 && (written > 0 ==> 4 * (tokens - written) >= written || written + 8192 <= tokens)
    }

    /** Snapshots the end of a finished turn, but only a cache that holds exactly its labels. */
    method RememberBoundary(underPressure: bool, evaluates: bool, now: int, writes: bool)
      requires Valid()
      modifies this`persistedTokens, checkpoints
      ensures Valid()
      ensures checkpoints != null ==>
        if state == null || state.cache == null || !Exact(state.cache.parts, state.Labels()) || underPressure
           || !CanCapture(state.cache.parts) || !evaluates
        then
          && checkpoints.index == old(checkpoints.index) && checkpoints.files == old(checkpoints.files)
          && persistedTokens == old(persistedTokens)
          && checkpoints.memoryIds ==
               (if state == null || state.cache == null || !Exact(state.cache.parts, state.Labels())
                then old(checkpoints.memoryIds) else None)
        else
          var ids, parts := state.Labels(), state.cache.parts;
          var tried := GrownEnough(old(persistedTokens), |ids|);
          var refused := old(checkpoints.Refusal(ids, parts)).Some?;
          && checkpoints.memoryIds == Some(ids) && checkpoints.memoryPayload == Some(parts)
          && persistedTokens == (if tried && !refused then |ids| else old(persistedTokens))
          && checkpoints.AfterPersist(old(checkpoints.index), old(checkpoints.files),
               tried && !refused && writes && checkpoints.diskEnabled, ids, parts, now,
               checkpoints.index, checkpoints.files)
    {
      hide CachedLength, Filled, CanCapture, Sound, WellShaped, ReportsLength, CheckpointStore.AfterPersist,
        CheckpointStore.Refusal;
      if checkpoints == null || state == null { return; }
      var ids := state.Labels();
      if ids == [] || state.cache == null { return; }
      var observed := CachedLength(state.cache.parts);
      if observed.Some? && observed.value != |ids| { return; }
      if underPressure {
        checkpoints.Forget();
        return;
      }
      BoundaryIsFaithful(shape, state.cache.parts, state.tokenIds);
      RememberExact(ids, state.cache.parts, evaluates, now, writes);
    }

    /** The copy, and the write when the turn has grown enough. */
    method RememberExact(ids: seq<Token>, parts: seq<Part>, evaluates: bool, now: int, writes: bool)
      requires SnapshotsFaithful() && checkpoints != null && ids != []
      requires parts != [] ==> parts == Filled(shape, ids)
      modifies this`persistedTokens, checkpoints
      ensures SnapshotsFaithful()
      ensures !CanCapture(parts) || !evaluates ==>
        && checkpoints.index == old(checkpoints.index) && checkpoints.files == old(checkpoints.files)
        && persistedTokens == old(persistedTokens) && checkpoints.memoryIds == None
      ensures CanCapture(parts) && evaluates ==>
        var tried := GrownEnough(old(persistedTokens), |ids|);
        var refused := old(checkpoints.Refusal(ids, parts)).Some?;
        && checkpoints.memoryIds == Some(ids) && checkpoints.memoryPayload == Some(parts)
        && persistedTokens == (if tried && !refused then |ids| else old(persistedTokens))
        && checkpoints.AfterPersist(old(checkpoints.index), old(checkpoints.files),
             tried && !refused && writes && checkpoints.diskEnabled, ids, parts, now,
             checkpoints.index, checkpoints.files)
    {
      hide Filled, PayloadBytes, Evicted, ReportsLength, CheckpointStore.AfterPersist;
      CapturedIsSomething(parts);
      var ok := checkpoints.Remember(ids, Some(parts), evaluates);
      if !ok { return; }
      if ShouldPersist(|ids|) {
        var reason := checkpoints.Persist(ids, now, writes);
        if reason.None? { persistedTokens := |ids|; }
      } else {
        checkpoints.NothingPersisted(ids, parts, now);
      }
    }

    /** One request from first question to last label. Whatever was reused, the cache that answered
        held what a cold prefill holds; and the labels stay sound except for exactly the requests of which
        `Mislabels` could be told beforehand. */
    method Serve(r: Request, env: RestoreEnv, b: BoundaryEnv) returns (context: seq<Token>, mislabelled: bool)
      requires Valid() && r.Possible()
      modifies this`state, this`pendingPromptIds, this`persistedTokens, state,
        if state == null then null else state.cache, checkpoints
      ensures Structural() && (state != null ==> state == old(state) || fresh(state))
      ensures (state == null) == old(state == null)
      ensures state != null && state.cache != null ==>
        fresh(state.cache) || (old(state) != null && state.cache == old(state.cache))
      ensures context <= r.Full() && r.Last().consumed <= |context|
      ensures mislabelled <==> Mislabels(old(StandingOf(state)).parts, old(StandingOf(state)).ids, r)
      ensures Valid() <==> !mislabelled
      ensures state != null ==> Leaves(shape, r, old(StandingOf(state)), context, StandingOf(state))
    {
      hide Filled, Sound, ReportsLength, LeftAlone, Continues, CachedLength;
      ghost var found := StandingOf(state);
      if state == null {
        // A runtime without prompt-cache state prefills a cache of its own every time.
        context := r.Full()[..r.Last().consumed];
        NothingClashes(r);
        return context, false;
      }
      var kv, reused := Attempt(r, env);
      context := Held(kv.parts);
      ghost var observed := pendingPromptIds.Some? && state.cache != null;
      ghost var parts := if state.cache == null then [] else state.cache.parts;
      mislabelled := Conclude(r, kv, reused, b);
      if r.ending.Interrupted? {
        PassesLead(shape, r, found, reused, observed, parts, context, StandingOf(state));
      }
    }

    /** The one or two passes of a request. */
    method Attempt(r: Request, env: RestoreEnv) returns (kv: CacheList, reused: bool)
      requires Valid() && state != null && r.Possible()
      modifies this`state, this`pendingPromptIds, state, state.cache, checkpoints
      ensures Structural() && state != null && (state == old(state) || fresh(state))
      ensures state.cache != null ==> state.cache == old(state.cache)
      ensures WellShaped(shape, kv.parts) && kv.parts != []
      ensures Held(kv.parts) <= r.Full() && r.Last().consumed <= |Held(kv.parts)|
      ensures pendingPromptIds.None? || pendingPromptIds == Some(r.prompt)
      ensures if reused then kv == state.cache else fresh(kv) && state.LabelsSound()
      ensures AfterPasses(r, old(StandingOf(state)), reused, pendingPromptIds.Some? && state.cache != null,
                          if state.cache == null then [] else state.cache.parts)
    {
      hide Filled, Sound, ReportsLength, LeftAlone, Continues;
      NothingIsLeftAlone(r.prompt);
      pendingPromptIds := None;
      state.BeginRequest();
      kv, reused := Generate(r.prompt, r.first, env);
      if r.retry.Some? {
        // Reuse failed before the first token: once more, with a fresh state.
        ResetPromptCache();
        kv, reused := Generate(r.prompt, r.retry.value, env);
      }
    }

    /** The end of a request: labels written by the runtime and a snapshot, or settling. Settling makes the
        labels false exactly when an interrupted request that did not reuse the retained cache meets one as
        long as its prompt and collected tokens that does not hold exactly those. */
    method Conclude(r: Request, kv: CacheList, reused: bool, b: BoundaryEnv) returns (mislabelled: bool)
      requires Structural() && state != null && r.Possible()
      requires WellShaped(shape, kv.parts) && kv.parts != []
      requires Held(kv.parts) <= r.Full() && r.Last().consumed <= |Held(kv.parts)|
      requires pendingPromptIds.None? || pendingPromptIds == Some(r.prompt)
      requires reused ==> kv == state.cache
      requires !reused ==> state.LabelsSound()
      modifies this`state, this`pendingPromptIds, this`persistedTokens, state, checkpoints
      ensures Structural() && (state != null ==> state == old(state) || fresh(state)) && state != null
      ensures state.cache != null ==> state.cache == kv || state.cache == old(state.cache)
      ensures Valid() <==> !mislabelled
      ensures mislabelled <==>
                && !reused && r.ending.Interrupted? && !r.ending.memoryPressure
                && old(pendingPromptIds).Some? && old(state.cache) != null && Clashes(old(state.cache.parts), r)
      ensures r.ending.Finished? ==>
        state.cache == kv && r.Last().labelled <= |Held(kv.parts)|
        && state.tokenIds == Some(Held(kv.parts)[..r.Last().labelled])
      ensures r.ending.Interrupted? ==>
        StandingOf(state) ==
          if !r.ending.memoryPressure && old(pendingPromptIds).Some? && old(state.cache) != null
             && CachedLength(old(state.cache.parts)) == Some(|r.Settled()|)
          then Standing(old(state.cache.parts), Some(r.Settled())) else NOTHING
    {
      hide CachedLength, Filled, Sound, ReportsLength;
      if r.ending.Finished? {
        Finish(kv, r.Last().labelled, b);
        return false;
      }
      var collected := r.Last().produced[..r.ending.collected];
      if reused { SettledLabels(shape, kv.parts, r.prompt, r.Last().produced, r.ending.collected); }
      if state.cache != null { SoundExactly(shape, state.cache.parts, r.Settled()); }
      EmptyClashesNever(r);
      mislabelled := && !reused && !r.ending.memoryPressure && pendingPromptIds.Some? && state.cache != null
                     && Clashes(state.cache.parts, r);
      SettleInterruptedCache(collected, r.ending.memoryPressure);
    }

    /** The runtime writes its labels, and the end of the turn is remembered. */
    method Finish(kv: CacheList, labelled: nat, b: BoundaryEnv)
      requires Structural() && state != null
      requires WellShaped(shape, kv.parts) && kv.parts != [] && labelled <= |Held(kv.parts)|
      modifies this`persistedTokens, state, checkpoints
      ensures Valid() && state.cache == kv && state.tokenIds == Some(Held(kv.parts)[..labelled])
    {
      hide CachedLength, Filled, Sound, ReportsLength;
      FinishedLabels(shape, kv.parts, labelled);
      state.Update(Held(kv.parts)[..labelled], kv);
      RememberBoundary(b.underPressure, b.evaluates, b.now, b.writes);
    }

    method Perform(c: Command) returns (context: seq<Token>, mislabelled: bool)
      requires Valid() && Goes(c)
      modifies this`state, this`pendingPromptIds, this`persistedTokens, state,
        if state == null then null else state.cache, checkpoints
      requires state == null <==> !runtimeHasState
      ensures state == null <==> !runtimeHasState
      ensures state != null ==> state == old(state) || fresh(state)
      ensures state != null && state.cache != null ==>
        fresh(state.cache) || (old(state) != null && state.cache == old(state.cache))
      ensures Valid() <==> !mislabelled
      ensures mislabelled <==> Spoils(c, old(StandingOf(state)))
      ensures AnsweredFrom(c, context)
      ensures Leads(shape, old(state) != null, c, old(StandingOf(state)), context, StandingOf(state))
    {
      hide Filled, LeftAlone, Continues, CachedLength, Mislabels, Sound, ReportsLength, Leaves;
      NothingMislabels();
      context, mislabelled := [], false;
      match c
      case Chat(request, env, boundary) =>
        context, mislabelled := Serve(request, env, boundary);
      case ClearMemory =>
        ClearPromptCache();
      case LoseSnapshot(d) =>
        if checkpoints != null { checkpoints.LoseFile(d); }
    }
  }

  lemma NothingIsLeftAlone(prompt: seq<Token>)
    ensures LeftAlone([], None, prompt)
  {
  }

  lemma NothingClashes(r: Request)
    requires r.Possible()
    ensures !Mislabels([], None, r)
  {
    hide LeftAlone;
    EmptyClashesNever(r);
  }

  lemma FinishedLabels(shape: seq<Part>, parts: seq<Part>, labelled: nat)
    requires WellShaped(shape, parts) && parts != [] && labelled <= |Held(parts)|
    ensures Sound(parts, Some(Held(parts)[..labelled]))
  {
  }

  /** A cache that is known to hold its labels and nothing more. */
  predicate Exact(parts: seq<Part>, labels: seq<Token>) {
    labels != [] && (CachedLength(parts).None? || CachedLength(parts).value == |labels|)
  }

  // An interrupted cache whose length is that of prompt plus collected tokens holds exactly those.
  lemma SettledLabels(shape: seq<Part>, parts: seq<Part>, prompt: seq<Token>, produced: seq<Token>, collected: nat)
    requires ReportsLength(shape) && WellShaped(shape, parts) && parts != []
    requires Held(parts) <= prompt + produced && collected <= |produced|
    ensures CachedLength(parts) == Some(|prompt| + collected) ==> Sound(parts, Some(prompt + produced[..collected]))
  {
  }

  /** Labels are true of a cache exactly when it begins with them. */
  lemma SoundExactly(shape: seq<Part>, parts: seq<Part>, ids: seq<Token>)
    requires WellShaped(shape, parts)
    ensures parts != [] ==> (Sound(parts, Some(ids)) <==> ids <= Held(parts))
  {
    if parts != [] { assert parts[0] in parts; }
  }

  // A positive answer against a sound cache: the cache begins with that prefix, reports its true
  // length, and can drop the rest if there is any.
  lemma ReusedPrefix(shape: seq<Part>, parts: seq<Part>, prompt: seq<Token>, n: nat)
    requires ReportsLength(shape) && WellShaped(shape, parts) && n <= |prompt|
    requires Begins(parts, prompt[..n])
    ensures CachedLength(parts) == Some(|Held(parts)|)
    ensures n <= |Held(parts)| && Held(parts)[..n] == prompt[..n]
  {
    hide CachedLength, Filled;
    FilledLength(shape, Held(parts));
    assert parts[0] in parts;
  }

  lemma CapturedIsSomething(parts: seq<Part>)
    ensures CanCapture(parts) ==> parts != []
  {
  }

  lemma BoundaryIsFaithful(shape: seq<Part>, parts: seq<Part>, ids: Option<seq<Token>>)
    requires ReportsLength(shape) && WellShaped(shape, parts) && Sound(parts, ids)
    requires parts != [] ==> CachedLength(parts).None? || CachedLength(parts).value == |LabelsOf(ids)|
    ensures parts != [] ==> parts == Filled(shape, LabelsOf(ids))
    ensures CanCapture(parts) ==> parts != []
  {
    hide CachedLength, Filled;
    if parts != [] {
      var labels := LabelsOf(ids);
      FilledLength(shape, Held(parts));
      assert parts[0] in parts;
      assert labels <= Held(parts) && |labels| == |Held(parts)|;
      assert labels == Held(parts);
    }
  }

  /** A run of these commands: one context and one standing found per command served, the first found
      nothing and each later one what the command before left; all commands are served unless one spoils
      what it finds, which is then the last. */
  ghost predicate IsRun(shape: seq<Part>, hasState: bool, commands: seq<Command>, contexts: seq<seq<Token>>,
                        mislabelled: bool, trail: seq<Standing>)
    requires forall i :: 0 <= i < |commands| ==> Goes(commands[i])
  {
    && |trail| == |contexts| <= |commands|
    && (if mislabelled then contexts != [] else |contexts| == |commands|)
    && (trail != [] ==> trail[0] == NOTHING)
    && (forall i :: 0 <= i < |contexts| ==> AnsweredFrom(commands[i], contexts[i]))
    && (forall i :: 0 <= i < |contexts| ==> (Spoils(commands[i], trail[i]) <==> mislabelled && i == |contexts| - 1))
    && (forall i :: 0 < i < |contexts| ==>
          Leads(shape, hasState, commands[i - 1], trail[i - 1], contexts[i - 1], trail[i]))
  }

  /** Labels go false in a run exactly when a command spoils what it finds, and nothing else ends it early. */
  lemma RunEndsExactly(shape: seq<Part>, hasState: bool, commands: seq<Command>, contexts: seq<seq<Token>>,
                       mislabelled: bool, trail: seq<Standing>)
    requires forall i :: 0 <= i < |commands| ==> Goes(commands[i])
    requires IsRun(shape, hasState, commands, contexts, mislabelled, trail)
    ensures mislabelled <==> exists i :: 0 <= i < |contexts| && Spoils(commands[i], trail[i])
    ensures |contexts| < |commands| ==> mislabelled
  {
    hide Spoils, Leads, AnsweredFrom;
    if mislabelled { assert Spoils(commands[|contexts| - 1], trail[|contexts| - 1]); }
  }

  /** In particular a run in which no request is interrupted without memory pressure is served to its end. */
  lemma FinishedRunsAreServed(shape: seq<Part>, hasState: bool, commands: seq<Command>, contexts: seq<seq<Token>>,
                              mislabelled: bool, trail: seq<Standing>)
    requires forall i :: 0 <= i < |commands| ==> Goes(commands[i])
    requires forall i :: 0 <= i < |commands| && commands[i].Chat? && commands[i].request.ending.Interrupted? ==>
               commands[i].request.ending.memoryPressure
    requires IsRun(shape, hasState, commands, contexts, mislabelled, trail)
    ensures !mislabelled && |contexts| == |commands|
  {
    hide Leads, AnsweredFrom, LeftAlone;
    RunEndsExactly(shape, hasState, commands, contexts, mislabelled, trail);
  }

  /** Every run of finished, interrupted, memory-stopped and retried requests, with memory cleared and
      snapshot files lost in between, on a store that may already hold snapshots of earlier runs: up to
      and including the first request that mislabels the cache it found, each was answered from a cache
      that held exactly the leading tokens of its own prompt and reply. `trail` is what each command found. */
  method Run(shape: seq<Part>, runtimeHasState: bool, store: CheckpointStore?, commands: seq<Command>)
    returns (contexts: seq<seq<Token>>, mislabelled: bool, ghost trail: seq<Standing>)
    requires ReportsLength(shape)
    requires store != null ==> store.Valid() && forall c :: c in store.captured ==> c.1 == Filled(shape, c.0)
    requires forall i :: 0 <= i < |commands| ==> Goes(commands[i])
    modifies store
    ensures IsRun(shape, runtimeHasState, commands, contexts, mislabelled, trail)
  {
    hide Filled, LeftAlone, Continues, CachedLength, Mislabels, Sound, Spoils, Leads, AnsweredFrom, Goes, ReportsLength;
    var adapter := new VlmAdapter(shape, runtimeHasState, store);
    contexts, mislabelled, trail := [], false, [];
    for i := 0 to |commands|
      invariant |trail| == |contexts| == i && !mislabelled
      invariant fresh(adapter) && adapter.checkpoints == store && adapter.shape == shape && adapter.Valid()
      invariant adapter.state == null <==> !runtimeHasState
      invariant adapter.state != null ==>
        fresh(adapter.state) && (adapter.state.cache != null ==> fresh(adapter.state.cache))
      invariant i == 0 ==> StandingOf(adapter.state) == NOTHING
      invariant i > 0 ==> trail[0] == NOTHING
      invariant i > 0 ==>
        Leads(shape, runtimeHasState, commands[i - 1], trail[i - 1], contexts[i - 1], StandingOf(adapter.state))
      invariant forall k :: 0 <= k < i ==> AnsweredFrom(commands[k], contexts[k]) && !Spoils(commands[k], trail[k])
      invariant forall k :: 0 < k < i ==>
        Leads(shape, runtimeHasState, commands[k - 1], trail[k - 1], contexts[k - 1], trail[k])
    {
      trail := trail + [StandingOf(adapter.state)];
      var context;
      context, mislabelled := adapter.Perform(commands[i]);
      contexts := contexts + [context];
      if mislabelled { return; }
    }
  }

  /** What false labels do: a request that spoils the cache it finds leaves it under labels that are not
      true of it, and whatever the answer to a prompt that goes on from those labels, it counts tokens the
      cache does not hold. */
  lemma FalseLabelsMislead(shape: seq<Part>, r: Request, found: Standing, context: seq<Token>, next: Standing,
                           more: seq<Token>, n: nat, parts: seq<Part>, ids: Option<seq<Token>>, action: Option<Action>)
    requires ReportsLength(shape) && WellShaped(shape, found.parts) && r.Possible()
    requires Mislabels(found.parts, found.ids, r) && r.Settled() != [] && more != []
    requires Leaves(shape, r, found, context, next)
    requires Answer(next.parts, next.ids, r.Settled() + more, shape, n, parts, ids, action)
    ensures next == Standing(found.parts, Some(r.Settled()))
    ensures n == |r.Settled()| && action == Some(Reuse) && parts == found.parts
    ensures !(r.Settled() <= Held(parts))
  {
    hide CanTrim, CachedLength, Filled, LeftAlone, Held, ReportsLength;
    assert CachedLength([]) == None by { NoLength(); }
    assert r.Settled() <= r.Settled() + more;
    WholePrefixIsShared(r.Settled(), r.Settled() + more);
  }

  /** Two requests: one that leaves [1, 2, 3] under its own labels, and one that is interrupted after its
      first token. */
  function Twice(prompt: seq<Token>, env: RestoreEnv, b: BoundaryEnv): (r: seq<Command>)
    ensures forall i :: 0 <= i < |r| ==> Goes(r[i])
  {
    [Chat(Request([1, 2, 3], Pass(true, [], 3, 3), None, Finished), env, b),
     Chat(Request(prompt, Pass(true, [7], 0, 0), None, Interrupted(1, false)), env, b)]
  }

  // What the second of them finds, in every run.
  lemma SecondFinds(part: Part, prompt: seq<Token>, env: RestoreEnv, b: BoundaryEnv, contexts: seq<seq<Token>>,
                    mislabelled: bool, trail: seq<Standing>)
    requires IsRun([part], true, Twice(prompt, env, b), contexts, mislabelled, trail)
    ensures |contexts| == |trail| == 2 && trail[1] == Standing(Filled([part], [1, 2, 3]), Some([1, 2, 3]))
  {
    hide LeftAlone, Filled, Clashes;
    var commands := Twice(prompt, env, b);
    assert !Spoils(commands[0], trail[0]) && AnsweredFrom(commands[0], contexts[0]);
    assert [1, 2, 3] + [] == [1, 2, 3];
    assert contexts[0] == [1, 2, 3] && contexts[0][..3] == contexts[0];
    assert Leads([part], true, commands[0], trail[0], contexts[0], trail[1]);
  }

  /** Why labels go wrong: settling compares lengths only. A cache of [1, 2, 3] is left alone by a request
      for [9, 8] that is interrupted after one token, and is then labelled [9, 8, 7]; every such run ends
      with false labels. */
  lemma LengthCoincidenceMislabels(part: Part, env: RestoreEnv, b: BoundaryEnv, contexts: seq<seq<Token>>,
                                   mislabelled: bool, trail: seq<Standing>)
    requires part.offset.Some?
    requires IsRun([part], true, Twice([9, 8], env, b), contexts, mislabelled, trail)
    ensures mislabelled && |contexts| == 2
  {
    hide IsRun, Filled, CachedLength, CanTrim;
    SecondFinds(part, [9, 8], env, b, contexts, mislabelled, trail);
    CachedThree(part);
    var r := Twice([9, 8], env, b)[1].request;
    assert r.Settled() == [9, 8, 7];
    assert SharedPrefix([1, 2, 3], [9, 8]) == 0;
    assert Mislabels(trail[1].parts, trail[1].ids, r);
    RunEndsExactly([part], true, Twice([9, 8], env, b), contexts, mislabelled, trail);
  }

  /** The same happens when a reply is generated again: a cache of [1, 2, 3] that can be trimmed is asked
      for its own leading tokens [1, 2], which the runtime does not reuse; interrupted after one token,
      the cache is labelled [1, 2, 7]. */
  lemma RegenerateMislabels(part: Part, env: RestoreEnv, b: BoundaryEnv, contexts: seq<seq<Token>>,
                            mislabelled: bool, trail: seq<Standing>)
    requires part.offset.Some? && part.hasTrim && part.probe.Says(3)
    requires IsRun([part], true, Twice([1, 2], env, b), contexts, mislabelled, trail)
    ensures mislabelled && |contexts| == 2
  {
    hide IsRun, Filled, CachedLength, CanTrim;
    SecondFinds(part, [1, 2], env, b, contexts, mislabelled, trail);
    CachedThree(part);
    FilledTrims([part], [1, 2, 3]);
    var r := Twice([1, 2], env, b)[1].request;
    assert r.Settled() == [1, 2, 7];
    SharesTwo();
    assert Mislabels(trail[1].parts, trail[1].ids, r);
    RunEndsExactly([part], true, Twice([1, 2], env, b), contexts, mislabelled, trail);
  }

  lemma SharesTwo()
    ensures SharedPrefix([1, 2, 3], [1, 2]) == 2
  {
  }

  lemma CachedThree(part: Part)
    requires part.offset.Some?
    ensures CachedLength(Filled([part], [1, 2, 3])) == Some(3) && Held(Filled([part], [1, 2, 3])) == [1, 2, 3]
    ensures Filled([part], [1, 2, 3]) != []
  {
    hide CachedLength;
    assert part in [part];
    FilledLength([part], [1, 2, 3]);
  }
}
