/** Capability probes and budget arithmetic (Workers/common/cache_state.py). */
module CacheState {
  import opened Prelude

  type Token = int

  // `is_trimmable`: absent; answers the same always, or only until so many tokens were consumed, as a
  // rotating cache does; or raises.
  datatype TrimProbe = NoProbe | Answers(yes: bool) | UntilFull(limit: nat) | Raises {
    predicate Says(consumed: nat) {
      match this
      case NoProbe => true
      case Answers(yes) => yes
      case UntilFull(limit) => consumed < limit
      case Raises => false
    }
  }

  /** One component of a prompt cache. `held` is what it has really consumed; `offset` is the
      length it reports, if it reports one. */
  datatype Part = Part(held: seq<Token>, offset: Option<nat>, hasTrim: bool, probe: TrimProbe,
                       capturable: bool, fixedBytes: nat, tokenBytes: nat)

  predicate CanTrim(parts: seq<Part>) {
    parts != [] && forall p :: p in parts ==> p.hasTrim && p.probe.Says(|p.held|)
  }

  predicate CanCapture(parts: seq<Part>) {
    parts != [] && forall p :: p in parts ==> p.capturable
  }

  /** The largest reported offset; None when no component reports one. */
  function CachedLength(parts: seq<Part>): (r: Option<nat>)
    ensures r.None? <==> forall p :: p in parts ==> p.offset.None?
    ensures r.Some? ==> exists p :: p in parts && p.offset == r
    ensures forall p :: p in parts && p.offset.Some? ==> r.Some? && p.offset.value <= r.value
  {
    if parts == [] then None
    else
      var rest := CachedLength(parts[1..]);
      var first := parts[0].offset;
      if first.None? || (rest.Some? && first.value <= rest.value) then rest else first
  }

  // ---------------------------------------------------------------- contents

  /** A cache of this shape after consuming `ids`: components that report a length report that one. */
  function Filled(shape: seq<Part>, ids: seq<Token>): (r: seq<Part>)
    ensures |r| == |shape|
  {
    seq(|shape|, i requires 0 <= i < |shape| =>
      shape[i].(held := ids, offset := if shape[i].offset.Some? then Some(|ids|) else None))
  }

  predicate ReportsLength(shape: seq<Part>) {
    exists p :: p in shape && p.offset.Some?
  }

  ghost predicate Begins(parts: seq<Part>, ids: seq<Token>) {
    parts != [] && forall p :: p in parts ==> ids <= p.held
  }

  lemma FilledLength(shape: seq<Part>, ids: seq<Token>)
    requires ReportsLength(shape)
    ensures CachedLength(Filled(shape, ids)) == Some(|ids|)
  {
    hide CachedLength;
    var f := Filled(shape, ids);
    var i :| 0 <= i < |shape| && shape[i].offset.Some?;
    assert f[i] in f && f[i].offset == Some(|ids|);
    assert forall p :: p in f ==> p.offset.None? || p.offset == Some(|ids|);
  }

  /** Whether a cache can drop its tail depends on its components and on how much it has consumed; once one
      component is full it cannot, and it never can again. */
  lemma FilledTrims(shape: seq<Part>, ids: seq<Token>)
    ensures CanTrim(Filled(shape, ids)) <==>
            (shape != [] && forall p :: p in shape ==> p.hasTrim && p.probe.Says(|ids|))
    ensures forall more :: CanTrim(Filled(shape, ids + more)) ==> CanTrim(Filled(shape, ids))
  {
    FilledSays(shape, ids);
    forall more | CanTrim(Filled(shape, ids + more)) ensures CanTrim(Filled(shape, ids)) {
      FilledSays(shape, ids + more);
    }
  }

  lemma FilledSays(shape: seq<Part>, ids: seq<Token>)
    ensures CanTrim(Filled(shape, ids)) <==>
            (shape != [] && forall p :: p in shape ==> p.hasTrim && p.probe.Says(|ids|))
  {
    var f := Filled(shape, ids);
    assert forall k :: 0 <= k < |shape| ==>
      f[k].hasTrim == shape[k].hasTrim && f[k].probe == shape[k].probe && f[k].held == ids;
    if CanTrim(f) {
      forall p | p in shape ensures p.hasTrim && p.probe.Says(|ids|) {
        var k :| 0 <= k < |shape| && shape[k] == p;
        assert f[k] in f;
      }
    }
  }

  // ------------------------------------------------------------------ copies

  type Payload = seq<Part>

  /** The copy taken of a cache, or None when some component refuses. */
  function Capture(parts: seq<Part>): Option<Payload> {
    if CanCapture(parts) then Some(parts) else None
  }

  /** Writes a payload into freshly made components; None on a shape mismatch. */
  function Restored(fresh_: seq<Part>, payload: Payload): Option<seq<Part>> {
    if payload == [] || |fresh_| != |payload| then None
    else Some(seq(|fresh_|, i requires 0 <= i < |fresh_| =>
      fresh_[i].(held := payload[i].held, offset := if fresh_[i].offset.Some? then Some(|payload[i].held|) else None)))
  }

  /** A snapshot taken at `ids` and written into a fresh cache is a cache that has consumed `ids`. */
  lemma RestoreOfCapture(shape: seq<Part>, ids: seq<Token>)
    requires shape != []
    ensures Restored(Filled(shape, []), Filled(shape, ids)) == Some(Filled(shape, ids))
  {
    var blank, full := Filled(shape, []), Filled(shape, ids);
    assert |full| == |shape| > 0;
    var r := Restored(blank, full);
    assert r.Some? && |r.value| == |shape|;
    forall i | 0 <= i < |shape| ensures r.value[i] == full[i] {
      assert blank[i] == shape[i].(held := [], offset := if shape[i].offset.Some? then Some(0) else None);
    }
    assert r.value == full;
  }

  function PayloadBytes(payload: Payload): nat {
    if payload == [] then 0
    else payload[0].fixedBytes + payload[0].tokenBytes * |payload[0].held| + PayloadBytes(payload[1..])
  }

  /** The size of a copy is that of its components: what each always takes and what its tokens take. */
  lemma {:induction false} PayloadBytesAdd(a: Payload, p: Part)
    ensures PayloadBytes(a + [p]) == PayloadBytes(a) + p.fixedBytes + p.tokenBytes * |p.held|
    ensures PayloadBytes([]) == 0
  {
    if a == [] {
      assert [] + [p] == [p] && [p][1..] == [];
    } else {
      assert (a + [p])[1..] == a[1..] + [p];
      PayloadBytesAdd(a[1..], p);
    }
  }

  // ------------------------------------------------------------------ budget

  datatype Budget = UnknownSize | Budget(fixed: nat, perToken: nat)

  function SnapshotBytes(b: Budget, tokens: int): nat {
    if b.UnknownSize? then 0 else b.fixed + b.perToken * (if tokens < 0 then 0 else tokens)
  }

  function AffordableTokens(b: Budget, limit: int): nat {
    if b.UnknownSize? || limit <= 0 then 0
    else
      var remaining := limit - b.fixed;
      if remaining <= 0 || b.perToken <= 0 then 0 else remaining / b.perToken
  }

  predicate BudgetAllows(b: Budget, maxBytes: nat, tokens: int) {
    b.UnknownSize? || 0 < SnapshotBytes(b, tokens) <= maxBytes
  }

  /** The yes/no question and the longest affordable length are the same limit. */
  lemma BudgetAgreesWithAffordable(b: Budget, maxBytes: nat, tokens: int)
    requires b.Budget? && b.perToken > 0 && tokens >= 1
    ensures BudgetAllows(b, maxBytes, tokens) <==> tokens <= AffordableTokens(b, maxBytes)
  {
    var per, remaining := b.perToken, maxBytes - b.fixed;
    assert per * tokens >= per by { MulGrows(per, 1, tokens); }
    if remaining > 0 {
      var q := remaining / per;
      assert per * q <= remaining < per * (q + 1) by { assert remaining == per * q + remaining % per; }
      if tokens <= q {
        MulGrows(per, tokens, q);
      } else {
        MulGrows(per, q + 1, tokens);
      }
    }
  }

  lemma MulGrows(k: nat, a: int, b: int)
    requires a <= b
    ensures k * a <= k * b
  {
  }
}
