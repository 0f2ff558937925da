/** The `stop` sequence filter (Workers/common/tool_calls.py, `StopSequenceFilter`).

    Reference meaning: `Cut`, which looks at all text received so far after every delta and
    knows nothing about holding text back. */
module StopFilter {
  import opened Prelude
  import opened MarkerSearch

  datatype StopItem = Text(s: string) | NotText
  datatype StopParam = Absent | One(s: string) | Many(items: seq<StopItem>)

  /** The usable sequences of a request's `stop` value: its non-empty strings, in order. */
  function Sequences(stop: StopParam): (r: seq<string>)
    ensures NonEmptyAll(r)
    ensures forall s :: s in r <==> s != "" && (stop == One(s) || (stop.Many? && Text(s) in stop.items))
  {
    match stop
    case Absent => []
    case One(s) => if s == "" then [] else [s]
    case Many(items) => Usable(items)
  }

  function Usable(items: seq<StopItem>): (r: seq<string>)
    ensures forall s :: s in r <==> s != "" && Text(s) in items
  {
    if items == [] then []
    else if items[0].Text? && items[0].s != "" then [items[0].s] + Usable(items[1..])
    else Usable(items[1..])
  }

  datatype Outcome = Outcome(shown: string, matched: Option<string>)

  function Cut(sequences: seq<string>, sofar: string, deltas: seq<string>): Outcome
    decreases |deltas|
  {
    if deltas == [] then Outcome(sofar, None)
    else
      var t := sofar + deltas[0];
      var hit := FirstMarker(t, sequences);
      if hit.Hit? then Outcome(t[..hit.pos], Some(hit.marker)) else Cut(sequences, t, deltas[1..])
  }

  /** The text up to the leftmost stop sequence of the whole reply. */
  function LeftmostCut(sequences: seq<string>, text: string): string {
    var hit := FirstMarker(text, sequences);
    if hit.Hit? then text[..hit.pos] else text
  }

  class StopSequenceFilter {
    const sequences: seq<string>
    var pending: string
    var hit: bool
    var matched: Option<string>
    ghost var received: string
    ghost var shown: string

    constructor (stop: StopParam)
      ensures Valid() && sequences == Sequences(stop)
      ensures !hit && matched == None && received == "" && shown == ""
    {
      sequences := Sequences(stop);
      pending, hit, matched, received, shown := "", false, None, "", "";
    }

    /** Until a hit, nothing received contains a sequence, and no sequence can ever start in what was shown. */
    ghost predicate Valid()
      reads this
    {
      && NonEmptyAll(sequences)
      && (hit || sequences == [] ==> pending == "")
      && (!hit ==> received == shown + pending && MarkerFree(received, sequences)
                   && forall rest: string :: FreeBefore(received + rest, sequences, |shown|))
    }

    method Feed(text: string) returns (visible: string, stopped: bool)
      requires Valid()
      modifies this
      ensures Valid()
      ensures shown == old(shown) + visible && received == old(received) + text && stopped == hit
      ensures old(hit) ==> visible == "" && hit && matched == old(matched)
      ensures !old(hit) ==>
                var first := FirstMarker(received, sequences);
                && hit == first.Hit?
                && (hit ==> shown == received[..first.pos] && matched == Some(first.marker))
                && (!hit ==> Withheld(pending, sequences) && matched == old(matched))
    {
      hide FirstMarker, IsHold, MarkerFree, FreeBefore;
      ghost var s0, t := shown, received + text;
      if sequences == [] || hit {
        visible, stopped := if hit then "" else text, hit;
        NoSequenceNoMatch(t);
        received, shown := t, shown + visible;
        return;
      }
      FutureShift(received, shown, text, sequences);
      received, pending := t, pending + text;
      assert received == s0 + pending && received + "" == received;
      ShiftFirst(s0, pending, sequences);
      var first := FirstMarker(pending, sequences);
      if first.Hit? {
        matched := Some(first.marker);
        visible := pending[..first.pos];
        pending, hit, stopped := "", true, true;
        shown := shown + visible;
        return;
      }
      MissIsFree(received, sequences);
      MissIsFree(pending, sequences);
      var safe := SafePrefixLength(pending, sequences);
      HeldIsMarkerPrefix(pending, sequences, |pending| - safe);
      ReleaseIsSafe(s0, pending, safe, sequences);
      visible := pending[..safe];
      pending := pending[safe..];
      shown := shown + visible;
      stopped := false;
    }

    /** The held-back tail is released unless a sequence ended the reply. */
    method Finish() returns (visible: string)
      requires Valid()
      modifies this
      ensures visible == (if hit then "" else old(pending)) && hit == old(hit) && matched == old(matched)
      ensures shown == old(shown) + visible && received == old(received) && pending == ""
      ensures !hit ==> shown == received
    {
      visible := if hit then "" else pending;
      pending := "";
      shown := shown + visible;
    }
  }

  // Nothing can ever start in the shown part, seen from one delta later.
  lemma FutureShift(received: string, shown: string, text: string, sequences: seq<string>)
    requires forall rest: string :: FreeBefore(received + rest, sequences, |shown|)
    ensures forall rest: string :: FreeBefore(received + text + rest, sequences, |shown|)
    ensures FreeBefore(received + text, sequences, |shown|)
  {
    hide FreeBefore;
    forall rest: string ensures FreeBefore(received + text + rest, sequences, |shown|) {
      assert received + text + rest == received + (text + rest);
    }
    assert FreeBefore(received + text, sequences, |shown|);
  }

  lemma ReleaseIsSafe(shown: string, pending: string, safe: nat, sequences: seq<string>)
    requires safe <= |pending| && IsHold(pending, sequences, |pending| - safe) && MarkerFree(pending, sequences)
    requires forall rest: string :: FreeBefore(shown + pending + rest, sequences, |shown|)
    ensures forall rest: string :: FreeBefore(shown + pending + rest, sequences, |shown + pending[..safe]|)
  {
    forall rest: string ensures FreeBefore(shown + pending + rest, sequences, |shown| + safe) {
      SafePartIsFree(pending, rest, sequences, |pending| - safe);
      assert shown + pending + rest == shown + (pending + rest);
      FreeFurther(shown, pending + rest, safe, sequences);
    }
  }

  lemma FreeFurther(a: string, b: string, n: nat, sequences: seq<string>)
    requires FreeBefore(a + b, sequences, |a|) && FreeBefore(b, sequences, n)
    ensures FreeBefore(a + b, sequences, |a| + n)
  {
    forall q, m | |a| <= q < |a| + n && m in sequences && MatchAt(a + b, q, m) ensures Occurs(b, q - |a|, sequences) {
      ShiftMatch(a, b, q - |a|, m);
    }
  }

  lemma NoSequenceNoMatch(text: string)
    ensures MarkerFree(text, []) && FirstMarker(text, []).Miss?
    ensures forall t: string, n :: FreeBefore(t, [], n)
  {
  }

  /** The worker's reply loop: feed every delta until one stops the reply, then release the tail. */
  method Filter(stop: StopParam, deltas: seq<string>) returns (shown: string, matched: Option<string>)
    ensures Outcome(shown, matched) == Cut(Sequences(stop), "", deltas)
  {
    var filter := new StopSequenceFilter(stop);
    var i := 0;
    shown := "";
    while i < |deltas|
      invariant fresh(filter) && filter.Valid() && filter.sequences == Sequences(stop)
      invariant i <= |deltas| && !filter.hit && filter.matched == None && shown == filter.shown
      invariant Cut(filter.sequences, filter.received, deltas[i..]) == Cut(filter.sequences, "", deltas)
    {
      assert deltas[i..][0] == deltas[i] && deltas[i..][1..] == deltas[i + 1..];
      var visible, stopped := filter.Feed(deltas[i]);
      shown := shown + visible;
      if stopped {
        return shown, filter.matched;
      }
      i := i + 1;
    }
    var trailing := filter.Finish();
    shown := shown + trailing;
    matched := None;
  }

  /** What is shown is a stop-free prefix of the reply; it is the whole reply unless a sequence
      was matched, and then that sequence follows it immediately. */
  lemma {:induction false} CutIsCleanPrefix(sequences: seq<string>, sofar: string, deltas: seq<string>)
    requires NonEmptyAll(sequences) && MarkerFree(sofar, sequences)
    ensures var o, text := Cut(sequences, sofar, deltas), sofar + Concat(deltas);
            && |o.shown| <= |text| && o.shown == text[..|o.shown|]
            && MarkerFree(o.shown, sequences)
            && (o.matched == None ==> o.shown == text)
            && (o.matched.Some? ==> o.matched.value in sequences && MatchAt(text, |o.shown|, o.matched.value))
    decreases |deltas|
  {
    hide FirstMarker, MarkerFree, FreeBefore;
    if deltas == [] {
      assert sofar + "" == sofar;
    } else {
      var t, later := sofar + deltas[0], Concat(deltas[1..]);
      assert sofar + Concat(deltas) == t + later;
      var hit := FirstMarker(t, sequences);
      if hit.Hit? {
        PrefixIsFree(t, hit.pos, sequences);
        ExtendMatch(t, later, hit.pos, hit.marker);
        assert (t + later)[..hit.pos] == t[..hit.pos];
      } else {
        MissIsFree(t, sequences);
        CutIsCleanPrefix(sequences, t, deltas[1..]);
      }
    }
  }

  /** No proper prefix of a stop sequence has its first match anywhere but at its start. */
  ghost predicate PrefixesHideNothing(sequences: seq<string>) {
    forall s, k :: s in sequences && 0 <= k < |s| ==> !Hides(sequences, s, k)
  }

  predicate Hides(sequences: seq<string>, s: string, k: nat)
    requires k <= |s|
  {
    var hit := FirstMarker(s[..k], sequences);
    hit.Hit? && hit.pos > 0
  }

  ghost predicate CutsLeftmost(sequences: seq<string>, deltas: seq<string>) {
    Cut(sequences, "", deltas).shown == LeftmostCut(sequences, Concat(deltas))
  }

  /** The cut is the leftmost occurrence in the whole reply for every way of cutting the reply
      into deltas, if and only if no proper prefix of a sequence hides a later match. */
  lemma CutIsLeftmostExactly(sequences: seq<string>)
    requires NonEmptyAll(sequences)
    ensures (forall deltas :: CutsLeftmost(sequences, deltas)) <==> PrefixesHideNothing(sequences)
  {
    if PrefixesHideNothing(sequences) {
      forall deltas ensures CutsLeftmost(sequences, deltas) {
        NothingMatchesInEmptyText(sequences);
        assert "" + Concat(deltas) == Concat(deltas);
        CutIsLeftmost(sequences, "", deltas);
      }
    } else {
      var s, k :| s in sequences && 0 <= k < |s| && Hides(sequences, s, k);
      HiddenMatchIsCutLate(sequences, s, k);
      assert !CutsLeftmost(sequences, [s[..k], s[k..]]);
    }
  }

  lemma NothingMatchesInEmptyText(sequences: seq<string>)
    requires NonEmptyAll(sequences)
    ensures MarkerFree("", sequences)
  {
  }

  lemma {:induction false} CutIsLeftmost(sequences: seq<string>, sofar: string, deltas: seq<string>)
    requires NonEmptyAll(sequences) && PrefixesHideNothing(sequences) && MarkerFree(sofar, sequences)
    ensures Cut(sequences, sofar, deltas).shown == LeftmostCut(sequences, sofar + Concat(deltas))
    decreases |deltas|
  {
    hide FirstMarker, MarkerFree, PrefixesHideNothing, FreeBefore;
    if deltas == [] {
      assert sofar + "" == sofar;
      FreeMeansMiss(sofar, sequences);
    } else {
      var t, later := sofar + deltas[0], Concat(deltas[1..]);
      assert sofar + Concat(deltas) == t + later;
      var hit := FirstMarker(t, sequences);
      if hit.Hit? {
        LaterTextCannotMoveTheCut(t, later, sequences);
        assert (t + later)[..hit.pos] == t[..hit.pos];
      } else {
        MissIsFree(t, sequences);
        CutIsLeftmost(sequences, t, deltas[1..]);
      }
    }
  }

  lemma FreeMeansMiss(text: string, markers: seq<string>)
    requires MarkerFree(text, markers)
    ensures FirstMarker(text, markers).Miss?
  {
    var hit := FirstMarker(text, markers);
    if hit.Hit? { assert Occurs(text, hit.pos, markers); }
  }

  lemma LaterTextCannotMoveTheCut(t: string, later: string, sequences: seq<string>)
    requires PrefixesHideNothing(sequences) && FirstMarker(t, sequences).Hit?
    ensures var g := FirstMarker(t + later, sequences);
            g.Hit? && g.pos == FirstMarker(t, sequences).pos
  {
    hide FirstMarker;
    var h, g := FirstMarker(t, sequences), FirstMarker(t + later, sequences);
    ExtendMatch(t, later, h.pos, h.marker);
    assert Occurs(t + later, h.pos, sequences);
    assert g.Hit? && g.pos <= h.pos;
    ExtendMatch(t, later, g.pos, g.marker);
    if g.pos < h.pos {
      EarlierMatchHides(t, later, sequences, g.pos, g.marker);
    }
  }

  /** A match that starts before the first one in `t` runs past `t`, so its part inside `t` hides that one. */
  lemma EarlierMatchHides(t: string, later: string, sequences: seq<string>, p: nat, s: string)
    requires FirstMarker(t, sequences).Hit? && p < FirstMarker(t, sequences).pos <= |t|
    requires s in sequences && MatchAt(t + later, p, s)
    ensures |t| - p < |s| && Hides(sequences, s, |t| - p)
  {
    hide FirstMarker;
    ExtendMatch(t, later, p, s);
    assert !Occurs(t, p, sequences);
    assert !MatchAt(t, p, s);
    assert (t + later)[p..p + |s|][..|t| - p] == t[p..];
    assert t == t[..p] + t[p..];
    ShiftFirst(t[..p], t[p..], sequences);
  }

  lemma HiddenMatchIsCutLate(sequences: seq<string>, s: string, k: nat)
    requires NonEmptyAll(sequences) && s in sequences && k < |s| && Hides(sequences, s, k)
    ensures !CutsLeftmost(sequences, [s[..k], s[k..]])
  {
    hide FirstMarker;
    var deltas := [s[..k], s[k..]];
    assert deltas[1..] == [s[k..]];
    assert Concat([s[k..]]) == s[k..] + "";
    assert Concat(deltas) == s;
    assert "" + s[..k] == s[..k];
    assert MatchAt(s, 0, s) by { assert s[0..|s|] == s; }
    assert Occurs(s, 0, sequences);
    assert FirstMarker(s, sequences).Hit? && FirstMarker(s, sequences).pos == 0;
    assert |Cut(sequences, "", deltas).shown| > 0;
  }

  /** In particular it is enough that no sequence occurs inside another one strictly between its ends. */
  lemma NoInnerSequenceSuffices(sequences: seq<string>)
    requires forall a, b, p :: a in sequences && b in sequences && 0 < p && p + |b| < |a| ==> !MatchAt(a, p, b)
    ensures PrefixesHideNothing(sequences)
  {
    forall s, k | s in sequences && 0 <= k < |s| ensures !Hides(sequences, s, k) {
      var hit := FirstMarker(s[..k], sequences);
      if hit.Hit? {
        assert s == s[..k] + s[k..];
        ExtendMatch(s[..k], s[k..], hit.pos, hit.marker);
      }
    }
  }
}
