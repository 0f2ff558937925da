/** Leftmost-marker search and suffix hold-back (Workers/common/tool_calls.py). */
module MarkerSearch {
  import opened Prelude

  predicate MatchAt(text: string, p: int, m: string) {
    0 <= p && p + |m| <= |text| && text[p..p + |m|] == m
  }

  /** Some marker of the tuple starts at position `p`. */
  predicate Occurs(text: string, p: int, markers: seq<string>) {
    exists m :: m in markers && MatchAt(text, p, m)
  }

  ghost predicate FreeBefore(text: string, markers: seq<string>, n: int) {
    forall q :: 0 <= q < n ==> !Occurs(text, q, markers)
  }

  ghost predicate MarkerFree(text: string, markers: seq<string>) {
    forall q :: !Occurs(text, q, markers)
  }

  predicate NonEmptyAll(markers: seq<string>) {
    forall m :: m in markers ==> m != ""
  }

  /** No marker occurs anywhere inside another one (nor is a prefix of one). */
  ghost predicate NonNesting(markers: seq<string>) {
    forall m1, m2, p: int :: m1 in markers && m2 in markers && MatchAt(m1, p, m2) ==> p == 0 && m1 == m2
  }

  // `str.find`, started at `from`.
  function FindFrom(text: string, m: string, from: nat): (r: Option<nat>)
    requires from <= |text|
    ensures r.Some? ==> from <= r.value && MatchAt(text, r.value, m)
    ensures forall q :: from <= q < (if r.Some? then r.value else |text| + 1) ==> !MatchAt(text, q, m)
    decreases |text| - from
  {
    if MatchAt(text, from, m) then Some(from)
    else if from == |text| then None
    else FindFrom(text, m, from + 1)
  }

  datatype Hit = Miss | Hit(pos: nat, marker: string)

  function Better(a: Hit, b: Hit): Hit {
    if a.Miss? then b else if b.Miss? || a.pos <= b.pos then a else b
  }

  /** The leftmost marker; at one position the marker listed first wins. */
  function FirstMarker(text: string, markers: seq<string>): (r: Hit)
    ensures r.Hit? ==> r.marker in markers && MatchAt(text, r.pos, r.marker)
    ensures FreeBefore(text, markers, if r.Hit? then r.pos else |text| + 1)
    ensures r.Hit? ==> exists i :: 0 <= i < |markers| && markers[i] == r.marker &&
                                   forall j :: 0 <= j < i ==> !MatchAt(text, r.pos, markers[j])
  {
    if markers == [] then Miss
    else
      var f := FindFrom(text, markers[0], 0);
      var head := if f.Some? then Hit(f.value, markers[0]) else Miss;
      var tail := FirstMarker(text, markers[1..]);
      var r := Better(head, tail);
      assert forall q :: Occurs(text, q, markers) ==> MatchAt(text, q, markers[0]) || Occurs(text, q, markers[1..]);
      assert r == tail && r.Hit? ==> exists i :: 0 <= i < |markers| && markers[i] == r.marker &&
                                                 forall j :: 0 <= j < i ==> !MatchAt(text, r.pos, markers[j]) by {
        if r == tail && r.Hit? && r != head {
          var i :| 0 <= i < |markers[1..]| && markers[1..][i] == r.marker &&
                   forall j :: 0 <= j < i ==> !MatchAt(text, r.pos, markers[1..][j]);
          assert markers[i + 1] == r.marker;
          forall j | 0 <= j < i + 1 ensures !MatchAt(text, r.pos, markers[j]) {
            if j > 0 { assert markers[j] == markers[1..][j - 1]; }
          }
        }
      }
      r
  }

  lemma MissIsFree(text: string, markers: seq<string>)
    requires FirstMarker(text, markers).Miss?
    ensures MarkerFree(text, markers)
  {
  }

  lemma ShiftMatch(a: string, b: string, p: int, m: string)
    requires p >= 0
    ensures MatchAt(a + b, |a| + p, m) == MatchAt(b, p, m)
  {
  }

  lemma ExtendMatch(a: string, b: string, p: int, m: string)
    ensures MatchAt(a, p, m) ==> MatchAt(a + b, p, m)
    ensures p + |m| <= |a| && MatchAt(a + b, p, m) ==> MatchAt(a, p, m)
  {
  }

  lemma PrefixIsFree(text: string, n: nat, markers: seq<string>)
    requires n <= |text| && FreeBefore(text, markers, n) && NonEmptyAll(markers)
    ensures MarkerFree(text[..n], markers)
  {
    assert text == text[..n] + text[n..];
    forall q, m | m in markers && MatchAt(text[..n], q, m) ensures Occurs(text, q, markers) && 0 <= q < n {
      ExtendMatch(text[..n], text[n..], q, m);
    }
  }

  function Shift(h: Hit, n: nat): Hit {
    if h.Miss? then Miss else Hit(h.pos + n, h.marker)
  }

  lemma LeastMatch(text: string, m: string, r: Option<nat>)
    requires r.Some? ==> MatchAt(text, r.value, m) && forall q :: 0 <= q < r.value ==> !MatchAt(text, q, m)
    requires r.None? ==> forall q :: 0 <= q <= |text| ==> !MatchAt(text, q, m)
    ensures FindFrom(text, m, 0) == r
  {
  }

  lemma ShiftFind(a: string, b: string, m: string)
    requires forall q :: 0 <= q < |a| ==> !MatchAt(a + b, q, m)
    ensures var g := FindFrom(b, m, 0);
            FindFrom(a + b, m, 0) == if g.None? then None else Some(g.value + |a|)
  {
    hide FindFrom, MatchAt;
    var g := FindFrom(b, m, 0);
    var r := if g.None? then None else Some(g.value + |a|);
    if g.Some? { ShiftMatch(a, b, g.value, m); }
    forall q | 0 <= q < (if r.Some? then r.value else |a + b| + 1) ensures !MatchAt(a + b, q, m) {
      if q >= |a| { ShiftMatch(a, b, q - |a|, m); }
    }
    LeastMatch(a + b, m, r);
  }

  /** Text before which no marker starts can be cut off without moving the first hit. */
  lemma {:induction false} ShiftFirst(a: string, b: string, markers: seq<string>)
    requires FreeBefore(a + b, markers, |a|)
    ensures FirstMarker(a + b, markers) == Shift(FirstMarker(b, markers), |a|)
  {
    if markers != [] {
      forall q | 0 <= q < |a| ensures !MatchAt(a + b, q, markers[0]) && !Occurs(a + b, q, markers[1..]) {
        assert !Occurs(a + b, q, markers);
      }
      ShiftFind(a, b, markers[0]);
      ShiftFirst(a, b, markers[1..]);
    }
  }

  /** A hit found in `t` is final when no marker nests in another: later text cannot beat it. */
  lemma {:induction false} HitIsFinal(t: string, rest: string, markers: seq<string>)
    requires NonNesting(markers)
    requires FirstMarker(t, markers).Hit?
    ensures FirstMarker(t + rest, markers) == FirstMarker(t, markers)
  {
    hide FirstMarker, NonNesting;
    var h := FirstMarker(t, markers);
    var g := FirstMarker(t + rest, markers);
    ExtendMatch(t, rest, h.pos, h.marker);
    assert Occurs(t + rest, h.pos, markers);
    assert g.Hit? && g.pos <= h.pos;
    InnerMatch(t + rest, g.pos, g.marker, h.pos, h.marker, markers);
    assert h.pos + |h.marker| <= |t|;
    ExtendMatch(t, rest, g.pos, g.marker);
    assert Occurs(t, g.pos, markers);
    assert g.pos == h.pos;
    SamePlaceSameMarker(t, h.pos, g.marker, h.marker, markers);
  }

  lemma SliceOfSlice(t: string, p: nat, n: nat, d: nat, k: nat)
    requires p + n <= |t| && d + k <= n
    ensures t[p..p + n][d..d + k] == t[p + d..p + d + k]
  {
    var whole := t[p..p + n];
    var part, direct := whole[d..d + k], t[p + d..p + d + k];
    forall i | 0 <= i < k ensures part[i] == direct[i] {
      assert part[i] == whole[d + i];
    }
  }

  /** A marker that starts earlier also ends earlier, or it would contain the other. */
  lemma InnerMatch(t: string, p: nat, outer: string, q: nat, inner: string, markers: seq<string>)
    requires NonNesting(markers) && outer in markers && inner in markers
    requires p <= q && MatchAt(t, p, outer) && MatchAt(t, q, inner)
    ensures p + |outer| <= q + |inner|
  {
    if q + |inner| <= p + |outer| {
      SliceOfSlice(t, p, |outer|, q - p, |inner|);
      assert MatchAt(outer, q - p, inner);
    }
  }

  lemma SamePlaceSameMarker(t: string, p: int, a: string, b: string, markers: seq<string>)
    requires NonNesting(markers) && a in markers && b in markers
    requires MatchAt(t, p, a) && MatchAt(t, p, b)
    ensures a == b
  {
    if |a| <= |b| {
      assert t[p..p + |b|][0..|a|] == t[p..p + |a|];
      assert MatchAt(b, 0, a);
    } else {
      assert t[p..p + |a|][0..|b|] == t[p..p + |b|];
      assert MatchAt(a, 0, b);
    }
  }

  /** The last `len` characters of `text` are a proper prefix of some marker. */
  predicate Holdable(text: string, markers: seq<string>, len: int) {
    exists m :: m in markers && EndsWithPrefix(text, m, len)
  }

  predicate EndsWithPrefix(text: string, m: string, len: int) {
    0 < len < |m| && len <= |text| && text[|text| - len..] == m[..len]
  }

  ghost predicate IsHold(text: string, markers: seq<string>, hold: int) {
    && 0 <= hold <= |text|
    && (hold == 0 || Holdable(text, markers, hold))
    && forall len :: len > hold ==> !Holdable(text, markers, len)
  }

  lemma HoldableSnoc(text: string, markers: seq<string>, marker: string)
    ensures forall len {:trigger Holdable(text, markers + [marker], len)} ::
              Holdable(text, markers + [marker], len) <==>
              (Holdable(text, markers, len) || EndsWithPrefix(text, marker, len))
  {
  }

  /** Everything except the longest suffix that may still grow into a marker. */
  method SafePrefixLength(text: string, markers: seq<string>) returns (safe: nat)
    ensures safe <= |text| && IsHold(text, markers, |text| - safe)
  {
    var hold := 0;
    for i := 0 to |markers|
      invariant IsHold(text, markers[..i], hold)
    {
      var marker := markers[i];
      var maximum := if |text| < |marker| - 1 then |text| else |marker| - 1;
      var length := maximum;
      while length > 0 && !(text[|text| - length..] == marker[..length])
        invariant length <= maximum
        invariant forall len :: length < len ==> !EndsWithPrefix(text, marker, len)
      {
        length := length - 1;
      }
      assert length > 0 ==> EndsWithPrefix(text, marker, length);
      if length > hold { hold := length; }
      HoldableSnoc(text, markers[..i], marker);
      assert markers[..i + 1] == markers[..i] + [marker];
    }
    assert markers[..|markers|] == markers;
    safe := |text| - hold;
  }

  /** A marker that starts inside `t` but does not end there leaves one of its prefixes at the end of `t`. */
  lemma StraddlerIsHeld(t: string, rest: string, markers: seq<string>, q: nat)
    requires q < |t| && Occurs(t + rest, q, markers) && !Occurs(t, q, markers)
    ensures Holdable(t, markers, |t| - q)
  {
  }

  /** Released text is never the start of a marker, whatever arrives next. */
  lemma SafePartIsFree(t: string, rest: string, markers: seq<string>, hold: int)
    requires MarkerFree(t, markers) && IsHold(t, markers, hold)
    ensures FreeBefore(t + rest, markers, |t| - hold)
  {
    forall q | 0 <= q < |t| - hold && Occurs(t + rest, q, markers) ensures Holdable(t, markers, |t| - q) {
      StraddlerIsHeld(t, rest, markers, q);
    }
  }

  /** What is left after releasing the safe part is empty or a proper prefix of a marker. */
  lemma HeldIsMarkerPrefix(t: string, markers: seq<string>, hold: int)
    requires IsHold(t, markers, hold)
    ensures Withheld(t[|t| - hold..], markers)
  {
  }

  predicate Withheld(pending: string, markers: seq<string>) {
    pending == "" || exists m :: m in markers && |pending| < |m| && pending == m[..|pending|]
  }
}
