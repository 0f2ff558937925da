/** Prompt-boundary snapshots in memory and on disk
    (Workers/mlx_vlm_worker/prompt_cache.py, `CheckpointStore`). */
module Checkpoints {
  import opened Prelude
  import opened CacheState
  import opened Sorting

  const MIN_REUSABLE_TOKENS := 256

  // A SHA-256 digest over token ids, taken to identify them.
  datatype Digest = Digest(tokens: seq<Token>)

  // An index record; the two file names of a snapshot are its digest with a suffix.
  datatype IndexEntry = IndexEntry(tokens: nat, digest: Digest, bytes: nat, savedAt: int)

  datatype Reason = DisabledBySetting | RootMissing | BudgetInsufficient | WriteBudgetReached

  datatype Tier = Memory | Disk
  datatype Hit = Hit(cache: seq<Part>, ids: seq<Token>, tier: Tier)

  predicate StrictPrefix(candidate: seq<Token>, full: seq<Token>) {
    |candidate| < |full| && full[..|candidate|] == candidate
  }

  predicate Matches(e: IndexEntry, newIds: seq<Token>) {
    MIN_REUSABLE_TOKENS <= e.tokens < |newIds| && e.digest == Digest(newIds[..e.tokens])
  }

  /** A snapshot for `d` exists, can be read, and fits the cache the runtime builds. */
  predicate Restorable(files: map<Digest, Payload>, unreadable: set<Digest>, makeCache: Option<seq<Part>>, d: Digest) {
    && d in files && d !in unreadable
    && makeCache.Some? && Restored(makeCache.value, files[d]).Some?
  }

  function Without(entries: seq<IndexEntry>, d: Digest): (r: seq<IndexEntry>)
    ensures forall e :: e in r <==> e in entries && e.digest != d
    ensures DistinctDigests(entries) ==> DistinctDigests(r)
  {
    if entries == [] then []
    else if entries[0].digest == d then Without(entries[1..], d)
    else [entries[0]] + Without(entries[1..], d)
  }

  function WithoutAll(entries: seq<IndexEntry>, ds: set<Digest>): (r: seq<IndexEntry>)
    ensures forall e :: e in r <==> e in entries && e.digest !in ds
  {
    if entries == [] then []
    else if entries[0].digest in ds then WithoutAll(entries[1..], ds)
    else [entries[0]] + WithoutAll(entries[1..], ds)
  }

  lemma {:induction false} WithoutOneMore(entries: seq<IndexEntry>, ds: set<Digest>, d: Digest)
    ensures Without(WithoutAll(entries, ds), d) == WithoutAll(entries, ds + {d})
  {
    if entries != [] {
      WithoutOneMore(entries[1..], ds, d);
      if entries[0].digest !in ds {
        assert ([entries[0]] + WithoutAll(entries[1..], ds))[1..] == WithoutAll(entries[1..], ds);
      }
    }
  }

  lemma {:induction false} WithoutNone(entries: seq<IndexEntry>)
    ensures WithoutAll(entries, {}) == entries
  {
    if entries != [] { WithoutNone(entries[1..]); }
  }

  /** A matching record whose snapshot is missing or cannot be read. */
  predicate Broken(e: IndexEntry, newIds: seq<Token>, files: map<Digest, Payload>, unreadable: set<Digest>) {
    Matches(e, newIds) && (e.digest !in files || e.digest in unreadable)
  }

  /** The digests of the broken records longer than the hit; of all broken ones when there is none. */
  function BrokenBeyond(entries: seq<IndexEntry>, newIds: seq<Token>, files: map<Digest, Payload>,
                        unreadable: set<Digest>, reach: nat): set<Digest> {
    set e | e in entries && Broken(e, newIds, files, unreadable) && e.tokens > reach :: e.digest
  }

  // Of the first records of the search.
  function BrokenUpTo(order: seq<IndexEntry>, newIds: seq<Token>, files: map<Digest, Payload>,
                      unreadable: set<Digest>, i: nat): set<Digest>
    requires i <= |order|
  {
    set e | e in order[..i] && Broken(e, newIds, files, unreadable) :: e.digest
  }

  lemma BrokenSnoc(order: seq<IndexEntry>, newIds: seq<Token>, files: map<Digest, Payload>,
                   unreadable: set<Digest>, i: nat)
    requires i < |order|
    ensures BrokenUpTo(order, newIds, files, unreadable, i + 1) ==
            BrokenUpTo(order, newIds, files, unreadable, i)
            + if Broken(order[i], newIds, files, unreadable) then {order[i].digest} else {}
  {
    hide Broken;
    assert order[..i + 1] == order[..i] + [order[i]];
  }

  ghost predicate LongestFirst(order: seq<IndexEntry>, entries: seq<IndexEntry>) {
    && (forall e :: e in order <==> e in entries)
    && (forall j, k :: 0 <= j <= k < |order| ==> order[k].tokens <= order[j].tokens)
  }

  // The search ends after all records, or at one whose snapshot can be used.
  lemma BrokenAtEnd(order: seq<IndexEntry>, entries: seq<IndexEntry>, newIds: seq<Token>,
                    files: map<Digest, Payload>, unreadable: set<Digest>, i: nat)
    requires LongestFirst(order, entries) && i <= |order|
    requires i < |order| ==> Matches(order[i], newIds) && !Broken(order[i], newIds, files, unreadable)
    ensures BrokenUpTo(order, newIds, files, unreadable, i) ==
            BrokenBeyond(entries, newIds, files, unreadable, if i < |order| then order[i].tokens else 0)
  {
    var reach := if i < |order| then order[i].tokens else 0;
    forall e | e in order[..i] && Broken(e, newIds, files, unreadable) ensures e in entries && e.tokens > reach {
      var j :| 0 <= j < i && order[j] == e;
      assert e in order;
    }
    forall e | e in entries && Broken(e, newIds, files, unreadable) && e.tokens > reach ensures e in order[..i] {
      assert e in order;
      var j :| 0 <= j < |order| && order[j] == e;
    }
  }

  function Reach(r: Option<Hit>): nat {
    if r.Some? then |r.value.ids| else 0
  }

  ghost predicate DistinctDigests(entries: seq<IndexEntry>) {
    || entries == []
    || ((forall e :: e in entries[1..] ==> e.digest != entries[0].digest) && DistinctDigests(entries[1..]))
  }

  // ---------------------------------------------------------------- eviction

  function Keep(entries: seq<IndexEntry>, maxBytes: nat, total: nat, keptAny: bool): (r: seq<IndexEntry>)
    ensures forall e :: e in r ==> e in entries
  {
    if entries == [] then []
    else
      var e := entries[0];
      if maxBytes > 0 && total + e.bytes > maxBytes && keptAny then Keep(entries[1..], maxBytes, total, keptAny)
      else [e] + Keep(entries[1..], maxBytes, total + e.bytes, true)
  }

  function Bytes(entries: seq<IndexEntry>): nat {
    if entries == [] then 0 else entries[0].bytes + Bytes(entries[1..])
  }

  function NewestFirst(entries: seq<IndexEntry>): seq<IndexEntry> {
    SortBy(entries, (e: IndexEntry) => -e.savedAt)
  }

  /** What eviction leaves in the index. */
  function Evicted(entries: seq<IndexEntry>, maxBytes: nat): seq<IndexEntry> {
    Keep(NewestFirst(entries), maxBytes, 0, false)
  }

  lemma {:induction false} KeepFits(entries: seq<IndexEntry>, maxBytes: nat, total: nat)
    requires maxBytes > 0
    ensures var kept := Keep(entries, maxBytes, total, true);
            kept != [] ==> total + Bytes(kept) <= maxBytes
  {
    if entries != [] {
      KeepFits(entries[1..], maxBytes, total);
      KeepFits(entries[1..], maxBytes, total + entries[0].bytes);
    }
  }

  /** The newest snapshot always survives, and the byte limit holds unless only that one is left. */
  lemma EvictionKeepsNewestAndFits(entries: seq<IndexEntry>, maxBytes: nat)
    requires entries != []
    ensures var kept := Evicted(entries, maxBytes);
            && kept != []
            && kept[0] in entries && (forall e :: e in entries ==> e.savedAt <= kept[0].savedAt)
            && (maxBytes > 0 && |kept| > 1 ==> Bytes(kept) <= maxBytes)
  {
    var key := (e: IndexEntry) => -e.savedAt;
    var sorted := SortBy(entries, key);
    SameElements(entries, key);
    forall e | e in entries ensures e.savedAt <= sorted[0].savedAt {
      var i :| 0 <= i < |sorted| && sorted[i] == e;
      AscendingAll(sorted, key, 0, i);
    }
    if maxBytes > 0 {
      KeepFits(sorted[1..], maxBytes, sorted[0].bytes);
    }
  }

  // Of the first n of an order, those that eviction leaves.
  function Chosen(order: seq<IndexEntry>, maxBytes: nat, n: nat): seq<IndexEntry>
    requires n <= |order|
  {
    if n == 0 then []
    else
      var before, e := Chosen(order, maxBytes, n - 1), order[n - 1];
      if maxBytes == 0 || before == [] || Bytes(before) + e.bytes <= maxBytes then before + [e] else before
  }

  lemma {:induction false} BytesSnoc(entries: seq<IndexEntry>, e: IndexEntry)
    ensures Bytes(entries + [e]) == Bytes(entries) + e.bytes
  {
    if entries == [] {
      assert [] + [e] == [e] && [e][1..] == [];
    } else {
      assert (entries + [e])[1..] == entries[1..] + [e];
      BytesSnoc(entries[1..], e);
    }
  }

  lemma {:induction false} KeepIsChosen(order: seq<IndexEntry>, maxBytes: nat, i: nat)
    requires i <= |order|
    ensures var kept := Chosen(order, maxBytes, i);
            kept + Keep(order[i..], maxBytes, Bytes(kept), kept != []) == Chosen(order, maxBytes, |order|)
    decreases |order| - i
  {
    var kept := Chosen(order, maxBytes, i);
    if i < |order| {
      var e := order[i];
      assert order[i..][0] == e && order[i..][1..] == order[i + 1..];
      BytesSnoc(kept, e);
      KeepIsChosen(order, maxBytes, i + 1);
      assert kept + ([e] + Keep(order[i + 1..], maxBytes, Bytes(kept) + e.bytes, true)) ==
             (kept + [e]) + Keep(order[i + 1..], maxBytes, Bytes(kept) + e.bytes, true);
    }
  }

  /** Eviction goes through the snapshots from the one saved last to the one saved first, each just once, and
      keeps one when it is the first or still fits beside those kept before it. */
  lemma EvictionFollowsTheTimes(entries: seq<IndexEntry>, maxBytes: nat) returns (order: seq<IndexEntry>)
    ensures multiset(order) == multiset(entries)
    ensures forall i, j :: 0 <= i <= j < |order| ==> order[j].savedAt <= order[i].savedAt
    ensures Evicted(entries, maxBytes) == Chosen(order, maxBytes, |order|)
  {
    var key := (e: IndexEntry) => -e.savedAt;
    order := SortBy(entries, key);
    forall i, j | 0 <= i <= j < |order| ensures order[j].savedAt <= order[i].savedAt {
      AscendingAll(order, key, i, j);
    }
    KeepIsChosen(order, maxBytes, 0);
    assert order[0..] == order;
  }

  lemma {:induction false} DistinctByElements(entries: seq<IndexEntry>, i: nat, j: nat)
    requires DistinctDigests(entries) && i < j < |entries|
    ensures entries[i].digest != entries[j].digest
  {
    if i == 0 {
      assert entries[j] == entries[1..][j - 1];
    } else {
      DistinctByElements(entries[1..], i - 1, j - 1);
    }
  }

  lemma {:induction false} KeepDistinct(entries: seq<IndexEntry>, maxBytes: nat, total: nat, keptAny: bool)
    requires DistinctDigests(entries)
    ensures DistinctDigests(Keep(entries, maxBytes, total, keptAny))
  {
    if entries != [] {
      KeepDistinct(entries[1..], maxBytes, total, keptAny);
      KeepDistinct(entries[1..], maxBytes, total + entries[0].bytes, true);
      var k := Keep(entries[1..], maxBytes, total + entries[0].bytes, true);
      assert ([entries[0]] + k)[1..] == k;
    }
  }

  lemma {:induction false} InsertDistinct(x: IndexEntry, s: seq<IndexEntry>, key: IndexEntry -> int)
    requires Ascending(s, key) && DistinctDigests(s) && forall e :: e in s ==> e.digest != x.digest
    ensures DistinctDigests(Insert(x, s, key))
  {
    if s == [] || key(x) <= key(s[0]) {
      assert ([x] + s)[1..] == s;
    } else {
      var r := Insert(x, s[1..], key);
      InsertDistinct(x, s[1..], key);
      assert ([s[0]] + r)[1..] == r;
      forall e | e in r ensures e.digest != s[0].digest {
        assert e in multiset(r);
        assert s[0] in s;
      }
    }
  }

  lemma {:induction false} SortDistinct(s: seq<IndexEntry>, key: IndexEntry -> int)
    requires DistinctDigests(s)
    ensures DistinctDigests(SortBy(s, key))
  {
    if s != [] {
      SortDistinct(s[1..], key);
      SameElements(s[1..], key);
      InsertDistinct(s[0], SortBy(s[1..], key), key);
    }
  }

  lemma AppendDistinct(s: seq<IndexEntry>, x: IndexEntry)
    requires DistinctDigests(s) && forall e :: e in s ==> e.digest != x.digest
    ensures DistinctDigests(s + [x])
  {
    if s == [] {
      assert s + [x] == [x] && [x][1..] == [];
    } else {
      AppendDistinct(s[1..], x);
      assert (s + [x])[1..] == s[1..] + [x];
    }
  }

  ghost function DigestsOf(entries: seq<IndexEntry>): set<Digest> {
    set e | e in entries :: e.digest
  }

  lemma DigestsNil()
    ensures DigestsOf([]) == {}
  {
  }

  lemma DigestsSnoc(entries: seq<IndexEntry>, e: IndexEntry)
    ensures DigestsOf(entries + [e]) == DigestsOf(entries) + {e.digest}
  {
  }

  lemma SubDigests(a: seq<IndexEntry>, b: seq<IndexEntry>)
    requires forall e :: e in a ==> e in b
    ensures DigestsOf(a) <= DigestsOf(b)
  {
  }

  lemma SameDigests(a: seq<IndexEntry>, b: seq<IndexEntry>)
    requires forall e :: e in a <==> e in b
    ensures DigestsOf(a) == DigestsOf(b)
  {
  }

  lemma NotSeenBefore(entries: seq<IndexEntry>, i: nat)
    requires DistinctDigests(entries) && i < |entries|
    ensures entries[i].digest !in DigestsOf(entries[..i])
  {
    forall k | 0 <= k < i ensures entries[k].digest != entries[i].digest { DistinctByElements(entries, k, i); }
  }

  lemma NewestFirstFacts(entries: seq<IndexEntry>)
    requires DistinctDigests(entries)
    ensures DistinctDigests(NewestFirst(entries))
    ensures forall e :: e in NewestFirst(entries) <==> e in entries
  {
    hide SortBy, DistinctDigests;
    var key := (e: IndexEntry) => -e.savedAt;
    SortDistinct(entries, key);
    SameElements(entries, key);
    assert NewestFirst(entries) == SortBy(entries, key);
  }

  lemma EvictedUnfold(entries: seq<IndexEntry>, maxBytes: nat)
    ensures Evicted(entries, maxBytes) == Keep(NewestFirst(entries), maxBytes, 0, false)
  {
  }

  lemma KeepUnfold(entries: seq<IndexEntry>, maxBytes: nat, total: nat, keptAny: bool)
    ensures entries == [] ==> Keep(entries, maxBytes, total, keptAny) == []
    ensures entries != [] ==>
              Keep(entries, maxBytes, total, keptAny) ==
              if maxBytes > 0 && total + entries[0].bytes > maxBytes && keptAny
              then Keep(entries[1..], maxBytes, total, keptAny)
              else [entries[0]] + Keep(entries[1..], maxBytes, total + entries[0].bytes, true)
  {
  }

  lemma SearchOrder(entries: seq<IndexEntry>)
    ensures LongestFirst(SortBy(entries, (e: IndexEntry) => -(e.tokens as int)), entries)
  {
    var key := (e: IndexEntry) => -(e.tokens as int);
    var order := SortBy(entries, key);
    SameElements(entries, key);
    forall j, k | 0 <= j <= k < |order| ensures order[k].tokens <= order[j].tokens {
      AscendingAll(order, key, j, k);
    }
  }

  lemma MatchIsPrefix(e: IndexEntry, newIds: seq<Token>)
    requires Matches(e, newIds)
    ensures MIN_REUSABLE_TOKENS <= e.tokens < |newIds| && e.digest == Digest(newIds[..e.tokens])
    ensures StrictPrefix(newIds[..e.tokens], newIds)
  {
  }

  lemma NothingBroken(order: seq<IndexEntry>, newIds: seq<Token>, files: map<Digest, Payload>,
                      unreadable: set<Digest>)
    ensures BrokenUpTo(order, newIds, files, unreadable, 0) == {}
  {
  }

  // The next record of the search is dropped exactly when it is broken.
  lemma NextRecord(order: seq<IndexEntry>, entries: seq<IndexEntry>, newIds: seq<Token>,
                   files: map<Digest, Payload>, unreadable: set<Digest>, i: nat)
    requires i < |order|
    ensures var gone, next := BrokenUpTo(order, newIds, files, unreadable, i),
                              BrokenUpTo(order, newIds, files, unreadable, i + 1);
            var d := order[i].digest;
            && (d in files - gone ==> (files - gone)[d] == files[d])
            && (if Matches(order[i], newIds) && (d !in files - gone || d in unreadable)
                then Without(WithoutAll(entries, gone), d) == WithoutAll(entries, next)
                     && files - gone - {d} == files - next
                else next == gone)
            && (Matches(order[i], newIds) && d in files - gone && d !in unreadable ==>
                  !Broken(order[i], newIds, files, unreadable))
  {
    hide Matches;
    var gone, d := BrokenUpTo(order, newIds, files, unreadable, i), order[i].digest;
    SameDigestBroken(order, newIds, files, unreadable, i);
    BrokenSnoc(order, newIds, files, unreadable, i);
    if Broken(order[i], newIds, files, unreadable) {
      WithoutOneMore(entries, gone, d);
      assert files - gone - {d} == files - (gone + {d});
    }
  }

  /** Before the i-th record of a search: the broken ones met are dropped, and none met can be restored. */
  ghost predicate Searched(order: seq<IndexEntry>, index0: seq<IndexEntry>, files0: map<Digest, Payload>,
                           index1: seq<IndexEntry>, files1: map<Digest, Payload>, newIds: seq<Token>,
                           unreadable: set<Digest>, makeCache: Option<seq<Part>>, i: nat)
  {
    && i <= |order| && LongestFirst(order, index0)
    && index1 == WithoutAll(index0, BrokenUpTo(order, newIds, files0, unreadable, i))
    && files1 == files0 - BrokenUpTo(order, newIds, files0, unreadable, i)
    && forall j :: 0 <= j < i && Matches(order[j], newIds) ==>
         !Restorable(files0, unreadable, makeCache, order[j].digest)
  }

  lemma SearchBegins(order: seq<IndexEntry>, index0: seq<IndexEntry>, files0: map<Digest, Payload>,
                     newIds: seq<Token>, unreadable: set<Digest>, makeCache: Option<seq<Part>>)
    requires LongestFirst(order, index0)
    ensures Searched(order, index0, files0, index0, files0, newIds, unreadable, makeCache, 0)
  {
    NothingBroken(order, newIds, files0, unreadable);
    WithoutNone(index0);
  }

  lemma SearchDrops(order: seq<IndexEntry>, index0: seq<IndexEntry>, files0: map<Digest, Payload>,
                    index1: seq<IndexEntry>, files1: map<Digest, Payload>, newIds: seq<Token>,
                    unreadable: set<Digest>, makeCache: Option<seq<Part>>, i: nat)
    requires Searched(order, index0, files0, index1, files1, newIds, unreadable, makeCache, i) && i < |order|
    requires Matches(order[i], newIds) && (order[i].digest !in files1 || order[i].digest in unreadable)
    ensures Searched(order, index0, files0, Without(index1, order[i].digest), files1 - {order[i].digest}, newIds,
                     unreadable, makeCache, i + 1)
  {
    hide Matches, Without, WithoutAll, BrokenUpTo, LongestFirst, Restored;
    NextRecord(order, index0, newIds, files0, unreadable, i);
    SameDigestBroken(order, newIds, files0, unreadable, i);
  }

  lemma SearchPasses(order: seq<IndexEntry>, index0: seq<IndexEntry>, files0: map<Digest, Payload>,
                     index1: seq<IndexEntry>, files1: map<Digest, Payload>, newIds: seq<Token>,
                     unreadable: set<Digest>, makeCache: Option<seq<Part>>, i: nat)
    requires Searched(order, index0, files0, index1, files1, newIds, unreadable, makeCache, i) && i < |order|
    requires Matches(order[i], newIds) ==>
               && order[i].digest in files1 && order[i].digest !in unreadable
               && !Restorable(files1, unreadable, makeCache, order[i].digest)
    ensures Searched(order, index0, files0, index1, files1, newIds, unreadable, makeCache, i + 1)
  {
    hide Matches, Without, WithoutAll, BrokenUpTo, LongestFirst, Restored;
    NextRecord(order, index0, newIds, files0, unreadable, i);
  }

  lemma SearchHits(order: seq<IndexEntry>, index0: seq<IndexEntry>, files0: map<Digest, Payload>,
                   index1: seq<IndexEntry>, files1: map<Digest, Payload>, newIds: seq<Token>,
                   unreadable: set<Digest>, makeCache: Option<seq<Part>>, i: nat)
    requires Searched(order, index0, files0, index1, files1, newIds, unreadable, makeCache, i) && i < |order|
    requires Matches(order[i], newIds) && Restorable(files1, unreadable, makeCache, order[i].digest)
    ensures order[i] in index0 && Restorable(files0, unreadable, makeCache, order[i].digest)
    ensures files1[order[i].digest] == files0[order[i].digest]
    ensures var gone := BrokenBeyond(index0, newIds, files0, unreadable, order[i].tokens);
            index1 == WithoutAll(index0, gone) && files1 == files0 - gone
    ensures forall e :: e in index0 && Matches(e, newIds) && Restorable(files0, unreadable, makeCache, e.digest) ==>
              e.tokens <= order[i].tokens
  {
    hide Matches, WithoutAll, BrokenUpTo, BrokenBeyond, Restored;
    NextRecord(order, index0, newIds, files0, unreadable, i);
    BrokenAtEnd(order, index0, newIds, files0, unreadable, i);
    assert order[i] in order;
    forall e | e in index0 && Matches(e, newIds) && Restorable(files0, unreadable, makeCache, e.digest)
      ensures e.tokens <= order[i].tokens
    {
      assert e in order;
      var j :| 0 <= j < |order| && order[j] == e;
    }
  }

  lemma SearchEnds(order: seq<IndexEntry>, index0: seq<IndexEntry>, files0: map<Digest, Payload>,
                   index1: seq<IndexEntry>, files1: map<Digest, Payload>, newIds: seq<Token>,
                   unreadable: set<Digest>, makeCache: Option<seq<Part>>)
    requires Searched(order, index0, files0, index1, files1, newIds, unreadable, makeCache, |order|)
    ensures var gone := BrokenBeyond(index0, newIds, files0, unreadable, 0);
            index1 == WithoutAll(index0, gone) && files1 == files0 - gone
    ensures forall e :: e in index0 && Matches(e, newIds) ==> !Restorable(files0, unreadable, makeCache, e.digest)
  {
    hide Matches, WithoutAll, BrokenUpTo, BrokenBeyond, Restored;
    BrokenAtEnd(order, index0, newIds, files0, unreadable, |order|);
    forall e | e in index0 && Matches(e, newIds) ensures !Restorable(files0, unreadable, makeCache, e.digest) {
      assert e in order;
      var j :| 0 <= j < |order| && order[j] == e;
    }
  }

  // What was dropped before is broken under any record of the same digest.
  lemma SameDigestBroken(order: seq<IndexEntry>, newIds: seq<Token>, files: map<Digest, Payload>,
                         unreadable: set<Digest>, i: nat)
    requires i < |order|
    ensures order[i].digest in BrokenUpTo(order, newIds, files, unreadable, i) ==>
              order[i].digest !in files || order[i].digest in unreadable
  {
  }

  /** No restorable snapshot is lost in a search, and no record of one. */
  lemma SearchKeepsRestorable(entries: seq<IndexEntry>, newIds: seq<Token>, files: map<Digest, Payload>,
                              unreadable: set<Digest>, reach: nat, makeCache: Option<seq<Part>>, d: Digest)
    requires Restorable(files, unreadable, makeCache, d)
    ensures var gone := BrokenBeyond(entries, newIds, files, unreadable, reach);
            && d !in gone && d in files - gone && (files - gone)[d] == files[d]
            && forall e :: e in entries && e.digest == d ==> e in WithoutAll(entries, gone)
  {
  }


  class CheckpointStore {
    const budget: Budget
    const maxBytes: nat
    const writeBudgetBytes: nat
    var diskEnabled: bool
    var bytesWritten: nat
    var disabledReason: Option<Reason>
    var memoryIds: Option<seq<Token>>
    var memoryPayload: Option<Payload>
    var memoryHits: nat
    var diskHits: nat
    var captures: nat
    var captureFailures: nat
    var index: seq<IndexEntry>
    var files: map<Digest, Payload>
    // Every snapshot ever captured, with the ids it was captured for.
    ghost var captured: set<(seq<Token>, Payload)>

    ghost predicate Valid()
      reads this
    {
      && (memoryIds.Some? == memoryPayload.Some?)
      && (memoryIds.Some? ==> (memoryIds.value, memoryPayload.value) in captured)
      && (forall d :: d in files ==> (d.tokens, files[d]) in captured)
      && (forall e :: e in index ==> e.tokens == |e.digest.tokens|)
      && DistinctDigests(index)
      && (writeBudgetBytes > 0 ==> bytesWritten <= writeBudgetBytes)
    }

    constructor (budget: Budget, maxBytes: nat, writeBudgetBytes: nat, diskEnabled: bool, hasRoot: bool)
      ensures Valid() && index == [] && files == map[] && captured == {} && memoryIds == None
      ensures this.diskEnabled == (diskEnabled && hasRoot) && bytesWritten == 0
    {
      this.budget, this.maxBytes, this.writeBudgetBytes := budget, maxBytes, writeBudgetBytes;
      this.diskEnabled := diskEnabled && hasRoot;
      disabledReason := if !diskEnabled then Some(DisabledBySetting) else if !hasRoot then Some(RootMissing) else None;
      bytesWritten, memoryHits, diskHits, captures, captureFailures := 0, 0, 0, 0, 0;
      memoryIds, memoryPayload := None, None;
      index, files, captured := [], map[], {};
    }

    /** Replaces the remembered boundary; a failed copy leaves nothing remembered. */
    method Remember(ids: seq<Token>, cache: Option<seq<Part>>, evaluates: bool) returns (ok: bool)
      requires Valid()
      modifies this`memoryIds, this`memoryPayload, this`captures, this`captureFailures, this`captured
      ensures Valid() && captured >= old(captured)
      ensures ids == [] || cache.None? ==>
                !ok && memoryIds == old(memoryIds) && memoryPayload == old(memoryPayload) && captured == old(captured)
      ensures ids != [] && cache.Some? ==>
                && ok == (cache.value != [] && (forall p :: p in cache.value ==> p.capturable) && evaluates)
                && memoryIds == (if ok then Some(ids) else None)
                && memoryPayload == (if ok then Some(cache.value) else None)
                && captured == old(captured) + (if ok then {(ids, cache.value)} else {})
    {
      if ids == [] || cache.None? { return false; }
      memoryIds, memoryPayload := None, None;
      var payload := Capture(cache.value);
      if payload.None? || !evaluates {
        captureFailures := captureFailures + 1;
        return false;
      }
      memoryIds, memoryPayload := Some(ids), payload;
      captures := captures + 1;
      captured := captured + {(ids, payload.value)};
      ok := true;
    }

    method Forget()
      requires Valid()
      modifies this`memoryIds, this`memoryPayload
      ensures Valid() && memoryIds == None && memoryPayload == None
    {
      memoryIds, memoryPayload := None, None;
    }

    method ClearDisk()
      requires Valid()
      modifies this`index, this`files, this`diskHits, this`bytesWritten
      ensures Valid()
      ensures diskEnabled ==> index == [] && files == map[] && bytesWritten == 0
      ensures !diskEnabled ==> index == old(index) && files == old(files) && bytesWritten == old(bytesWritten)
    {
      if !diskEnabled { return; }
      index, files, diskHits, bytesWritten := [], map[], 0, 0;
    }

    /** A snapshot whose file disappears behind the store's back. */
    method LoseFile(d: Digest)
      requires Valid()
      modifies this`files
      ensures Valid() && files == old(files) - {d}
    {
      files := files - {d};
    }

    /** The longest usable snapshot that is a strict prefix of the prompt; memory is tried first. */
    method RestoreBest(newIds: seq<Token>, makeCache: Option<seq<Part>>, unreadable: set<Digest>)
      returns (r: Option<Hit>)
      requires Valid()
      modifies this`memoryHits, this`diskHits, this`index, this`files
      ensures Valid()
      ensures r.Some? ==>
                && 256 <= |r.value.ids| && r.value.ids < newIds
                && makeCache.Some?
                && exists p :: (r.value.ids, p) in captured && Restored(makeCache.value, p) == Some(r.value.cache)
      ensures (r.Some? && r.value.tier.Memory?) <==> MemoryAnswers(newIds, makeCache)
      ensures r.Some? && r.value.tier.Memory? ==>
                memoryIds == Some(r.value.ids) && files == old(files) && index == old(index)
      ensures diskEnabled && (r.None? || r.value.tier.Disk?) ==>
                forall e :: e in old(index) && Matches(e, newIds)
                            && Restorable(old(files), unreadable, makeCache, e.digest)
                        ==> r.Some? && e.tokens <= |r.value.ids|
      ensures r.Some? && r.value.tier.Disk? ==>
                Restorable(old(files), unreadable, makeCache, Digest(r.value.ids))
      ensures memoryHits == old(memoryHits) + if r.Some? && r.value.tier.Memory? then 1 else 0
      ensures diskHits == old(diskHits) + if r.Some? && r.value.tier.Disk? then 1 else 0
      ensures if newIds == [] || (r.Some? && r.value.tier.Memory?) then index == old(index) && files == old(files)
              else AfterSearch(old(index), old(files), newIds, unreadable, Reach(r), index, files)
      ensures r.Some? ==> old(Best(newIds, makeCache, unreadable, Reach(r)))
      ensures r.None? && newIds != [] ==> forall k: nat :: !old(Best(newIds, makeCache, unreadable, k))
    {
      hide Restored;
      if newIds == [] { return None; }
      var best := RestoreMemory(newIds, makeCache);
      assert best.Some? <==> old(MemoryAnswers(newIds, makeCache));
      if best.Some? { return best; }
      r := RestoreDisk(newIds, makeCache, unreadable);
    }

    /** The snapshot of the first n tokens is the one to restore: the remembered one if it fits, else the
        longest on disk that can be restored. */
    ghost predicate Best(newIds: seq<Token>, makeCache: Option<seq<Part>>, unreadable: set<Digest>, n: nat)
      requires memoryIds.Some? == memoryPayload.Some?
      reads this
    {
      if MemoryAnswers(newIds, makeCache) then n == |memoryIds.value|
      else
        && diskEnabled
        && (exists e :: e in index && OnDisk(e, newIds, makeCache, unreadable) && e.tokens == n)
        && (forall e :: e in index && OnDisk(e, newIds, makeCache, unreadable) ==> e.tokens <= n)
    }

    predicate OnDisk(e: IndexEntry, newIds: seq<Token>, makeCache: Option<seq<Part>>, unreadable: set<Digest>)
      reads this
    {
      && 256 <= e.tokens < |newIds| && e.digest.tokens == newIds[..e.tokens]
      && Restorable(files, unreadable, makeCache, e.digest)
    }

    /** The remembered snapshot is a long enough strict prefix and fits the cache the runtime builds. */
    predicate MemoryAnswers(newIds: seq<Token>, makeCache: Option<seq<Part>>)
      requires memoryIds.Some? == memoryPayload.Some?
      reads this
    {
      && memoryIds.Some? && memoryPayload.value != [] && 256 <= |memoryIds.value| && memoryIds.value < newIds
      && makeCache.Some? && Restored(makeCache.value, memoryPayload.value).Some?
    }

    method RestoreMemory(newIds: seq<Token>, makeCache: Option<seq<Part>>) returns (r: Option<Hit>)
      requires Valid()
      modifies this`memoryHits
      ensures Valid()
      ensures r.Some? <==> MemoryAnswers(newIds, makeCache)
      ensures memoryHits == old(memoryHits) + if r.Some? then 1 else 0
      ensures r.Some? ==>
                r == Some(Hit(Restored(makeCache.value, memoryPayload.value).value, memoryIds.value, Memory))
    {
      if memoryIds.None? || memoryPayload.None? || memoryPayload.value == []
         || |memoryIds.value| < MIN_REUSABLE_TOKENS {
        return None;
      }
      if !StrictPrefix(memoryIds.value, newIds) { return None; }
      if makeCache.None? { return None; }
      var cache := Restored(makeCache.value, memoryPayload.value);
      if cache.None? { return None; }
      memoryHits := memoryHits + 1;
      r := Some(Hit(cache.value, memoryIds.value, Memory));
    }

    method RestoreDisk(newIds: seq<Token>, makeCache: Option<seq<Part>>, unreadable: set<Digest>)
      returns (r: Option<Hit>)
      requires Valid()
      modifies this`diskHits, this`index, this`files
      ensures Valid()
      ensures r.Some? ==>
                && r.value.tier.Disk? && diskEnabled
                && MIN_REUSABLE_TOKENS <= |r.value.ids| && StrictPrefix(r.value.ids, newIds)
                && Restorable(old(files), unreadable, makeCache, Digest(r.value.ids))
                && Restored(makeCache.value, old(files)[Digest(r.value.ids)]) == Some(r.value.cache)
      ensures diskEnabled ==>
                forall e :: e in old(index) && Matches(e, newIds)
                            && Restorable(old(files), unreadable, makeCache, e.digest)
                        ==> r.Some? && e.tokens <= |r.value.ids|
      ensures r.Some? ==> exists e :: e in old(index) && old(OnDisk(e, newIds, makeCache, unreadable))
                                      && e.tokens == |r.value.ids|
      ensures diskHits == old(diskHits) + if r.Some? then 1 else 0
      ensures AfterSearch(old(index), old(files), newIds, unreadable, Reach(r), index, files)
    {
      hide DistinctDigests, SortBy, Restored, Without, WithoutAll, BrokenBeyond, Searched, Matches;
      WithoutNone(index);
      if !diskEnabled { return None; }
      var entries := SortBy(index, (e: IndexEntry) => -(e.tokens as int));
      SearchOrder(index);
      ghost var index0, files0 := index, files;
      SearchBegins(entries, index, files, newIds, unreadable, makeCache);
      var i := 0;
      while i < |entries|
        invariant i <= |entries| && Valid() && unchanged(this`diskHits)
        invariant Searched(entries, index0, files0, index, files, newIds, unreadable, makeCache, i)
      {
        var entry := entries[i];
        if Matches(entry, newIds) && (entry.digest !in files || entry.digest in unreadable) {
          SearchDrops(entries, index0, files0, index, files, newIds, unreadable, makeCache, i);
          DropEntry(entry.digest);
        } else if Matches(entry, newIds) && makeCache.Some? && Restored(makeCache.value, files[entry.digest]).Some? {
          SearchHits(entries, index0, files0, index, files, newIds, unreadable, makeCache, i);
          MatchIsPrefix(entry, newIds);
          diskHits := diskHits + 1;
          assert old(OnDisk(entry, newIds, makeCache, unreadable));
          return Some(Hit(Restored(makeCache.value, files[entry.digest]).value, newIds[..entry.tokens], Disk));
        } else {
          SearchPasses(entries, index0, files0, index, files, newIds, unreadable, makeCache, i);
        }
        i := i + 1;
      }
      SearchEnds(entries, index0, files0, index, files, newIds, unreadable, makeCache);
      r := None;
    }

    /** What a search leaves: the broken records longer than the hit are dropped, with their files, and
        everything else is as it was. */
    ghost predicate AfterSearch(index0: seq<IndexEntry>, files0: map<Digest, Payload>, newIds: seq<Token>,
                                unreadable: set<Digest>, reach: nat, index1: seq<IndexEntry>,
                                files1: map<Digest, Payload>)
      reads this`diskEnabled
    {
      var gone := if diskEnabled then BrokenBeyond(index0, newIds, files0, unreadable, reach) else {};
      index1 == WithoutAll(index0, gone) && files1 == files0 - gone
    }

    method DropEntry(d: Digest)
      requires Valid()
      modifies this`index, this`files
      ensures Valid() && files == old(files) - {d} && index == Without(old(index), d)
    {
      index := Without(index, d);
      files := files - {d};
    }

    /** Why a snapshot is not written, if a limit forbids it. */
    function Refusal(ids: seq<Token>, payload: Payload): Option<Reason>
      reads this
    {
      if !diskEnabled then disabledReason
      else if payload == [] || |ids| < 256 then None
      else if budget.Budget? && !(0 < budget.fixed + budget.perToken * |ids| <= maxBytes) then Some(BudgetInsufficient)
      else if writeBudgetBytes > 0 && bytesWritten + PayloadBytes(payload) > writeBudgetBytes then
        Some(WriteBudgetReached)
      else None
    }

    /** A snapshot that is stored takes the place of one with its digest, and eviction follows. */
    ghost predicate AfterPersist(index0: seq<IndexEntry>, files0: map<Digest, Payload>, stored: bool, ids: seq<Token>,
                                 payload: Payload, now: int, index1: seq<IndexEntry>, files1: map<Digest, Payload>)
    {
      var d := Digest(ids);
      var entries := Without(index0, d) + [IndexEntry(|ids|, d, PayloadBytes(payload), now)];
      if stored then
        && index1 == Evicted(entries, maxBytes)
        && files1 == files0[d := payload] - (DigestsOf(entries) - DigestsOf(index1))
      else index1 == index0 && files1 == files0
    }

    /** Writes the remembered boundary, or refuses and says why. */
    method Persist(ids: seq<Token>, now: int, writes: bool) returns (reason: Option<Reason>)
      requires Valid() && memoryIds == Some(ids)
      modifies this`index, this`files, this`bytesWritten, this`disabledReason
      ensures Valid()
      ensures reason == old(Refusal(ids, memoryPayload.value))
      ensures disabledReason == (if reason.Some? then reason else old(disabledReason))
      ensures var stored := diskEnabled && reason.None? && memoryPayload.value != [] && |ids| >= MIN_REUSABLE_TOKENS
                            && writes;
              bytesWritten == old(bytesWritten) + (if stored then PayloadBytes(memoryPayload.value) else 0)
              && AfterPersist(old(index), old(files), stored, ids, memoryPayload.value, now, index, files)
    {
      hide DistinctDigests, DigestsOf, Evicted, PayloadBytes, Restored;
      if !diskEnabled { return disabledReason; }
      var payload := memoryPayload.value;
      if payload == [] || |ids| < MIN_REUSABLE_TOKENS { return None; }
      if !BudgetAllows(budget, maxBytes, |ids|) {
        disabledReason := Some(BudgetInsufficient);
        return disabledReason;
      }
      var size := PayloadBytes(payload);
      if writeBudgetBytes > 0 && bytesWritten + size > writeBudgetBytes {
        disabledReason := Some(WriteBudgetReached);
        return disabledReason;
      }
      if !writes { return None; }
      var d := Digest(ids);
      files := files[d := payload];
      bytesWritten := bytesWritten + size;
      var entry := IndexEntry(|ids|, d, size, now);
      AppendDistinct(Without(index, d), entry);
      Evict(Without(index, d) + [entry]);
      reason := None;
    }

    lemma NothingPersisted(ids: seq<Token>, payload: Payload, now: int)
      ensures AfterPersist(index, files, false, ids, payload, now, index, files)
    {
    }

    /** Keeps the newest snapshots that fit and deletes the files of exactly the others. */
    method Evict(entries: seq<IndexEntry>)
      requires DistinctDigests(entries)
      modifies this`index, this`files
      ensures index == Evicted(entries, maxBytes) && DistinctDigests(index)
      ensures forall e :: e in index ==> e in entries
      ensures files == old(files) - (DigestsOf(entries) - DigestsOf(index))
    {
      hide DigestsOf, Keep, Evicted, NewestFirst, DistinctDigests;
      var sorted := NewestFirst(entries);
      NewestFirstFacts(entries);
      EvictedUnfold(entries, maxBytes);
      var kept: seq<IndexEntry> := [];
      var total: nat, i := 0, 0;
      ghost var dropped: set<Digest> := {};
      assert sorted[0..] == sorted;
      DigestsNil();
      while i < |sorted|
        invariant i <= |sorted|
        invariant kept + Keep(sorted[i..], maxBytes, total, kept != []) == Evicted(entries, maxBytes)
        invariant forall e :: e in kept ==> e in sorted[..i]
        invariant files == old(files) - dropped && dropped == DigestsOf(sorted[..i]) - DigestsOf(kept)
      {
        var entry := sorted[i];
        assert sorted[i..][0] == entry && sorted[i..][1..] == sorted[i + 1..];
        assert sorted[..i + 1] == sorted[..i] + [entry];
        DigestsSnoc(sorted[..i], entry);
        DigestsSnoc(kept, entry);
        NotSeenBefore(sorted, i);
        SubDigests(kept, sorted[..i]);
        KeepUnfold(sorted[i..], maxBytes, total, kept != []);
        if maxBytes > 0 && total + entry.bytes > maxBytes && kept != [] {
          files := files - {entry.digest};
          dropped := dropped + {entry.digest};
        } else {
          total := total + entry.bytes;
          assert kept + ([entry] + Keep(sorted[i + 1..], maxBytes, total, true)) ==
                 (kept + [entry]) + Keep(sorted[i + 1..], maxBytes, total, true);
          kept := kept + [entry];
        }
        i := i + 1;
      }
      assert sorted[..i] == sorted && sorted[i..] == [];
      KeepUnfold([], maxBytes, total, kept != []);
      assert kept + [] == kept;
      SameDigests(sorted, entries);
      KeepDistinct(sorted, maxBytes, 0, false);
      index := kept;
    }
  }
}
