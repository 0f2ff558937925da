/** The two-tier prompt cache of the text worker (Workers/mlx_lm_worker/prompt_cache.py). */
module LmPromptCache {
  import opened Prelude
  import opened Sorting

  type Token = int

  const MIN_REUSABLE_TOKENS := 64
  const GROUP_SIZE := 64

  // One layer; `bits` and `groupSize` are present on a quantised layer only.
  datatype Layer = Layer(bits: Option<int>, groupSize: Option<int>)

  /** A runtime cache: what it has consumed, the length it reports, whether it can be trimmed. */
  datatype Cache = Cache(held: seq<Token>, offset: Option<nat>, trims: bool, layers: seq<Layer>)

  // A SHA-256 digest over token ids, and the file name made of its first 16 hex digits: both are taken
  // to identify the tokens.
  datatype Digest = Digest(tokens: seq<Token>)
  datatype FileName = FileName(digest: Digest)

  datatype Entry = Entry(file: FileName, tokens: nat, digest: Digest)
  datatype Snapshot = Snapshot(cache: Cache, size: nat, mtime: int, readable: bool)

  type Files = map<FileName, Snapshot>

  datatype Remembered = Remembered(tokens: seq<Token>, cache: Cache)

  datatype Tier = Cold | Memory | Paged | Disk

  /** Answers of the runtime's own trie: an exception, nothing, or an entry cut to the k tokens it shares
      with the prompt. `left` is what the trie still holds afterwards. */
  datatype TrieAnswer = TrieRaised | TrieMiss(left: seq<Remembered>)
    | TrieHit(entry: Remembered, k: nat, left: seq<Remembered>)
  datatype TrieInsert = InsertRaised | Kept(entries: seq<Remembered>)
  datatype PagedAnswer = PagedRaised | PagedMiss | PagedHit(cache: Cache, k: nat)
  datatype ColdReason = MemoryPressure | TokenIdsUnavailable | CancelledPrevious
  datatype SaveOutcome = Saved(size: nat) | NotSaved(partial: Option<nat>)

  /** Trimming removes tokens from the end. */
  function Trim(c: Cache, surplus: nat): (r: Cache)
    ensures surplus <= |c.held| ==> r.held == c.held[..|c.held| - surplus]
    ensures r.trims == c.trims && r.layers == c.layers
    ensures r.offset == if c.offset.Some? then Some(|r.held|) else None
  {
    var left := if surplus <= |c.held| then |c.held| - surplus else 0;
    c.(held := c.held[..left], offset := if c.offset.Some? then Some(left) else None)
  }

  /** A reused cache must have the quantisation of this store. */
  predicate MatchesKvMode(kvBits: Option<int>, c: Cache) {
    if kvBits.None? then forall l :: l in c.layers ==> l.bits.None?
    else forall l :: l in c.layers && l.bits.Some? ==>
      l.bits == kvBits && (l.groupSize.Some? ==> l.groupSize.value == GROUP_SIZE)
  }

  /** What a store may reuse, layer by layer: nothing quantised without a setting, and with one only layers
      of that many bits in groups of 64, or plain ones. */
  ghost predicate OfThisMode(kvBits: Option<int>, layers: seq<Layer>) {
    forall i :: 0 <= i < |layers| ==>
      match (kvBits, layers[i].bits)
      case (_, None) => true
      case (None, Some(_)) => false
      case (Some(n), Some(bits)) => bits == n && layers[i].groupSize in {None, Some(64)}
  }

  lemma ModeExactly(kvBits: Option<int>, c: Cache)
    ensures MatchesKvMode(kvBits, c) <==> OfThisMode(kvBits, c.layers)
  {
    assert forall i :: 0 <= i < |c.layers| ==> c.layers[i] in c.layers;
  }

  lemma ModeOfLayers(kvBits: Option<int>, a: Cache, b: Cache)
    requires a.layers == b.layers
    ensures MatchesKvMode(kvBits, a) == MatchesKvMode(kvBits, b)
  {
  }

  // -------------------------------------------------------------------- the index

  predicate Matches(e: Entry, tokens: seq<Token>) {
    MIN_REUSABLE_TOKENS <= e.tokens < |tokens| && e.digest == Digest(tokens[..e.tokens])
  }

  predicate Loads(kvBits: Option<int>, s: Snapshot) {
    s.readable && MatchesKvMode(kvBits, s.cache)
  }

  predicate Usable(kvBits: Option<int>, files: Files, e: Entry, tokens: seq<Token>) {
    Matches(e, tokens) && e.file in files && Loads(kvBits, files[e.file])
  }

  /** A snapshot that may answer the prompt: made of at least 64 of its leading tokens but not of all, there,
      readable, and of this store's mode. */
  ghost predicate Serves(kvBits: Option<int>, files: Files, e: Entry, tokens: seq<Token>) {
    && 64 <= e.tokens < |tokens| && e.digest.tokens == tokens[..e.tokens]
    && e.file in files && files[e.file].readable && OfThisMode(kvBits, files[e.file].cache.layers)
  }

  lemma ServesExactly(kvBits: Option<int>, files: Files, tokens: seq<Token>)
    ensures forall e :: Usable(kvBits, files, e, tokens) <==> Serves(kvBits, files, e, tokens)
  {
    hide MatchesKvMode, OfThisMode;
    forall e: Entry ensures Usable(kvBits, files, e, tokens) <==> Serves(kvBits, files, e, tokens) {
      if e.file in files { ModeExactly(kvBits, files[e.file].cache); }
      assert 0 <= e.tokens <= |tokens| ==>
               (e.digest == Digest(tokens[..e.tokens]) <==> e.digest.tokens == tokens[..e.tokens]);
    }
  }

  /** A matching snapshot whose file is there but cannot be used. */
  predicate Discarded(kvBits: Option<int>, files: Files, e: Entry, tokens: seq<Token>) {
    Matches(e, tokens) && e.file in files && !Loads(kvBits, files[e.file])
  }

  function Without(entries: seq<Entry>, gone: Entry): (r: seq<Entry>)
    ensures forall e :: e in r <==> e in entries && e != gone
    ensures Distinct(entries) ==> Distinct(r)
  {
    if entries == [] then []
    else if entries[0] == gone then Without(entries[1..], gone)
    else [entries[0]] + Without(entries[1..], gone)
  }

  ghost predicate Distinct(entries: seq<Entry>) {
    entries == [] || ((forall e :: e in entries[1..] ==> e.digest != entries[0].digest) && Distinct(entries[1..]))
  }

  predicate WellNamed(e: Entry) {
    e.file == FileName(e.digest) && |e.digest.tokens| == e.tokens
  }

  ghost predicate FilesHoldTheirTokens(files: Files) {
    forall f :: f in files && files[f].readable ==> files[f].cache.held == f.digest.tokens
  }

  ghost predicate MemoryHoldsItsTokens(memory: seq<Remembered>) {
    forall m :: m in memory ==> m.cache.held == m.tokens
  }

  // ------------------------------------------------------------------- the budget

  function SizeOf(files: Files, e: Entry): nat {
    if e.file in files then files[e.file].size else 0
  }

  /** Bytes of the listed snapshots. */
  function DiskBytes(entries: seq<Entry>, files: Files): nat {
    if entries == [] then 0 else SizeOf(files, entries[0]) + DiskBytes(entries[1..], files)
  }

  function Listed(entries: seq<Entry>, files: Files): (r: seq<Entry>)
    ensures forall e :: e in r <==> e in entries && e.file in files
    ensures Distinct(entries) ==> Distinct(r)
    ensures DiskBytes(r, files) == DiskBytes(entries, files)
  {
    if entries == [] then []
    else if entries[0].file in files then [entries[0]] + Listed(entries[1..], files)
    else Listed(entries[1..], files)
  }

  function Age(files: Files): Entry -> int {
    (e: Entry) => if e.file in files then files[e.file].mtime else 0
  }

  /** Listed snapshots, least recently used first. */
  function ByAge(entries: seq<Entry>, files: Files): seq<Entry> {
    SortBy(Listed(entries, files), Age(files))
  }

  /** How many of the oldest snapshots go: the fewest whose removal meets the limit. */
  function Surplus(order: seq<Entry>, files: Files, maxBytes: nat): (k: nat)
    ensures k <= |order|
    ensures DiskBytes(order[k..], files) <= maxBytes
    ensures forall j :: 0 <= j < k ==> DiskBytes(order[j..], files) > maxBytes
  {
    if DiskBytes(order, files) <= maxBytes then assert order[0..] == order; 0
    else
      var k := 1 + Surplus(order[1..], files, maxBytes);
      assert order[k..] == order[1..][k - 1..];
      assert forall j :: 0 <= j < k ==> DiskBytes(order[j..], files) > maxBytes by {
        forall j | 0 <= j < k ensures DiskBytes(order[j..], files) > maxBytes {
          if j == 0 { assert order[0..] == order; }
          else { assert order[j..] == order[1..][j - 1..]; }
        }
      }
      k
  }

  function WithoutAll(entries: seq<Entry>, gone: seq<Entry>): (r: seq<Entry>)
    ensures forall e :: e in r <==> e in entries && e !in gone
    ensures Distinct(entries) ==> Distinct(r)
    decreases |gone|
  {
    if gone == [] then entries else Without(WithoutAll(entries, gone[..|gone| - 1]), gone[|gone| - 1])
  }

  function FileNames(entries: seq<Entry>): set<FileName> {
    set e | e in entries :: e.file
  }

  lemma {:induction false} BytesOfInsert(x: Entry, s: seq<Entry>, key: Entry -> int, files: Files)
    requires Ascending(s, key)
    ensures DiskBytes(Insert(x, s, key), files) == SizeOf(files, x) + DiskBytes(s, files)
  {
    if s != [] && key(x) > key(s[0]) {
      BytesOfInsert(x, s[1..], key, files);
      assert Insert(x, s, key)[1..] == Insert(x, s[1..], key);
    } else {
      assert Insert(x, s, key)[1..] == s;
    }
  }

  lemma {:induction false} BytesOfSorted(s: seq<Entry>, key: Entry -> int, files: Files)
    ensures DiskBytes(SortBy(s, key), files) == DiskBytes(s, files)
  {
    if s != [] {
      BytesOfSorted(s[1..], key, files);
      BytesOfInsert(s[0], SortBy(s[1..], key), key, files);
    }
  }

  /** Removing one listed snapshot and its file frees exactly its size. */
  lemma {:induction false} BytesWithout(entries: seq<Entry>, gone: Entry, files: Files)
    requires Distinct(entries) && (forall e :: e in entries ==> WellNamed(e)) && gone in entries
    ensures DiskBytes(Without(entries, gone), files - {gone.file}) + SizeOf(files, gone) == DiskBytes(entries, files)
  {
    assert forall e :: e in entries[1..] ==> e in entries;
    if entries[0] == gone {
      assert gone !in entries[1..];
      assert forall e :: e in entries[1..] ==> e.file != gone.file;
      WithoutAbsent(entries[1..], gone);
      BytesElsewhere(entries[1..], gone, files);
    } else {
      BytesWithout(entries[1..], gone, files);
      var r := Without(entries, gone);
      assert r[0] == entries[0] && r[1..] == Without(entries[1..], gone);
      assert gone in entries[1..];
      assert entries[0].digest != gone.digest && WellNamed(entries[0]) && WellNamed(gone);
      assert SizeOf(files - {gone.file}, entries[0]) == SizeOf(files, entries[0]);
    }
  }

  lemma {:induction false} WithoutAbsent(entries: seq<Entry>, gone: Entry)
    requires gone !in entries
    ensures Without(entries, gone) == entries
  {
    if entries != [] { WithoutAbsent(entries[1..], gone); }
  }

  lemma {:induction false} BytesElsewhere(entries: seq<Entry>, gone: Entry, files: Files)
    requires forall e :: e in entries ==> e.file != gone.file
    ensures DiskBytes(entries, files - {gone.file}) == DiskBytes(entries, files)
  {
    if entries != [] { BytesElsewhere(entries[1..], gone, files); }
  }

  /** Bytes of all files, listed or not. */
  ghost function TotalBytes(files: Files): nat
    decreases |files|
  {
    if files == map[] then 0
    else
      var f :| f in files;
      Shrinks(files, f);
      files[f].size + TotalBytes(files - {f})
  }

  lemma Shrinks(files: Files, f: FileName)
    requires f in files
    ensures |files - {f}| < |files|
  {
    assert files.Keys == (files - {f}).Keys + {f};
    assert |files.Keys| == |(files - {f}).Keys| + 1;
    assert |files| == |files.Keys| && |files - {f}| == |(files - {f}).Keys|;
  }

  lemma {:induction false} TotalSplits(files: Files, f: FileName)
    requires f in files
    ensures TotalBytes(files) == files[f].size + TotalBytes(files - {f})
    decreases |files|
  {
    var g :| g in files && TotalBytes(files) == files[g].size + TotalBytes(files - {g});
    if f != g {
      Shrinks(files, g);
      Shrinks(files, f);
      TotalSplits(files - {g}, f);
      TotalSplits(files - {f}, g);
      assert files - {g} - {f} == files - {f} - {g};
    }
  }

  /** Files no record lists. */
  function Strays(entries: seq<Entry>, files: Files): Files {
    files - FileNames(entries)
  }

  /** All bytes on disk are those of the listed snapshots and those of the files no record lists. */
  lemma {:induction false} TotalIsListedAndStray(entries: seq<Entry>, files: Files)
    requires Distinct(entries) && forall e :: e in entries ==> WellNamed(e)
    ensures TotalBytes(files) == DiskBytes(entries, files) + TotalBytes(Strays(entries, files))
    decreases |entries|
  {
    if entries == [] {
      assert Strays(entries, files) == files;
    } else {
      var e, rest := entries[0], entries[1..];
      forall x | x in rest ensures x in entries && x.file != e.file {
        assert x in entries && x.digest != e.digest && WellNamed(x) && WellNamed(e);
      }
      TotalIsListedAndStray(rest, files - {e.file});
      BytesElsewhere(rest, e, files);
      assert Strays(rest, files - {e.file}) == Strays(entries, files);
      if e.file in files {
        TotalSplits(files, e.file);
      } else {
        assert files - {e.file} == files;
      }
    }
  }

  // -------------------------------------------------------------------- the store

  class PromptCacheStore {
    const guardTokens: nat
    const maxBytes: nat
    const kvBits: Option<int>
    const diskEnabled: bool
    var memory: Option<seq<Remembered>>
    var index: seq<Entry>
    var files: Files
    var memoryHits: nat
    var diskHits: nat

    constructor (guardTokens: nat, maxBytes: nat, kvBits: Option<int>, diskEnabled: bool, hasTrie: bool)
      ensures Valid()
    {
      this.guardTokens, this.maxBytes, this.kvBits, this.diskEnabled := guardTokens, maxBytes, kvBits, diskEnabled;
      memory := if hasTrie then Some([]) else None;
      index, files, memoryHits, diskHits := [], map[], 0, 0;
    }

    ghost predicate Valid()
      reads this
    {
      && (memory.Some? ==> MemoryHoldsItsTokens(memory.value))
      && ValidDisk()
    }

    ghost predicate ValidDisk()
      reads this
    {
      && Distinct(index)
      && (forall e :: e in index ==> WellNamed(e))
      && FilesHoldTheirTokens(files)
    }

    ghost predicate TrieSpec(answer: TrieAnswer, tokens: seq<Token>)
      reads this
    {
      memory.Some? ==>
        && (!answer.TrieRaised? ==> forall m :: m in answer.left ==> m in memory.value)
        && (answer.TrieHit? ==>
              && answer.entry in memory.value
              && answer.k <= |tokens| && answer.k <= |answer.entry.tokens|
              && answer.entry.tokens[..answer.k] == tokens[..answer.k])
    }

    ghost predicate PagedSpec(answer: Option<PagedAnswer>, tokens: seq<Token>) {
      answer.Some? && answer.value.PagedHit? ==>
        0 < answer.value.k < |tokens| && answer.value.cache.held == tokens[..answer.value.k]
    }

    /** What the memory tier holds after its trie was asked. */
    static function Asked(memory: Option<seq<Remembered>>, answer: TrieAnswer): Option<seq<Remembered>> {
      if memory.None? then None else if answer.TrieRaised? then Some([]) else Some(answer.left)
    }

    /** Of the files that stay, the one used becomes the most recent and nothing else changes. */
    static ghost predicate Touched(files0: Files, files1: Files, used: Option<FileName>, now: int) {
      && (used.Some? ==>
            && used.value in files0 && used.value in files1
            && files1[used.value] == files0[used.value].(mtime := now))
      && forall f :: f in files1 && used != Some(f) ==> f in files0 && files1[f] == files0[f]
    }

    /** The warm tier; a reuse below 64 tokens or one that leaves nothing to process is refused. */
    method FetchMemory(tokens: seq<Token>, answer: TrieAnswer) returns (cache: Option<Cache>, remaining: seq<Token>)
      requires Valid() && TrieSpec(answer, tokens)
      modifies this`memory
      ensures Valid()
      ensures cache.None? ==> remaining == tokens
      ensures cache.Some? <==>
        old(memory).Some? && answer.TrieHit? && MIN_REUSABLE_TOKENS <= answer.k < |tokens|
      ensures cache.Some? ==> remaining == tokens[answer.k..] && cache.value.held == tokens[..answer.k]
                              && cache.value.layers == answer.entry.cache.layers
      ensures memory == Asked(old(memory), answer)
    {
      if memory.None? { return None, tokens; }
      match answer {
        case TrieRaised =>
          memory := Some([]);
          return None, tokens;
        case TrieMiss(left) =>
          memory := Some(left);
          return None, tokens;
        case TrieHit(entry, k, left) =>
          assert entry.cache.held == entry.tokens;
          memory := Some(left);
          remaining := tokens[k..];
          if |tokens| - |remaining| < MIN_REUSABLE_TOKENS { return None, tokens; }
          if remaining == [] { return None, tokens; }
          cache := Some(Trim(entry.cache, |entry.tokens| - k));
      }
    }

    /** The cold tier: the longest listed prefix of the prompt whose snapshot loads. A snapshot that does
        not load is deleted on the way. */
    method FetchDisk(tokens: seq<Token>, now: int) returns (hit: Option<(Cache, nat)>)
      requires Valid()
      modifies this`index, this`files
      ensures Valid()
      ensures hit.Some? <==> diskEnabled && exists e :: e in old(index) && Serves(kvBits, old(files), e, tokens)
      ensures hit.Some? ==>
        && 64 <= hit.value.1 < |tokens|
        && hit.value.0.held == tokens[..hit.value.1]
        && OfThisMode(kvBits, hit.value.0.layers)
      ensures diskEnabled ==> AfterSearch(old(index), old(files), index, files.Keys, tokens, Reach(hit))
      ensures !diskEnabled ==> index == old(index) && files == old(files)
      ensures Touched(old(files), files, if hit.Some? then Some(FileName(Digest(tokens[..hit.value.1]))) else None, now)
      ensures hit.Some? ==> files[FileName(Digest(tokens[..hit.value.1]))].cache == hit.value.0
    {
      hide LongestFirst, Without, Matches, MatchesKvMode, OfThisMode, Serves, Distinct, Loads, Searched, AfterSearch;
      if !diskEnabled { return None; }
      ServesExactly(kvBits, files, tokens);
      ghost var files0, gone := files, [];
      var entries := index;
      var order := LongestFirst(entries);
      LongestFirstOrders(entries);
      SearchStarts(entries, order, files0, tokens);
      for i := 0 to |order|
        invariant unchanged(this`memory) && ValidDisk()
        invariant Searched(entries, order, files0, files, index, gone, tokens, i)
        invariant forall f :: f in files ==> f in files0 && files[f] == files0[f]
      {
        var e := order[i];
        assert e in entries;
        if Matches(e, tokens) && e.file in files {
          if Loads(kvBits, files[e.file]) {
            SearchHits(entries, order, files0, files, index, gone, tokens, i);
            MatchIsPrefix(e, tokens);
            LoadsMatches(kvBits, files[e.file]);
            ModeExactly(kvBits, files[e.file].cache);
            var s := files[e.file];
            ghost var names := files.Keys;
            assert WellNamed(e);
            files := files[e.file := s.(mtime := now)];
            assert files.Keys == names;
            return Some((s.cache, e.tokens));
          }
          SearchDiscards(entries, order, files0, files, index, gone, tokens, i);
          Discard(entries, e);
          gone := gone + [e];
        } else {
          SearchSkips(entries, order, files0, files, index, gone, tokens, i);
        }
      }
      SearchEnds(entries, order, files0, files, index, gone, tokens);
      hit := None;
    }

    /** Deletes a snapshot; the index is rewritten from the entries read before the search. */
    method Discard(entries: seq<Entry>, e: Entry)
      requires Valid() && e in entries && Distinct(entries) && forall x :: x in entries ==> WellNamed(x)
      modifies this`index, this`files
      ensures ValidDisk()
      ensures files == old(files) - {e.file} && index == Without(entries, e)
    {
      hide Distinct, WellNamed;
      files := files - {e.file};
      index := Without(entries, e);
    }

    /** What a search leaves: only unusable matching snapshots are deleted, among them all longer than the
        hit; the index loses at most one record, of a deleted one, and keeps no record without its file
        exactly when at most one snapshot was deleted. */
    ghost predicate AfterSearch(entries: seq<Entry>, files0: Files, left: seq<Entry>, names: set<FileName>,
                                tokens: seq<Token>, reach: nat)
    {
      && names <= files0.Keys
      && (forall f :: f in files0 && f !in names ==>
            exists e :: e in entries && e.file == f && Discarded(kvBits, files0, e, tokens))
      && (forall e :: e in entries && Discarded(kvBits, files0, e, tokens) && e.tokens > reach ==> e.file !in names)
      && (forall e :: e in entries && Usable(kvBits, files0, e, tokens) ==> e.tokens <= reach)
      && (forall e :: e in left ==> e in entries)
      && (forall e :: e in entries && e !in left ==> e.file !in names)
      && (forall a, b :: a in entries && b in entries && a != b ==> a in left || b in left)
      && (NoRecordLosesItsFile(left, files0, names) <==> AtMostOneUnusable(entries, files0, tokens, reach))
    }

    lemma ReachIsLongest(entries: seq<Entry>, files0: Files, left: seq<Entry>, names: set<FileName>,
                         tokens: seq<Token>, reach: nat)
      requires AfterSearch(entries, files0, left, names, tokens, reach)
      ensures forall e :: e in entries && Usable(kvBits, files0, e, tokens) ==> e.tokens <= reach
    {
      hide Usable, Discarded;
    }

    ghost predicate NoRecordLosesItsFile(left: seq<Entry>, files0: Files, names: set<FileName>) {
      forall e :: e in left && e.file in files0 ==> e.file in names
    }

    ghost predicate AtMostOneUnusable(entries: seq<Entry>, files0: Files, tokens: seq<Token>, reach: nat) {
      forall a, b ::
        (&& a in entries && Discarded(kvBits, files0, a, tokens) && a.tokens > reach
         && b in entries && Discarded(kvBits, files0, b, tokens) && b.tokens > reach) ==> a == b
    }

    /** Before the i-th entry of the search: `gone` are the unusable entries met. All their files are deleted,
        but only the last record is. */
    ghost predicate Searched(entries: seq<Entry>, order: seq<Entry>, files0: Files, files1: Files, left: seq<Entry>,
                             gone: seq<Entry>, tokens: seq<Token>, i: nat)
    {
      && i <= |order| && InOrder(entries, order)
      && Dropped(entries, files0, gone, left, files1)
      && (forall d :: d in gone ==> Discarded(kvBits, files0, d, tokens))
      && (forall d, j :: d in gone && i <= j < |order| ==> order[j].tokens <= d.tokens)
      && (forall j :: 0 <= j < i ==> !Usable(kvBits, files0, order[j], tokens))
      && (forall j :: 0 <= j < i && Discarded(kvBits, files0, order[j], tokens) ==> order[j] in gone)
    }

    ghost predicate InOrder(entries: seq<Entry>, order: seq<Entry>) {
      && (forall e :: e in order <==> e in entries) && (forall e :: e in entries ==> WellNamed(e))
      && (forall j, k :: 0 <= j <= k < |order| ==> order[k].tokens <= order[j].tokens)
    }

    ghost predicate Dropped(entries: seq<Entry>, files0: Files, gone: seq<Entry>, left: seq<Entry>, files1: Files) {
      && (forall d :: d in gone ==> d in entries && d.file in files0)
      && NoRepeats(gone)
      && files1 == files0 - FileNames(gone)
      && left == if gone == [] then entries else Without(entries, gone[|gone| - 1])
    }

    lemma SearchStarts(entries: seq<Entry>, order: seq<Entry>, files0: Files, tokens: seq<Token>)
      requires InOrder(entries, order)
      ensures Searched(entries, order, files0, files0, entries, [], tokens, 0)
    {
    }

    lemma SearchSkips(entries: seq<Entry>, order: seq<Entry>, files0: Files, files1: Files, left: seq<Entry>,
                      gone: seq<Entry>, tokens: seq<Token>, i: nat)
      requires Searched(entries, order, files0, files1, left, gone, tokens, i) && i < |order|
      requires !(Matches(order[i], tokens) && order[i].file in files1)
      ensures Searched(entries, order, files0, files1, left, gone, tokens, i + 1)
    {
      hide Matches, Loads, Without;
      var e := order[i];
      assert e in order;
      if Matches(e, tokens) && e.file in files0 {
        var d :| d in gone && d.file == e.file;
        SameFile(d, e);
      }
    }

    lemma SearchDiscards(entries: seq<Entry>, order: seq<Entry>, files0: Files, files1: Files, left: seq<Entry>,
                         gone: seq<Entry>, tokens: seq<Token>, i: nat)
      requires Searched(entries, order, files0, files1, left, gone, tokens, i) && i < |order|
      requires Matches(order[i], tokens) && order[i].file in files1 && !Loads(kvBits, files1[order[i].file])
      ensures Searched(entries, order, files0, files1 - {order[i].file}, Without(entries, order[i]),
                       gone + [order[i]], tokens, i + 1)
    {
      hide Matches, Loads, Without, WellNamed;
      var e := order[i];
      assert e in order;
      FileNamesSnoc(gone, e);
      assert e !in gone;
    }

    lemma SearchHits(entries: seq<Entry>, order: seq<Entry>, files0: Files, files1: Files, left: seq<Entry>,
                     gone: seq<Entry>, tokens: seq<Token>, i: nat)
      requires Searched(entries, order, files0, files1, left, gone, tokens, i) && i < |order|
      requires Matches(order[i], tokens) && order[i].file in files1 && Loads(kvBits, files1[order[i].file])
      ensures Usable(kvBits, files0, order[i], tokens)
      ensures AfterSearch(entries, files0, left, files1.Keys, tokens, order[i].tokens)
    {
      hide Loads, Without, AfterSearch;
      var e := order[i];
      assert e in order && Usable(kvBits, files0, e, tokens);
      forall d | d in entries && Discarded(kvBits, files0, d, tokens) && d.tokens > e.tokens ensures d in gone {
        var j :| 0 <= j < |order| && order[j] == d;
      }
      forall d | d in gone ensures d.tokens > e.tokens {
        SameFile(d, e);
      }
      forall d | d in entries && Usable(kvBits, files0, d, tokens) ensures d.tokens <= e.tokens {
        var j :| 0 <= j < |order| && order[j] == d;
      }
      RecordsInStep(entries, files0, tokens, gone, left, files1, e.tokens);
    }

    lemma SearchEnds(entries: seq<Entry>, order: seq<Entry>, files0: Files, files1: Files, left: seq<Entry>,
                     gone: seq<Entry>, tokens: seq<Token>)
      requires Searched(entries, order, files0, files1, left, gone, tokens, |order|)
      ensures forall e :: e in entries ==> !Usable(kvBits, files0, e, tokens)
      ensures AfterSearch(entries, files0, left, files1.Keys, tokens, 0)
    {
      hide Loads, Without, AfterSearch;
      forall d | d in entries ensures !Usable(kvBits, files0, d, tokens)
                              ensures Discarded(kvBits, files0, d, tokens) ==> d in gone && d.tokens > 0 {
        var j :| 0 <= j < |order| && order[j] == d;
      }
      RecordsInStep(entries, files0, tokens, gone, left, files1, 0);
    }

    /** Records and files stay in step exactly when at most one unusable entry was met. */
    lemma RecordsInStep(entries: seq<Entry>, files0: Files, tokens: seq<Token>, gone: seq<Entry>, left: seq<Entry>,
                        files1: Files, reach: nat)
      requires Dropped(entries, files0, gone, left, files1) && forall e :: e in entries ==> WellNamed(e)
      requires forall e :: e in gone <==> e in entries && Discarded(kvBits, files0, e, tokens) && e.tokens > reach
      requires forall e :: e in entries && Usable(kvBits, files0, e, tokens) ==> e.tokens <= reach
      ensures AfterSearch(entries, files0, left, files1.Keys, tokens, reach)
    {
      hide Discarded, Usable, Without, WellNamed;
      if |gone| >= 2 {
        assert gone[0] in gone && gone[1] in gone && gone[0] != gone[1] && gone[0] != gone[|gone| - 1];
        assert gone[0] in left && gone[0].file in files0 && gone[0].file !in files1;
      } else {
        forall e | e in left && e.file in files0 ensures e.file in files1 {
          if gone != [] {
            assert gone[0] in gone && e != gone[0];
            SameFile(e, gone[0]);
            assert FileNames(gone) == {gone[0].file};
          }
        }
      }
      forall f | f in files0 && f !in files1
        ensures exists e :: e in entries && e.file == f && Discarded(kvBits, files0, e, tokens)
      {
        var d :| d in gone && d.file == f;
      }
    }

    /** Two unusable snapshots of one prompt: both files go, but only one of the records does. The other keeps
        its prefix listed without a file, so a later save of that prefix is skipped. */
    method FetchPastTwoUnusable(tokens: seq<Token>, now: int, a: Entry, b: Entry) returns (ghostly: Entry)
      requires Valid() && diskEnabled && a != b && a in index && b in index
      requires Discarded(kvBits, files, a, tokens) && Discarded(kvBits, files, b, tokens)
      requires forall e :: e in index ==> !Usable(kvBits, files, e, tokens)
      modifies this`index, this`files
      ensures Valid()
      ensures (ghostly == a || ghostly == b) && ghostly in index && ghostly.file !in files
      ensures AlreadyListed(index, Digest(tokens[..ghostly.tokens]))
    {
      hide Distinct, Without, FilesHoldTheirTokens, Usable, Serves, Loads, NoRecordLosesItsFile, AtMostOneUnusable;
      ServesExactly(kvBits, files, tokens);
      var hit := FetchDisk(tokens, now);
      ghostly := if a in index then a else b;
    }

    /** The prompt's answer: a cache of its first k tokens with the rest still to process, or nothing. */
    method Fetch(tokens: seq<Token>, trie: TrieAnswer, paged: Option<PagedAnswer>, now: int)
        returns (cache: Option<Cache>, remaining: seq<Token>, tier: Tier)
      requires Valid() && TrieSpec(trie, tokens) && PagedSpec(paged, tokens)
      modifies this
      ensures Valid()
      ensures cache.None? <==> tier == Cold
      ensures cache.None? ==> remaining == tokens
      ensures cache.Some? ==>
        var k := |tokens| - |remaining|;
        && 0 < k < |tokens| && remaining == tokens[k..] && cache.value.held == tokens[..k]
        && (tier != Paged ==> k >= 64 && OfThisMode(kvBits, cache.value.layers))
      ensures memoryHits == old(memoryHits) + (if tier == Memory then 1 else 0)
      ensures diskHits == old(diskHits) + (if tier == Disk then 1 else 0)
      ensures tier == Memory <==>
        old(memory).Some? && trie.TrieHit? && 64 <= trie.k < |tokens| && OfThisMode(kvBits, trie.entry.cache.layers)
      ensures tier == Paged <==> tokens != [] && tier != Memory && paged.Some? && paged.value.PagedHit?
      ensures tier == Disk ==>
        forall e :: e in old(index) && Serves(kvBits, old(files), e, tokens) ==> e.tokens <= |tokens| - |remaining|
      ensures tier == Cold && tokens != [] && diskEnabled ==>
        forall e :: e in old(index) ==> !Serves(kvBits, old(files), e, tokens)
      ensures memory == if tokens == [] then old(memory) else Asked(old(memory), trie)
      ensures if tokens != [] && diskEnabled && (tier == Disk || tier == Cold)
              then AfterSearch(old(index), old(files), index, files.Keys, tokens, |tokens| - |remaining|)
              else index == old(index) && files.Keys == old(files).Keys
      ensures var k := |tokens| - |remaining|;
              && 0 <= k <= |tokens|
              && Touched(old(files), files, if tier == Disk then Some(FileName(Digest(tokens[..k]))) else None, now)
              && (tier == Disk ==> files[FileName(Digest(tokens[..k]))].cache == cache.value)
    {
      hide MatchesKvMode, OfThisMode, Serves, Usable, Distinct, FilesHoldTheirTokens, MemoryHoldsItsTokens;
      hide AfterSearch, Asked;
      if tokens == [] { return None, tokens, Cold; }
      ServesExactly(kvBits, files, tokens);
      cache, remaining := FetchMemory(tokens, trie);
      if cache.Some? {
        ModeOfLayers(kvBits, cache.value, trie.entry.cache);
        ModeExactly(kvBits, cache.value);
      }
      if cache.Some? && !MatchesKvMode(kvBits, cache.value) { cache, remaining := None, tokens; }
      if cache.Some? && |remaining| < |tokens| {
        memoryHits := memoryHits + 1;
        return cache, remaining, Memory;
      }
      if paged.Some? && paged.value.PagedHit? {
        return Some(paged.value.cache), tokens[paged.value.k..], Paged;
      }
      ghost var index0, files0 := index, files;
      var snapshot := FetchDisk(tokens, now);
      if diskEnabled { ReachIsLongest(index0, files0, index, files.Keys, tokens, Reach(snapshot)); }
      if snapshot.Some? {
        diskHits := diskHits + 1;
        return Some(snapshot.value.0), tokens[snapshot.value.1..], Disk;
      }
      return None, tokens, Cold;
    }

    /** Records a finished generation in memory and, up to the prompt, on disk. */
    method Store(tokens: seq<Token>, cache: Option<Cache>, promptLength: Option<nat>, insert: TrieInsert, now: int,
                 outcome: SaveOutcome)
      requires Valid() && (cache.Some? ==> cache.value.held == tokens)
      requires cache.Some? && memory.Some? && insert.Kept? ==>
        forall m :: m in insert.entries ==> m in memory.value || m == Remembered(tokens, cache.value)
      modifies this
      ensures Valid()
      ensures cache.None? || tokens == [] ==> memory == old(memory) && index == old(index) && files == old(files)
      ensures cache.Some? && tokens != [] && old(memory).Some? ==>
        memory == Some(if insert.Kept? then insert.entries else [])
      ensures old(memory).None? ==> memory.None?
      ensures cache.Some? && tokens != [] ==>
        var bound := if promptLength in {None, Some(0)} then |tokens| else promptLength.value;
        OnDisk(old(index), old(files), tokens, cache.value, bound, now, outcome, index, files)
      ensures memoryHits == old(memoryHits) && diskHits == old(diskHits)
    {
      hide Distinct, FilesHoldTheirTokens, MatchesKvMode, OnDisk;
      if cache.None? || tokens == [] { return; }
      if memory.Some? {
        memory := Some(if insert.Kept? then insert.entries else []);
      }
      StoreDisk(tokens, cache.value, BoundOf(promptLength, tokens), now, outcome);
    }

    method ClearMemory()
      requires Valid()
      modifies this`memory
      ensures Valid()
      ensures memory == if old(memory).Some? then Some([]) else None
    {
      memory := if memory.Some? then Some([]) else None;
    }

    /** Gives memory back; the trie chooses what to keep. */
    method TrimMemoryTo(kept: seq<Remembered>)
      requires Valid() && (memory.Some? ==> forall m :: m in kept ==> m in memory.value)
      modifies this`memory
      ensures Valid()
      ensures memory == if old(memory).Some? then Some(kept) else None
    {
      if memory.Some? { memory := Some(kept); }
    }

    method ClearDisk()
      requires Valid()
      modifies this`index, this`files, this`diskHits
      ensures Valid()
      ensures if diskEnabled then index == [] && files == map[] && diskHits == 0
              else index == old(index) && files == old(files) && diskHits == old(diskHits)
    {
      if !diskEnabled { return; }
      index, files, diskHits := [], map[], 0;
    }

    /** What the worker stores after a turn. The runtime consumes exactly the prompt and the reported tokens
        in a finished turn; in an interrupted one its cache may lag behind them or be ahead of them. */
    method Remember(cache: Cache, prompt: seq<Token>, generated: seq<Token>, completed: bool, memoryPressure: bool,
                    insert: TrieInsert, now: int, outcome: SaveOutcome)
        returns (reason: Option<ColdReason>)
      requires Valid()
      requires completed ==> cache.held == prompt + generated
      requires cache.held <= prompt + generated || prompt + generated <= cache.held
      requires cache.offset.Some? ==> cache.offset.value == |cache.held|
      requires memory.Some? && insert.Kept? ==>
        forall m :: m in insert.entries ==> m in memory.value || m == Remembered(prompt + generated, cache)
      modifies this
      ensures Valid()
      ensures reason.None? <==> completed || (!memoryPressure && cache.offset == Some(|prompt| + |generated|))
      ensures reason.Some? || prompt + generated == [] ==>
        memory == old(memory) && index == old(index) && files == old(files)
      ensures memoryHits == old(memoryHits) && diskHits == old(diskHits)
      ensures reason.None? && prompt + generated != [] ==>
        && cache.held == prompt + generated
        && (old(memory).Some? ==> memory == Some(if insert.Kept? then insert.entries else []))
        && OnDisk(old(index), old(files), prompt + generated, cache,
                  if prompt == [] then |generated| else |prompt|, now, outcome, index, files)
    {
      hide Distinct, FilesHoldTheirTokens, OnDisk;
      if completed {
        Store(prompt + generated, Some(cache), Some(|prompt|), insert, now, outcome);
        return None;
      }
      if memoryPressure { return Some(MemoryPressure); }
      if cache.offset.None? { return Some(TokenIdsUnavailable); }
      if cache.offset.value != |prompt| + |generated| { return Some(CancelledPrevious); }
      Store(prompt + generated, Some(cache), Some(|prompt|), insert, now, outcome);
      reason := None;
    }

    /** Saves the guarded prompt prefix unless it is too short, already listed, or the cache cannot be
        cut back to it. */
    method StoreDisk(tokens: seq<Token>, cache: Cache, promptLength: nat, now: int, outcome: SaveOutcome)
      requires Valid() && cache.held == tokens
      modifies this`index, this`files
      ensures Valid()
      ensures OnDisk(old(index), old(files), tokens, cache, promptLength, now, outcome, index, files)
    {
      hide MatchesKvMode, OfThisMode, AfterSave, Trim;
      ModeExactly(kvBits, cache);
      if !diskEnabled { return; }
      var prefixLength := Shorter(|tokens|, promptLength) - guardTokens;
      if prefixLength < MIN_REUSABLE_TOKENS { return; }
      var digest := Digest(tokens[..prefixLength]);
      if AlreadyListed(index, digest) { return; }
      if !cache.trims || !MatchesKvMode(kvBits, cache) { return; }
      Save(tokens, cache, prefixLength, now, outcome);
    }

    /** What storing a cache does to the disk tier. */
    ghost predicate OnDisk(index0: seq<Entry>, files0: Files, tokens: seq<Token>, cache: Cache, promptLength: nat,
                           now: int, outcome: SaveOutcome, index1: seq<Entry>, files1: Files)
    {
      var n := (if promptLength < |tokens| then promptLength else |tokens|) - guardTokens;
      if !diskEnabled || n < 64 || (exists e :: e in index0 && e.digest.tokens == tokens[..n])
         || !cache.trims || !OfThisMode(kvBits, cache.layers)
      then index1 == index0 && files1 == files0
      else AfterSave(index0, files0, tokens, cache, n, now, outcome, index1, files1)
    }

    ghost predicate AfterSave(index0: seq<Entry>, files0: Files, tokens: seq<Token>, cache: Cache, n: nat, now: int,
                              outcome: SaveOutcome, index1: seq<Entry>, files1: Files)
      requires n <= |tokens|
    {
      var e := PrefixEntry(tokens, n);
      match outcome
      case NotSaved(partial) => index1 == index0 && files1 == Torn(files0, e.file, cache, partial, now)
      case Saved(size) =>
        BudgetKept(index0 + [e], files0[e.file := Snapshot(Trim(cache, |tokens| - n), size, now, true)], index1, files1)
    }

    method Save(tokens: seq<Token>, cache: Cache, n: nat, now: int, outcome: SaveOutcome)
      requires Valid() && cache.held == tokens && diskEnabled && n <= |tokens|
      requires !AlreadyListed(index, Digest(tokens[..n]))
      modifies this`index, this`files
      ensures Valid()
      ensures AfterSave(old(index), old(files), tokens, cache, n, now, outcome, index, files)
    {
      hide BudgetKept, Distinct, AlreadyListed, Trim;
      var snapshot := Trim(cache, |tokens| - n);
      var e := PrefixEntry(tokens, n);
      match outcome {
        case NotSaved(partial) =>
          files := Torn(files, e.file, cache, partial, now);
        case Saved(size) =>
          files := files[e.file := Snapshot(snapshot, size, now, true)];
          DistinctSnoc(index, e);
          index := index + [e];
          EnforceDiskBudget();
      }
    }

    /** Evicts the least recently used snapshots until the listed ones fit: no more of them than needed.
        Files no record lists are left alone and come on top. */
    method EnforceDiskBudget()
      requires Valid() && diskEnabled
      modifies this`index, this`files
      ensures Valid()
      ensures BudgetKept(old(index), old(files), index, files)
      ensures forall e :: e in index ==> e in old(index)
      ensures forall f :: f in files ==> f in old(files) && files[f] == old(files)[f]
      ensures forall e :: e in old(index) && (maxBytes == 0 || e.file !in old(files)) ==> e in index
      ensures forall e :: e in old(index) && e.file in old(files) ==> (e in index <==> e.file in files)
      ensures forall gone, kept :: gone in old(index) && gone !in index && kept in index && kept.file in files ==>
        gone.file in old(files) && old(files)[gone.file].mtime <= old(files)[kept.file].mtime
    {
      hide DiskBytes, Without, WithoutAll, Distinct, Listed, ByAge, FileNames, FilesHoldTheirTokens, Surplus;
      ByAgeKeeps(index, files);
      NothingEvicted(index, files);
      if maxBytes == 0 {
        EvictionInTheRaw(this, index, files, index, files);
        return;
      }
      var order := Listed(index, files);
      var total := DiskBytes(order, files);
      if total <= maxBytes {
        assert ByAge(index, files)[0..] == ByAge(index, files);
        SurplusIs(ByAge(index, files), files, maxBytes, 0);
        EvictionInTheRaw(this, index, files, index, files);
        return;
      }
      ghost var index0, files0 := index, files;
      order := ByAge(index, files);
      var i := 0;
      assert order[0..] == order;
      while i < |order|
        invariant 0 <= i <= |order|
        invariant unchanged(this`memory) && ValidDisk()
        invariant files0 == old(files) && index0 == old(index) && order == ByAge(index0, files0)
        invariant total == DiskBytes(order[i..], files0) == DiskBytes(index, files)
        invariant index == WithoutAll(index0, order[..i]) && files == files0 - FileNames(order[..i])
        invariant forall j :: 0 <= j < i ==> DiskBytes(order[j..], files0) > maxBytes
      {
        if total <= maxBytes { break; }
        total := DropOldest(order, i, index0, files0, total);
        i := i + 1;
      }
      assert i == |order| ==> order[i..] == [] && DiskBytes([], files0) == 0 by { NoBytes(files0); }
      SurplusIs(order, files0, maxBytes, i);
      EvictionInTheRaw(this, index0, files0, index, files);
    }

    method DropOldest(order: seq<Entry>, i: nat, ghost index0: seq<Entry>, ghost files0: Files, total: nat)
      returns (rest: nat)
      requires i < |order| && order == ByAge(index0, files0) && Distinct(index0)
      requires forall e :: e in index0 ==> WellNamed(e)
      requires Valid()
      requires total == DiskBytes(order[i..], files0) == DiskBytes(index, files)
      requires index == WithoutAll(index0, order[..i]) && files == files0 - FileNames(order[..i])
      modifies this`index, this`files
      ensures ValidDisk()
      ensures rest == DiskBytes(order[i + 1..], files0) == DiskBytes(index, files)
      ensures index == WithoutAll(index0, order[..i + 1]) && files == files0 - FileNames(order[..i + 1])
    {
      hide DiskBytes, Without, Listed, ByAge, Distinct, FileNames;
      var e := order[i];
      assert order[i..][0] == e && order[i..][1..] == order[i + 1..];
      assert order[..i + 1][..i] == order[..i] && order[..i + 1][i] == e;
      OldestIsThere(index0, files0, i);
      BytesWithout(index, e, files);
      BytesSplit(order[i..], files0);
      FileNamesSnoc(order[..i], e);
      rest := total - SizeOf(files, e);
      files := files - {e.file};
      index := Without(index, e);
      assert order[..i + 1] == order[..i] + [e];
    }

    /** A save that breaks off leaves a file that no record lists and no budget counts. */
    method TornSaveOutlivesTheBudget(tokens: seq<Token>, cache: Cache, n: nat, now: int)
      requires Valid() && diskEnabled && maxBytes > 0 && cache.held == tokens && n <= |tokens|
      requires !AlreadyListed(index, Digest(tokens[..n]))
      modifies this`index, this`files
      ensures Valid() && TotalBytes(files) > maxBytes
    {
      hide Distinct, AlreadyListed, TotalBytes, FilesHoldTheirTokens, BudgetKept;
      ghost var file, before := PrefixEntry(tokens, n).file, files;
      Save(tokens, cache, n, now, NotSaved(Some(maxBytes + 1)));
      assert file in files && files[file].size == maxBytes + 1;
      ghost var index0, files0 := index, files;
      EnforceDiskBudget();
      BudgetKeepsStrays(this, index0, files0, index, files);
      assert file in Strays(index0, files0) by { Unlisted(index0, PrefixEntry(tokens, n)); }
      assert files[file] == files0[file];
      TotalSplits(files, file);
    }

    ghost predicate BudgetKept(index0: seq<Entry>, files0: Files, index1: seq<Entry>, files1: Files) {
      var order := ByAge(index0, files0);
      var k := if maxBytes == 0 then 0 else Surplus(order, files0, maxBytes);
      && index1 == WithoutAll(index0, order[..k])
      && files1 == files0 - FileNames(order[..k])
      && (maxBytes > 0 ==> DiskBytes(index1, files1) <= maxBytes)
    }
  }

  lemma Unlisted(entries: seq<Entry>, e: Entry)
    requires !AlreadyListed(entries, e.digest) && WellNamed(e) && forall x :: x in entries ==> WellNamed(x)
    ensures e.file !in FileNames(entries)
  {
  }

  // Evicting takes records and files together.
  lemma BudgetKeepsStrays(store: PromptCacheStore, index0: seq<Entry>, files0: Files, index1: seq<Entry>,
                          files1: Files)
    requires store.BudgetKept(index0, files0, index1, files1)
    ensures Strays(index1, files1) == Strays(index0, files0)
  {
    hide DiskBytes, Surplus, ByAge, WithoutAll, Strays;
    var order := ByAge(index0, files0);
    var k := if store.maxBytes == 0 then 0 else Surplus(order, files0, store.maxBytes);
    ByAgeKeeps(index0, files0);
    SurplusBound(order, files0, store.maxBytes);
    assert forall e :: e in order[..k] ==> e in order;
    EvictionKeepsStrays(index0, files0, order[..k]);
  }

  /** Nor does a search leave a file that no record lists. */
  lemma SearchKeepsStrays(store: PromptCacheStore, entries: seq<Entry>, files0: Files, left: seq<Entry>,
                          files1: Files, tokens: seq<Token>, reach: nat)
    requires store.AfterSearch(entries, files0, left, files1.Keys, tokens, reach)
    ensures Strays(left, files1).Keys == Strays(entries, files0).Keys
  {
    hide Discarded, Usable, PromptCacheStore.NoRecordLosesItsFile, PromptCacheStore.AtMostOneUnusable;
    forall f | f in files1 && f in FileNames(entries) ensures f in FileNames(left) {
      var e :| e in entries && e.file == f;
      assert e in left;
    }
  }

  lemma EvictionKeepsStrays(entries: seq<Entry>, files: Files, gone: seq<Entry>)
    requires forall e :: e in gone ==> e in entries
    ensures Strays(WithoutAll(entries, gone), files - FileNames(gone)) == Strays(entries, files)
  {
    var left := WithoutAll(entries, gone);
    forall f | f in FileNames(entries) ensures f in FileNames(left) || f in FileNames(gone) {
      var e :| e in entries && e.file == f;
      if e !in gone { assert e in left; }
    }
    assert FileNames(left) + FileNames(gone) == FileNames(entries);
  }

  lemma SurplusBound(order: seq<Entry>, files: Files, maxBytes: nat)
    ensures Surplus(order, files, maxBytes) <= |order|
  {
  }

  /** After a save, the files on disk fit in the limit exactly when what no record lists leaves room for the
      listed ones; and only a save that broke off leaves something no record lists. */
  lemma TotalAfterSave(store: PromptCacheStore, index0: seq<Entry>, files0: Files, tokens: seq<Token>, cache: Cache,
                       n: nat, now: int, outcome: SaveOutcome, index1: seq<Entry>, files1: Files)
    requires n <= |tokens| && store.AfterSave(index0, files0, tokens, cache, n, now, outcome, index1, files1)
    requires Distinct(index1) && forall e :: e in index1 ==> WellNamed(e)
    requires !AlreadyListed(index0, Digest(tokens[..n])) && forall e :: e in index0 ==> WellNamed(e)
    ensures TotalBytes(files1) == DiskBytes(index1, files1) + TotalBytes(Strays(index1, files1))
    ensures var file := PrefixEntry(tokens, n).file;
            Strays(index1, files1) ==
              if outcome.Saved? then Strays(index0, files0) - {file}
              else Torn(Strays(index0, files0), file, cache, outcome.partial, now)
  {
    hide DiskBytes, Distinct, PromptCacheStore.BudgetKept;
    TotalIsListedAndStray(index1, files1);
    var e := PrefixEntry(tokens, n);
    assert forall x :: x in index0 ==> x.file != e.file;
    if outcome.Saved? {
      var kept := files0[e.file := Snapshot(Trim(cache, |tokens| - n), outcome.size, now, true)];
      BudgetKeepsStrays(store, index0 + [e], kept, index1, files1);
      FileNamesSnoc(index0, e);
      assert Strays(index0 + [e], kept) == Strays(index0, files0) - {e.file};
    } else {
      assert e.file !in FileNames(index0);
    }
  }

  function PrefixEntry(tokens: seq<Token>, n: nat): Entry
    requires n <= |tokens|
  {
    Entry(FileName(Digest(tokens[..n])), n, Digest(tokens[..n]))
  }

  // `prompt_length or len(tokens)`.
  function BoundOf(promptLength: Option<nat>, tokens: seq<Token>): nat {
    if promptLength.Some? && promptLength.value != 0 then promptLength.value else |tokens|
  }

  // How long the prefix found is.
  function Reach(hit: Option<(Cache, nat)>): nat {
    if hit.Some? then hit.value.1 else 0
  }

  function Shorter(a: nat, b: nat): nat { if a < b then a else b }

  predicate AlreadyListed(entries: seq<Entry>, d: Digest) {
    exists e :: e in entries && e.digest == d
  }

  /** A save that failed half way may leave an unreadable file. */
  function Torn(files: Files, name: FileName, cache: Cache, partial: Option<nat>, now: int): Files {
    if partial.Some? then files[name := Snapshot(cache, partial.value, now, false)] else files
  }

  lemma {:induction false} DistinctSnoc(entries: seq<Entry>, e: Entry)
    requires Distinct(entries) && !AlreadyListed(entries, e.digest)
    ensures Distinct(entries + [e])
  {
    if entries != [] {
      assert (entries + [e])[1..] == entries[1..] + [e];
      DistinctSnoc(entries[1..], e);
    }
  }

  lemma ByAgeKeeps(entries: seq<Entry>, files: Files)
    ensures var order := ByAge(entries, files);
            && DiskBytes(order, files) == DiskBytes(entries, files)
            && (forall e :: e in order <==> e in entries && e.file in files)
            && |order| == |Listed(entries, files)|
  {
    var listed := Listed(entries, files);
    BytesOfSorted(listed, Age(files), files);
    SameElements(listed, Age(files));
  }

  lemma NothingEvicted(entries: seq<Entry>, files: Files)
    ensures WithoutAll(entries, ByAge(entries, files)[..0]) == entries
    ensures files - FileNames(ByAge(entries, files)[..0]) == files
  {
  }

  lemma NoBytes(files: Files)
    ensures DiskBytes([], files) == 0
  {
  }

  lemma BytesSplit(order: seq<Entry>, files: Files)
    requires order != []
    ensures DiskBytes(order, files) == SizeOf(files, order[0]) + DiskBytes(order[1..], files)
  {
  }

  lemma FileNamesSnoc(order: seq<Entry>, e: Entry)
    ensures FileNames(order + [e]) == FileNames(order) + {e.file}
  {
  }

  /** No listed snapshot occurs twice in the age order. */
  lemma OldestIsThere(index0: seq<Entry>, files0: Files, i: nat)
    requires Distinct(index0) && (forall e :: e in index0 ==> WellNamed(e)) && i < |ByAge(index0, files0)|
    ensures var order := ByAge(index0, files0);
            && order[i] in WithoutAll(index0, order[..i])
            && order[i].file in files0 - FileNames(order[..i])
  {
    hide Listed, WithoutAll;
    var order := ByAge(index0, files0);
    ByAgeKeeps(index0, files0);
    DistinctMembers(Listed(index0, files0));
    SortedOnce(Listed(index0, files0), Age(files0), i);
    forall e | e in order[..i] ensures e.file != order[i].file && e != order[i] {
      assert e in order && WellNamed(e) && WellNamed(order[i]);
    }
  }

  ghost predicate NoRepeats(s: seq<Entry>) {
    forall i, j :: 0 <= i < j < |s| ==> s[i] != s[j]
  }

  lemma {:induction false} DistinctMembers(entries: seq<Entry>)
    requires Distinct(entries)
    ensures NoRepeats(entries)
  {
    if entries != [] {
      DistinctMembers(entries[1..]);
      forall i, j | 0 <= i < j < |entries| ensures entries[i] != entries[j] {
        assert entries[j] == entries[1..][j - 1];
        if i > 0 { assert entries[i] == entries[1..][i - 1]; }
      }
    }
  }

  lemma SortedOnce(s: seq<Entry>, key: Entry -> int, i: nat)
    requires NoRepeats(s) && i < |SortBy(s, key)|
    ensures SortBy(s, key)[i] !in SortBy(s, key)[..i]
  {
    hide SortBy, NoRepeats, Ascending;
    var r := SortBy(s, key);
    OnceInMultiset(s, r[i]);
    OnlyHere(r, i);
  }

  lemma OnlyHere(r: seq<Entry>, i: nat)
    requires i < |r| && multiset(r)[r[i]] <= 1
    ensures r[i] !in r[..i]
  {
    assert r == r[..i] + [r[i]] + r[i + 1..];
    assert multiset(r) == multiset(r[..i]) + multiset{r[i]} + multiset(r[i + 1..]);
    assert multiset(r[..i])[r[i]] == 0;
  }

  lemma {:induction false} OnceInMultiset(s: seq<Entry>, e: Entry)
    requires NoRepeats(s)
    ensures multiset(s)[e] <= 1
  {
    if s != [] {
      assert s == [s[0]] + s[1..];
      OnceInMultiset(s[1..], e);
      assert s[0] !in s[1..];
    }
  }

  /** Eviction takes the least recently used: nothing evicted is newer than a listed snapshot that stays. */
  lemma EvictedAreOldest(entries: seq<Entry>, files: Files, k: nat, gone: Entry, kept: Entry)
    requires k <= |ByAge(entries, files)|
    requires gone in ByAge(entries, files)[..k]
    requires kept in entries && kept.file in files && kept !in ByAge(entries, files)[..k]
    ensures gone.file in files && files[gone.file].mtime <= files[kept.file].mtime
  {
    hide Listed, Ascending, SortBy;
    var order := ByAge(entries, files);
    ByAgeKeeps(entries, files);
    var i :| 0 <= i < k && order[i] == gone;
    var j :| 0 <= j < |order| && order[j] == kept;
    assert forall x :: 0 <= x < k ==> order[..k][x] == order[x];
    AscendingAll(order, Age(files), i, j);
  }

  /** What the age order comes to in records, files and times of use. */
  lemma EvictionInTheRaw(store: PromptCacheStore, index0: seq<Entry>, files0: Files, index1: seq<Entry>, files1: Files)
    requires store.BudgetKept(index0, files0, index1, files1) && forall e :: e in index0 ==> WellNamed(e)
    ensures forall e :: e in index1 ==> e in index0
    ensures forall f :: f in files1 ==> f in files0 && files1[f] == files0[f]
    ensures forall e :: e in index0 && (store.maxBytes == 0 || e.file !in files0) ==> e in index1
    ensures forall e :: e in index0 && e.file in files0 ==> (e in index1 <==> e.file in files1)
    ensures forall gone, kept :: gone in index0 && gone !in index1 && kept in index1 && kept.file in files1 ==>
      gone.file in files0 && files0[gone.file].mtime <= files0[kept.file].mtime
  {
    hide DiskBytes, Surplus, ByAge, WithoutAll, WellNamed;
    var order := ByAge(index0, files0);
    var k := if store.maxBytes == 0 then 0 else Surplus(order, files0, store.maxBytes);
    ByAgeKeeps(index0, files0);
    SurplusBound(order, files0, store.maxBytes);
    assert forall e :: e in order[..k] ==> e in order;
    forall e | e in index0 && e.file in files0 ensures e in index1 <==> e.file in files1 {
      if e.file in FileNames(order[..k]) {
        var d :| d in order[..k] && d.file == e.file;
        SameFile(d, e);
      }
    }
    forall gone, kept | gone in index0 && gone !in index1 && kept in index1 && kept.file in files1
      ensures gone.file in files0 && files0[gone.file].mtime <= files0[kept.file].mtime
    {
      EvictedAreOldest(index0, files0, k, gone, kept);
    }
  }

  /** The loop stops at the shortest run. */
  lemma SurplusIs(order: seq<Entry>, files: Files, maxBytes: nat, i: nat)
    requires i <= |order| && DiskBytes(order[i..], files) <= maxBytes
    requires forall j :: 0 <= j < i ==> DiskBytes(order[j..], files) > maxBytes
    ensures Surplus(order, files, maxBytes) == i
  {
  }

  function LongestFirst(entries: seq<Entry>): seq<Entry> {
    SortBy(entries, (e: Entry) => -(e.tokens as int))
  }

  lemma LongestFirstOrders(entries: seq<Entry>)
    ensures forall e :: e in LongestFirst(entries) <==> e in entries
    ensures var order := LongestFirst(entries);
            forall i, j :: 0 <= i <= j < |order| ==> order[j].tokens <= order[i].tokens
  {
    var key := (e: Entry) => -(e.tokens as int);
    SameElements(entries, key);
    var order := LongestFirst(entries);
    forall i, j | 0 <= i <= j < |order| ensures order[j].tokens <= order[i].tokens {
      AscendingAll(order, key, i, j);
    }
  }

  lemma SameFile(a: Entry, b: Entry)
    requires WellNamed(a) && WellNamed(b)
    ensures a.file == b.file || a.digest == b.digest ==> a == b
  {
  }

  lemma LoadsMatches(kvBits: Option<int>, s: Snapshot)
    requires Loads(kvBits, s)
    ensures s.readable && MatchesKvMode(kvBits, s.cache)
  {
  }

  lemma MatchIsPrefix(e: Entry, tokens: seq<Token>)
    requires Matches(e, tokens)
    ensures MIN_REUSABLE_TOKENS <= e.tokens < |tokens| && e.digest == Digest(tokens[..e.tokens])
  {
  }
}
