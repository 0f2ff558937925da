# MLXBar: verified models of its stateful and tree-shaped core

MLXBar serves local language models: a coordinator speaks OpenAI- and Anthropic-style HTTP and drives one
worker process per engine. This project models the parts of it that hold state across many calls or transform
trees, and proves what they promise for every input, every way of cutting a stream and every run.

One file is one component:

| file | component | main results |
|---|---|---|
| `VlmCache.dfy`, `Checkpoints.dfy`, `CacheState.dfy` | prompt-cache reuse in the vision worker | whatever is reused, a request is answered from a cache that holds the leading tokens of its own prompt and reply; a cache that cannot drop its tail is never asked to |
| `LmPromptCache.dfy` | two-tier prompt cache of the text worker | a warm fetch agrees with a cold prefill; the disk bound holds after evicting the shortest least-recently-used run |
| `CacheTree.dfy`, `Snapshot.dfy` | captured cache state | disk round trip, and exactly which snapshots survive it; snapshots share no array with a live cache |
| `MarkerSearch.dfy`, `ToolStream.dfy`, `StopFilter.dfy` | streaming splitters | output does not depend on how text was cut into deltas, and is reasoning exactly between think tags; for stop sequences, exactly when |
| `AnthropicStream.dfy`, `AnthropicTranscript.dfy` | Anthropic event builder | every stream is well framed; the streamed and the single-message rendering agree, with call fragments exactly when each fits; the message tells exactly what the events say |
| `Jobs.dfy`, `JobManager.dfy` | background jobs | the stored and sent records are those of the steps taken, terminal states are final, no lost wake-up, no deadlock, under every interleaving |
| `SettingsTree.dfy`, `SettingsPaths.dfy`, `SettingsRecovery.dfy`, `SettingsStore.dfy`, `SettingsImport.dfy` | settings | lossless split and overlay, exactly when unknown keys survive updates, key-by-key recovery, leaf-by-leaf import |
| `Compression.dfy`, `ToolCallChunks.dfy` | conversation transformations | tool pairing survives compression; chunking and merging tool calls is a round trip |

`Prelude.dfy` and `Sorting.dfy` hold shared vocabulary. Where the source updates objects in place, the model is
a class whose methods are proved against a specification function or state their whole new state; the
properties are then proved of those functions, or kept as class invariants.

## What the code does not promise

Some expectations turned out to fail for the code as it is. Each is stated with the exact condition under which it
holds.

- Labels that match the cache. Settling an interrupted request compares lengths only
  (`Workers/mlx_vlm_worker/adapter.py:998-1009`). A request makes the labels false if and only if it is interrupted
  without memory pressure on its only pass, after it asked for the shared prefix, it leaves the retained cache
  alone because it shares nothing or all of itself with the labels, and that cache is as long as its prompt and
  collected tokens without beginning with them: `VlmCache.Mislabels`, proved exact in
  `VlmCache.VlmAdapter.Serve`. `VlmCache.LengthCoincidenceMislabels` runs into it with an unrelated prompt,
  `VlmCache.RegenerateMislabels` by generating a reply again.
- Cutting at the leftmost stop sequence for every chunking: if and only if no proper prefix of a sequence has its
  first match after its start (`StopFilter.CutIsLeftmostExactly`, `StopFilter.HiddenMatchIsCutLate`).
- A snapshot that comes back from disk unchanged: if and only if every dictionary key in its states is a string,
  because JSON turns other keys into strings, and every `meta_state` is no list and nests no tuple, because the reader
  turns only the outermost JSON list back into a tuple (`CacheTree.DiskRoundTrip`, `CacheTree.MetaRoundTrip`).
- Unknown keys of a newer file written back after any updates: if and only if the document leaves each its place
  (`SettingsStore.UnknownKeysSurviveUpdates`). The validator never looks at `models.lmStudio`
  (`Coordinator/mlxbar/settings.py:82`) and accepts null for `runtimes.mlx-lm` and `runtimes.mlx-vlm` (817-824), so
  an accepted patch can set such an object to null and drop what was preserved in it
  (`SettingsStore.NullDropsPreservedKeys`). Patches that replace no object holding preserved keys never do
  (`SettingsStore.SparingUpdatesKeepUnknownKeys`).
- A written settings file that the next start finds as it was: if and only if the document has every key of the
  schema, and its `schemaVersion` can be read as a number and is not newer than 1 or equals the schema's own
  (`SettingsStore.ReloadsExactly`, `SettingsStore.Restart`). An update keeps the first up exactly when it refills what
  it replaces, the second exactly when its patch brings no version or such a one. No rule looks at the version, so an
  accepted patch can bring a newer one, which is overridden (`SettingsStore.NewerVersionIsOverridden`), or one that
  is no number, and then the next start stops (`SettingsStore.UnreadableVersionStopsTheStart`); so can an import
  (`SettingsImport.ImportedVersionStopsTheStart`).
- A start that recovers from bad values. Only `ValueError` is caught (`Coordinator/mlxbar/settings.py:450-460`), but
  the validator raises others, for instance on `{"api": null}` (563). A start comes up if and only if the version can
  be read and no document its search for a valid one comes to, nor a probe there before the first that succeeds,
  makes the validator raise one (`SettingsStore.SettingsStore.Load`, `SettingsRecovery.NextMeans`);
  `SettingsStore.NullStopsTheStart` is a file that one reset would mend.
- An import that leaves out what it cannot honour: it is aborted if and only if the validator raises anything else
  than `ValueError` on a document it is given (`SettingsImport.ApplyImport`, `SettingsImport.NullAbortsTheImport`).
- An import that touches only what it reports: a leaf that was not applied keeps its value if and only if no
  applied leaf lies above or below it (`SettingsImport.ApplyImport`). A leaf may take the place of an object, whose
  own leaves are then gone (`SettingsImport.ImportDropsUnreported`).
- Streamed and single-message Anthropic renderings that agree on `tool_call_delta` events: a fragment keeps them in
  agreement if and only if it fits (`AnthropicStream.FragmentAgreesExactly`,
  `AnthropicStream.FragmentKeepsMessageExactly`, `AnthropicStream.FragmentsDrift`).
- A thinking block signed as a whole. Opening a streamed block forgets the fragment that opened it
  (`Coordinator/mlxbar/api/anthropic_stream.py:248-280`), so the signature is that of the other fragments and, the
  first one never being empty, always another text's than the block's
  (`AnthropicTranscript.SignatureOmitsTheFirstFragment`); the single-message route signs the whole (199-202).
- Disk records of the text worker in step with their files: a search leaves no record without its file if and only
  if at most one unusable entry is longer than the hit (`LmPromptCache.PromptCacheStore.FetchDisk`). With two, both
  files go but one record stays, and that prefix is never saved again
  (`LmPromptCache.PromptCacheStore.FetchPastTwoUnusable`).
- A disk tier of the text worker within its limit: the listed snapshots are, but a save that breaks off can leave a
  file no record lists, which no budget counts (`LmPromptCache.TotalAfterSave`). All files fit if and only if those
  leave room for the listed ones (`LmPromptCache.PromptCacheStore.TornSaveOutlivesTheBudget`).

## Model

| member | source | states |
|---|---|---|
| VlmCache.Run | Workers/mlx_vlm_worker/adapter.py:710-949 | in every run of finished, interrupted, memory-stopped, aborted and retried requests, with memory cleared and snapshot files lost in between, on a store that may already hold faithful snapshots: each answer comes from a cache that holds exactly a leading part of that request's own prompt and reply, at least as long as what the pass consumed; what each command finds is what the one before left; all commands are served unless one spoils what it finds, and then that one is the last |
| VlmCache.RunEndsExactly | Workers/mlx_vlm_worker/adapter.py:710-949 | of every such run: labels go false if and only if some command served spoils what it finds, and nothing else ends the run early |
| VlmCache.FinishedRunsAreServed | Workers/mlx_vlm_worker/adapter.py:710-949 | a run in which no request is interrupted without memory pressure keeps its labels true and is served to its end |
| VlmCache.VlmAdapter.Serve | Workers/mlx_vlm_worker/adapter.py:710-949 | one request: the answering cache holds what a cold prefill would; afterwards the labels are false if and only if, before the call, the request was bound to mislabel: interrupted without memory pressure on its only pass after asking for the shared prefix, sharing nothing or all of itself with a cache left alone, which is as long as prompt and collected tokens but does not begin with them; and what is left for the next request |
| VlmCache.PassesLead | Workers/mlx_vlm_worker/adapter.py:975-1009 | what an interrupted request leaves: a cache left alone stays, under the labels of prompt and collected tokens, exactly when it is as long as they are; a reused one stays exactly when it holds just those; after memory pressure, a retry or an abort before the prompt was seen there is nothing |
| VlmCache.VlmAdapter.Attempt | Workers/mlx_vlm_worker/adapter.py:710-822 | the one or two passes of a request, and what the retained cache is at their end in terms of what it was before them |
| VlmCache.VlmAdapter.Perform | Workers/mlx_vlm_worker/adapter.py:648-949 | a request, a clearing of memory or a lost file: the labels become false exactly when the command spoils the cache it finds; what each kind of command leaves for the next, in terms of what it found |
| VlmCache.VlmAdapter.Conclude | Workers/mlx_vlm_worker/adapter.py:784-1009 | the end of a request: the labels become false if and only if nothing was reused, the request was interrupted without memory pressure, its prompt was observed, and the old cache is as long as prompt plus collected tokens without beginning with them |
| VlmCache.VlmAdapter.Generate | Workers/mlx_vlm_worker/adapter.py:784-822 | a pass that skips the answered prefix, drops the surplus and feeds the rest leaves the cache holding a leading part of prompt and reply; with no usable prefix a cache of its own does |
| VlmCache.GuardedState.FindPrefixLength | Workers/mlx_vlm_worker/prompt_cache.py:440-489 | a cache that can be trimmed, or that the prompt goes on from, is reused for all that prompt and labels share and no further; nothing is when they share nothing; otherwise the answer is the best snapshot, the one in memory or the longest on disk, or the cache is left empty; with sound labels the first n tokens really held are the first n of the prompt; n is never positive for an empty cache and never shorter than a cache that cannot drop its tail; the list object read before asking stays the retained one |
| VlmCache.GuardedState.TakeHeldList | Workers/mlx_vlm_worker/prompt_cache.py:423-438 | the retained list object is kept and emptied in place |
| VlmCache.GuardedState.RestoreOrRefuse | Workers/mlx_vlm_worker/prompt_cache.py:472-489 | a cache that cannot trim is replaced inside the same list by the best snapshot of a strict prefix of the prompt, and left empty with no labels exactly when there is none |
| VlmCache.AnswerFacts | Workers/mlx_vlm_worker/prompt_cache.py:440-489 | each of the four answers: never past the prompt, never positive against an empty cache, never shorter than an untrimmable cache; with sound labels it is true of what the exposed cache holds, and they stay sound |
| VlmCache.AnswerIsLongest | Workers/mlx_vlm_worker/prompt_cache.py:440-489 | an answer for a cache that can be trimmed or gone on from is the length of the longest prefix that prompt and labels share |
| VlmCache.VlmAdapter.SettleInterruptedCache | Workers/mlx_vlm_worker/adapter.py:975-1009 | an interrupted cache is relabelled exactly when its reported length equals prompt plus collected tokens, otherwise dropped; memory pressure also forgets the snapshot |
| VlmCache.SettledLabels | Workers/mlx_vlm_worker/adapter.py:998-1009 | a cache the request did reuse, and whose length matches, holds exactly the tokens it is relabelled with |
| VlmCache.SoundExactly | Workers/mlx_vlm_worker/adapter.py:998-1009 | labels are true of a cache if and only if it begins with them |
| VlmCache.LengthCoincidenceMislabels | Workers/mlx_vlm_worker/adapter.py:998-1009 | every run of a finished request and one with an unrelated prompt, interrupted at the length of what the first left, ends with false labels |
| VlmCache.FalseLabelsMislead | Workers/mlx_vlm_worker/adapter.py:998-1009 | whatever is asked next on top of false labels, the answer skips them all, although the cache does not hold them |
| VlmCache.RegenerateMislabels | Workers/mlx_vlm_worker/adapter.py:998-1009 | the same after generating a reply again: the second prompt is a proper prefix of what the first left, so nothing is reused |
| VlmCache.AnswerLeavesAlone | Workers/mlx_vlm_worker/prompt_cache.py:440-489 | the retained cache is not reused and stays as it was if the prompt shares nothing with the labels, or all of itself while the cache can be continued or trimmed; otherwise it is reused or emptied |
| VlmCache.VlmAdapter.RememberBoundary | Workers/mlx_vlm_worker/adapter.py:1011-1058 | a snapshot is taken exactly of a cache that holds its labels and nothing more, and replaced by nothing when that fails; under pressure it is forgotten; it is written to disk exactly when it is 256 tokens long, a quarter or 8192 tokens longer than the last one written, and no limit forbids it, and otherwise the disk tier stays as it is |
| VlmCache.BoundaryIsFaithful | Workers/mlx_vlm_worker/adapter.py:1011-1042 | a cache with sound labels and a length equal to their number is the cache those labels alone would fill |
| VlmCache.VlmAdapter.RestoreFor | Workers/mlx_vlm_worker/adapter.py:548-555 | a cache is restored exactly when there is a snapshot for the prompt, and it is the best one: in memory, or the longest on disk; it is the cache its ids, a strict prefix of at least 256 tokens, would fill; the snapshot in memory stays, and of the disk tier only broken records go |
| VlmCache.VlmAdapter.ResetPromptCache | Workers/mlx_vlm_worker/adapter.py:444-458 | a fresh empty state, with nothing observed |
| VlmCache.VlmAdapter.ClearPromptCache | Workers/mlx_vlm_worker/adapter.py:648-656 | the live cache and the memory snapshot go, the disk tier stays |
| VlmCache.CacheList.Resume | scripts/verify-prompt-cache-runtime.py:54-66 | the runtime contract assumed: dropping beyond the answered prefix and feeding the rest yields the prompt's own context |
| VlmCache.WholePrefixIsShared | Workers/mlx_vlm_worker/prompt_cache.py:457-461 | a prompt that extends the labels shares all of them |
| Checkpoints.CheckpointStore.RestoreBest | Workers/mlx_vlm_worker/prompt_cache.py:192-203 | after any history: ids are a strict prefix of the prompt of at least 256 tokens, and the cache is what was captured for exactly those ids; the one restored is that in memory if it fits, else the longest restorable match on disk, and none is exactly when there is neither; nothing but the broken records met goes from the disk tier |
| Checkpoints.CheckpointStore.RestoreMemory | Workers/mlx_vlm_worker/prompt_cache.py:205-215 | the memory tier answers only for a strict prefix of at least 256 tokens |
| Checkpoints.CheckpointStore.RestoreDisk | Workers/mlx_vlm_worker/prompt_cache.py:217-238 | the longest restorable matching entry; exactly the matching records longer than it whose snapshot is missing or unreadable are dropped, with their files, and everything else stays |
| Checkpoints.SearchKeepsRestorable | Workers/mlx_vlm_worker/prompt_cache.py:217-238 | so no restorable snapshot is lost in a search, and no record of one |
| Checkpoints.CheckpointStore.Remember | Workers/mlx_vlm_worker/prompt_cache.py:160-184 | what is remembered is exactly the captured cache and its ids; a failed copy leaves nothing remembered |
| Checkpoints.CheckpointStore.Persist | Workers/mlx_vlm_worker/prompt_cache.py:294-335 | stored exactly when every limit allows it; `bytes_written` grows by the size and stays within a non-zero write budget; the index becomes the evicted one and exactly the evicted files go |
| Checkpoints.CheckpointStore.Evict | Workers/mlx_vlm_worker/prompt_cache.py:337-352 | the index is what eviction keeps, and the files removed are exactly those of the others |
| Checkpoints.CheckpointStore.ClearDisk | Workers/mlx_vlm_worker/prompt_cache.py:354-363 | empties index, files and the write counter, or changes nothing when the disk tier is off |
| Checkpoints.CheckpointStore.DropEntry | Workers/mlx_vlm_worker/prompt_cache.py:270-276 | removes one snapshot and its record |
| Checkpoints.EvictionKeepsNewestAndFits | Workers/mlx_vlm_worker/prompt_cache.py:337-352 | the newest snapshot survives, and the byte limit holds unless only that one is kept |
| Checkpoints.EvictionFollowsTheTimes | Workers/mlx_vlm_worker/prompt_cache.py:337-352 | eviction goes through every snapshot once, from the one saved last to the one saved first, and keeps one exactly when it is the first or still fits beside those kept before it |
| CacheState.BudgetAgreesWithAffordable | Workers/common/cache_state.py:252-267 | `budget_allows(t)` holds exactly when t is at most `affordable_tokens()`, for t of at least 1, a known budget and a positive cost per token |
| CacheState.PayloadBytesAdd | Workers/common/cache_state.py:334-347 | the size of a copy is the sum over its components of what each always takes and what its tokens take |
| CacheState.CachedLength | Workers/common/cache_state.py:147-158 | the largest reported offset, and none exactly when no component reports one |
| CacheState.RestoreOfCapture | Workers/common/cache_state.py:290-331 | writing the capture of a cache into freshly made components gives that cache back |
| CacheState.FilledTrims | Workers/common/cache_state.py:90-112 | whether a cache can drop its tail depends on its components and on how many tokens they hold, and is asked afresh each time; a cache that cannot never can again with more tokens |
| LmPromptCache.PromptCacheStore.Fetch | Workers/mlx_lm_worker/prompt_cache.py:160-187 | agreement with cold prefill: a warm answer holds exactly `tokens[:k]`, what remains is `tokens[k:]` and not empty, k is at least 64 from memory and disk and the cache has this store's quantisation; memory answers whenever it can, then the paged tier, then the longest usable snapshot, and a cold answer means there was none; the memory tier afterwards is what the trie leaves, and the disk tier changes only in a search, as `FetchDisk` says |
| LmPromptCache.ModeExactly | Workers/mlx_lm_worker/prompt_cache.py:261-289 | a cache may be reused exactly when, layer by layer, it is plain, or quantised to this store's bits in groups of 64 where the store quantises |
| LmPromptCache.ServesExactly | Workers/mlx_lm_worker/prompt_cache.py:358-384 | a snapshot answers a prompt exactly when it is made of at least 64 of its leading tokens but not of all, is there, can be read and is of this mode |
| LmPromptCache.PromptCacheStore.FetchMemory | Workers/mlx_lm_worker/prompt_cache.py:293-311 | a trie answer is used exactly when it saves at least 64 tokens and leaves one to process |
| LmPromptCache.PromptCacheStore.FetchDisk | Workers/mlx_lm_worker/prompt_cache.py:348-385 | the longest listed prefix whose snapshot loads, if there is one; deleted are only unusable matching snapshots, among them all longer than the hit; the index loses at most one record, of a deleted one, and no listed record loses its file if and only if at most one unusable entry is longer than the hit |
| LmPromptCache.PromptCacheStore.RecordsInStep | Workers/mlx_lm_worker/prompt_cache.py:363-380 | deleting every discarded file but dropping only the last one's record keeps records and files in step if and only if at most one was discarded |
| LmPromptCache.PromptCacheStore.FetchPastTwoUnusable | Workers/mlx_lm_worker/prompt_cache.py:363-380 | otherwise: two unusable snapshots met in one search leave one record behind without a file, so that prefix counts as stored from then on |
| LmPromptCache.PromptCacheStore.Store | Workers/mlx_lm_worker/prompt_cache.py:189-207 | what the tiers hold stays exactly their tokens; without a cache or tokens nothing changes |
| LmPromptCache.PromptCacheStore.StoreDisk | Workers/mlx_lm_worker/prompt_cache.py:387-425 | the first min(tokens, prompt) less the guard are saved exactly when they are at least 64, not yet listed, and the cache can be trimmed and is of this quantisation, and the snapshot holds exactly those tokens |
| LmPromptCache.PromptCacheStore.EnforceDiskBudget | Workers/mlx_lm_worker/prompt_cache.py:427-452 | the listed snapshots fit afterwards; removed are exactly the fewest oldest ones that make them fit, files and records alike: whatever was removed was last used no later than any listed snapshot that stays; nothing else changes, and no record without a file goes |
| LmPromptCache.TotalAfterSave | Workers/mlx_lm_worker/prompt_cache.py:404-452 | all bytes on disk after a save are those of the listed snapshots and those of the files no record lists; only a save that broke off adds such a file, and a completed save of the same prefix takes it away |
| LmPromptCache.TotalIsListedAndStray | Workers/mlx_lm_worker/prompt_cache.py:427-452 | the same sum for any index and any files |
| LmPromptCache.SearchKeepsStrays | Workers/mlx_lm_worker/prompt_cache.py:348-385 | a search leaves the files no record lists as they are |
| LmPromptCache.PromptCacheStore.TornSaveOutlivesTheBudget | Workers/mlx_lm_worker/prompt_cache.py:404-425 | a concrete save that breaks off, after which all files together exceed the limit, before and after evicting |
| LmPromptCache.Surplus | Workers/mlx_lm_worker/prompt_cache.py:441-452 | the shortest run: removing k of the oldest fits, removing fewer does not |
| LmPromptCache.EvictedAreOldest | Workers/mlx_lm_worker/prompt_cache.py:441-442 | the time of last use of an evicted snapshot is no later than that of any listed snapshot that stays |
| LmPromptCache.BytesWithout | Workers/mlx_lm_worker/prompt_cache.py:446-451 | removing one listed snapshot and its file frees exactly its size |
| LmPromptCache.BytesOfSorted | Workers/mlx_lm_worker/prompt_cache.py:439-442 | the total does not depend on the order of eviction |
| LmPromptCache.OldestIsThere | Workers/mlx_lm_worker/prompt_cache.py:443-451 | no snapshot is evicted twice |
| LmPromptCache.LongestFirstOrders | Workers/mlx_lm_worker/prompt_cache.py:358-359 | the search order runs from longest to shortest over exactly the listed entries |
| LmPromptCache.PromptCacheStore.ClearDisk | Workers/mlx_lm_worker/prompt_cache.py:242-251 | empties the disk tier, or changes nothing when it is off |
| LmPromptCache.PromptCacheStore.ClearMemory | Workers/mlx_lm_worker/prompt_cache.py:137-138 | empties the memory tier |
| LmPromptCache.PromptCacheStore.TrimMemoryTo | Workers/mlx_lm_worker/prompt_cache.py:140-145 | leaves a part of the memory tier |
| LmPromptCache.PromptCacheStore.Remember | Workers/mlx_lm_worker/adapter.py:534-555 | an interrupted turn is stored exactly when no memory pressure stopped it and the reported length is that of prompt plus reply, and then the cache stored holds exactly those tokens |
| CacheTree.DiskRoundTrip | Workers/common/cache_state.py:364-424 | a payload written and read back has the same states if and only if every dictionary key in them is a string, and is the same payload if and only if moreover every `meta` survives |
| CacheTree.StateRoundTrip | Workers/common/cache_state.py:376-415 | the same of one state, wherever its arrays lie in the table |
| CacheTree.TextKeysStay | Workers/common/cache_state.py:383-385 | JSON keeps the shape of a state whose dictionary keys are strings |
| CacheTree.ReadBackIsText | Workers/common/cache_state.py:402-415 | whatever was written, what is read back can be built and has string keys only |
| CacheTree.MetaRoundTrip | Workers/common/cache_state.py:417-424 | a `meta` value comes back unchanged exactly when it is no list and nests no tuple |
| CacheTree.JsonKeepsTupleFree | Workers/common/cache_state.py:417-424 | JSON keeps a value exactly when no tuple occurs in it |
| CacheTree.Flatten | Workers/common/cache_state.py:364-399 | a payload is written exactly when nothing in it is of an unsupported type; arrays and manifest are those of its trees |
| CacheTree.ArrayTable.Describe | Workers/common/cache_state.py:376-395 | the manifest of a tree and the arrays added to the table, in order |
| CacheTree.WrittenWhenSupported | Workers/common/cache_state.py:376-395 | a tree can be written exactly when nothing in it is of an unsupported type |
| CacheTree.BuildUndoesShape | Workers/common/cache_state.py:402-415 | building from a manifest gives the tree back, also from a table that holds other arrays before and after |
| CacheTree.NamesDiffer | Workers/common/cache_state.py:377-381 | generated array names are pairwise distinct |
| Snapshot.RestoreTwice | Workers/common/cache_state.py:290-331 | whatever is later written in place into the captured cache or into a cache restored from the snapshot, a second restore still gives exactly what was captured |
| Snapshot.Capture | Workers/common/cache_state.py:290-308 | every component is copied into new arrays with equal contents, exactly when all components can be read |
| Snapshot.Restore | Workers/common/cache_state.py:311-331 | every component gets new arrays with the snapshot's contents, exactly when the shapes match and every component accepts; on a refusal exactly the components before the refusing one are written, on a mismatch none is |
| Snapshot.CopyTree | Workers/common/cache_state.py:272-287 | an equal tree that shares no array |
| ToolStream.RelayReply | Workers/common/server.py:640-789 | for both settings of `reasoning_only`, either starting mode and every way of cutting the text into deltas, what is shown and in which mode is one left-to-right scan of the whole text, and so, however the whole text is cut at its markers, its stretches with their modes |
| ToolStream.Relay | Workers/common/tool_calls.py:45-81 | the same for any set of markers none of which occurs inside another |
| ToolStream.ReplyIsShown | Workers/common/tool_calls.py:45-73 | however a reply is cut at its markers: every stretch is shown, as reasoning exactly when the last think tag before it opened one, or none came and the reply began in reasoning; markers are not shown, and nothing from a tool marker on is |
| ToolStream.EveryReplyReads | Workers/common/tool_calls.py:45-73 | every reply can be cut at its markers in that way |
| ToolStream.ReasoningIsShownApart | Workers/common/tool_calls.py:61-71 | text, `<think>`, text, `</think>`, text: the middle is shown as reasoning, the rest as visible text |
| ToolStream.ToolMarkupEndsTheReply | Workers/common/tool_calls.py:21-27 | with tools, each of the ten tool markers ends what is shown |
| ToolStream.ToolMarkupIsText | Workers/common/tool_calls.py:40 | without tools, text is shown whole unless one of the two think tags or the two wrapper tags is in it |
| ToolStream.WrapperTagsAreDropped | Workers/common/tool_calls.py:50-72 | a wrapper tag is not shown and leaves the mode as it is |
| ToolStream.IncrementalToolStream.Feed | Workers/common/tool_calls.py:45-73 | for every possible continuation, what was left to show before is what is shown now followed by what is left to show after; only a proper prefix of a marker is withheld |
| ToolStream.IncrementalToolStream.Finish | Workers/common/tool_calls.py:75-81 | flushes what the scan would show if the text ended here |
| ToolStream.IncrementalToolStream.StartReasoning | Workers/common/tool_calls.py:42-43 | switches the mode only |
| ToolStream.SegmentsAreTheScan | Workers/common/tool_calls.py:50-72 | the scan is the sequence of stretches between markers |
| ToolStream.SegmentsAreMarkerFree | Workers/common/tool_calls.py:50-72 | no stretch contains a marker of the mode it was shown in |
| ToolStream.BuiltinIsWellFormed | Workers/common/tool_calls.py:21-29 | no built-in marker occurs inside another |
| ToolStream.HitStep | Workers/common/tool_calls.py:61-71 | consuming a marker shows what precedes it and continues in the next mode |
| ToolStream.MissStep | Workers/common/tool_calls.py:54-60 | releasing the safe part shows exactly what any continuation would |
| ToolStream.ContinuesCompose | Workers/common/tool_calls.py:45-73 | steps over consecutive pieces of text compose |
| MarkerSearch.FirstMarker | Workers/common/tool_calls.py:83-86 | the leftmost marker, and the first listed at one position |
| MarkerSearch.SafePrefixLength | Workers/common/tool_calls.py:88-97 | the withheld end is the longest that is a proper prefix of a marker |
| MarkerSearch.SafePartIsFree | Workers/common/tool_calls.py:88-97 | no marker can start in the released part, whatever follows |
| MarkerSearch.HitIsFinal | Workers/common/tool_calls.py:83-86 | a hit is final when no marker occurs inside another |
| MarkerSearch.ShiftFirst | Workers/common/tool_calls.py:83-86 | cutting off text in which no marker starts does not move the first hit |
| StopFilter.Filter | Workers/common/tool_calls.py:109-140 | feeding every delta and releasing the tail shows the text up to the first match visible after some delta |
| StopFilter.CutIsCleanPrefix | Workers/common/tool_calls.py:123-140 | what is shown is a prefix of the reply without any stop sequence, followed by the matched sequence, or the whole reply when nothing matched |
| StopFilter.CutIsLeftmostExactly | Workers/common/tool_calls.py:123-140 | the cut is the leftmost occurrence for every chunking if and only if no proper prefix of a sequence has its first match after its start |
| StopFilter.HiddenMatchIsCutLate | Workers/common/tool_calls.py:123-140 | a concrete chunking for each sequence that violates that condition |
| StopFilter.NoInnerSequenceSuffices | Workers/common/tool_calls.py:123-140 | it is enough that no sequence occurs inside another at a positive offset ending before its end |
| StopFilter.StopSequenceFilter.Feed | Workers/common/tool_calls.py:123-136 | shows all that cannot become part of a match, and stops at the match in everything received |
| StopFilter.StopSequenceFilter.Finish | Workers/common/tool_calls.py:138-140 | releases what was withheld unless a sequence matched |
| StopFilter.Sequences | Workers/common/tool_calls.py:109-118 | the non-empty strings of the parameter |
| AnthropicStream.RenderingsAgree | Coordinator/mlxbar/api/anthropic_stream.py:126-212 | for every reply without call fragments, a client that reassembles the frames holds exactly the message of the non-streaming route: blocks, stop reason, stop sequence and usage |
| AnthropicStream.EventAgrees | Coordinator/mlxbar/api/anthropic_stream.py:126-170 | one event keeps the two renderings in agreement |
| AnthropicStream.CompletionAgrees | Coordinator/mlxbar/api/anthropic_stream.py:324-344 | closing the stream and finishing the message report the same ending |
| AnthropicTranscript.MessageTellsTheEvents | Coordinator/mlxbar/api/anthropic_stream.py:40-212 | the folded message of a reply without fragments, told from its events' own fields: the texts, thinking and calls in order, each call with its id, name and the object its arguments parse to; `stop_sequence`, `tool_use`, `max_tokens` or `end_turn` from the sequence, the calls and the finish reason; the last positive prompt count and the last completion count, or else the initial count and a quarter of the characters, rounded up |
| AnthropicTranscript.ContentIsWhatWasSaid | Coordinator/mlxbar/api/anthropic_stream.py:126-146 | so after any events: nothing lost, added or reordered, no empty text and no two of a kind side by side |
| AnthropicTranscript.SameToldSameContent | Coordinator/mlxbar/api/anthropic_stream.py:99-124 | only one list of blocks tells that |
| AnthropicTranscript.CountsAreWhatWasSaid | Coordinator/mlxbar/api/anthropic_stream.py:88-96 | the counts after any events, in the same terms |
| AnthropicTranscript.FragmentsMakeTheCall | Coordinator/mlxbar/api/anthropic_stream.py:172-197 | a call that arrives as its id and then name and arguments in any pieces becomes one block with that id, the whole name, and what the whole arguments parse to, or the longest part of them up to a fragment that parses |
| AnthropicTranscript.SignatureOmitsTheFirstFragment | Coordinator/mlxbar/api/anthropic_stream.py:224-280 | a streamed thinking block is signed for its text without the first fragment, hence never for all of it |
| AnthropicTranscript.SignalsAreAnnounced | Coordinator/mlxbar/api/anthropic_stream.py:265-350 | one ping per sign of progress and one error frame per failure, with its code and message, in order, and no others |
| AnthropicStream.FragmentsDrift | Coordinator/mlxbar/api/anthropic_stream.py:172-197 | a concrete reply with a call fragment for which the client does not rebuild the message of the non-streaming route, however it ends |
| AnthropicStream.FragmentAgreesExactly | Coordinator/mlxbar/api/anthropic_stream.py:172-197 | after one fragment on agreeing blocks the client holds the folded blocks if and only if the fragment fits: a new call addresses the next block with arguments that parse to an object or not at all; a continuing fragment addresses the open call, adds no name, and leaves the input the client makes of the whole text; or it shows nothing in either |
| AnthropicStream.FragmentKeepsMessageExactly | Coordinator/mlxbar/api/anthropic_stream.py:126-212 | a fragment after which the reply ends: the client rebuilds the message of the non-streaming route if and only if the fragment fits |
| AnthropicStream.SteadyEventsAgree | Coordinator/mlxbar/api/anthropic_stream.py:126-197 | replies whose fragments each start a call or continue the open one keep the two renderings in agreement, event by event |
| AnthropicStream.RenderingsAgreeOnFragments | Coordinator/mlxbar/api/anthropic_stream.py:126-212 | so a whole reply with such call fragments is rebuilt by the client as exactly the message of the non-streaming route |
| AnthropicStream.StreamIsFramed | Coordinator/mlxbar/api/anthropic_stream.py:224-322 | for every event sequence: block indices run on from zero, at most one block is open, each delta fits it, each thinking block is signed once right before it stops |
| AnthropicStream.CompletedReplyIsFramed | Coordinator/mlxbar/api/anthropic_stream.py:324-344 | a completed reply closes everything and ends with `message_delta` and `message_stop` |
| AnthropicStream.AnthropicMessageBuilder.HandleEvent | Coordinator/mlxbar/api/anthropic_stream.py:126-170 | the fields after an event are the fold of that event, of which `AnthropicTranscript.MessageTellsTheEvents` says what it tells |
| AnthropicStream.AnthropicMessageBuilder.StreamEvents | Coordinator/mlxbar/api/anthropic_stream.py:265-344 | the frames and fields after an event are those of the streaming specification, which `RenderingsAgree` ties to the fold |
| AnthropicStream.AnthropicMessageBuilder.MergeToolCallDelta | Coordinator/mlxbar/api/anthropic_stream.py:172-197 | a fragment is merged into the block it addresses |
| AnthropicStream.AnthropicMessageBuilder.CloseOpenBlock | Coordinator/mlxbar/api/anthropic_stream.py:224-238 | the open block is stopped, a thinking block after its signature |
| AnthropicStream.AnthropicMessageBuilder.OpenNewBlock | Coordinator/mlxbar/api/anthropic_stream.py:240-263 | the next block is started after closing the open one |
| Jobs.TerminalStateIsFinal | Coordinator/mlxbar/jobs.py:26-92 | in every interleaving a stored terminal state is never overwritten |
| Jobs.SubscriberIsToldTheTruth | Coordinator/mlxbar/jobs.py:94-118 | at most one terminal event is sent; a closed subscriber was last given the stored terminal record, and before it either every event sent or nothing but its first record; a listening one misses and reorders nothing |
| Jobs.RecordFollowsTheSteps | Coordinator/mlxbar/jobs.py:26-92 | in every run the stored record is the last one written, and the events sent are all of them: running for each start and report, the outcome for the end of the work, cancelled for the first canceller that finds no final record |
| Jobs.FinalRecordIsTheOutcome | Coordinator/mlxbar/jobs.py:34-92 | a final record is the outcome and note of the one step that ended the run, the end of the work or that canceller, and is the last event sent; no step before it could end the run and the work does nothing after it |
| Jobs.LiveRecordIsTheLastReport | Coordinator/mlxbar/jobs.py:26-33 | until then the record and the last event sent are those of the last start or report, or the record is the one the job was made with |
| Jobs.CancelBeforeStart | Coordinator/mlxbar/jobs.py:60-92 | a cancel call that reaches a live job before its first step: the work never runs, and the record stays queued until it says cancelled |
| Jobs.FirstEventIsTheRecord | Coordinator/mlxbar/jobs.py:94-98 | the first thing a subscriber is given is the record as it stood when it subscribed |
| Jobs.BlockedSubscriberHasAWriter | Coordinator/mlxbar/jobs.py:94-118 | a subscriber blocked on an empty queue always has a live writer, and whichever step ends the job puts the terminal event on that very queue |
| Jobs.NoDeadlock | Coordinator/mlxbar/jobs.py:26-118 | when nothing can move, the job is over, no cancel call waits, and a subscriber that connected was closed with the stored terminal record |
| Jobs.RunsKeepInv | Coordinator/mlxbar/jobs.py:17-118 | the protocol invariant holds in every reachable state |
| JobManagement.JobManager.Create | Coordinator/mlxbar/jobs.py:17-24 | a new job is stored as queued with a new empty queue and a new asyncio task, starts the protocol, and leaves every other job alone |
| JobManagement.JobManager.RunStart | Coordinator/mlxbar/jobs.py:32-33 | the record says running and the job's queue gets that event; the dictionaries follow the protocol step; other jobs keep their state |
| JobManagement.JobManager.RunReport | Coordinator/mlxbar/jobs.py:27-30 | likewise for a progress report |
| JobManagement.JobManager.RunFinish | Coordinator/mlxbar/jobs.py:34-49 | the record is the outcome of the work, the queue object gets that event, and the job leaves both dictionaries; all as the protocol step says |
| JobManagement.JobManager.DropTask | Coordinator/mlxbar/jobs.py:71-79 | a cancel that lands before the first step drops that job's asyncio task and writes nothing |
| JobManagement.JobManager.AskCancel | Coordinator/mlxbar/jobs.py:60-69 | a cancel call up to its wait: it waits exactly for a live job that has a task, and a job not yet over is asked to stop |
| JobManagement.JobManager.ResumeCancel | Coordinator/mlxbar/jobs.py:69-92 | a cancel call after its wait: a job without a final record gets cancelled as its record and event and leaves both dictionaries; any other stays |
| JobManagement.JobManager.Subscribe | Coordinator/mlxbar/jobs.py:94-98 | the first event given is the stored record |
| JobManagement.JobManager.Attach | Coordinator/mlxbar/jobs.py:99-113 | a subscriber told of the end is closed; otherwise it takes or registers the queue and reads the record again: closed with it if it is final, waiting on that queue if not |
| JobManagement.JobManager.Take | Coordinator/mlxbar/jobs.py:114-118 | the oldest event of the queue object held is given, and a final one closes the subscriber |
| SettingsTree.OverlayOfSplit | Coordinator/mlxbar/settings.py:344-383 | overlaying the unknown part on the known part gives the document back |
| SettingsTree.OverlaySplitsBackExactly | Coordinator/mlxbar/settings.py:344-383 | an overlaid document splits back into its two parts if and only if they are compatible |
| SettingsTree.KnownIsStripped | Coordinator/mlxbar/settings.py:371-383 | stripping changes a document exactly when it has an unknown key |
| SettingsTree.NoUnknownPaths | Coordinator/mlxbar/settings.py:324-341 | no unknown path is reported exactly when every key is known |
| SettingsTree.KnownHasNoUnknown | Coordinator/mlxbar/settings.py:344-356 | the unknown part is empty exactly when every key is known |
| SettingsTree.MergeOverDefaultsIsComplete | Coordinator/mlxbar/settings.py:267-274 | merging over the defaults has every key of the schema |
| SettingsTree.CompleteIsFixed | Coordinator/mlxbar/settings.py:267-274 | merging a complete document over the defaults changes nothing |
| SettingsTree.MergeFitsExactly | Coordinator/mlxbar/settings.py:887-906 | merging a patch leaves every preserved key its place if and only if the patch puts no other value where an object holds one |
| SettingsTree.MergeCompleteExactly | Coordinator/mlxbar/settings.py:887-906 | merging a patch keeps every key of the schema if and only if it brings all keys of an object it puts in the place of something else |
| SettingsPaths.MergeReads | Coordinator/mlxbar/settings.py:267-274 | what a merged document reads at a path: the patch's value where it is no object, nothing below such a value, and otherwise what the document underneath reads |
| SettingsPaths.KnownExactly | Coordinator/mlxbar/settings.py:324-341 | every key is known exactly when, wherever document and schema both have an object, the keys of the one are keys of the other |
| SettingsTree.ShapedFits | Coordinator/mlxbar/settings.py:887-906 | a patch that keeps objects of the schema objects leaves every preserved key its place |
| SettingsTree.UnknownSurvivesExactly | Coordinator/mlxbar/settings.py:344-383 | an overlaid document gives back every preserved key with its value if and only if the document leaves each its place |
| SettingsTree.CompleteSplitsOff | Coordinator/mlxbar/settings.py:371-383 | stripping an overlaid document gives the document back when it lacks no key of the schema, whatever it has put in the place of objects |
| SettingsTree.UnknownIsForeign | Coordinator/mlxbar/settings.py:344-356 | the unknown part of any document lies outside the schema or inside its objects |
| SettingsTree.FixedExactlyWhenComplete | Coordinator/mlxbar/settings.py:267-274 | merging a document over the defaults changes nothing if and only if it has every key of the schema |
| SettingsTree.LoadedIsCompatible | Coordinator/mlxbar/settings.py:426-453 | the preserved keys of a loaded file are compatible with the loaded document |
| SettingsStore.UnknownKeysSurviveUpdates | Coordinator/mlxbar/settings.py:887-906 | after any start, also one that recovered keys, and any sequence of updates, whatever the validator accepts: every preserved key is written back with its original value if and only if the document leaves it its place; the next start finds that document if and only if it has every key of the schema and its version can be read and is not newer |
| SettingsStore.SparingUpdatesKeepUnknownKeys | Coordinator/mlxbar/settings.py:887-906 | a condition on the patches alone: if none replaces an object that holds unknown keys of the file, all of them are written back with their original values |
| SettingsStore.SparingUpdatesFit | Coordinator/mlxbar/settings.py:887-906 | such updates leave every preserved key its place throughout |
| SettingsStore.NullDropsPreservedKeys | Coordinator/mlxbar/settings.py:78-87 | a concrete patch that sets an object no rule looks at to null is accepted and drops the unknown key kept there; an accepted empty object afterwards does not reload as it is |
| SettingsStore.ReloadsExactly | Coordinator/mlxbar/settings.py:426-475 | the next start on a written file finds the preserved keys if and only if they fit, and the document if and only if it has every key of the schema and a version that can be read and is not newer; with a version that cannot be read there is no next start |
| SettingsStore.Restart | Coordinator/mlxbar/settings.py:426-475 | the same of a new store that loads the file an update left |
| SettingsStore.MergeVersionExactly | Coordinator/mlxbar/settings.py:887-906 | an update keeps a version that survives if and only if its patch brings none or one that does |
| SettingsStore.VersionReads | Coordinator/mlxbar/settings.py:443 | how a version reads: nothing in it is 1, a number is cut towards zero, a text is parsed, a list or an object cannot be read |
| SettingsStore.VersionPatch | Coordinator/mlxbar/settings.py:443-449 | whatever version a patch brings to a fresh store is accepted; the next start finds it if and only if it can be read and is not newer, and there is no next start if it cannot be read |
| SettingsStore.UnreadableVersionStopsTheStart | Coordinator/mlxbar/settings.py:443 | a concrete patch with a version that is no number is accepted, and there is no start on the file it writes |
| SettingsStore.NewerVersionIsOverridden | Coordinator/mlxbar/settings.py:443-449 | a concrete patch with a newer version is accepted, and no start on the file it writes finds it |
| SettingsStore.NullStopsTheStart | Coordinator/mlxbar/settings.py:450-460 | a concrete file with one bad value, which one reset would mend, on which no start comes up because the validator raises something else than ValueError |
| SettingsStore.UpdateStaysInStep | Coordinator/mlxbar/settings.py:887-906 | an accepted update keeps the document known; the preserved keys keep their place if and only if the patch leaves it to them, and the document stays complete if and only if the patch refills what it replaces |
| SettingsStore.LoadedIsInStep | Coordinator/mlxbar/settings.py:426-453 | a loaded document, valid or not, has only keys of the schema, all of them, and leaves every unknown key of its file its place |
| SettingsRecovery.RecoverKeys | Coordinator/mlxbar/settings.py:477-525 | the search ends, in the one way its chain of documents ends: each is the one before with one leaf back at its default, and the last is valid, or leads no further, or came after 32 resets, or lets an exception of the validator out |
| SettingsRecovery.NextMeans | Coordinator/mlxbar/settings.py:490-525 | which leaf is reset next: one that alone mends the document if there is one, else a deepest one the message names; none only where no leaf mends it, no probe raises, and the message names no leaf or most deeply one without a default; the exception gets out if and only if the document or a probe before the first that succeeds raises it |
| SettingsRecovery.NamedExactly | Coordinator/mlxbar/settings.py:512-513 | the message names a leaf exactly when its last key, or its dotted path, stands in it |
| SettingsRecovery.DottedSnoc | Coordinator/mlxbar/settings.py:512-513 | a dotted path is its keys with a dot between them |
| SettingsRecovery.EndsOneWay | Coordinator/mlxbar/settings.py:477-525 | a search has one outcome only |
| SettingsRecovery.OneResetMendsExactly | Coordinator/mlxbar/settings.py:497-510 | a rejected document that one reset would mend is mended by exactly one if no earlier probe raises, and otherwise the search stops with the exception |
| SettingsRecovery.MendedMeans | Coordinator/mlxbar/settings.py:477-525 | a mended document is valid, each reported leaf holds its default and nothing else changed, no key of the schema is missing, and no preserved key lost its place |
| SettingsRecovery.ResetRecovers | Coordinator/mlxbar/settings.py:490-525 | a further reset keeps earlier ones at their defaults and everything else untouched |
| SettingsStore.SettingsStore.Load | Coordinator/mlxbar/settings.py:426-475 | a start comes up if and only if the version reads as a number and the search for a valid document meets no other exception of the validator; then the document is valid and complete and every preserved key has its place; each way it can go: fresh file, unreadable file, valid document, the recovery its search ends in, whole-file recovery that still writes back the preserved keys |
| SettingsStore.FoundIsWhole | Coordinator/mlxbar/settings.py:426-475 | whatever a start finds in a document is valid, has every key of the schema, and leaves each preserved key its place |
| SettingsStore.SettingsStore.AtomicWrite | Coordinator/mlxbar/settings.py:527-555 | the file becomes the document with the preserved keys laid over it |
| SettingsStore.SettingsStore.Update | Coordinator/mlxbar/settings.py:887-906 | a patch is accepted exactly when it has no unknown key and the merge validates; the file then gives back the preserved keys, and the next start finds the document, exactly under the conditions above, each of which an update keeps up exactly when its patch does; a patch that is refused, or on which the validator raises, changes nothing |
| SettingsPaths.SetThenGet | Coordinator/mlxbar/settings.py:312-321 | a leaf that was set reads back |
| SettingsPaths.SetElsewhere | Coordinator/mlxbar/settings.py:312-321 | setting a leaf changes nothing apart from it |
| SettingsPaths.LeafIsBottom | Coordinator/mlxbar/settings.py:291-300 | nothing lies below a leaf |
| SettingsPaths.PresentCanBeSet | Coordinator/mlxbar/settings.py:312-321 | a path that is present can be set |
| SettingsImport.ApplyImport | Coordinator/mlxbar/settings_export.py:88-165 | an import is aborted, changing nothing, if and only if the validator raises anything but ValueError on a document it is given; otherwise the document stays valid; each applied leaf holds the imported, folder-filtered value; a leaf that was not applied keeps its value if and only if no applied leaf lies above or below it, for which it is enough that no imported leaf lies strictly above or below a leaf of the store; a leaf is refused only for a missing folder, a taken port, or because the document built so far is rejected with it; importing the store's own settings changes nothing |
| SettingsImport.UnreportedLeavesExactly | Coordinator/mlxbar/settings_export.py:146-160 | of any document that differs only around applied leaves: a leaf not applied keeps its value if and only if none of them lies above or below it |
| SettingsImport.ImportDropsUnreported | Coordinator/mlxbar/settings_export.py:88-165 | a concrete import of a leaf that takes the place of an object is not aborted, and in the document it builds a leaf the object had is gone, which is no leaf of the import |
| SettingsImport.ImportedVersionStopsTheStart | Coordinator/mlxbar/settings_export.py:110-112 | a concrete import of a leaf below the version is not aborted, and there is no start on the document it builds |
| SettingsImport.NullAbortsTheImport | Coordinator/mlxbar/settings_export.py:146-155 | a concrete import with one null, on which the validator raises and which is therefore aborted |
| SettingsImport.AlignedStay | Coordinator/mlxbar/settings_export.py:88-165 | when no imported leaf lies strictly above or below a leaf of the store, every leaf not reported keeps its value |
| SettingsImport.ApplyLeaf | Coordinator/mlxbar/settings_export.py:146-160 | merging one more leaf keeps the earlier ones and everything else |
| SettingsImport.PairFollows | Coordinator/mlxbar/settings_export.py:119-139 | merging the host and LAN leaves together does the same |
| SettingsImport.PairIsPutTogether | Coordinator/mlxbar/settings_export.py:111-139 | for the first of the host and LAN leaves, the document put to the validator holds both values and is otherwise the one built so far |
| SettingsImport.BlockedExactly | Coordinator/mlxbar/settings_export.py:64-150 | a leaf is blocked exactly when none of its folders, or not its one folder, exists here; its port is refused exactly when it is not the store's own and not known to be free |
| SettingsImport.ImportedExactly | Coordinator/mlxbar/settings_export.py:64-85 | otherwise a list of folders is imported without exactly those missing here, in order, and any other value as it is |
| SettingsImport.FoldersThatStay | Coordinator/mlxbar/settings_export.py:71-81 | exactly the folders that exist here stay, in order |
| SettingsImport.PendingIsTheUpdate | Coordinator/mlxbar/settings_export.py:161 | the final update is accepted and leaves exactly the document built |
| SettingsImport.MergeLeafElsewhere | Coordinator/mlxbar/settings_export.py:34-41 | merging a one-leaf document leaves everything apart from that leaf |
| SettingsImport.MergeLeafGet | Coordinator/mlxbar/settings_export.py:34-41 | and puts the value at that leaf |
| Compression.SplitPoint | Coordinator/mlxbar/api/context_compression.py:68-98 | the rightmost boundary that keeps the last messages and every image turn and splits no call from its results, and none exactly when every such boundary would leave fewer than two messages |
| Compression.CompressionKeepsPairing | Coordinator/mlxbar/api/context_compression.py:101-103 | tool pairing holds in the compressed conversation and in the summariser's prompt |
| Compression.MaybeCompress | Coordinator/mlxbar/api/context_compression.py:145-180 | when enabled, over the trigger, and the summariser answers, the middle up to the rightmost boundary is replaced by one system message with the prefix and the summary, and the summariser was shown that middle and the instruction; otherwise nothing changes; head, image turns and the last messages are kept word for word; pairing is kept |
| ToolCallChunks.ChunksRebuildCalls | Coordinator/mlxbar/api/openai_compat.py:1311-1362 | folding every chunk back into an empty list rebuilds exactly the normalised calls: ids, names, arguments and order |
| ToolCallChunks.OneCallRebuilt | Coordinator/mlxbar/api/openai_compat.py:1327-1362 | the chunks of one call add exactly that call at the end, with a generated id if its own is empty |
| ToolCallChunks.PiecesRebuild | Coordinator/mlxbar/api/openai_compat.py:1359-1362 | argument pieces append up to the whole argument text |
| ToolCallChunks.ToolCallStreamChunks | Coordinator/mlxbar/api/openai_compat.py:1345-1362 | the chunks sent are those of the normalised calls, none longer than 256 characters; the arguments of one call come in pieces of 256 but for the last |
| ToolCallChunks.NormalizeOutputToolCalls | Coordinator/mlxbar/api/openai_compat.py:1311-1324 | one call per usable input and no other, in order, with its name and argument text, its own non-empty id or a generated one that no other call gets |
| ToolCallChunks.NormalizedCalls | Coordinator/mlxbar/api/openai_compat.py:1311-1324 | so for the calls seen so far, after any number of them |
| ToolCallChunks.CallList.MergeToolCallDeltas | Coordinator/mlxbar/api/openai_compat.py:1327-1342 | the list after folding one chunk, or an index error |
| ToolCallChunks.CallList.MergeDelta | Coordinator/mlxbar/api/openai_compat.py:1327-1342 | one fragment: the call it addresses gets its non-empty id, and its name and arguments behind those it had; missing calls are made blank, every other call stays; an index error exactly for a negative index beyond the list |

## Left out

- `Workers/common/server.py`: the order of splitter and stop filter at the end of a reply, heartbeats, timing and races with the executor; the two splitters are proved separately, each over its own input. `reasoning_start` is modelled before the first delta, where the adapters send it.
- Real files, permissions, fsync, sockets, SQLite, subprocesses and HTTP. A disk tier is a map from name to contents with an index beside it; removing a file and rewriting the index succeed, saving and reading may fail; a save of the vision worker that breaks off between its two files leaves nothing in the model.
- MLX, mlx-lm and mlx-vlm. A cache is what it has consumed, the length it reports and whether it can trim; the runtime is assumed to report token ids and lengths, to label no more than the cache holds, and to drop and feed tokens as asked (`VlmCache.CacheList`). Nested cache lists are flat. The trie and the paged tier of the text worker are assumed to answer with caches that hold the tokens they say.
- SHA-256 digests, and file names made of their first 16 hex digits, are taken to identify their tokens.
- VlmCache.Run: stops after the first request that mislabels, because the labels are false from there on; `VlmCache.Mislabels` is the exact condition. The automatic-prefix-cache tier, image requests and KV quantisation of the vision worker are not modelled, nor is learning the prefill rate.
- CacheTree.DiskRoundTrip: a dictionary key that JSON refuses, such as a tuple, counts as a failed save; NaN and infinities are not modelled.
- CacheState.RestoreOfCapture: copies are values here; that they share no array with the live cache is stated in `Snapshot`.
- AnthropicStream.RenderingsAgree: leaves out the thinking signature, of which `AnthropicTranscript.SignatureOmitsTheFirstFragment` says what it signs when streamed. Message ids, timestamps and JSON parsing itself are abstract, and the random ids of calls without one are taken to be the same in both renderings.
- AnthropicStream.FragmentAgreesExactly: negative fragment indices are not modelled. For whole replies, `AnthropicStream.RenderingsAgreeOnFragments` is one direction: fragments that part the renderings and later ones that bring them together again are not characterised.
- Jobs.SubscriberIsToldTheTruth: one subscriber per job, because the queue is shared and its terminal event is delivered once. Database failures inside a job, pruning of old records, `cancel_all`, cancel calls that are themselves cancelled, and work functions that report after they ended are not modelled.
- JobManagement.JobManager.Subscribe: an event generator that is abandoned half way keeps nothing alive in the model.
- SettingsTree, SettingsPaths: documents are values, so updating one in place and sharing subtrees are not captured; neither is the order of keys, which the listings of leaves take as given. A JSON number is a real, so 8000 and 8000.0 are the same; infinities and NaN are not modelled.
- SettingsStore.SettingsStore.Load: the range and cross-field rules of the validator are abstract; it is assumed only that the defaults validate, that the version is among them and no object, and that the leaves of a document are listed in an order that depends on the document alone. The message for unknown keys, which no loaded document has, names none. Backups, tokens and the write lock are left out.
- SettingsImport.ApplyImport: keys contain no dots, as in the shipped schema; reasons are not modelled, and a LAN key can be listed twice among the applied ones, as in the source.
- Compression.MaybeCompress: measuring characters is a flag, and summarising, trimming of the answer included, a function that may fail; `keepTail` is at least 1 because the validator demands 2 to 50.
- ToolCallChunks.ChunksRebuildCalls: the random ids of calls without one are named by their position; request ids and timestamps are left out.
- `_validate` range checks, cancellation registries, volume guards, preset clamps, classifier tables, the JSON-schema subset, the model pool, the RAG and memory services, the CLI and the GUI: easy or not shown.
