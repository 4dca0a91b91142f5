# Self-profiler event filtering and dispatch

A Dafny model of the Rust compiler's self-profiler core,
`src/librustc_data_structures/profiling.rs`. It covers five things:

- the `EventFilter` bit set and its presets;
- the table from filter names to masks, and how `SelfProfiler::new` builds a
  session's mask and its list of unknown names;
- the fast-path gate of `SelfProfilerRef`;
- the string cache of the `SelfProfiler`;
- the timing guards that open and close interval events.

The recording engine (`measureme`) is foreign code. It is modelled as a `Sink`
class that mints string ids and interval indices and appends every call it
receives to a ghost log. The contracts are stated over that log, the cached
mask and the string cache.

Modules, leaf first:

- `Wrappers` (`Wrappers.dfy`): Rust's `Option`.
- `StringOrder` (`StringOrder.dfy`): the order of Rust `String`s. Rust compares
  UTF-8 bytes, which gives the same order as comparing code points one by
  one. The module also holds `Vec::sort` and `Vec::dedup` as loops over a
  local sequence. The unknown-name report uses both.
- `EventFilters` (`EventFilters.dfy`): the mask type, the constants and
  `EVENT_FILTERS_BY_NAME`. `MaskOfNames` is the specification function of
  the construction fold. `ParseEventFilters` is the imperative loop of
  `SelfProfiler::new`, proved against that function, and lemmas state what
  the function means.
- `Measureme` (`Measureme.dfy`): the abstract sink, ids and log entries.
- `Profiling` (`Profiling.dfy`):
  - the `SelfProfiler` class, whose string cache is a `map` field updated in
    place. Its invariant says three things. Each cached id is one the sink
    returned when it allocated that string. No two strings share a cached id.
    A ghost record of the cache's allocations lists exactly the cached
    strings, none twice. The at-most-once property itself comes from the
    contract of `GetOrAllocCachedString`: a hit makes no sink call, and a miss
    adds one allocation to the log and one entry to the record. `Ran` passes
    the same facts on to the entry points.
  - `SelfProfilerRef`, an immutable value, with `exec` and its entry points.
  - `TimingGuard` and `VerboseTimingGuard`.

`exec` takes a closure in the source. Here the closure is a value of
`Activity`. The entry points pass five closures (lines 260, 271, 291, 301 and
317), and `Activity` has three constructors:

- `LabelledInterval` is the closure of `generic_activity`.
- `UnlabelledInterval(kind)` stands for the three closures that open an
  interval with `EventId::INVALID` (`query_provider`, `query_blocked` and
  `incr_cache_loading`). They differ only in the event kind.
- `InstantQuery` is the closure of `instant_query_event`.

`Ran` states what running each one does. The sink keeps the set of open intervals, and
finishing an interval requires it to be open. This is the model's version of
Rust's move semantics: a live guard is finished at most once. A client closes
it with `Drop` or `FinishWithQueryInvocationId`, as `NestedIntervals` does. Every entry
point states how the set changes. An interval entry point adds one new
interval and closes none; an instant event leaves the set as it was. So guards
nest as they do in the compiler, which `NestedIntervals` shows.
`ProviderAndCacheHitEvents` is a client of the entry points, on a profiler
configured with `["query-provider", "query-cache-hit"]`. Its contract fixes
the exact sink log that a generic activity, a query provider and a cache hit
produce there. `ProviderAndCacheHitSession` builds such a profiler and
reference, calls it, and states the whole log from construction on.

The mask is a `u32` bit set. It is written as the set of positions of its one
bits: `1 << k` is `{k}`, `|` is union and `contains` is inclusion.
`ALL = !NONE.bits` has all 32 bits, not only the six named ones.

Every recognised name is or-ed into the mask (`profiling.rs:380-383`). So
"none" adds nothing and does not clear bits set by earlier names
(`IgnoredNameAddsNothing`). "all" sets every bit, wherever it appears
(`AllSelectsEverything`).

## Model

| member | source | states |
|---|---|---|
| `EventFilters.Contains` | src/librustc_data_structures/profiling.rs:118-119 | `contains` holds exactly when and-ing the mask with the filter gives back the filter |
| `EventFilters.Lookup` | src/librustc_data_structures/profiling.rs:380-381 | the lookup fails exactly for names the table does not list; a found mask is one the table gives that name |
| `EventFilters.FindByName` | src/librustc_data_structures/profiling.rs:380-381 | the result is absent exactly when no entry has the name; otherwise it is the mask of the first entry with that name |
| `EventFilters.FirstEntry` | src/librustc_data_structures/profiling.rs:380-381 | when entry k is the first with the name, `find` yields entry k's mask |
| `EventFilters.LookupTable` | src/librustc_data_structures/profiling.rs:139-148 | exactly the eight table names are recognised; "none" maps to no bit, "all" to every bit, each category name to its own bit |
| `EventFilters.LookupCategory` | src/librustc_data_structures/profiling.rs:142-147 | each category's table name finds exactly that category's bit |
| `EventFilters.LookupEnables` | src/librustc_data_structures/profiling.rs:139-148 | a name's table mask enables a category exactly when the name is "all" or the category's own name |
| `EventFilters.DefaultMask` | src/librustc_data_structures/profiling.rs:128-131 | DEFAULT enables generic activities, query providers, query blocked and incr-cache loads, and not cache hits or query keys; so does the mask chosen when no list is given |
| `EventFilters.SingleNameMask` | src/librustc_data_structures/profiling.rs:142-147 | a list holding one category name yields exactly that category's bit |
| `EventFilters.MaskEnables` | src/librustc_data_structures/profiling.rs:375-387 | the folded mask enables a category exactly when "all" or the category's name occurs somewhere in the list |
| `EventFilters.MaskOfNamesAppend` | src/librustc_data_structures/profiling.rs:379-387 | folding a concatenation gives the union of the folds of its parts |
| `EventFilters.MaskMonotone` | src/librustc_data_structures/profiling.rs:379-387 | a list whose names all occur in another yields no bit outside the other's mask |
| `EventFilters.MaskDependsOnlyOnElements` | src/librustc_data_structures/profiling.rs:379-387 | two lists with the same names yield the same mask, whatever the order and repetitions |
| `EventFilters.AllSelectsEverything` | src/librustc_data_structures/profiling.rs:135-141 | a list containing "all" yields every bit |
| `EventFilters.IgnoredNameAddsNothing` | src/librustc_data_structures/profiling.rs:380-386 | inserting "none" or an unknown name anywhere in the list leaves the mask unchanged |
| `EventFilters.ParseEventFilters` | src/librustc_data_structures/profiling.rs:375-406 | the mask is DEFAULT without a list and the fold of the list otherwise; the unknown names come out strictly sorted, and they are exactly the unmatched inputs (none without a list) |
| `EventFilters.DuplicateUnknownReportedOnce` | src/librustc_data_structures/profiling.rs:389-392 | for `["foo", "foo"]` the report is exactly `["foo"]` |
| `StringOrder.Sort` | src/librustc_data_structures/profiling.rs:391 | the result is sorted and a permutation of the input |
| `StringOrder.Dedup` | src/librustc_data_structures/profiling.rs:392 | the result is the first element of each run of equal neighbours, in order; so it keeps the same elements, no two neighbours are equal, and a sorted input comes out strictly sorted |
| `StringOrder.DedupedStep` | src/librustc_data_structures/profiling.rs:392 | one more element is kept exactly when it is the first or differs from its predecessor |
| `StringOrder.DedupedLast` | src/librustc_data_structures/profiling.rs:392 | the last element of a non-empty vector survives deduplication |
| `StringOrder.DedupedElements` | src/librustc_data_structures/profiling.rs:392 | deduplication keeps exactly the set of elements |
| `StringOrder.DedupedNoAdjacent` | src/librustc_data_structures/profiling.rs:392 | after deduplication no two neighbours are equal |
| `StringOrder.DedupedSorted` | src/librustc_data_structures/profiling.rs:391-392 | a sorted vector comes out of deduplication strictly sorted |
| `StringOrder.StrictlySortedUnique` | src/librustc_data_structures/profiling.rs:391-392 | two strictly sorted lists with the same elements are equal, so the report depends only on the set of unknown names |
| `Profiling.VirtualIds` | src/librustc_data_structures/profiling.rs:455 | one virtual id per invocation, in order, each the invocation's number |
| `Profiling.VirtualIdsExact` | src/librustc_data_structures/profiling.rs:451-456 | an invocation's virtual id is in the bulk list exactly when the invocation is |
| `Profiling.SelfProfiler.constructor` | src/librustc_data_structures/profiling.rs:369-418 | the sink receives exactly the five kind-label allocations; the mask is the configured one, the cache is empty, and the warned list is strictly sorted and holds exactly the unknown names |
| `Profiling.SelfProfiler.AllocString` | src/librustc_data_structures/profiling.rs:420-424 | one uncached allocation |
| `Profiling.SelfProfiler.GetOrAllocCachedString` | src/librustc_data_structures/profiling.rs:426-444 | on a hit it returns the cached id and makes no sink call; on a miss it makes one allocation, records the new id in the cache and in the record of the cache's allocations, and opens no interval; other entries are unchanged |
| `Profiling.CachedStringIsStable` | src/librustc_data_structures/profiling.rs:426-444 | two lookups of one string return the same id and make at most one allocation between them |
| `Profiling.SelfProfiler.MapQueryInvocationIdToString` | src/librustc_data_structures/profiling.rs:446-449 | exactly one mapping call, from the invocation's virtual id to the given id |
| `Profiling.SelfProfiler.BulkMapQueryInvocationIdToSingleString` | src/librustc_data_structures/profiling.rs:451-457 | exactly one bulk call, with the invocations' virtual ids, to the given id |
| `Profiling.SelfProfiler.QueryKeyRecordingEnabled` | src/librustc_data_structures/profiling.rs:459-461 | true exactly when "query-keys" or "all" was configured; never with the default filters |
| `Profiling.ConfiguredCategory` | src/librustc_data_structures/profiling.rs:375-406 | which categories a configuration enables: the default four without a list, and otherwise the named ones (every one with "all") |
| `Profiling.TimingGuard.NoOp` | src/librustc_data_structures/profiling.rs:494-497 | the `None` guard refers to no sink, so it changes nothing and may always be dropped |
| `Profiling.TimingGuard.Start` | src/librustc_data_structures/profiling.rs:472-483 | opens one interval with the given kind, id and thread, whose index was not open before and is the only one added, and returns a live guard for it; no string is allocated |
| `Profiling.TimingGuard.FinishWithQueryInvocationId` | src/librustc_data_structures/profiling.rs:485-492 | a live guard finishes its interval once, recording the invocation's virtual id in place of the original one; a `None` guard changes nothing |
| `Profiling.TimingGuard.Drop` | src/librustc_data_structures/profiling.rs:468-469 | leaving the scope finishes a live guard's interval once, with its original id; a `None` guard changes nothing |
| `Profiling.VerboseTimingGuard.Start` | src/librustc_data_structures/profiling.rs:507-514 | a start instant is held exactly when `verbose` is set, and it is the current one |
| `Profiling.VerboseTimingGuard.Drop` | src/librustc_data_structures/profiling.rs:523-527 | leaving the scope finishes the inner guard's interval with its original id and removes it from the open intervals; the others stay open |
| `Profiling.Apply` | src/librustc_data_structures/profiling.rs:206-213 | running a closure on the profiler has exactly the effect `Ran` describes: the log entries appended, the cache entry added at most once, and the one new interval left open (none for an instant event); the profiler's invariant is kept |
| `Profiling.SelfProfilerRef.New` | src/librustc_data_structures/profiling.rs:178-194 | the cached mask is the profiler's, or NONE when there is no profiler |
| `Profiling.SelfProfilerRef.Enabled` | src/librustc_data_structures/profiling.rs:337-340 | true exactly when a profiler is present; when none is, no category passes the gate |
| `Profiling.SelfProfilerRef.Passes` | src/librustc_data_structures/profiling.rs:211-215 | the test on the cached mask answers as the profiler's own mask would; a non-empty filter passes only when a profiler is present, so the `unwrap` cannot fail |
| `Profiling.SelfProfilerRef.Exec` | src/librustc_data_structures/profiling.rs:196-220 | when the mask lacks the filter, it returns the no-op guard and changes nothing; otherwise the profiler is present, the unwrap is safe, and the closure runs once with the effect `Ran` describes, open intervals included; the empty filter is allowed only with a profiler present, since without one it would pass the gate and the unwrap would panic |
| `Profiling.SelfProfilerRef.GenericActivity` | src/librustc_data_structures/profiling.rs:256-265 | when enabled, one interval of the generic-activity kind, labelled with the string's cached id (allocated first on a miss); it is the one interval added to the open ones; otherwise nothing |
| `Profiling.SelfProfilerRef.QueryProvider` | src/librustc_data_structures/profiling.rs:267-274 | when enabled, one interval of the query kind with `EventId::INVALID`, the one interval added to the open ones; otherwise nothing |
| `Profiling.SelfProfilerRef.QueryBlocked` | src/librustc_data_structures/profiling.rs:286-294 | when enabled, one interval of the query-blocked kind with `EventId::INVALID`, the one interval added to the open ones; otherwise nothing |
| `Profiling.SelfProfilerRef.IncrCacheLoading` | src/librustc_data_structures/profiling.rs:296-308 | when enabled, one interval of the incremental-load kind with `EventId::INVALID`, the one interval added to the open ones; otherwise nothing |
| `Profiling.SelfProfilerRef.InstantQueryEvent` | src/librustc_data_structures/profiling.rs:310-329 | when the filter passes, exactly one instant event with the chosen kind and the invocation's virtual id, the open intervals and cache unchanged; otherwise nothing |
| `Profiling.SelfProfilerRef.QueryCacheHit` | src/librustc_data_structures/profiling.rs:276-284 | when cache hits are enabled, exactly one instant event of the cache-hit kind with the invocation's virtual id, the open intervals and cache unchanged; otherwise nothing |
| `Profiling.SelfProfilerRef.VerboseGenericActivity` | src/librustc_data_structures/profiling.rs:222-236 | the effects of `generic_activity`, plus a start instant exactly when the verbose flag is set |
| `Profiling.SelfProfilerRef.ExtraVerboseGenericActivity` | src/librustc_data_structures/profiling.rs:238-254 | never records an event (its guard is `None`); a start instant exactly when the extra-verbose flag is set |
| `Profiling.PassesExactlyConfigured` | src/librustc_data_structures/profiling.rs:183-186 | without a profiler no category passes; with one, the default four pass when no list was given, and otherwise exactly the listed ones (every one with "all") |
| `Profiling.NestedIntervals` | src/librustc_data_structures/profiling.rs:267-329 | a provider interval, a query-blocked interval inside it and a cache hit inside that can be closed innermost first, and the same intervals are open afterwards as before |
| `Profiling.BlockedWithCacheHit` | src/librustc_data_structures/profiling.rs:276-294 | a query-blocked interval with a cache hit inside it, closed on scope exit, leaves the same intervals open as before |
| `Profiling.ProviderInterval` | src/librustc_data_structures/profiling.rs:267-274 | when providers pass the gate, one interval of the query kind with `EventId::INVALID` is opened and then closed with that id when the guard leaves scope |
| `Profiling.ProviderAndCacheHitEvents` | src/librustc_data_structures/profiling.rs:256-284 | with `["query-provider", "query-cache-hit"]`, a generic activity, a provider and a cache hit for invocation 42 log exactly: the provider's interval opened, that interval closed, and one cache-hit instant event with virtual id 42 |
| `Profiling.ProviderAndCacheHitSession` | src/librustc_data_structures/profiling.rs:357-418 | a fresh profiler with that configuration, driven through those calls, has logged exactly the five kind labels and then those three events |
| `Profiling.ProviderAndCacheHitGate` | src/librustc_data_structures/profiling.rs:139-148 | with `["query-provider", "query-cache-hit"]` generic activities are gated off, and query providers and cache hits pass |

## Left out

- Concurrency. The `RwLock` around the string cache and its read-then-write re-check (lines 432-443) are one sequential check-then-insert on a `map` field. Sequentially, the at-most-once property holds without the re-check. The model does not show why the re-check is needed under races.
- Thread ids (`thread_id_to_u32`, lines 150-152) and `Instant::now()` (line 512) are parameters supplied by the caller.
- The file-system part of `SelfProfiler::new` (lines 362-367) is I/O: directory creation, the output file name built from the process id, and `Profiler::new`. The `Err` results of these steps are not modelled. The constructor creates a fresh sink instead.
- The internals of `measureme` are foreign code: `Profiler`, the `StringId` encoding, `EventIdBuilder` and `event_id_builder` (lines 463-465), and the serialization sinks (lines 98-105). The sink is an abstract class with a ghost log.
- The text of the `warn!` message (lines 394-402) is not modelled. The sorted, deduplicated list it reports is kept as the profiler's `reportedUnknownEvents`.
- `with_profiler` (lines 331-335) and `VerboseTimingGuard::run` (lines 516-520) only call a caller's closure. The model has no first-class closures that change the heap.
- Printing is stdout I/O: `print_time_passes_entry` and the printing half of `VerboseTimingGuard`'s `Drop` (lines 523-542).
- `duration_to_secs_str` and the rss arithmetic (lines 536-537, 546-551) are floating-point formatting.
- `get_resident` (lines 554-601) probes the operating system.
- `ProfileCategory` (lines 107-116) is an unused enum.
- Rust drops a `TimingGuard` automatically at scope exit (lines 468-469), so every live interval is closed. In the model that drop is an explicit `Drop` call. Nothing forces a client to make it, so an interval a client never drops stays open.
- `StringOrder.Sort`: Rust's `sort` is a stable merge sort from the standard library. The model uses an insertion sort with the same contract: sorted and a permutation.
