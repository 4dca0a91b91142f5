/**
 * The compiler's self-profiler: the `SelfProfiler` that owns the sink, the
 * filter mask, the string cache and the five event-kind labels; the cheap
 * `SelfProfilerRef` whose entry points decide, with one test of a cached
 * mask, whether to call into the profiler at all; and the timing guards that
 * close the intervals those entry points open.
 */
module Profiling {
  import opened Wrappers
  import opened StringOrder
  import opened EventFilters
  import opened Measureme

  /** `QueryInvocationId(pub u32)`: identifies one query invocation. */
  datatype QueryInvocationId = QueryInvocationId(id: u32)

  /** `StringId::new_virtual(qid.0)`: the invocation id reused as a virtual string id. */
  function VirtualId(qid: QueryInvocationId): StringId
  {
    Virtual(qid.id)
  }

  /** `from.map(|qid| StringId::new_virtual(qid.0))`, collected. */
  function VirtualIds(qids: seq<QueryInvocationId>): (r: seq<StringId>)
    ensures |r| == |qids|
    ensures forall k | 0 <= k < |qids| :: r[k] == VirtualId(qids[k])
  {
    if |qids| == 0 then [] else [VirtualId(qids[0])] + VirtualIds(qids[1..])
  }

  /** The virtual ids of a bulk mapping are exactly those of the given invocations. */
  lemma VirtualIdsExact(qids: seq<QueryInvocationId>, qid: QueryInvocationId)
    ensures VirtualId(qid) in VirtualIds(qids) <==> qid in qids
  {
    var r := VirtualIds(qids);
    if VirtualId(qid) in r {
      var k :| 0 <= k < |r| && r[k] == VirtualId(qid);
      assert qids[k] == qid;
    }
    if qid in qids {
      var k :| 0 <= k < |qids| && qids[k] == qid;
      assert r[k] == VirtualId(qid);
    }
  }

  /** No element occurs twice. */
  ghost predicate NoDuplicates(s: seq<string>)
  {
    forall i, j | 0 <= i < j < |s| :: s[i] != s[j]
  }

  /** The five event kinds whose labels the profiler allocates when it is created. */
  datatype EventKind =
    | QueryKind
    | GenericActivityKind
    | IncrementalLoadResultKind
    | QueryBlockedKind
    | QueryCacheHitKind

  class SelfProfiler {
    /** The recording engine (`measureme::Profiler`). */
    const profiler: Sink
    const eventFilterMask: EventFilter
    /** The filter names the profiler was configured with. */
    ghost const eventFilters: Option<seq<string>>
    /** The unknown filter names the construction warned about (none when empty). */
    ghost const reportedUnknownEvents: seq<string>

    var stringCache: map<string, StringId>
    /** The strings the cache has allocated, in allocation order. */
    ghost var cachedAllocations: seq<string>

    const queryEventKind: StringId
    const genericActivityEventKind: StringId
    const incrementalLoadResultEventKind: StringId
    const queryBlockedEventKind: StringId
    const queryCacheHitEventKind: StringId

    /** The label id of an event kind. */
    function KindId(k: EventKind): StringId
    {
      match k
      case QueryKind => queryEventKind
      case GenericActivityKind => genericActivityEventKind
      case IncrementalLoadResultKind => incrementalLoadResultEventKind
      case QueryBlockedKind => queryBlockedEventKind
      case QueryCacheHitKind => queryCacheHitEventKind
    }

    /** The sink calls construction makes: one allocation per kind label. */
    ghost function KindAllocations(): seq<SinkCall>
    {
      [ StringAllocated("Query", queryEventKind),
        StringAllocated("GenericActivity", genericActivityEventKind),
        StringAllocated("IncrementalLoadResult", incrementalLoadResultEventKind),
        StringAllocated("QueryBlocked", queryBlockedEventKind),
        StringAllocated("QueryCacheHit", queryCacheHitEventKind) ]
    }

    /** The mask is the one the configured names select. */
    ghost predicate MaskFromFilters()
    {
      eventFilterMask == EventFilterMask(eventFilters)
    }

    /**
     * The profiler's invariant. The kind labels are the sink's first five
     * allocations. Every cached id was allocated by the sink for its string,
     * is concrete and is distinct from every other cached id. The record of
     * the cache's allocations lists exactly its keys, none twice. That a
     * string is allocated at most once is not this invariant's doing: it is
     * the hit clause of `GetOrAllocCachedString` (no sink call), which `Ran`
     * passes on to the entry points as the one entry added to that record on
     * a miss.
     */
    ghost predicate Valid()
      reads this, profiler
    {
      && profiler.Valid()
      && MaskFromFilters()
      && |profiler.log| >= 5 && profiler.log[..5] == KindAllocations()
      && (forall s | s in stringCache :: StringAllocated(s, stringCache[s]) in profiler.log)
      && (forall s | s in stringCache :: stringCache[s].Concrete? && stringCache[s].addr < profiler.nextAddr)
      && (forall s, t | s in stringCache && t in stringCache && s != t :: stringCache[s] != stringCache[t])
      && NoDuplicates(cachedAllocations)
      && Elements(cachedAllocations) == stringCache.Keys
    }

    /**
     * `SelfProfiler::new`, without the output directory and file: allocates the
     * five kind labels, then builds the mask from the configured names and
     * collects the unknown ones for the warning.
     */
    constructor (eventFilters: Option<seq<string>>)
      ensures Valid() && fresh(profiler)
      ensures this.eventFilters == eventFilters
      ensures profiler.log == KindAllocations() && profiler.open == {}
      ensures stringCache == map[]
      ensures StrictlySorted(reportedUnknownEvents)
      ensures Elements(reportedUnknownEvents) == ReportedUnknown(eventFilters)
    {
      var sink := new Sink();
      var query := sink.AllocString("Query");
      var generic := sink.AllocString("GenericActivity");
      var incremental := sink.AllocString("IncrementalLoadResult");
      var blocked := sink.AllocString("QueryBlocked");
      var cacheHit := sink.AllocString("QueryCacheHit");
      var mask, unknown := ParseEventFilters(eventFilters);
      profiler := sink;
      eventFilterMask := mask;
      this.eventFilters := eventFilters;
      reportedUnknownEvents := unknown;
      stringCache := map[];
      cachedAllocations := [];
      queryEventKind := query;
      genericActivityEventKind := generic;
      incrementalLoadResultEventKind := incremental;
      queryBlockedEventKind := blocked;
      queryCacheHitEventKind := cacheHit;
    }

    /** `alloc_string`: an uncached allocation. */
    method AllocString(s: string) returns (id: StringId)
      requires Valid()
      modifies profiler
      ensures Valid()
      ensures profiler.log == old(profiler.log) + [StringAllocated(s, id)]
      ensures profiler.open == old(profiler.open) && profiler.nextInterval == old(profiler.nextInterval)
      ensures stringCache == old(stringCache) && cachedAllocations == old(cachedAllocations)
    {
      id := profiler.AllocString(s);
    }

    /**
     * `get_or_alloc_cached_string`: a cached id is returned without any sink
     * call; otherwise the string is allocated once and the id is cached.
     * Entries for other strings are left as they were.
     */
    method GetOrAllocCachedString(s: string) returns (id: StringId)
      requires Valid()
      modifies this, profiler
      ensures Valid()
      ensures s in stringCache && stringCache[s] == id
      ensures s in old(stringCache) ==> (id == old(stringCache[s]) && stringCache == old(stringCache)
        && cachedAllocations == old(cachedAllocations) && unchanged(profiler))
      ensures s !in old(stringCache) ==> (stringCache == old(stringCache)[s := id]
        && cachedAllocations == old(cachedAllocations) + [s]
        && profiler.log == old(profiler.log) + [StringAllocated(s, id)]
        && profiler.open == old(profiler.open) && profiler.nextInterval == old(profiler.nextInterval))
    {
      if s in stringCache {
        return stringCache[s];
      }
      id := profiler.AllocString(s);
      stringCache := stringCache[s := id];
      cachedAllocations := cachedAllocations + [s];
      assert Elements(cachedAllocations) == Elements(old(cachedAllocations)) + {s};
    }

    /** `map_query_invocation_id_to_string`: one mapping of the invocation's virtual id. */
    method MapQueryInvocationIdToString(from: QueryInvocationId, to: StringId)
      requires Valid()
      modifies profiler
      ensures Valid()
      ensures profiler.log == old(profiler.log) + [VirtualMapped(VirtualId(from), to)]
      ensures profiler.open == old(profiler.open)
      ensures profiler.nextAddr == old(profiler.nextAddr) && profiler.nextInterval == old(profiler.nextInterval)
    {
      profiler.MapVirtualToConcreteString(VirtualId(from), to);
    }

    /** `bulk_map_query_invocation_id_to_single_string`: one bulk call for all the invocations. */
    method BulkMapQueryInvocationIdToSingleString(from: seq<QueryInvocationId>, to: StringId)
      requires Valid()
      modifies profiler
      ensures Valid()
      ensures profiler.log == old(profiler.log) + [VirtualsBulkMapped(VirtualIds(from), to)]
      ensures profiler.open == old(profiler.open)
      ensures profiler.nextAddr == old(profiler.nextAddr) && profiler.nextInterval == old(profiler.nextInterval)
    {
      profiler.BulkMapVirtualToSingleConcreteString(VirtualIds(from), to);
    }

    /**
     * `query_key_recording_enabled`: on exactly when "query-keys" or "all"
     * was configured; never with the default filters.
     */
    function QueryKeyRecordingEnabled(): (r: bool)
      requires MaskFromFilters()
      ensures r <==> match eventFilters
                     case None => false
                     case Some(names) => "query-keys" in names || "all" in names
    {
      ConfiguredCategory(eventFilters, QueryKeys);
      Contains(eventFilterMask, QUERY_KEYS)
    }
  }

  /** Which categories a configuration enables. */
  lemma ConfiguredCategory(eventFilters: Option<seq<string>>, c: Category)
    ensures Enabled(EventFilterMask(eventFilters), c) <==> match eventFilters
      case None => c in {GenericActivities, QueryProviders, QueryBlocked, IncrCacheLoads}
      case Some(names) => "all" in names || Name(c) in names
  {
    match eventFilters
    case None => DefaultMask(c);
    case Some(names) => MaskEnables(names, c);
  }

  /** `measureme::TimingGuard`: the sink that opened an interval and its handle. */
  datatype RawGuard = RawGuard(sink: Sink, handle: IntervalHandle)

  /**
   * `TimingGuard`: no interval (`None`) or an open one. Finishing consumes
   * the interval, so it is closed at most once; a client closes it with
   * `Drop` or `FinishWithQueryInvocationId`, where Rust drops it at scope exit.
   */
  datatype TimingGuard = TimingGuard(raw: Option<RawGuard>)
  {
    /** `TimingGuard::none()`: holds no interval, so it touches nothing and can always be dropped. */
    static function NoOp(): (g: TimingGuard)
      ensures g.Sinks() == {} && g.Finishable()
    {
      TimingGuard(None)
    }

    /** The objects a guard may change when it is finished. */
    function Sinks(): set<object>
    {
      match raw
      case Some(g) => {g.sink}
      case None => {}
    }

    /** A live guard's interval is still open in its sink. */
    ghost predicate Finishable()
      reads Sinks()
    {
      raw.Some? ==> raw.value.sink.Valid() && raw.value.handle.index in raw.value.sink.open
    }

    /** `TimingGuard::start`: opens an interval of kind `eventKind` with id `eventId`. */
    static method Start(profiler: SelfProfiler, eventKind: StringId, eventId: EventId, thread: ThreadId)
      returns (g: TimingGuard)
      requires profiler.Valid()
      modifies profiler.profiler
      ensures profiler.Valid() && g.Finishable()
      ensures g.raw.Some? && g.raw.value.sink == profiler.profiler
      ensures g.raw.value.handle == IntervalHandle(old(profiler.profiler.nextInterval), eventKind, eventId, thread)
      ensures profiler.profiler.log == old(profiler.profiler.log) + [IntervalStarted(g.raw.value.handle)]
      ensures g.raw.value.handle.index !in old(profiler.profiler.open)
      ensures profiler.profiler.open == old(profiler.profiler.open) + {g.raw.value.handle.index}
      ensures profiler.profiler.nextAddr == old(profiler.profiler.nextAddr)
      ensures profiler.profiler.nextInterval == old(profiler.profiler.nextInterval) + 1
    {
      var handle := profiler.profiler.StartRecordingIntervalEvent(eventKind, eventId, thread);
      g := TimingGuard(Some(RawGuard(profiler.profiler, handle)));
    }

    /**
     * `finish_with_query_invocation_id`: a live guard finishes its interval
     * once, recording the invocation's virtual id instead of the id it was
     * opened with; a `None` guard does nothing.
     */
    method FinishWithQueryInvocationId(qid: QueryInvocationId)
      requires Finishable()
      modifies Sinks()
      ensures raw.Some? ==> (raw.value.sink.Valid()
        && raw.value.sink.log == old(raw.value.sink.log)
             + [IntervalFinished(raw.value.handle, FromStringId(VirtualId(qid)))]
        && raw.value.sink.open == old(raw.value.sink.open) - {raw.value.handle.index}
        && raw.value.sink.nextAddr == old(raw.value.sink.nextAddr)
        && raw.value.sink.nextInterval == old(raw.value.sink.nextInterval))
    {
      if raw.Some? {
        raw.value.sink.FinishInterval(raw.value.handle, Some(FromStringId(VirtualId(qid))));
      }
    }

    /** Scope exit (the `Drop` of `measureme::TimingGuard`): finishes with the original id. */
    method Drop()
      requires Finishable()
      modifies Sinks()
      ensures raw.Some? ==> (raw.value.sink.Valid()
        && raw.value.sink.log == old(raw.value.sink.log)
             + [IntervalFinished(raw.value.handle, raw.value.handle.eventId)]
        && raw.value.sink.open == old(raw.value.sink.open) - {raw.value.handle.index}
        && raw.value.sink.nextAddr == old(raw.value.sink.nextAddr)
        && raw.value.sink.nextInterval == old(raw.value.sink.nextInterval))
    {
      if raw.Some? {
        raw.value.sink.FinishInterval(raw.value.handle, None);
      }
    }
  }

  /** A point in time (`Instant`), supplied by the caller in place of the clock. */
  type Instant = nat

  /** `VerboseTimingGuard`: a timing guard plus the start instant of a printed timing line. */
  datatype VerboseTimingGuard = VerboseTimingGuard(eventId: string, start: Option<Instant>, guard: TimingGuard)
  {
    /** `VerboseTimingGuard::start`: reads the clock only when `verbose` is set. */
    static function Start(eventId: string, verbose: bool, guard: TimingGuard, now: Instant): (r: VerboseTimingGuard)
      ensures r.eventId == eventId && r.guard == guard
      ensures r.start.Some? <==> verbose
      ensures r.start.Some? ==> r.start.value == now
    {
      VerboseTimingGuard(eventId, if verbose then Some(now) else None, guard)
    }

    /** Scope exit: the inner guard finishes its interval (the printed line is not modelled). */
    method Drop()
      requires guard.Finishable()
      modifies guard.Sinks()
      ensures guard.raw.Some? ==> (guard.raw.value.sink.Valid()
        && guard.raw.value.sink.log == old(guard.raw.value.sink.log)
             + [IntervalFinished(guard.raw.value.handle, guard.raw.value.handle.eventId)]
        && guard.raw.value.sink.open == old(guard.raw.value.sink.open) - {guard.raw.value.handle.index}
        && guard.raw.value.sink.nextAddr == old(guard.raw.value.sink.nextAddr)
        && guard.raw.value.sink.nextInterval == old(guard.raw.value.sink.nextInterval))
    {
      guard.Drop();
    }
  }

  /**
   * The closures the entry points hand to `exec`. `generic_activity` interns
   * its label and opens an interval with it; `query_provider`, `query_blocked`
   * and `incr_cache_loading` open an interval with `EventId::INVALID`; and
   * `instant_query_event` records an instant event with the invocation's
   * virtual id and returns `TimingGuard::none()`.
   */
  datatype Activity =
    | LabelledInterval(text: string)
    | UnlabelledInterval(kind: EventKind)
    | InstantQuery(kind: EventKind, qid: QueryInvocationId)

  /**
   * The part of a profiler's state the entry points change: the sink's log
   * and its open intervals, the string cache, and the strings the cache has
   * allocated.
   */
  datatype Snapshot = Snapshot(
    log: seq<SinkCall>,
    open: set<nat>,
    cache: map<string, StringId>,
    allocations: seq<string>)

  /** The snapshot of profiler `p` now. */
  ghost function StateOf(p: SelfProfiler): Snapshot
    reads p, p.profiler
  {
    Snapshot(p.profiler.log, p.profiler.open, p.stringCache, p.cachedAllocations)
  }

  /**
   * The open intervals after a closure returned `g`: a live guard's interval
   * is new and is the only one added; none is closed.
   */
  ghost predicate Opened(s0: Snapshot, s1: Snapshot, g: TimingGuard)
  {
    match g.raw
    case Some(raw) => raw.handle.index !in s0.open && s1.open == s0.open + {raw.handle.index}
    case None => s1.open == s0.open
  }

  /**
   * What running `body` on profiler `p` does, taking its state from `s0` to
   * `s1` and returning `g`: the log entries it appends, the cache entry it
   * adds at most once, and the one interval it leaves open, if any.
   */
  ghost predicate Ran(body: Activity, p: SelfProfiler, thread: ThreadId, s0: Snapshot, s1: Snapshot, g: TimingGuard)
  {
    && Opened(s0, s1, g)
    && match body
    case LabelledInterval(text) =>
      && text in s1.cache
      && s1.cache == s0.cache[text := s1.cache[text]]
      && (text in s0.cache ==> s1.cache[text] == s0.cache[text])
      && s1.allocations == s0.allocations + (if text in s0.cache then [] else [text])
      && g.raw.Some? && g.raw.value.sink == p.profiler
      && g.raw.value.handle.kind == p.genericActivityEventKind
      && g.raw.value.handle.eventId == FromStringId(s1.cache[text])
      && g.raw.value.handle.thread == thread
      && s1.log == s0.log + (if text in s0.cache then [] else [StringAllocated(text, s1.cache[text])])
                          + [IntervalStarted(g.raw.value.handle)]
    case UnlabelledInterval(kind) =>
      && s1.cache == s0.cache && s1.allocations == s0.allocations
      && g.raw.Some? && g.raw.value.sink == p.profiler
      && g.raw.value.handle.kind == p.KindId(kind)
      && g.raw.value.handle.eventId == Invalid
      && g.raw.value.handle.thread == thread
      && s1.log == s0.log + [IntervalStarted(g.raw.value.handle)]
    case InstantQuery(kind, qid) =>
      && s1.cache == s0.cache && s1.allocations == s0.allocations
      && g == TimingGuard.NoOp()
      && s1.log == s0.log + [InstantRecorded(p.KindId(kind), FromStringId(VirtualId(qid)), thread)]
  }

  /** `f(&**profiler)` in `cold_call`: runs the closure on the profiler. */
  method Apply(body: Activity, p: SelfProfiler, thread: ThreadId) returns (g: TimingGuard)
    requires p.Valid()
    modifies p, p.profiler
    ensures p.Valid() && g.Finishable()
    ensures Ran(body, p, thread, old(StateOf(p)), StateOf(p), g)
  {
    match body
    case LabelledInterval(text) =>
      var id := p.GetOrAllocCachedString(text);
      g := TimingGuard.Start(p, p.genericActivityEventKind, FromStringId(id), thread);
    case UnlabelledInterval(kind) =>
      g := TimingGuard.Start(p, p.KindId(kind), Invalid, thread);
    case InstantQuery(kind, qid) =>
      p.profiler.RecordInstantEvent(p.KindId(kind), FromStringId(VirtualId(qid)), thread);
      g := TimingGuard.NoOp();
  }

  /**
   * `SelfProfilerRef`: an optional handle to the profiler, a copy of its mask,
   * and the two flags for printed timing lines.
   */
  datatype SelfProfilerRef = SelfProfilerRef(
    profiler: Option<SelfProfiler>,
    eventFilterMask: EventFilter,
    printVerboseGenericActivities: bool,
    printExtraVerboseGenericActivities: bool)
  {
    /** The cached mask is the profiler's, or `NONE` when there is no profiler. */
    predicate Valid()
    {
      match profiler
      case Some(p) => eventFilterMask == p.eventFilterMask
      case None => eventFilterMask == NONE
    }

    /** `SelfProfilerRef::new`. */
    static function New(profiler: Option<SelfProfiler>, printVerbose: bool, printExtraVerbose: bool)
      : (r: SelfProfilerRef)
      ensures r.Valid()
      ensures r.profiler == profiler
      ensures r.printVerboseGenericActivities == printVerbose
      ensures r.printExtraVerboseGenericActivities == printExtraVerbose
    {
      var mask := match profiler case Some(p) => p.eventFilterMask case None => NONE;
      SelfProfilerRef(profiler, mask, printVerbose, printExtraVerbose)
    }

    /** The objects the entry points may change: the profiler and its sink. */
    function Footprint(): set<object>
    {
      match profiler
      case Some(p) => {p, p.profiler}
      case None => {}
    }

    ghost predicate ProfilerValid()
      reads Footprint()
    {
      profiler.Some? ==> profiler.value.Valid()
    }

    /**
     * The branch `exec` takes: into the profiler exactly when the cached mask
     * contains `filter`. The cached copy answers as the profiler's own mask
     * would, and a non-empty filter passes only when there is a profiler, so
     * the `unwrap` in `cold_call` cannot fail.
     */
    function Passes(filter: EventFilter): (r: bool)
      ensures Valid() && profiler.Some? ==> (r <==> Contains(profiler.value.eventFilterMask, filter))
      ensures Valid() && r && filter != NONE ==> profiler.Some?
    {
      Contains(eventFilterMask, filter)
    }

    /** `enabled`: a profiler is present; when none is, no category passes. */
    function Enabled(): (r: bool)
      ensures r <==> profiler.Some?
      ensures Valid() && !r ==> forall c: Category :: !Passes(Flag(c))
    {
      profiler.Some?
    }

    /**
     * `exec`: when the cached mask does not contain `filter`, returns
     * `TimingGuard::none()` and touches nothing; otherwise unwraps the
     * profiler (which is then present) and runs `body` on it once.
     */
    method Exec(filter: EventFilter, body: Activity, thread: ThreadId) returns (g: TimingGuard)
      requires Valid() && ProfilerValid() && (filter != NONE || profiler.Some?)
      modifies Footprint()
      ensures ProfilerValid() && g.Finishable()
      ensures !Passes(filter) ==> g == TimingGuard.NoOp() && unchanged(Footprint())
      ensures Passes(filter) ==> (profiler.Some?
        && var p := profiler.value;
           Ran(body, p, thread, old(StateOf(p)), StateOf(p), g))
    {
      if Passes(filter) {
        g := Apply(body, profiler.value, thread);
      } else {
        g := TimingGuard.NoOp();
      }
    }

    /** `generic_activity`: an interval of the generic-activity kind labelled with the cached `eventId`. */
    method GenericActivity(eventId: string, thread: ThreadId) returns (g: TimingGuard)
      requires Valid() && ProfilerValid()
      modifies Footprint()
      ensures ProfilerValid() && g.Finishable()
      ensures !Passes(GENERIC_ACTIVITIES) ==> g == TimingGuard.NoOp() && unchanged(Footprint())
      ensures Passes(GENERIC_ACTIVITIES) ==> (profiler.Some?
        && var p := profiler.value;
           Ran(LabelledInterval(eventId), p, thread, old(StateOf(p)), StateOf(p), g))
    {
      g := Exec(GENERIC_ACTIVITIES, LabelledInterval(eventId), thread);
    }

    /** `query_provider`: an interval of the query kind with `EventId::INVALID`. */
    method QueryProvider(thread: ThreadId) returns (g: TimingGuard)
      requires Valid() && ProfilerValid()
      modifies Footprint()
      ensures ProfilerValid() && g.Finishable()
      ensures !Passes(QUERY_PROVIDERS) ==> g == TimingGuard.NoOp() && unchanged(Footprint())
      ensures Passes(QUERY_PROVIDERS) ==> (profiler.Some?
        && var p := profiler.value;
           Ran(UnlabelledInterval(QueryKind), p, thread, old(StateOf(p)), StateOf(p), g))
    {
      g := Exec(QUERY_PROVIDERS, UnlabelledInterval(QueryKind), thread);
    }

    /** `query_blocked`: an interval of the query-blocked kind with `EventId::INVALID`. */
    method QueryBlocked(thread: ThreadId) returns (g: TimingGuard)
      requires Valid() && ProfilerValid()
      modifies Footprint()
      ensures ProfilerValid() && g.Finishable()
      ensures !Passes(QUERY_BLOCKED) ==> g == TimingGuard.NoOp() && unchanged(Footprint())
      ensures Passes(QUERY_BLOCKED) ==> (profiler.Some?
        && var p := profiler.value;
           Ran(UnlabelledInterval(QueryBlockedKind), p, thread, old(StateOf(p)), StateOf(p), g))
    {
      g := Exec(QUERY_BLOCKED, UnlabelledInterval(QueryBlockedKind), thread);
    }

    /** `incr_cache_loading`: an interval of the incremental-load kind with `EventId::INVALID`. */
    method IncrCacheLoading(thread: ThreadId) returns (g: TimingGuard)
      requires Valid() && ProfilerValid()
      modifies Footprint()
      ensures ProfilerValid() && g.Finishable()
      ensures !Passes(INCR_CACHE_LOADS) ==> g == TimingGuard.NoOp() && unchanged(Footprint())
      ensures Passes(INCR_CACHE_LOADS) ==> (profiler.Some?
        && var p := profiler.value;
           Ran(UnlabelledInterval(IncrementalLoadResultKind), p, thread, old(StateOf(p)), StateOf(p), g))
    {
      g := Exec(INCR_CACHE_LOADS, UnlabelledInterval(IncrementalLoadResultKind), thread);
    }

    /** `instant_query_event`: the guard `exec` returns is dropped at once. */
    method InstantQueryEvent(kind: EventKind, qid: QueryInvocationId, filter: EventFilter, thread: ThreadId)
      requires Valid() && ProfilerValid() && (filter != NONE || profiler.Some?)
      modifies Footprint()
      ensures ProfilerValid()
      ensures !Passes(filter) ==> unchanged(Footprint())
      ensures Passes(filter) ==> (profiler.Some?
        && var p := profiler.value;
           && p.stringCache == old(p.stringCache) && p.cachedAllocations == old(p.cachedAllocations)
           && p.profiler.open == old(p.profiler.open)
           && p.profiler.log == old(p.profiler.log) + [InstantRecorded(p.KindId(kind), FromStringId(VirtualId(qid)), thread)])
    {
      var g := Exec(filter, InstantQuery(kind, qid), thread);
      g.Drop();
    }

    /**
     * `query_cache_hit`: exactly one instant event of the cache-hit kind with
     * the invocation's virtual id when cache hits are enabled, nothing otherwise.
     */
    method QueryCacheHit(qid: QueryInvocationId, thread: ThreadId)
      requires Valid() && ProfilerValid()
      modifies Footprint()
      ensures ProfilerValid()
      ensures !Passes(QUERY_CACHE_HITS) ==> unchanged(Footprint())
      ensures Passes(QUERY_CACHE_HITS) ==> (profiler.Some?
        && var p := profiler.value;
           && p.stringCache == old(p.stringCache) && p.cachedAllocations == old(p.cachedAllocations)
           && p.profiler.open == old(p.profiler.open)
           && p.profiler.log == old(p.profiler.log)
                + [InstantRecorded(p.queryCacheHitEventKind, FromStringId(VirtualId(qid)), thread)])
    {
      InstantQueryEvent(QueryCacheHitKind, qid, QUERY_CACHE_HITS, thread);
    }

    /** `verbose_generic_activity`: a generic activity whose timing line is printed when the verbose flag is set. */
    method VerboseGenericActivity(eventId: string, thread: ThreadId, now: Instant) returns (v: VerboseTimingGuard)
      requires Valid() && ProfilerValid()
      modifies Footprint()
      ensures ProfilerValid() && v.guard.Finishable()
      ensures v.eventId == eventId
      ensures v.start.Some? <==> printVerboseGenericActivities
      ensures !Passes(GENERIC_ACTIVITIES) ==> v.guard == TimingGuard.NoOp() && unchanged(Footprint())
      ensures Passes(GENERIC_ACTIVITIES) ==> (profiler.Some?
        && var p := profiler.value;
           Ran(LabelledInterval(eventId), p, thread, old(StateOf(p)), StateOf(p), v.guard))
    {
      var g := GenericActivity(eventId, thread);
      v := VerboseTimingGuard.Start(eventId, printVerboseGenericActivities, g, now);
    }

    /**
     * `extra_verbose_generic_activity`: never records an event (its guard is
     * `TimingGuard::none()`); only the printed timing line depends on the flag.
     */
    function ExtraVerboseGenericActivity(eventId: string, now: Instant): (v: VerboseTimingGuard)
      ensures v.guard == TimingGuard.NoOp()
      ensures v.eventId == eventId
      ensures v.start.Some? <==> printExtraVerboseGenericActivities
    {
      VerboseTimingGuard.Start(eventId, printExtraVerboseGenericActivities, TimingGuard.NoOp(), now)
    }
  }

  /**
   * The categories that pass a reference's gate: none without a profiler;
   * with one, the default four when no filter list was given, and otherwise
   * exactly those named in the list or all of them when "all" is listed.
   */
  lemma PassesExactlyConfigured(r: SelfProfilerRef, c: Category)
    requires r.Valid()
    requires r.profiler.Some? ==> r.profiler.value.MaskFromFilters()
    ensures r.Passes(Flag(c)) <==> match r.profiler
      case None => false
      case Some(p) => match p.eventFilters
        case None => c in {GenericActivities, QueryProviders, QueryBlocked, IncrCacheLoads}
        case Some(names) => "all" in names || Name(c) in names
  {
    if r.profiler.Some? {
      ConfiguredCategory(r.profiler.value.eventFilters, c);
    }
  }

  /** Two lookups of the same constant string give one id and at most one allocation. */
  method CachedStringIsStable(p: SelfProfiler, s: string) returns (first: StringId, second: StringId)
    requires p.Valid()
    modifies p, p.profiler
    ensures p.Valid()
    ensures first == second
    ensures s in old(p.stringCache) ==> unchanged(p.profiler)
    ensures s !in old(p.stringCache) ==> p.profiler.log == old(p.profiler.log) + [StringAllocated(s, first)]
  {
    first := p.GetOrAllocCachedString(s);
    second := p.GetOrAllocCachedString(s);
  }

  /** The gate of a reference to a profiler configured with "query-provider" and "query-cache-hit". */
  lemma ProviderAndCacheHitGate(r: SelfProfilerRef)
    requires r.Valid() && r.profiler.Some? && r.profiler.value.MaskFromFilters()
    requires r.profiler.value.eventFilters == Some(["query-provider", "query-cache-hit"])
    ensures !r.Passes(GENERIC_ACTIVITIES) && r.Passes(QUERY_PROVIDERS) && r.Passes(QUERY_CACHE_HITS)
  {
    var names := ["query-provider", "query-cache-hit"];
    assert Name(GenericActivities) !in names && "all" !in names;
    assert Name(QueryProviders) in names && Name(QueryCacheHits) in names;
    PassesExactlyConfigured(r, GenericActivities);
    PassesExactlyConfigured(r, QueryProviders);
    PassesExactlyConfigured(r, QueryCacheHits);
  }

  /**
   * A query-blocked interval with a cache hit inside it, closed on scope
   * exit: afterwards the same intervals are open as before.
   */
  method BlockedWithCacheHit(r: SelfProfilerRef, thread: ThreadId)
    requires r.Valid() && r.ProfilerValid()
    modifies r.Footprint()
    ensures r.ProfilerValid()
    ensures r.profiler.Some? ==> r.profiler.value.profiler.open == old(r.profiler.value.profiler.open)
  {
    var inner := r.QueryBlocked(thread);
    r.QueryCacheHit(QueryInvocationId(7), thread);
    inner.Drop();
  }

  /**
   * Guards nest: a query provider's interval outlives the query-blocked
   * interval and cache hit inside it, and is then closed with its own id;
   * afterwards the same intervals are open as before.
   */
  method NestedIntervals(r: SelfProfilerRef, thread: ThreadId)
    requires r.Valid() && r.ProfilerValid()
    modifies r.Footprint()
    ensures r.ProfilerValid()
    ensures r.profiler.Some? ==> r.profiler.value.profiler.open == old(r.profiler.value.profiler.open)
  {
    var outer := r.QueryProvider(thread);
    BlockedWithCacheHit(r, thread);
    outer.Drop();
  }

  /**
   * A query provider through a reference whose gate lets providers pass: one
   * interval of the query kind with `EventId::INVALID`, which the guard closes
   * with that id when it leaves scope.
   */
  method ProviderInterval(r: SelfProfilerRef, thread: ThreadId) returns (h: IntervalHandle)
    requires r.Valid() && r.ProfilerValid() && r.Passes(QUERY_PROVIDERS)
    modifies r.Footprint()
    ensures r.ProfilerValid() && r.profiler.Some?
    ensures r.profiler.value.stringCache == old(r.profiler.value.stringCache)
    ensures h.kind == r.profiler.value.queryEventKind && h.eventId == Invalid && h.thread == thread
    ensures r.profiler.value.profiler.log
         == old(r.profiler.value.profiler.log) + [IntervalStarted(h), IntervalFinished(h, Invalid)]
  {
    var provider := r.QueryProvider(thread);
    h := provider.raw.value.handle;
    provider.Drop();
  }

  /** A generic activity whose category is gated off records nothing, and its guard is dropped at once. */
  method GatedOffActivity(r: SelfProfilerRef, eventId: string, thread: ThreadId)
    requires r.Valid() && r.ProfilerValid() && !r.Passes(GENERIC_ACTIVITIES)
    modifies r.Footprint()
    ensures unchanged(r.Footprint())
  {
    var activity := r.GenericActivity(eventId, thread);
    activity.Drop();
  }

  /**
   * Through a reference to a profiler configured with "query-provider" and
   * "query-cache-hit": a generic activity records nothing, a query provider
   * records one closed interval of the query kind, and a cache hit for
   * invocation 42 records one instant event with virtual id 42.
   */
  method ProviderAndCacheHitEvents(r: SelfProfilerRef, thread: ThreadId) returns (h: IntervalHandle)
    requires r.Valid() && r.ProfilerValid() && r.profiler.Some? && r.profiler.value.MaskFromFilters()
    requires r.profiler.value.eventFilters == Some(["query-provider", "query-cache-hit"])
    modifies r.Footprint()
    ensures r.ProfilerValid()
    ensures h.kind == r.profiler.value.queryEventKind && h.eventId == Invalid && h.thread == thread
    ensures r.profiler.value.profiler.log == old(r.profiler.value.profiler.log) + [
      IntervalStarted(h),
      IntervalFinished(h, Invalid),
      InstantRecorded(r.profiler.value.queryCacheHitEventKind, FromStringId(Virtual(42)), thread)]
  {
    var p := r.profiler.value;
    ProviderAndCacheHitGate(r);
    ghost var log0 := p.profiler.log;
    GatedOffActivity(r, "typeck", thread);
    assert p.profiler.log == log0;
    h := ProviderInterval(r, thread);
    ghost var log1 := p.profiler.log;
    r.QueryCacheHit(QueryInvocationId(42), thread);
    assert p.profiler.log == log1 + [InstantRecorded(p.queryCacheHitEventKind, FromStringId(Virtual(42)), thread)];
  }

  /** A fresh session with that configuration: after construction, exactly those three events. */
  method ProviderAndCacheHitSession(thread: ThreadId) returns (p: SelfProfiler, h: IntervalHandle)
    ensures fresh(p) && p.Valid()
    ensures h.kind == p.queryEventKind && h.eventId == Invalid && h.thread == thread
    ensures p.profiler.log == p.KindAllocations() + [
      IntervalStarted(h),
      IntervalFinished(h, Invalid),
      InstantRecorded(p.queryCacheHitEventKind, FromStringId(Virtual(42)), thread)]
  {
    p := new SelfProfiler(Some(["query-provider", "query-cache-hit"]));
    var r := SelfProfilerRef.New(Some(p), false, false);
    h := ProviderAndCacheHitEvents(r, thread);
  }
}
