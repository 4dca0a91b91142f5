/**
 * The external recording engine (the `measureme` crate's `Profiler`) as the
 * profiler sees it: a sink that mints string ids, opens and finishes interval
 * events, records instant events and maps virtual string ids to concrete
 * ones. Its storage format is not modelled; every call it receives is
 * appended to a ghost log, which is what the properties of the profiler are
 * stated over.
 */
module Measureme {
  import opened Wrappers

  /** Rust's `u32`. */
  newtype u32 = x: int | 0 <= x < 0x1_0000_0000

  /** The (truncated) thread id the profiler passes with each event. */
  type ThreadId = u32

  /**
   * `StringId`: either the address of a string the sink allocated, or a
   * virtual id the client chose, which lives in a separate name space.
   */
  datatype StringId = Concrete(addr: nat) | Virtual(n: u32)

  /** `EventId`: `EventId::INVALID`, or an id built from a (concrete or virtual) string id. */
  datatype EventId = Invalid | FromStringId(id: StringId)

  /** What the sink remembers about an interval it has opened. */
  datatype IntervalHandle = IntervalHandle(index: nat, kind: StringId, eventId: EventId, thread: ThreadId)

  /** One call received by the sink. `IntervalFinished` carries the event id that is written. */
  datatype SinkCall =
    | StringAllocated(text: string, id: StringId)
    | IntervalStarted(handle: IntervalHandle)
    | IntervalFinished(handle: IntervalHandle, recorded: EventId)
    | InstantRecorded(kind: StringId, eventId: EventId, thread: ThreadId)
    | VirtualMapped(from: StringId, to: StringId)
    | VirtualsBulkMapped(froms: seq<StringId>, to: StringId)

  class Sink {
    /** Address of the next string to be allocated. */
    var nextAddr: nat
    /** Index of the next interval to be opened. */
    var nextInterval: nat
    /** Every call received, oldest first. */
    ghost var log: seq<SinkCall>
    /** Indices of the intervals opened and not yet finished. */
    ghost var open: set<nat>

    ghost predicate Valid()
      reads this
    {
      && (forall k | 0 <= k < |log| :: log[k].StringAllocated? ==> log[k].id.Concrete? && log[k].id.addr < nextAddr)
      && (forall i | i in open :: i < nextInterval)
    }

    /** `Profiler::new`, without the file it opens. */
    constructor ()
      ensures Valid()
      ensures log == [] && open == {}
    {
      nextAddr, nextInterval := 0, 0;
      log, open := [], {};
    }

    /** `alloc_string`: a fresh concrete id for `s`. */
    method AllocString(s: string) returns (id: StringId)
      requires Valid()
      modifies this
      ensures Valid()
      ensures id == Concrete(old(nextAddr)) && nextAddr == old(nextAddr) + 1
      ensures log == old(log) + [StringAllocated(s, id)]
      ensures open == old(open) && nextInterval == old(nextInterval)
    {
      id := Concrete(nextAddr);
      nextAddr := nextAddr + 1;
      log := log + [StringAllocated(s, id)];
    }

    /** `start_recording_interval_event`: opens a new interval. */
    method StartRecordingIntervalEvent(kind: StringId, eventId: EventId, thread: ThreadId) returns (h: IntervalHandle)
      requires Valid()
      modifies this
      ensures Valid()
      ensures h == IntervalHandle(old(nextInterval), kind, eventId, thread)
      ensures h.index !in old(open) && open == old(open) + {h.index}
      ensures log == old(log) + [IntervalStarted(h)]
      ensures nextAddr == old(nextAddr) && nextInterval == old(nextInterval) + 1
    {
      h := IntervalHandle(nextInterval, kind, eventId, thread);
      nextInterval := nextInterval + 1;
      log := log + [IntervalStarted(h)];
      open := open + {h.index};
    }

    /**
     * Finishing the interval `h`, which must still be open: it is written with
     * the override id when one is given and with its own id otherwise, and is
     * then closed for good.
     */
    method FinishInterval(h: IntervalHandle, override: Option<EventId>)
      requires Valid() && h.index in open
      modifies this
      ensures Valid()
      ensures open == old(open) - {h.index}
      ensures log == old(log) + [IntervalFinished(h, match override case Some(e) => e case None => h.eventId)]
      ensures nextAddr == old(nextAddr) && nextInterval == old(nextInterval)
    {
      var recorded := match override case Some(e) => e case None => h.eventId;
      log := log + [IntervalFinished(h, recorded)];
      open := open - {h.index};
    }

    /** `record_instant_event`. */
    method RecordInstantEvent(kind: StringId, eventId: EventId, thread: ThreadId)
      requires Valid()
      modifies this
      ensures Valid()
      ensures log == old(log) + [InstantRecorded(kind, eventId, thread)]
      ensures open == old(open) && nextAddr == old(nextAddr) && nextInterval == old(nextInterval)
    {
      log := log + [InstantRecorded(kind, eventId, thread)];
    }

    /** `map_virtual_to_concrete_string`. */
    method MapVirtualToConcreteString(from: StringId, to: StringId)
      requires Valid()
      modifies this
      ensures Valid()
      ensures log == old(log) + [VirtualMapped(from, to)]
      ensures open == old(open) && nextAddr == old(nextAddr) && nextInterval == old(nextInterval)
    {
      log := log + [VirtualMapped(from, to)];
    }

    /** `bulk_map_virtual_to_single_concrete_string`. */
    method BulkMapVirtualToSingleConcreteString(froms: seq<StringId>, to: StringId)
      requires Valid()
      modifies this
      ensures Valid()
      ensures log == old(log) + [VirtualsBulkMapped(froms, to)]
      ensures open == old(open) && nextAddr == old(nextAddr) && nextInterval == old(nextInterval)
    {
      log := log + [VirtualsBulkMapped(froms, to)];
    }
  }

}
