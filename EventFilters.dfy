/**
 * The event-category registry of the self-profiler: the `EventFilter` bit set,
 * its presets, the table from filter names to masks, and the construction of a
 * session's mask from the configured filter names (the first half of
 * `SelfProfiler::new`).
 */
module EventFilters {
  import opened Wrappers
  import opened StringOrder

  /** A bit position of a `u32`. */
  newtype Bit = i: int | 0 <= i < 32

  /**
   * `EventFilter` is a `bitflags` set over a `u32`, written here as the set of
   * positions of its one bits: `1 << k` is `{k}`, `|` is union and `contains`
   * is inclusion.
   */
  type EventFilter = set<Bit>

  const GENERIC_ACTIVITIES: EventFilter := {0}
  const QUERY_PROVIDERS: EventFilter := {1}
  const QUERY_CACHE_HITS: EventFilter := {2}
  const QUERY_BLOCKED: EventFilter := {3}
  const INCR_CACHE_LOADS: EventFilter := {4}
  const QUERY_KEYS: EventFilter := {5}

  const DEFAULT: EventFilter := GENERIC_ACTIVITIES + QUERY_PROVIDERS + QUERY_BLOCKED + INCR_CACHE_LOADS

  const NONE: EventFilter := {}
  /** The complement of the raw bits of `NONE`: all 32 bits, not only the six named ones. */
  const ALL: EventFilter := set i: int | 0 <= i < 32 :: i as Bit

  /** `EventFilter::contains`: every bit of `filter` is set in `mask`. */
  function Contains(mask: EventFilter, filter: EventFilter): (r: bool)
    ensures r <==> mask * filter == filter
  {
    filter <= mask
  }

  /** The six categories, one per single-bit constant. */
  datatype Category =
    | GenericActivities
    | QueryProviders
    | QueryCacheHits
    | QueryBlocked
    | IncrCacheLoads
    | QueryKeys

  function Flag(c: Category): EventFilter
  {
    match c
    case GenericActivities => GENERIC_ACTIVITIES
    case QueryProviders => QUERY_PROVIDERS
    case QueryCacheHits => QUERY_CACHE_HITS
    case QueryBlocked => QUERY_BLOCKED
    case IncrCacheLoads => INCR_CACHE_LOADS
    case QueryKeys => QUERY_KEYS
  }

  /** The name under which `c` is listed in `EVENT_FILTERS_BY_NAME`. */
  function Name(c: Category): string
  {
    match c
    case GenericActivities => "generic-activity"
    case QueryProviders => "query-provider"
    case QueryCacheHits => "query-cache-hit"
    case QueryBlocked => "query-blocked"
    case IncrCacheLoads => "incr-cache-load"
    case QueryKeys => "query-keys"
  }

  /** A mask enables `c` exactly when it contains `c`'s bit. */
  predicate Enabled(mask: EventFilter, c: Category)
  {
    Contains(mask, Flag(c))
  }

  const EVENT_FILTERS_BY_NAME: seq<(string, EventFilter)> := [
    ("none", NONE),
    ("all", ALL),
    ("generic-activity", GENERIC_ACTIVITIES),
    ("query-provider", QUERY_PROVIDERS),
    ("query-cache-hit", QUERY_CACHE_HITS),
    ("query-blocked", QUERY_BLOCKED),
    ("incr-cache-load", INCR_CACHE_LOADS),
    ("query-keys", QUERY_KEYS)
  ]

  /** `iter().find(...)`: the mask of the first entry of `table` named `name`. */
  function FindByName(table: seq<(string, EventFilter)>, name: string): (r: Option<EventFilter>)
    ensures r.None? <==> forall k | 0 <= k < |table| :: table[k].0 != name
    ensures r.Some? ==> exists k | 0 <= k < |table| ::
      table[k] == (name, r.value) && forall j | 0 <= j < k :: table[j].0 != name
  {
    if |table| == 0 then None
    else if table[0].0 == name then Some(table[0].1)
    else
      var r := FindByName(table[1..], name);
      assert r.Some? ==> exists k | 0 <= k < |table| ::
        table[k] == (name, r.value) && forall j | 0 <= j < k :: table[j].0 != name by {
        if r.Some? {
          var k :| 0 <= k < |table[1..]| && table[1..][k] == (name, r.value)
            && forall j | 0 <= j < k :: table[1..][j].0 != name;
          assert table[k + 1] == (name, r.value);
          assert forall j | 0 <= j < k + 1 :: table[j].0 != name by {
            forall j | 0 <= j < k + 1 ensures table[j].0 != name {
              if j > 0 {
                assert table[j] == table[1..][j - 1];
              }
            }
          }
        }
      }
      assert r.None? ==> forall k | 0 <= k < |table| :: table[k].0 != name by {
        if r.None? {
          forall k | 0 <= k < |table| ensures table[k].0 != name {
            if k > 0 {
              assert table[k] == table[1..][k - 1];
            }
          }
        }
      }
      r
  }

  /**
   * The table lookup `SelfProfiler::new` performs for one configured name:
   * it fails exactly for the names the table does not list, and otherwise
   * yields a mask the table gives that name.
   */
  function Lookup(name: string): (r: Option<EventFilter>)
    ensures r.None? <==> name !in KNOWN_NAMES
    ensures r.Some? ==> (name, r.value) in EVENT_FILTERS_BY_NAME
  {
    var t := EVENT_FILTERS_BY_NAME;
    assert t[0].0 == "none" && t[1].0 == "all" && t[2].0 == "generic-activity";
    assert t[3].0 == "query-provider" && t[4].0 == "query-cache-hit";
    assert t[5].0 == "query-blocked" && t[6].0 == "incr-cache-load" && t[7].0 == "query-keys";
    assert forall k | 0 <= k < |t| :: t[k].0 in KNOWN_NAMES;
    FindByName(t, name)
  }

  /** The names the table knows. */
  const KNOWN_NAMES: set<string> := {
    "none", "all", "generic-activity", "query-provider", "query-cache-hit",
    "query-blocked", "incr-cache-load", "query-keys"
  }

  /**
   * The lookup recognises exactly the eight table names; "none" maps to no bit,
   * "all" to every bit, and each category name to that category's bit alone.
   */
  lemma LookupTable(name: string)
    ensures Lookup(name).Some? <==> name in KNOWN_NAMES
    ensures name == "none" ==> Lookup(name) == Some(NONE)
    ensures name == "all" ==> Lookup(name) == Some(ALL)
    ensures forall c: Category :: name == Name(c) ==> Lookup(name) == Some(Flag(c))
  {
    var t := EVENT_FILTERS_BY_NAME;
    if name == "none" {
      FirstEntry(t, 0, name);
    } else if name == "all" {
      FirstEntry(t, 1, name);
    }
    forall c: Category | name == Name(c) ensures Lookup(name) == Some(Flag(c)) {
      LookupCategory(c);
    }
  }

  /** Each category's name finds that category's bit alone. */
  lemma LookupCategory(c: Category)
    ensures Lookup(Name(c)) == Some(Flag(c))
  {
    var t := EVENT_FILTERS_BY_NAME;
    match c
    case GenericActivities => FirstEntry(t, 2, Name(c));
    case QueryProviders => FirstEntry(t, 3, Name(c));
    case QueryCacheHits => FirstEntry(t, 4, Name(c));
    case QueryBlocked => FirstEntry(t, 5, Name(c));
    case IncrCacheLoads => FirstEntry(t, 6, Name(c));
    case QueryKeys => FirstEntry(t, 7, Name(c));
  }

  /** `find` stops at the first entry with the name. */
  lemma {:induction false} FirstEntry(table: seq<(string, EventFilter)>, k: nat, name: string)
    requires k < |table| && table[k].0 == name
    requires forall j | 0 <= j < k :: table[j].0 != name
    ensures FindByName(table, name) == Some(table[k].1)
  {
    if k > 0 {
      FirstEntry(table[1..], k - 1, name);
    }
  }

  /**
   * The mask the loop of `SelfProfiler::new` has built after the configured
   * names `names`: starting from `EventFilter::empty()`, the table mask of each
   * recognised name is or-ed in, in order; unknown names leave it unchanged.
   */
  function MaskOfNames(names: seq<string>): EventFilter
  {
    if |names| == 0 then NONE
    else
      var m := MaskOfNames(names[..|names| - 1]);
      match Lookup(names[|names| - 1])
      case Some(f) => m + f
      case None => m
  }

  /** The session mask: the configured names folded, or `DEFAULT` when no list is given. */
  function EventFilterMask(eventFilters: Option<seq<string>>): EventFilter
  {
    match eventFilters
    case None => DEFAULT
    case Some(names) => MaskOfNames(names)
  }

  /** The configured names the table does not know. */
  function UnknownNames(names: seq<string>): set<string>
  {
    set n | n in names && Lookup(n).None?
  }

  /** The names the warning reports: none when no list is given. */
  function ReportedUnknown(eventFilters: Option<seq<string>>): set<string>
  {
    match eventFilters
    case None => {}
    case Some(names) => UnknownNames(names)
  }

  /**
   * Mask construction as `SelfProfiler::new` does it: a loop or-ing table masks
   * into the mask and pushing unknown names, then, if any were pushed, sorting
   * and deduplicating them for the warning.
   */
  method ParseEventFilters(eventFilters: Option<seq<string>>) returns (mask: EventFilter, unknown: seq<string>)
    ensures mask == EventFilterMask(eventFilters)
    ensures StrictlySorted(unknown)
    ensures Elements(unknown) == ReportedUnknown(eventFilters)
  {
    mask := NONE;
    unknown := [];
    if eventFilters.Some? {
      var items := eventFilters.value;
      var unknownEvents: seq<string> := [];
      for i := 0 to |items|
        invariant mask == MaskOfNames(items[..i])
        invariant Elements(unknownEvents) == UnknownNames(items[..i])
      {
        var item := items[i];
        assert items[..i + 1] == items[..i] + [item];
        MaskOfNamesSnoc(items[..i], item);
        UnknownNamesSnoc(items[..i], item);
        ElementsSnoc(unknownEvents, item);
        var found := Lookup(item);
        if found.Some? {
          mask := mask + found.value;
        } else {
          unknownEvents := unknownEvents + [item];
        }
      }
      assert items[..|items|] == items;
      if |unknownEvents| > 0 {
        var sorted := Sort(unknownEvents);
        PermutationKeepsElements(sorted, unknownEvents);
        unknownEvents := Dedup(sorted);
      }
      unknown := unknownEvents;
    } else {
      mask := DEFAULT;
    }
  }

  /** With no list, exactly the four default categories are enabled. */
  lemma DefaultMask(c: Category)
    ensures Enabled(DEFAULT, c) <==> c in {GenericActivities, QueryProviders, QueryBlocked, IncrCacheLoads}
    ensures !Enabled(EventFilterMask(None), QueryCacheHits) && !Enabled(EventFilterMask(None), QueryKeys)
  {
  }

  /** What a recognised name contributes to category `c`. */
  lemma LookupEnables(name: string, c: Category)
    ensures (Lookup(name).Some? && Enabled(Lookup(name).value, c)) <==> (name == "all" || name == Name(c))
  {
    LookupTable(name);
    // each category name selects that category's bit alone
    if name == "generic-activity" { assert name == Name(GenericActivities); }
    else if name == "query-provider" { assert name == Name(QueryProviders); }
    else if name == "query-cache-hit" { assert name == Name(QueryCacheHits); }
    else if name == "query-blocked" { assert name == Name(QueryBlocked); }
    else if name == "incr-cache-load" { assert name == Name(IncrCacheLoads); }
    else if name == "query-keys" { assert name == Name(QueryKeys); }
  }

  /** Folding `init` and then `last` ors `last`'s table mask, if any, into `init`'s mask. */
  lemma MaskOfNamesSnoc(init: seq<string>, last: string)
    ensures MaskOfNames(init + [last]) == MaskOfNames(init) + Lookup(last).GetOr(NONE)
  {
    var b := init + [last];
    assert b[..|b| - 1] == init && b[|b| - 1] == last;
  }

  lemma UnknownNamesSnoc(init: seq<string>, last: string)
    ensures UnknownNames(init + [last])
         == UnknownNames(init) + (if Lookup(last).None? then {last} else {})
  {
    var b := init + [last];
    forall n ensures n in b <==> n in init || n == last {
      assert n == last ==> b[|init|] == n;
    }
  }

  /**
   * The constructed mask enables category `c` exactly when "all" or the
   * category's own name was configured, wherever and however often it occurs.
   */
  lemma {:induction false} MaskEnables(names: seq<string>, c: Category)
    ensures Enabled(MaskOfNames(names), c) <==> ("all" in names || Name(c) in names)
  {
    if |names| > 0 {
      var init, last := names[..|names| - 1], names[|names| - 1];
      assert names == init + [last];
      MaskEnables(init, c);
      LookupEnables(last, c);
      MaskOfNamesSnoc(init, last);
    }
  }

  /** Folding a concatenation ors the folds of the parts. */
  lemma {:induction false} MaskOfNamesAppend(a: seq<string>, b: seq<string>)
    ensures MaskOfNames(a + b) == MaskOfNames(a) + MaskOfNames(b)
  {
    if |b| > 0 {
      var init, last := b[..|b| - 1], b[|b| - 1];
      assert a + b == (a + init) + [last];
      assert b == init + [last];
      MaskOfNamesSnoc(a + init, last);
      MaskOfNamesSnoc(init, last);
      MaskOfNamesAppend(a, init);
    } else {
      assert a + b == a;
    }
  }

  /** The mask holds the table mask of each recognised name it was built from. */
  lemma {:induction false} MaskAbsorbs(names: seq<string>, k: nat)
    requires k < |names|
    ensures Lookup(names[k]).GetOr(NONE) <= MaskOfNames(names)
  {
    var init := names[..|names| - 1];
    if k < |names| - 1 {
      assert init[k] == names[k];
      MaskAbsorbs(init, k);
    }
  }

  /** Folding names that all occur in `a` yields no bit outside `a`'s mask. */
  lemma {:induction false} MaskMonotone(a: seq<string>, b: seq<string>)
    requires forall x | x in b :: x in a
    ensures MaskOfNames(b) <= MaskOfNames(a)
  {
    if |b| > 0 {
      var init, last := b[..|b| - 1], b[|b| - 1];
      assert b == init + [last];
      assert forall x | x in init :: x in b;
      MaskMonotone(a, init);
      assert last in b;
      var k :| 0 <= k < |a| && a[k] == last;
      MaskAbsorbs(a, k);
      MaskOfNamesSnoc(init, last);
    }
  }

  /** The mask depends only on which names were configured, not on their order or repetition. */
  lemma MaskDependsOnlyOnElements(a: seq<string>, b: seq<string>)
    requires Elements(a) == Elements(b)
    ensures MaskOfNames(a) == MaskOfNames(b)
  {
    assert forall x | x in b :: x in Elements(a);
    assert forall x | x in a :: x in Elements(b);
    MaskMonotone(a, b);
    MaskMonotone(b, a);
  }

  /** Configuring "all" anywhere yields every bit. */
  lemma AllSelectsEverything(names: seq<string>)
    requires "all" in names
    ensures MaskOfNames(names) == ALL
  {
    var k :| 0 <= k < |names| && names[k] == "all";
    LookupTable("all");
    MaskAbsorbs(names, k);
    assert MaskOfNames(names) <= ALL by {
      forall b: Bit | b in MaskOfNames(names) ensures b in ALL { }
    }
  }

  /** Inserting "none" or an unknown name anywhere leaves the mask unchanged. */
  lemma IgnoredNameAddsNothing(a: seq<string>, name: string, b: seq<string>)
    requires name == "none" || Lookup(name).None?
    ensures MaskOfNames(a + [name] + b) == MaskOfNames(a + b)
  {
    LookupTable(name);
    MaskOfNamesAppend(a + [name], b);
    MaskOfNamesAppend(a, b);
    MaskOfNamesSnoc(a, name);
  }

  /** A list of one category name selects that category's bit alone. */
  lemma SingleNameMask(c: Category)
    ensures MaskOfNames([Name(c)]) == Flag(c)
  {
    LookupTable(Name(c));
    assert [Name(c)][..0] == [];
  }

  /** `["foo", "foo"]` reports "foo" once. */
  lemma DuplicateUnknownReportedOnce(unknown: seq<string>)
    requires StrictlySorted(unknown)
    requires Elements(unknown) == ReportedUnknown(Some(["foo", "foo"]))
    ensures unknown == ["foo"]
  {
    LookupTable("foo");
    assert UnknownNames(["foo", "foo"]) == {"foo"};
    assert Elements(["foo"]) == {"foo"};
    StrictlySortedUnique(unknown, ["foo"]);
  }
}
