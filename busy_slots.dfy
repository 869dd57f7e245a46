/** Busy-slot derivation (backend/src/services/calendar.ts, fetchAndParseCalendar
    and validateCalendarUrl). The feed arrives already parsed into items; each
    event contributes its own slot or the slots of its recurrence occurrences,
    and the collected slots are sorted by start. Times are milliseconds since
    the Unix epoch. The rrule library is a parameter: it receives what
    parseRRule built and the window, and returns the occurrence starts or
    `None` when building the rule or expanding it throws. */
module BusySlots {
  import opened Wrappers
  import opened RRuleOptions

  /** The `type` of a parsed calendar item. */
  datatype ItemType = VEvent | VTimezone | OtherType(name: string)

  /** One EXDATE value: an instant, or a value `new Date` cannot turn into a
      valid date (on which `toISOString` throws). */
  datatype ExdateValue = ExAt(ms: int) | ExInvalid

  /** The `exdate` property: absent or falsy, an array, or a single value. */
  datatype ExdateField = NoExdate | ExdateList(values: seq<ExdateValue>) | ExdateOne(value: ExdateValue)

  /** A parsed calendar item; `None` stands for a missing (falsy) property. */
  datatype Item = Item(
    kind: ItemType,
    start: Option<int>,
    end: Option<int>,
    rrule: Option<RuleSource>,
    exdate: ExdateField)

  /** A busy slot; the source carries both instants as ISO 8601 strings. */
  datatype Slot = Slot(start: int, end: int)

  /** `RRule.between(from, to, true)` on what parseRRule built; `None` when
      `RRule.fromString`, `new RRule` or the expansion throws. */
  type Expander = (RuleSpec, int, int) -> Option<seq<int>>

  const MsPerDay: int := 86400000

  /** The UTC calendar date (the `YYYY-MM-DD` part of `toISOString`) as a day number. */
  function DayKey(ms: int): (day: int)
    ensures day * MsPerDay <= ms < (day + 1) * MsPerDay
  {
    ms / MsPerDay
  }

  /** The values of a present `exdate`: the array itself, or a lone value as a one-element list. */
  function ExdateValues(f: ExdateField): seq<ExdateValue> {
    match f
    case NoExdate => []
    case ExdateList(vs) => vs
    case ExdateOne(v) => [v]
  }

  /** The set of excluded dates, or `None` when converting some value throws. */
  function ExdateKeys(f: ExdateField): Option<set<int>> {
    var vs := ExdateValues(f);
    if ExInvalid in vs then None else Some(set v | v in vs && v.ExAt? :: DayKey(v.ms))
  }

  /** Overlap with the window `[from, to]`, both ends inclusive. */
  predicate InWindow(s: Slot, from: int, to: int) {
    s.end >= from && s.start <= to
  }

  /** The slots pushed for the occurrences of one event, in occurrence order. */
  function OccurrenceSlots(occs: seq<int>, keys: set<int>, duration: int, from: int, to: int): seq<Slot> {
    if occs == [] then []
    else
      var o := occs[|occs| - 1];
      var rest := OccurrenceSlots(occs[..|occs| - 1], keys, duration, from, to);
      if DayKey(o) in keys || !InWindow(Slot(o, o + duration), from, to) then rest
      else rest + [Slot(o, o + duration)]
  }

  /** The event itself as a slot, when it overlaps the window. */
  function SingleSlot(start: int, end: int, from: int, to: int): seq<Slot> {
    if start <= to && end >= from then [Slot(start, end)] else []
  }

  /** Whether the item counts as recurring: a rule is present and is not the empty (falsy) string. */
  predicate HasRecurrence(item: Item) {
    item.rrule.Some? && item.rrule.value != Textual("")
  }

  /** What one item adds to the busy slots. */
  function Contribution(item: Item, from: int, to: int, lib: Expander, codes: FrequencyCodes): seq<Slot> {
    if !item.kind.VEvent? || item.start.None? || item.end.None? then []
    else
      var s, e := item.start.value, item.end.value;
      if !HasRecurrence(item) then SingleSlot(s, e, from, to)
      else
        var occs := lib(Parsed(item.rrule.value, s, codes), from, to);
        var keys := ExdateKeys(item.exdate);
        if occs.None? || keys.None? then SingleSlot(s, e, from, to)
        else OccurrenceSlots(occs.value, keys.value, e - s, from, to)
  }

  /** The slots collected from all items, in item order, before sorting. */
  function Collect(items: seq<Item>, from: int, to: int, lib: Expander, codes: FrequencyCodes): seq<Slot> {
    if items == [] then []
    else Collect(items[..|items| - 1], from, to, lib, codes) + Contribution(items[|items| - 1], from, to, lib, codes)
  }

  ghost predicate SortedByStart(s: seq<Slot>) {
    forall i, j :: 0 <= i < j < |s| ==> s[i].start <= s[j].start
  }

  /** Inserts `x` after every slot that does not start later than it, so that
      slots with equal starts keep their order, as the stable
      `Array.prototype.sort` does. */
  function InsertByStart(s: seq<Slot>, x: Slot): (r: seq<Slot>)
    requires SortedByStart(s)
    ensures SortedByStart(r)
    ensures multiset(r) == multiset(s) + multiset{x}
    decreases |s|, 0
  {
    if s == [] || s[|s| - 1].start <= x.start then s + [x]
    else
      var last := s[|s| - 1];
      InsertStaysBelow(s[..|s| - 1], x, last.start);
      assert s == s[..|s| - 1] + [last];
      InsertByStart(s[..|s| - 1], x) + [last]
  }

  /** Inserting keeps every start at most `b` when all of them were. */
  lemma {:induction false} InsertStaysBelow(s: seq<Slot>, x: Slot, b: int)
    requires SortedByStart(s)
    requires forall i :: 0 <= i < |s| ==> s[i].start <= b
    requires x.start <= b
    ensures forall i :: 0 <= i < |InsertByStart(s, x)| ==> InsertByStart(s, x)[i].start <= b
    decreases |s|, 1
  {
    if s != [] && s[|s| - 1].start > x.start {
      InsertStaysBelow(s[..|s| - 1], x, b);
    }
  }

  /** The final sort of the busy list by start instant: sorted by
      start and a permutation of its input, nothing merged or dropped. */
  function SortByStart(s: seq<Slot>): (r: seq<Slot>)
    ensures SortedByStart(r)
    ensures multiset(r) == multiset(s)
  {
    if s == [] then []
    else
      assert s == s[..|s| - 1] + [s[|s| - 1]];
      InsertByStart(SortByStart(s[..|s| - 1]), s[|s| - 1])
  }

  /** The EXDATE loop: fills the set of excluded dates, stopping at a value
      that is not a valid date. */
  method ExdateKeySet(exdate: ExdateField) returns (keys: Option<set<int>>)
    ensures keys == ExdateKeys(exdate)
  {
    var exdateArray := ExdateValues(exdate);
    var exdates: set<int> := {};
    for k := 0 to |exdateArray|
      invariant ExInvalid !in exdateArray[..k]
      invariant exdates == set v | v in exdateArray[..k] && v.ExAt? :: DayKey(v.ms)
    {
      assert exdateArray[..k + 1] == exdateArray[..k] + [exdateArray[k]];
      if exdateArray[k].ExInvalid? {
        return None;
      }
      exdates := exdates + {DayKey(exdateArray[k].ms)};
    }
    assert exdateArray[..|exdateArray|] == exdateArray;
    return Some(exdates);
  }

  /** The occurrence loop of one recurring event: pushes a slot for every
      occurrence whose UTC date is not excluded and that overlaps the window. */
  method PushOccurrences(busySlots: seq<Slot>, occs: seq<int>, exdates: set<int>, duration: int, startDate: int, endDate: int)
    returns (out: seq<Slot>)
    ensures out == busySlots + OccurrenceSlots(occs, exdates, duration, startDate, endDate)
  {
    out := busySlots;
    for j := 0 to |occs|
      invariant out == busySlots + OccurrenceSlots(occs[..j], exdates, duration, startDate, endDate)
    {
      assert occs[..j + 1][..j] == occs[..j];
      var occurrence := occs[j];
      if DayKey(occurrence) !in exdates {
        var occurrenceEnd := occurrence + duration;
        if occurrenceEnd >= startDate && occurrence <= endDate {
          out := out + [Slot(occurrence, occurrenceEnd)];
        }
      }
    }
    assert occs[..|occs|] == occs;
  }

  /** The body of the item loop: pushes what one item contributes. A recurring
      event whose rule cannot be built or expanded, or whose EXDATE holds an
      invalid date, falls back to its own slot. */
  method PushItem(busySlots: seq<Slot>, event: Item, startDate: int, endDate: int, lib: Expander, codes: FrequencyCodes)
    returns (out: seq<Slot>)
    ensures out == busySlots + Contribution(event, startDate, endDate, lib, codes)
  {
    out := busySlots;
    if event.kind.VEvent? && event.start.Some? && event.end.Some? {
      var eventStart, eventEnd := event.start.value, event.end.value;
      if HasRecurrence(event) {
        var threw := false;
        var rrule := ParseRRule(event.rrule.value, eventStart, codes);
        var occurrences := lib(rrule, startDate, endDate);
        if occurrences.None? {
          threw := true;
        } else {
          var exdates := ExdateKeySet(event.exdate);
          if exdates.None? {
            threw := true;
          } else {
            out := PushOccurrences(out, occurrences.value, exdates.value, eventEnd - eventStart, startDate, endDate);
          }
        }
        if threw && eventStart <= endDate && eventEnd >= startDate {
          out := out + [Slot(eventStart, eventEnd)];
        }
      } else if eventStart <= endDate && eventEnd >= startDate {
        out := out + [Slot(eventStart, eventEnd)];
      }
    }
  }

  /** fetchAndParseCalendar on an already parsed feed: the result is the
      collected slots sorted by start, each overlapping `[startDate, endDate]`. */
  method FetchAndParseCalendar(items: seq<Item>, startDate: int, endDate: int, lib: Expander, codes: FrequencyCodes)
    returns (busySlots: seq<Slot>)
    ensures busySlots == SortByStart(Collect(items, startDate, endDate, lib, codes))
    ensures SortedByStart(busySlots)
    ensures multiset(busySlots) == multiset(Collect(items, startDate, endDate, lib, codes))
    ensures forall i :: 0 <= i < |busySlots| ==> InWindow(busySlots[i], startDate, endDate)
  {
    busySlots := [];
    for i := 0 to |items|
      invariant busySlots == Collect(items[..i], startDate, endDate, lib, codes)
    {
      assert items[..i + 1][..i] == items[..i];
      busySlots := PushItem(busySlots, items[i], startDate, endDate, lib, codes);
    }
    assert items[..|items|] == items;
    busySlots := SortByStart(busySlots);
    SortedInWindow(items, startDate, endDate, lib, codes);
  }

  /** After sorting, every busy slot still overlaps the window. */
  lemma SortedInWindow(items: seq<Item>, from: int, to: int, lib: Expander, codes: FrequencyCodes)
    ensures forall i :: 0 <= i < |SortByStart(Collect(items, from, to, lib, codes))| ==>
      InWindow(SortByStart(Collect(items, from, to, lib, codes))[i], from, to)
  {
    var collected := Collect(items, from, to, lib, codes);
    var sorted := SortByStart(collected);
    CollectInWindow(items, from, to, lib, codes);
    forall i | 0 <= i < |sorted| ensures InWindow(sorted[i], from, to) {
      assert sorted[i] in multiset(sorted);
      assert sorted[i] in collected;
    }
  }

  /** Every slot one item contributes overlaps the window, boundaries included. */
  lemma ContributionInWindow(item: Item, from: int, to: int, lib: Expander, codes: FrequencyCodes)
    ensures forall s :: s in Contribution(item, from, to, lib, codes) ==> InWindow(s, from, to)
  {
    if item.kind.VEvent? && item.start.Some? && item.end.Some? && HasRecurrence(item) {
      var occs := lib(Parsed(item.rrule.value, item.start.value, codes), from, to);
      var keys := ExdateKeys(item.exdate);
      if occs.Some? && keys.Some? {
        forall s | s in OccurrenceSlots(occs.value, keys.value, item.end.value - item.start.value, from, to)
          ensures InWindow(s, from, to)
        {
          OccurrenceSlotsMembers(occs.value, keys.value, item.end.value - item.start.value, from, to, s);
        }
      }
    }
  }

  /** Every collected slot overlaps the window, boundaries included. */
  lemma {:induction false} CollectInWindow(items: seq<Item>, from: int, to: int, lib: Expander, codes: FrequencyCodes)
    ensures forall s :: s in Collect(items, from, to, lib, codes) ==> InWindow(s, from, to)
  {
    if items != [] {
      CollectInWindow(items[..|items| - 1], from, to, lib, codes);
      ContributionInWindow(items[|items| - 1], from, to, lib, codes);
    }
  }

  /** A slot comes from the occurrences exactly when its start is an
      occurrence whose UTC date is not excluded, its length is the event's
      duration, and it overlaps the window. */
  lemma {:induction false} OccurrenceSlotsMembers(occs: seq<int>, keys: set<int>, duration: int, from: int, to: int, slot: Slot)
    ensures slot in OccurrenceSlots(occs, keys, duration, from, to) <==>
      && slot.start in occs
      && slot.end == slot.start + duration
      && DayKey(slot.start) !in keys
      && InWindow(slot, from, to)
  {
    if occs != [] {
      var init := occs[..|occs| - 1];
      OccurrenceSlotsMembers(init, keys, duration, from, to, slot);
      assert occs == init + [occs[|occs| - 1]];
    }
  }

  /** The slots are the union of the items' contributions. */
  lemma {:induction false} CollectMembers(items: seq<Item>, from: int, to: int, lib: Expander, codes: FrequencyCodes, slot: Slot)
    ensures slot in Collect(items, from, to, lib, codes) <==>
      exists k :: 0 <= k < |items| && slot in Contribution(items[k], from, to, lib, codes)
  {
    if items != [] {
      var init := items[..|items| - 1];
      CollectMembers(init, from, to, lib, codes, slot);
      if slot in Collect(items, from, to, lib, codes) {
        if slot in Collect(init, from, to, lib, codes) {
          var k :| 0 <= k < |init| && slot in Contribution(init[k], from, to, lib, codes);
          assert items[k] == init[k];
        } else {
          assert slot in Contribution(items[|items| - 1], from, to, lib, codes);
        }
      } else {
        forall k | 0 <= k < |items| ensures slot !in Contribution(items[k], from, to, lib, codes) {
          if k < |init| { assert items[k] == init[k]; }
        }
      }
    }
  }

  /** Items that are not events, or lack a start or an end, add nothing. */
  lemma NonEventsContributeNothing(item: Item, from: int, to: int, lib: Expander, codes: FrequencyCodes)
    requires !item.kind.VEvent? || item.start.None? || item.end.None?
    ensures Contribution(item, from, to, lib, codes) == []
  {
  }

  /** Every slot an event adds, from its occurrences or from the event
      itself, is as long as the event. */
  lemma ContributionKeepsDuration(item: Item, from: int, to: int, lib: Expander, codes: FrequencyCodes, slot: Slot)
    requires slot in Contribution(item, from, to, lib, codes)
    ensures item.start.Some? && item.end.Some?
    ensures slot.end - slot.start == item.end.value - item.start.value
  {
    if HasRecurrence(item) {
      var occs := lib(Parsed(item.rrule.value, item.start.value, codes), from, to);
      var keys := ExdateKeys(item.exdate);
      if occs.Some? && keys.Some? {
        OccurrenceSlotsMembers(occs.value, keys.value, item.end.value - item.start.value, from, to, slot);
      }
    }
  }

  /** For a recurring event whose rule expands and whose EXDATEs are all
      valid, a slot is added exactly for each occurrence whose UTC date
      differs from the date of every EXDATE (whatever the EXDATE's time of
      day), given the event's duration and overlapping the window. */
  lemma RecurringEventSlots(item: Item, from: int, to: int, lib: Expander, codes: FrequencyCodes, occs: seq<int>, slot: Slot)
    requires item.kind.VEvent? && item.start.Some? && item.end.Some? && HasRecurrence(item)
    requires lib(Parsed(item.rrule.value, item.start.value, codes), from, to) == Some(occs)
    requires ExInvalid !in ExdateValues(item.exdate)
    ensures slot in Contribution(item, from, to, lib, codes) <==>
      && slot.start in occs
      && slot.end - slot.start == item.end.value - item.start.value
      && (forall x :: x in ExdateValues(item.exdate) ==> DayKey(x.ms) != DayKey(slot.start))
      && InWindow(slot, from, to)
  {
    var keys := ExdateKeys(item.exdate).value;
    OccurrenceSlotsMembers(occs, keys, item.end.value - item.start.value, from, to, slot);
    if DayKey(slot.start) in keys {
      var x :| x in ExdateValues(item.exdate) && x.ExAt? && DayKey(x.ms) == DayKey(slot.start);
    }
  }

  /** When building, expanding or converting an EXDATE throws, the event adds
      exactly its own slot if that overlaps the window, and no occurrence. */
  lemma FallbackOnFailure(item: Item, from: int, to: int, lib: Expander, codes: FrequencyCodes)
    requires item.kind.VEvent? && item.start.Some? && item.end.Some? && HasRecurrence(item)
    requires lib(Parsed(item.rrule.value, item.start.value, codes), from, to).None?
             || ExInvalid in ExdateValues(item.exdate)
    ensures Contribution(item, from, to, lib, codes) ==
      if item.start.value <= to && item.end.value >= from then [Slot(item.start.value, item.end.value)] else []
  {
  }

  /** The sort keeps every collected slot, duplicates and overlaps included. */
  lemma SortKeepsEverySlot(s: seq<Slot>, slot: Slot)
    ensures |SortByStart(s)| == |s|
    ensures multiset(SortByStart(s))[slot] == multiset(s)[slot]
  {
    assert |multiset(SortByStart(s))| == |multiset(s)|;
  }

  /** Length of the validation window: 60 days. */
  const ValidationWindowMs: int := 60 * 24 * 60 * 60 * 1000

  /** The outcome of fetching and parsing the feed; a failure carries the
      error's `message`, `None` when it has none. */
  datatype Feed = FeedLoaded(items: seq<Item>) | FeedFailed(message: Option<string>)

  /** The report of validateCalendarUrl; `error` is present only on failure. */
  datatype Validation = Validation(eventCount: int, isValid: bool, error: Option<string>)

  /** The error text reported: the error's message, or "Unknown error" when it has none or it is empty. */
  function ErrorText(message: Option<string>): (text: string)
    ensures text != ""
    ensures message.Some? && message.value != "" ==> text == message.value
    ensures message.None? || message.value == "" ==> text == "Unknown error"
  {
    if message.Some? && message.value != "" then message.value else "Unknown error"
  }

  /** validateCalendarUrl: on a loaded feed, valid with the number of slots
      in the 60 days from `now`; on failure, invalid with zero events and
      the error text. */
  method ValidateCalendarUrl(feed: Feed, now: int, lib: Expander, codes: FrequencyCodes) returns (v: Validation)
    ensures v.isValid <==> feed.FeedLoaded?
    ensures v.isValid ==> v.error.None?
    ensures v.isValid ==> v.eventCount == |Collect(feed.items, now, now + ValidationWindowMs, lib, codes)|
    ensures !v.isValid ==> v.eventCount == 0 && v.error == Some(ErrorText(feed.message))
  {
    if feed.FeedFailed? {
      return Validation(0, false, Some(ErrorText(feed.message)));
    }
    var endDate := now + ValidationWindowMs;
    var busySlots := FetchAndParseCalendar(feed.items, now, endDate, lib, codes);
    SortKeepsEverySlot(Collect(feed.items, now, endDate, lib, codes), Slot(0, 0));
    v := Validation(|busySlots|, true, None);
  }
}
