/**
 * The in-memory stand-in for the backend (`api/mock.ts`): four module-level arrays of events,
 * default tasks, holdings and holding tasks, and a fixed list of traQ channels, with the
 * operations of `eventApi`, `defaultTaskApi`, `holdingApi`, `holdingTaskApi` and `traQApi`.
 * New ids come from `String(Date.now())`; the clock readings are parameters.
 */
module MockRepository {
  import opened Wrappers
  import opened Strings
  import opened Decimal
  import opened Seqs
  import opened Entities
  import TaskOrder

  /** The `event_name` shown for a holding whose event cannot be found (or has an empty name). */
  const UnknownEventName: string := "不明"

  // ---------------------------------------------------------------------------------------
  // Partial updates: `{ ...old, ...updates }`.  `Omit<T, 'x_id'>` names a key the record types do
  // not have, so every field, the id included, may be supplied.

  datatype DefaultTaskPatch = DefaultTaskPatch(id: Option<string>, eventId: Option<string>, name: Option<string>, daysBefore: Option<int>, description: Option<string>)
  datatype HoldingPatch = HoldingPatch(id: Option<string>, name: Option<string>, date: Option<string>, channelId: Option<string>, mention: Option<string>, eventId: Option<string>)
  datatype HoldingTaskPatch = HoldingTaskPatch(id: Option<string>, holdingId: Option<string>, name: Option<string>, daysBefore: Option<int>, description: Option<string>)

  function ApplyDefaultTaskPatch(t: DefaultTask, p: DefaultTaskPatch): (r: DefaultTask)
    ensures p.id.None? ==> r.id == t.id
    ensures p.eventId.None? ==> r.eventId == t.eventId
    ensures p.name.None? ==> r.name == t.name
    ensures p.daysBefore.None? ==> r.daysBefore == t.daysBefore
    ensures p.description.None? ==> r.description == t.description
    ensures p.id.Some? ==> r.id == p.id.value
    ensures p.eventId.Some? ==> r.eventId == p.eventId.value
    ensures p.name.Some? ==> r.name == p.name.value
    ensures p.daysBefore.Some? ==> r.daysBefore == p.daysBefore.value
    ensures p.description.Some? ==> r.description == p.description.value
  {
    DefaultTask(p.id.GetOr(t.id), p.eventId.GetOr(t.eventId), p.name.GetOr(t.name),
      p.daysBefore.GetOr(t.daysBefore), p.description.GetOr(t.description))
  }

  function ApplyHoldingPatch(h: Holding, p: HoldingPatch): (r: Holding)
    ensures p.id.None? ==> r.id == h.id
    ensures p.eventId.None? ==> r.eventId == h.eventId
    ensures p.eventId.Some? ==> r.eventId == p.eventId
    ensures p.name.None? ==> r.name == h.name
    ensures p.date.None? ==> r.date == h.date
    ensures p.channelId.None? ==> r.channelId == h.channelId
    ensures p.mention.None? ==> r.mention == h.mention
    ensures p.id.Some? ==> r.id == p.id.value
    ensures p.name.Some? ==> r.name == p.name.value
    ensures p.date.Some? ==> r.date == p.date.value
    ensures p.channelId.Some? ==> r.channelId == p.channelId.value
    ensures p.mention.Some? ==> r.mention == p.mention.value
  {
    Holding(p.id.GetOr(h.id), p.name.GetOr(h.name), p.date.GetOr(h.date), p.channelId.GetOr(h.channelId),
      p.mention.GetOr(h.mention), if p.eventId.Some? then p.eventId else h.eventId)
  }

  function ApplyHoldingTaskPatch(t: HoldingTask, p: HoldingTaskPatch): (r: HoldingTask)
    ensures p.id.None? ==> r.id == t.id
    ensures p.holdingId.None? ==> r.holdingId == t.holdingId
    ensures p.name.None? ==> r.name == t.name
    ensures p.daysBefore.None? ==> r.daysBefore == t.daysBefore
    ensures p.description.None? ==> r.description == t.description
    ensures p.id.Some? ==> r.id == p.id.value
    ensures p.holdingId.Some? ==> r.holdingId == p.holdingId.value
    ensures p.name.Some? ==> r.name == p.name.value
    ensures p.daysBefore.Some? ==> r.daysBefore == p.daysBefore.value
    ensures p.description.Some? ==> r.description == p.description.value
  {
    HoldingTask(p.id.GetOr(t.id), p.holdingId.GetOr(t.holdingId), p.name.GetOr(t.name),
      p.daysBefore.GetOr(t.daysBefore), p.description.GetOr(t.description))
  }

  /** An empty patch changes nothing, and applying a patch a second time changes nothing more. */
  lemma PatchesAreIdempotent(t: DefaultTask, p: DefaultTaskPatch, h: Holding, q: HoldingPatch, u: HoldingTask, v: HoldingTaskPatch)
    ensures ApplyDefaultTaskPatch(t, DefaultTaskPatch(None, None, None, None, None)) == t
    ensures ApplyDefaultTaskPatch(ApplyDefaultTaskPatch(t, p), p) == ApplyDefaultTaskPatch(t, p)
    ensures ApplyHoldingPatch(h, HoldingPatch(None, None, None, None, None, None)) == h
    ensures ApplyHoldingPatch(ApplyHoldingPatch(h, q), q) == ApplyHoldingPatch(h, q)
    ensures ApplyHoldingTaskPatch(u, HoldingTaskPatch(None, None, None, None, None)) == u
    ensures ApplyHoldingTaskPatch(ApplyHoldingTaskPatch(u, v), v) == ApplyHoldingTaskPatch(u, v)
  {
  }

  // ---------------------------------------------------------------------------------------
  // The template-to-instance clone of `holdingApi.create`.

  /** `${Date.now()}_${index}`. */
  function CloneId(stamp: nat, index: nat): string
  {
    NatToString(stamp) + "_" + NatToString(index)
  }

  /**
   * `tasksToCopy.map((task, index) => ...)`: `clock(index)` is the `Date.now()` reading taken
   * while copying entry `index`.
   */
  function CloneTasks(tasks: seq<DefaultTask>, holdingId: string, clock: nat -> nat): (r: seq<HoldingTask>)
    ensures |r| == |tasks|
    ensures forall i :: 0 <= i < |r| ==>
      r[i].id == CloneId(clock(i), i) && r[i].holdingId == holdingId && r[i].name == tasks[i].name &&
      r[i].daysBefore == tasks[i].daysBefore && r[i].description == tasks[i].description
  {
    seq(|tasks|, i requires 0 <= i < |tasks| =>
      HoldingTask(CloneId(clock(i), i), holdingId, tasks[i].name, tasks[i].daysBefore, tasks[i].description))
  }

  /** Where the first `_` of `s` is (`|s|` when there is none). */
  function UnderscoreIndex(s: string): (k: nat)
    ensures k <= |s|
  {
    if s == [] || s[0] == '_' then 0 else 1 + UnderscoreIndex(s[1..])
  }

  lemma {:induction false} UnderscoreAfterDigits(x: string, u: string)
    requires AllDigits(x)
    ensures UnderscoreIndex(x + "_" + u) == |x|
  {
    if x != [] {
      assert (x + "_" + u)[1..] == x[1..] + "_" + u;
      UnderscoreAfterDigits(x[1..], u);
    }
  }

  /** Two `numeral_numeral` strings are equal only if both numerals are. */
  lemma SplitAtUnderscore(x: string, u: string, y: string, v: string)
    requires AllDigits(x) && AllDigits(y)
    requires x + "_" + u == y + "_" + v
    ensures x == y && u == v
  {
    var s := x + "_" + u;
    UnderscoreAfterDigits(x, u);
    UnderscoreAfterDigits(y, v);
    assert x == s[..|x|] == y;
    assert u == s[|x| + 1..] == v;
  }

  lemma {:induction false} NoUnderscore(x: string)
    requires AllDigits(x)
    ensures UnderscoreIndex(x) == |x|
  {
    if x != [] {
      NoUnderscore(x[1..]);
    }
  }

  /** The ids given to the copies of one create are pairwise distinct, whatever the clock reads. */
  lemma CloneIdsDistinct(tasks: seq<DefaultTask>, holdingId: string, clock: nat -> nat)
    ensures var r := CloneTasks(tasks, holdingId, clock);
      forall i, j :: 0 <= i < j < |r| ==> r[i].id != r[j].id
  {
    var r := CloneTasks(tasks, holdingId, clock);
    forall i, j | 0 <= i < j < |r| ensures r[i].id != r[j].id {
      if r[i].id == r[j].id {
        SplitAtUnderscore(NatToString(clock(i)), NatToString(i), NatToString(clock(j)), NatToString(j));
        NatToStringInjective(i, j);
      }
    }
  }

  /** A copy's id is never a plain numeral, so it differs from every id that `String(Date.now())` made. */
  lemma CloneIdIsNotNumeral(stamp: nat, index: nat, n: nat)
    ensures CloneId(stamp, index) != NatToString(n)
  {
    UnderscoreAfterDigits(NatToString(stamp), NatToString(index));
    NoUnderscore(NatToString(n));
  }

  /**
   * The copies keep the stored order of the default tasks, whereas the SQL service copies them
   * ordered by `days_before DESC`: whenever an earlier stored task has the smaller day count,
   * the two create paths produce the tasks in a different order.
   */
  lemma CloneOrderDiffersFromServer(tasks: seq<DefaultTask>, holdingId: string, clock: nat -> nat, i: nat, j: nat)
    requires i < j < |tasks| && tasks[i].daysBefore < tasks[j].daysBefore
    ensures var r := CloneTasks(tasks, holdingId, clock);
      var server := TaskOrder.SortedByDaysDesc(DefaultTaskDaysBefore, tasks);
      |server| == |r| && exists k :: 0 <= k < |r| && r[k].daysBefore != server[k].daysBefore
  {
    var r := CloneTasks(tasks, holdingId, clock);
    var server := TaskOrder.SortedByDaysDesc(DefaultTaskDaysBefore, tasks);
    TaskOrder.SortedByDaysDescSpec(DefaultTaskDaysBefore, tasks);
    if forall k :: 0 <= k < |r| ==> r[k].daysBefore == server[k].daysBefore {
      assert false;
    }
  }

  /** `holding.eventId` is truthy: present and not the empty string. */
  predicate HasOrigin(h: Holding)
  {
    h.eventId.Some? && h.eventId.value != ""
  }

  /** `event?.name || '不明'`: the event's name, unless the event is missing or its name is empty. */
  function EventNameOr(found: Option<Event>): (r: string)
    ensures r == UnknownEventName <==> found.None? || found.value.name == "" || found.value.name == UnknownEventName
    ensures r != UnknownEventName ==> r == found.value.name
  {
    if found.Some? && found.value.name != "" then found.value.name else UnknownEventName
  }

  /** The event a holding refers to: `events.find(e => e.id === holding.eventId)`. */
  function OriginEvent(events: seq<Event>, eventId: Option<string>): (r: Option<Event>)
    ensures eventId.None? ==> r.None?
    ensures eventId.Some? ==> r == FindById(EventId, events, eventId.value)
  {
    if eventId.None? then None else FindById(EventId, events, eventId.value)
  }

  function WithEventName(events: seq<Event>, hs: seq<Holding>): (r: seq<HoldingWithEvent>)
    ensures |r| == |hs|
    ensures forall i :: 0 <= i < |r| ==> r[i].holding == hs[i] && r[i].eventName == EventNameOr(OriginEvent(events, hs[i].eventId))
  {
    seq(|hs|, i requires 0 <= i < |hs| => HoldingWithEvent(hs[i], EventNameOr(OriginEvent(events, hs[i].eventId))))
  }

  /** `holdings.filter(h => h.eventId === eventId)`; a holding without an event never matches. */
  function HoldingsOfEvent(hs: seq<Holding>, eventId: string): (r: seq<Holding>)
    ensures |r| <= |hs|
    ensures forall i :: 0 <= i < |r| ==> r[i] in hs && r[i].eventId == Some(eventId)
    ensures forall i :: 0 <= i < |hs| && hs[i].eventId == Some(eventId) ==> hs[i] in r
    ensures IsSubsequence(r, hs)
  {
    if hs == [] then []
    else
      var rest := HoldingsOfEvent(hs[1..], eventId);
      if hs[0].eventId == Some(eventId) then
        assert ([hs[0]] + rest)[1..] == rest;
        [hs[0]] + rest
      else rest
  }

  /** The event filter keeps every holding of the event as many times as it occurs, and no other. */
  lemma {:induction false} HoldingsOfEventCounts(hs: seq<Holding>, eventId: string)
    ensures forall h :: multiset(HoldingsOfEvent(hs, eventId))[h] == if h.eventId == Some(eventId) then multiset(hs)[h] else 0
  {
    if hs != [] {
      HoldingsOfEventCounts(hs[1..], eventId);
      assert hs == [hs[0]] + hs[1..];
      assert multiset(hs) == multiset{hs[0]} + multiset(hs[1..]);
      if hs[0].eventId == Some(eventId) {
        var rest := HoldingsOfEvent(hs[1..], eventId);
        assert multiset([hs[0]] + rest) == multiset{hs[0]} + multiset(rest);
      }
    }
  }

  /** `events.filter(e => e.name.toLowerCase().includes(query.toLowerCase()))`. */
  function SearchEvents(events: seq<Event>, query: string): (r: seq<Event>)
    ensures |r| <= |events|
    ensures forall i :: 0 <= i < |r| ==> r[i] in events && Contains(ToLower(r[i].name), ToLower(query))
    ensures forall i :: 0 <= i < |events| && Contains(ToLower(events[i].name), ToLower(query)) ==> events[i] in r
  {
    if events == [] then []
    else (if Contains(ToLower(events[0].name), ToLower(query)) then [events[0]] else []) + SearchEvents(events[1..], query)
  }

  lemma {:induction false} SearchEmptyQueryIsAll(events: seq<Event>)
    ensures SearchEvents(events, "") == events
  {
    if events != [] {
      assert OccursAt(ToLower(events[0].name), "", 0);
      SearchEmptyQueryIsAll(events[1..]);
    }
  }

  class Repository {
    var events: seq<Event>
    var defaultTasks: seq<DefaultTask>
    var holdings: seq<Holding>
    var holdingTasks: seq<HoldingTask>
    const channels: seq<TraQChannel>

    constructor (events: seq<Event>, defaultTasks: seq<DefaultTask>, holdings: seq<Holding>, holdingTasks: seq<HoldingTask>, channels: seq<TraQChannel>)
      ensures this.events == events && this.defaultTasks == defaultTasks
      ensures this.holdings == holdings && this.holdingTasks == holdingTasks && this.channels == channels
    {
      this.events := events;
      this.defaultTasks := defaultTasks;
      this.holdings := holdings;
      this.holdingTasks := holdingTasks;
      this.channels := channels;
    }

    // ----- eventApi -----------------------------------------------------------------------

    /** `eventApi.getById`: the first event with the id, with its default tasks in stored order. */
    function GetEventById(eventId: string): (r: Option<EventWithTasks>)
      reads this
      ensures r.None? <==> forall i :: 0 <= i < |events| ==> events[i].id != eventId
      ensures r.Some? ==> r.value.event.id == eventId && r.value.event in events
      ensures r.Some? ==>
        exists i :: 0 <= i < |events| && events[i] == r.value.event && forall j :: 0 <= j < i ==> events[j].id != eventId
      ensures r.Some? ==> r.value.tasks == KeepById(DefaultTaskEventId, defaultTasks, eventId)
      ensures r.Some? ==> forall i :: 0 <= i < |r.value.tasks| ==> r.value.tasks[i].eventId == eventId
    {
      match FindById(EventId, events, eventId)
      case None => None
      case Some(e) => Some(EventWithTasks(e, KeepById(DefaultTaskEventId, defaultTasks, eventId)))
    }

    /** `eventApi.create`: appends an event whose id is the clock reading. */
    method CreateEvent(name: string, now: nat) returns (e: Event)
      modifies this
      ensures e == Event(NatToString(now), name)
      ensures events == old(events) + [e]
      ensures defaultTasks == old(defaultTasks) && holdings == old(holdings) && holdingTasks == old(holdingTasks)
    {
      e := Event(NatToString(now), name);
      events := events + [e];
    }

    /** `eventApi.update`: renames the first event with the id in place. */
    method UpdateEvent(eventId: string, name: string) returns (r: Option<Event>)
      modifies this
      ensures var i := FindIndex(EventId, old(events), eventId);
        if i == -1 then r.None? && events == old(events)
        else r == Some(Event(eventId, name)) && events == old(events)[i := Event(eventId, name)]
      ensures defaultTasks == old(defaultTasks) && holdings == old(holdings) && holdingTasks == old(holdingTasks)
    {
      var i := FindIndex(EventId, events, eventId);
      if i == -1 {
        return None;
      }
      events := events[i := events[i].(name := name)];
      r := Some(events[i]);
    }

    /**
     * `eventApi.delete`: removes the first event with the id and every default task of that
     * event; the event's holdings stay.
     */
    method DeleteEvent(eventId: string) returns (deleted: bool)
      modifies this
      ensures var i := FindIndex(EventId, old(events), eventId);
        deleted == (i != -1) &&
        (if i == -1 then events == old(events) && defaultTasks == old(defaultTasks)
         else events == RemoveAt(old(events), i) && defaultTasks == RemoveById(DefaultTaskEventId, old(defaultTasks), eventId))
      ensures holdings == old(holdings) && holdingTasks == old(holdingTasks)
    {
      var i := FindIndex(EventId, events, eventId);
      if i == -1 {
        return false;
      }
      events := RemoveAt(events, i);
      defaultTasks := RemoveById(DefaultTaskEventId, defaultTasks, eventId);
      deleted := true;
    }

    // ----- defaultTaskApi -----------------------------------------------------------------

    /** `defaultTaskApi.getByEventId`: the default tasks of one event, in stored order. */
    function DefaultTasksOfEvent(eventId: string): (r: seq<DefaultTask>)
      reads this
      ensures IsSubsequence(r, defaultTasks)
      ensures forall i :: 0 <= i < |r| ==> r[i].eventId == eventId
      ensures forall i :: 0 <= i < |defaultTasks| && defaultTasks[i].eventId == eventId ==> defaultTasks[i] in r
      ensures forall t :: multiset(r)[t] == if t.eventId == eventId then multiset(defaultTasks)[t] else 0
    {
      KeepByIdIsSubsequence(DefaultTaskEventId, defaultTasks, eventId);
      KeepByIdCounts(DefaultTaskEventId, defaultTasks, eventId);
      KeepById(DefaultTaskEventId, defaultTasks, eventId)
    }

    /** `defaultTaskApi.create`: appends the task with a fresh id. */
    method CreateDefaultTask(task: DefaultTask, now: nat) returns (t: DefaultTask)
      modifies this
      ensures t == task.(id := NatToString(now))
      ensures defaultTasks == old(defaultTasks) + [t]
      ensures events == old(events) && holdings == old(holdings) && holdingTasks == old(holdingTasks)
    {
      t := task.(id := NatToString(now));
      defaultTasks := defaultTasks + [t];
    }

    /** `defaultTaskApi.update`: merges the patch into the first task with the id, in place. */
    method UpdateDefaultTask(taskId: string, p: DefaultTaskPatch) returns (r: Option<DefaultTask>)
      modifies this
      ensures var i := FindIndex(DefaultTaskId, old(defaultTasks), taskId);
        if i == -1 then r.None? && defaultTasks == old(defaultTasks)
        else r == Some(ApplyDefaultTaskPatch(old(defaultTasks)[i], p)) && defaultTasks == old(defaultTasks)[i := r.value]
      ensures events == old(events) && holdings == old(holdings) && holdingTasks == old(holdingTasks)
    {
      var i := FindIndex(DefaultTaskId, defaultTasks, taskId);
      if i == -1 {
        return None;
      }
      defaultTasks := defaultTasks[i := ApplyDefaultTaskPatch(defaultTasks[i], p)];
      r := Some(defaultTasks[i]);
    }

    /** `defaultTaskApi.delete`: removes the first task with the id. */
    method DeleteDefaultTask(taskId: string) returns (deleted: bool)
      modifies this
      ensures var i := FindIndex(DefaultTaskId, old(defaultTasks), taskId);
        deleted == (i != -1) &&
        defaultTasks == (if i == -1 then old(defaultTasks) else RemoveAt(old(defaultTasks), i))
      ensures events == old(events) && holdings == old(holdings) && holdingTasks == old(holdingTasks)
    {
      var i := FindIndex(DefaultTaskId, defaultTasks, taskId);
      if i == -1 {
        return false;
      }
      defaultTasks := RemoveAt(defaultTasks, i);
      deleted := true;
    }

    // ----- holdingApi ---------------------------------------------------------------------

    /** `holdingApi.getAll`: every holding, in stored order, with the name of its event. */
    function AllHoldings(): (r: seq<HoldingWithEvent>)
      reads this
      ensures |r| == |holdings|
      ensures forall i :: 0 <= i < |r| ==> r[i].holding == holdings[i]
      ensures forall i :: 0 <= i < |r| && OriginEvent(events, holdings[i].eventId).None? ==> r[i].eventName == UnknownEventName
      ensures forall i :: 0 <= i < |r| ==> r[i].eventName == EventNameOr(OriginEvent(events, holdings[i].eventId))
    {
      WithEventName(events, holdings)
    }

    /** `holdingApi.getByEventId`: the holdings of one event, in stored order. */
    function HoldingsByEventId(eventId: string): (r: seq<HoldingWithEvent>)
      reads this
      ensures |r| <= |holdings|
      ensures forall i :: 0 <= i < |r| ==> r[i].holding in holdings && r[i].holding.eventId == Some(eventId)
      ensures forall i :: 0 <= i < |r| ==> r[i].eventName == EventNameOr(FindById(EventId, events, eventId))
      ensures forall i :: 0 <= i < |holdings| && holdings[i].eventId == Some(eventId) ==>
        exists j :: 0 <= j < |r| && r[j].holding == holdings[i]
      ensures var kept := HoldingsOfEvent(holdings, eventId);
        IsSubsequence(kept, holdings) && |r| == |kept| && forall i :: 0 <= i < |r| ==> r[i].holding == kept[i]
    {
      WithEventName(events, HoldingsOfEvent(holdings, eventId))
    }

    /**
     * `holdingApi.getById`: the first holding with the id, its tasks in stored order, and the
     * name of its event when that event exists (no fallback here).
     */
    function GetHoldingById(holdingId: string): (r: Option<HoldingWithTasks>)
      reads this
      ensures r.None? <==> forall i :: 0 <= i < |holdings| ==> holdings[i].id != holdingId
      ensures r.Some? ==> r.value.holding.id == holdingId && r.value.holding in holdings
      ensures r.Some? ==> r.value.tasks == KeepById(HoldingTaskHoldingId, holdingTasks, holdingId)
      ensures r.Some? ==>
        exists i :: 0 <= i < |holdings| && holdings[i] == r.value.holding && forall j :: 0 <= j < i ==> holdings[j].id != holdingId
      ensures r.Some? ==> (r.value.eventName.None? <==> OriginEvent(events, r.value.holding.eventId).None?)
      ensures r.Some? && OriginEvent(events, r.value.holding.eventId).Some? ==>
        r.value.eventName == Some(OriginEvent(events, r.value.holding.eventId).value.name)
    {
      match FindById(HoldingId, holdings, holdingId)
      case None => None
      case Some(h) =>
        var e := OriginEvent(events, h.eventId);
        Some(HoldingWithTasks(h, KeepById(HoldingTaskHoldingId, holdingTasks, holdingId),
          if e.Some? then Some(e.value.name) else None))
    }

    /**
     * `holdingApi.create`: appends the holding under the id `String(now)`, then, when its
     * `eventId` is non-empty, appends one holding task per default task of that event, in
     * stored order.
     */
    method CreateHolding(input: Holding, now: nat, clock: nat -> nat) returns (h: Holding)
      modifies this
      ensures h == input.(id := NatToString(now))
      ensures holdings == old(holdings) + [h]
      ensures HasOrigin(input) ==>
        holdingTasks == old(holdingTasks) + CloneTasks(KeepById(DefaultTaskEventId, old(defaultTasks), input.eventId.value), h.id, clock)
      ensures !HasOrigin(input) ==> holdingTasks == old(holdingTasks)
      ensures events == old(events) && defaultTasks == old(defaultTasks)
    {
      h := input.(id := NatToString(now));
      holdings := holdings + [h];
      if HasOrigin(input) {
        var toCopy := KeepById(DefaultTaskEventId, defaultTasks, input.eventId.value);
        holdingTasks := holdingTasks + CloneTasks(toCopy, h.id, clock);
      }
    }

    /** `holdingApi.update`: merges the patch into the first holding with the id, in place. */
    method UpdateHolding(holdingId: string, p: HoldingPatch) returns (r: Option<Holding>)
      modifies this
      ensures var i := FindIndex(HoldingId, old(holdings), holdingId);
        if i == -1 then r.None? && holdings == old(holdings)
        else r == Some(ApplyHoldingPatch(old(holdings)[i], p)) && holdings == old(holdings)[i := r.value]
      ensures events == old(events) && defaultTasks == old(defaultTasks) && holdingTasks == old(holdingTasks)
    {
      var i := FindIndex(HoldingId, holdings, holdingId);
      if i == -1 {
        return None;
      }
      holdings := holdings[i := ApplyHoldingPatch(holdings[i], p)];
      r := Some(holdings[i]);
    }

    /** `holdingApi.delete`: removes the first holding with the id and every task of that holding. */
    method DeleteHolding(holdingId: string) returns (deleted: bool)
      modifies this
      ensures var i := FindIndex(HoldingId, old(holdings), holdingId);
        deleted == (i != -1) &&
        (if i == -1 then holdings == old(holdings) && holdingTasks == old(holdingTasks)
         else holdings == RemoveAt(old(holdings), i) && holdingTasks == RemoveById(HoldingTaskHoldingId, old(holdingTasks), holdingId))
      ensures events == old(events) && defaultTasks == old(defaultTasks)
    {
      var i := FindIndex(HoldingId, holdings, holdingId);
      if i == -1 {
        return false;
      }
      holdings := RemoveAt(holdings, i);
      holdingTasks := RemoveById(HoldingTaskHoldingId, holdingTasks, holdingId);
      deleted := true;
    }

    // ----- holdingTaskApi -----------------------------------------------------------------

    /** `holdingTaskApi.getByHoldingId`: the tasks of one holding, in stored order. */
    function TasksOfHolding(holdingId: string): (r: seq<HoldingTask>)
      reads this
      ensures IsSubsequence(r, holdingTasks)
      ensures forall i :: 0 <= i < |r| ==> r[i].holdingId == holdingId
      ensures forall i :: 0 <= i < |holdingTasks| && holdingTasks[i].holdingId == holdingId ==> holdingTasks[i] in r
    {
      KeepByIdIsSubsequence(HoldingTaskHoldingId, holdingTasks, holdingId);
      KeepById(HoldingTaskHoldingId, holdingTasks, holdingId)
    }

    /** `holdingTaskApi.create`: appends the task with a fresh id. */
    method CreateHoldingTask(task: HoldingTask, now: nat) returns (t: HoldingTask)
      modifies this
      ensures t == task.(id := NatToString(now))
      ensures holdingTasks == old(holdingTasks) + [t]
      ensures events == old(events) && defaultTasks == old(defaultTasks) && holdings == old(holdings)
    {
      t := task.(id := NatToString(now));
      holdingTasks := holdingTasks + [t];
    }

    /** `holdingTaskApi.update`: merges the patch into the first task with the id, in place. */
    method UpdateHoldingTask(taskId: string, p: HoldingTaskPatch) returns (r: Option<HoldingTask>)
      modifies this
      ensures var i := FindIndex(HoldingTaskId, old(holdingTasks), taskId);
        if i == -1 then r.None? && holdingTasks == old(holdingTasks)
        else r == Some(ApplyHoldingTaskPatch(old(holdingTasks)[i], p)) && holdingTasks == old(holdingTasks)[i := r.value]
      ensures events == old(events) && defaultTasks == old(defaultTasks) && holdings == old(holdings)
    {
      var i := FindIndex(HoldingTaskId, holdingTasks, taskId);
      if i == -1 {
        return None;
      }
      holdingTasks := holdingTasks[i := ApplyHoldingTaskPatch(holdingTasks[i], p)];
      r := Some(holdingTasks[i]);
    }

    /** `holdingTaskApi.delete`: removes the first task with the id. */
    method DeleteHoldingTask(taskId: string) returns (deleted: bool)
      modifies this
      ensures var i := FindIndex(HoldingTaskId, old(holdingTasks), taskId);
        deleted == (i != -1) &&
        holdingTasks == (if i == -1 then old(holdingTasks) else RemoveAt(old(holdingTasks), i))
      ensures events == old(events) && defaultTasks == old(defaultTasks) && holdings == old(holdings)
    {
      var i := FindIndex(HoldingTaskId, holdingTasks, taskId);
      if i == -1 {
        return false;
      }
      holdingTasks := RemoveAt(holdingTasks, i);
      deleted := true;
    }
  }

  /** After a holding is deleted, none of its tasks is left and every other task is kept, in order. */
  lemma DeleteHoldingCascade(tasks: seq<HoldingTask>, holdingId: string)
    ensures var r := RemoveById(HoldingTaskHoldingId, tasks, holdingId);
      (forall i :: 0 <= i < |r| ==> r[i].holdingId != holdingId) &&
      IsSubsequence(r, tasks) &&
      |r| + |KeepById(HoldingTaskHoldingId, tasks, holdingId)| == |tasks|
  {
    RemoveByIdIsSubsequence(HoldingTaskHoldingId, tasks, holdingId);
    KeepRemovePartition(HoldingTaskHoldingId, tasks, holdingId);
  }

  /** After an event is deleted, none of its default tasks is left and every other one is kept, in order. */
  lemma DeleteEventCascade(tasks: seq<DefaultTask>, eventId: string)
    ensures var r := RemoveById(DefaultTaskEventId, tasks, eventId);
      (forall i :: 0 <= i < |r| ==> r[i].eventId != eventId) &&
      IsSubsequence(r, tasks) &&
      |r| + |KeepById(DefaultTaskEventId, tasks, eventId)| == |tasks|
  {
    RemoveByIdIsSubsequence(DefaultTaskEventId, tasks, eventId);
    KeepRemovePartition(DefaultTaskEventId, tasks, eventId);
  }

  /** Deleting an id that no task of the list carries leaves the list as it was. */
  lemma CascadeOfUnknownIdIsEmpty(tasks: seq<HoldingTask>, holdingId: string)
    requires forall i :: 0 <= i < |tasks| ==> tasks[i].holdingId != holdingId
    ensures RemoveById(HoldingTaskHoldingId, tasks, holdingId) == tasks
  {
    RemoveAbsentId(HoldingTaskHoldingId, tasks, holdingId);
  }
}
