/**
 * The client-side store (`store/index.ts`): the lists and "current" records the pages show,
 * and the `isLoading` flag.  Every action sets `isLoading`, awaits the API, and then updates
 * the state from the answer.  The API is outside the model: each action takes the answer it
 * received as a parameter, an `Outcome` that is either a value or a failure (a rejected
 * promise); a `null` answer is the value `None`.
 */
module AppStore {
  import opened Wrappers
  import opened Seqs
  import opened Entities

  datatype Outcome<T> = Done(value: T) | Failed

  function HoldingWithEventId(h: HoldingWithEvent): string { h.holding.id }

  /** `state.current?.id === id ? null : state.current`. */
  function ClearIfSameEvent(current: Option<EventWithTasks>, eventId: string): (r: Option<EventWithTasks>)
    ensures r.None? <==> current.None? || current.value.event.id == eventId
    ensures r.Some? ==> r == current
  {
    if current.Some? && current.value.event.id == eventId then None else current
  }

  function ClearIfSameHolding(current: Option<HoldingWithTasks>, holdingId: string): (r: Option<HoldingWithTasks>)
    ensures r.None? <==> current.None? || current.value.holding.id == holdingId
    ensures r.Some? ==> r == current
  {
    if current.Some? && current.value.holding.id == holdingId then None else current
  }

  class Store {
    var events: seq<Event>
    var currentEvent: Option<EventWithTasks>
    var holdings: seq<HoldingWithEvent>
    var currentHolding: Option<HoldingWithTasks>
    var traQChannels: seq<TraQChannel>
    var isLoading: bool

    constructor ()
      ensures events == [] && currentEvent.None? && holdings == [] && currentHolding.None?
      ensures traQChannels == [] && !isLoading
    {
      events := [];
      currentEvent := None;
      holdings := [];
      currentHolding := None;
      traQChannels := [];
      isLoading := false;
    }

    // ----- events -------------------------------------------------------------------------

    /** `fetchEvents` and `searchEvents`: the answer replaces the event list. */
    method FetchEvents(answer: Outcome<seq<Event>>)
      modifies this
      ensures !isLoading
      ensures events == (if answer.Done? then answer.value else old(events))
      ensures currentEvent == old(currentEvent) && holdings == old(holdings)
      ensures currentHolding == old(currentHolding) && traQChannels == old(traQChannels)
    {
      isLoading := true;
      if answer.Done? {
        events := answer.value;
      }
      isLoading := false;
    }

    /** `fetchEventById`: the answer, `null` included, becomes the current event. */
    method FetchEventById(answer: Outcome<Option<EventWithTasks>>)
      modifies this
      ensures !isLoading
      ensures currentEvent == (if answer.Done? then answer.value else old(currentEvent))
      ensures events == old(events) && holdings == old(holdings)
      ensures currentHolding == old(currentHolding) && traQChannels == old(traQChannels)
    {
      isLoading := true;
      if answer.Done? {
        currentEvent := answer.value;
      }
      isLoading := false;
    }

    /** `createEvent`: appends the created event; a failure is passed on to the caller. */
    method CreateEvent(answer: Outcome<Event>) returns (r: Outcome<Event>)
      modifies this
      ensures r == answer && !isLoading
      ensures events == (if answer.Done? then old(events) + [answer.value] else old(events))
      ensures currentEvent == old(currentEvent) && holdings == old(holdings)
      ensures currentHolding == old(currentHolding) && traQChannels == old(traQChannels)
    {
      isLoading := true;
      if answer.Done? {
        events := events + [answer.value];
      }
      isLoading := false;
      r := answer;
    }

    /**
     * `updateEvent`: replaces every listed event with the id by the answer, and renames the
     * current event if it is the one.  A `null` answer changes nothing and leaves `isLoading` on.
     */
    method UpdateEvent(eventId: string, name: string, answer: Outcome<Option<Event>>)
      modifies this
      ensures answer == Done(None) ==>
        isLoading && events == old(events) && currentEvent == old(currentEvent)
      ensures answer.Failed? ==>
        !isLoading && events == old(events) && currentEvent == old(currentEvent)
      ensures answer.Done? && answer.value.Some? ==>
        !isLoading && events == ReplaceById(EventId, old(events), eventId, answer.value.value) &&
        currentEvent == (if old(currentEvent).Some? && old(currentEvent).value.event.id == eventId
                         then Some(old(currentEvent).value.(event := old(currentEvent).value.event.(name := name)))
                         else old(currentEvent))
      ensures holdings == old(holdings) && currentHolding == old(currentHolding) && traQChannels == old(traQChannels)
    {
      isLoading := true;
      match answer {
        case Failed =>
          isLoading := false;
        case Done(None) =>
        case Done(Some(updated)) =>
          events := ReplaceById(EventId, events, eventId, updated);
          if currentEvent.Some? && currentEvent.value.event.id == eventId {
            currentEvent := Some(currentEvent.value.(event := currentEvent.value.event.(name := name)));
          }
          isLoading := false;
      }
    }

    /** `deleteEvent`: drops the event from the list, and clears the current event if it is the one. */
    method DeleteEvent(eventId: string, answer: Outcome<bool>)
      modifies this
      ensures !isLoading
      ensures answer.Done? ==>
        events == RemoveById(EventId, old(events), eventId) && currentEvent == ClearIfSameEvent(old(currentEvent), eventId)
      ensures answer.Failed? ==> events == old(events) && currentEvent == old(currentEvent)
      ensures holdings == old(holdings) && currentHolding == old(currentHolding) && traQChannels == old(traQChannels)
    {
      isLoading := true;
      if answer.Done? {
        events := RemoveById(EventId, events, eventId);
        currentEvent := ClearIfSameEvent(currentEvent, eventId);
      }
      isLoading := false;
    }

    // ----- default tasks of the current event ---------------------------------------------

    /** `createDefaultTask`: appends the created task to the current event, if there is one. */
    method CreateDefaultTask(answer: Outcome<DefaultTask>)
      modifies this
      ensures !isLoading
      ensures answer.Done? ==>
        currentEvent == (if old(currentEvent).None? then None
                         else Some(old(currentEvent).value.(tasks := old(currentEvent).value.tasks + [answer.value])))
      ensures answer.Failed? ==> currentEvent == old(currentEvent)
      ensures events == old(events) && holdings == old(holdings) && currentHolding == old(currentHolding) && traQChannels == old(traQChannels)
    {
      isLoading := true;
      if answer.Done? && currentEvent.Some? {
        currentEvent := Some(currentEvent.value.(tasks := currentEvent.value.tasks + [answer.value]));
      }
      isLoading := false;
    }

    /** `updateDefaultTask`: replaces the task with the id by the answer; `null` changes nothing. */
    method UpdateDefaultTask(taskId: string, answer: Outcome<Option<DefaultTask>>)
      modifies this
      ensures answer == Done(None) ==> isLoading && currentEvent == old(currentEvent)
      ensures answer.Failed? ==> !isLoading && currentEvent == old(currentEvent)
      ensures answer.Done? && answer.value.Some? ==>
        !isLoading &&
        currentEvent == (if old(currentEvent).None? then None
                         else Some(old(currentEvent).value.(tasks := ReplaceById(DefaultTaskId, old(currentEvent).value.tasks, taskId, answer.value.value))))
      ensures events == old(events) && holdings == old(holdings) && currentHolding == old(currentHolding) && traQChannels == old(traQChannels)
    {
      isLoading := true;
      match answer {
        case Failed =>
          isLoading := false;
        case Done(None) =>
        case Done(Some(updated)) =>
          if currentEvent.Some? {
            currentEvent := Some(currentEvent.value.(tasks := ReplaceById(DefaultTaskId, currentEvent.value.tasks, taskId, updated)));
          }
          isLoading := false;
      }
    }

    /** `deleteDefaultTask`: drops the tasks with the id from the current event. */
    method DeleteDefaultTask(taskId: string, answer: Outcome<bool>)
      modifies this
      ensures !isLoading
      ensures answer.Done? ==>
        currentEvent == (if old(currentEvent).None? then None
                         else Some(old(currentEvent).value.(tasks := RemoveById(DefaultTaskId, old(currentEvent).value.tasks, taskId))))
      ensures answer.Failed? ==> currentEvent == old(currentEvent)
      ensures events == old(events) && holdings == old(holdings) && currentHolding == old(currentHolding) && traQChannels == old(traQChannels)
    {
      isLoading := true;
      if answer.Done? && currentEvent.Some? {
        currentEvent := Some(currentEvent.value.(tasks := RemoveById(DefaultTaskId, currentEvent.value.tasks, taskId)));
      }
      isLoading := false;
    }

    // ----- holdings -----------------------------------------------------------------------

    /** `fetchHoldings` and `fetchHoldingsByEventId`: the answer replaces the holding list. */
    method FetchHoldings(answer: Outcome<seq<HoldingWithEvent>>)
      modifies this
      ensures !isLoading
      ensures holdings == (if answer.Done? then answer.value else old(holdings))
      ensures events == old(events) && currentEvent == old(currentEvent)
      ensures currentHolding == old(currentHolding) && traQChannels == old(traQChannels)
    {
      isLoading := true;
      if answer.Done? {
        holdings := answer.value;
      }
      isLoading := false;
    }

    /** `fetchHoldingById`: the answer, `null` included, becomes the current holding. */
    method FetchHoldingById(answer: Outcome<Option<HoldingWithTasks>>)
      modifies this
      ensures !isLoading
      ensures currentHolding == (if answer.Done? then answer.value else old(currentHolding))
      ensures events == old(events) && currentEvent == old(currentEvent)
      ensures holdings == old(holdings) && traQChannels == old(traQChannels)
    {
      isLoading := true;
      if answer.Done? {
        currentHolding := answer.value;
      }
      isLoading := false;
    }

    /**
     * `createHolding`: after a successful create, refetches the holdings of the new holding's
     * event (`refetched` is that answer).  Failures of either call are swallowed.
     */
    method CreateHolding(created: Outcome<Holding>, refetched: Outcome<seq<HoldingWithEvent>>)
      modifies this
      ensures !isLoading
      ensures holdings == (if created.Done? && refetched.Done? then refetched.value else old(holdings))
      ensures events == old(events) && currentEvent == old(currentEvent)
      ensures currentHolding == old(currentHolding) && traQChannels == old(traQChannels)
    {
      isLoading := true;
      if created.Done? {
        FetchHoldings(refetched);
      }
      isLoading := false;
    }

    /**
     * `updateHolding`: sends the update, ignores its answer, and replaces the holding list by a
     * fresh `getAll` (`refetched`); a failure of either call leaves the list as it was.
     */
    method UpdateHolding(updated: Outcome<Option<Holding>>, refetched: Outcome<seq<HoldingWithEvent>>)
      modifies this
      ensures !isLoading
      ensures holdings == (if updated.Done? && refetched.Done? then refetched.value else old(holdings))
      ensures events == old(events) && currentEvent == old(currentEvent)
      ensures currentHolding == old(currentHolding) && traQChannels == old(traQChannels)
    {
      isLoading := true;
      if updated.Done? && refetched.Done? {
        holdings := refetched.value;
      }
      isLoading := false;
    }

    /** `deleteHolding`: drops the holding from the list, and clears the current holding if it is the one. */
    method DeleteHolding(holdingId: string, answer: Outcome<bool>)
      modifies this
      ensures !isLoading
      ensures answer.Done? ==>
        holdings == RemoveById(HoldingWithEventId, old(holdings), holdingId) &&
        currentHolding == ClearIfSameHolding(old(currentHolding), holdingId)
      ensures answer.Failed? ==> holdings == old(holdings) && currentHolding == old(currentHolding)
      ensures events == old(events) && currentEvent == old(currentEvent) && traQChannels == old(traQChannels)
    {
      isLoading := true;
      if answer.Done? {
        holdings := RemoveById(HoldingWithEventId, holdings, holdingId);
        currentHolding := ClearIfSameHolding(currentHolding, holdingId);
      }
      isLoading := false;
    }

    // ----- tasks of the current holding ---------------------------------------------------

    /** `createHoldingTask`: appends the created task to the current holding, if there is one. */
    method CreateHoldingTask(answer: Outcome<HoldingTask>)
      modifies this
      ensures !isLoading
      ensures answer.Done? ==>
        currentHolding == (if old(currentHolding).None? then None
                           else Some(old(currentHolding).value.(tasks := old(currentHolding).value.tasks + [answer.value])))
      ensures answer.Failed? ==> currentHolding == old(currentHolding)
      ensures events == old(events) && currentEvent == old(currentEvent) && holdings == old(holdings) && traQChannels == old(traQChannels)
    {
      isLoading := true;
      if answer.Done? && currentHolding.Some? {
        currentHolding := Some(currentHolding.value.(tasks := currentHolding.value.tasks + [answer.value]));
      }
      isLoading := false;
    }

    /** `updateHoldingTask`: replaces the task with the id by the answer; `null` changes nothing. */
    method UpdateHoldingTask(taskId: string, answer: Outcome<Option<HoldingTask>>)
      modifies this
      ensures answer == Done(None) ==> isLoading && currentHolding == old(currentHolding)
      ensures answer.Failed? ==> !isLoading && currentHolding == old(currentHolding)
      ensures answer.Done? && answer.value.Some? ==>
        !isLoading &&
        currentHolding == (if old(currentHolding).None? then None
                           else Some(old(currentHolding).value.(tasks := ReplaceById(HoldingTaskId, old(currentHolding).value.tasks, taskId, answer.value.value))))
      ensures events == old(events) && currentEvent == old(currentEvent) && holdings == old(holdings) && traQChannels == old(traQChannels)
    {
      isLoading := true;
      match answer {
        case Failed =>
          isLoading := false;
        case Done(None) =>
        case Done(Some(updated)) =>
          if currentHolding.Some? {
            currentHolding := Some(currentHolding.value.(tasks := ReplaceById(HoldingTaskId, currentHolding.value.tasks, taskId, updated)));
          }
          isLoading := false;
      }
    }

    /** `deleteHoldingTask`: drops the tasks with the id from the current holding. */
    method DeleteHoldingTask(taskId: string, answer: Outcome<bool>)
      modifies this
      ensures !isLoading
      ensures answer.Done? ==>
        currentHolding == (if old(currentHolding).None? then None
                           else Some(old(currentHolding).value.(tasks := RemoveById(HoldingTaskId, old(currentHolding).value.tasks, taskId))))
      ensures answer.Failed? ==> currentHolding == old(currentHolding)
      ensures events == old(events) && currentEvent == old(currentEvent) && holdings == old(holdings) && traQChannels == old(traQChannels)
    {
      isLoading := true;
      if answer.Done? && currentHolding.Some? {
        currentHolding := Some(currentHolding.value.(tasks := RemoveById(HoldingTaskId, currentHolding.value.tasks, taskId)));
      }
      isLoading := false;
    }

    // ----- channels -----------------------------------------------------------------------

    /** `fetchTraQChannels`: the answer replaces the channel list. */
    method FetchTraQChannels(answer: Outcome<seq<TraQChannel>>)
      modifies this
      ensures !isLoading
      ensures traQChannels == (if answer.Done? then answer.value else old(traQChannels))
      ensures events == old(events) && currentEvent == old(currentEvent)
      ensures holdings == old(holdings) && currentHolding == old(currentHolding)
    {
      isLoading := true;
      if answer.Done? {
        traQChannels := answer.value;
      }
      isLoading := false;
    }
  }

  /** Replacing the tasks with one id changes no other task and keeps every position. */
  lemma ReplaceTaskTouchesOnlyThatId(tasks: seq<HoldingTask>, taskId: string, updated: HoldingTask)
    ensures var r := ReplaceById(HoldingTaskId, tasks, taskId, updated);
      |r| == |tasks| && forall i :: 0 <= i < |r| ==> (r[i] == tasks[i] || tasks[i].id == taskId)
  {
  }

  /** Dropping the tasks with one id keeps every other task, in order, and no task with that id. */
  lemma DeleteTaskDropsOnlyThatId(tasks: seq<HoldingTask>, taskId: string)
    ensures var r := RemoveById(HoldingTaskId, tasks, taskId);
      IsSubsequence(r, tasks) && (forall i :: 0 <= i < |r| ==> r[i].id != taskId) &&
      |r| + |KeepById(HoldingTaskId, tasks, taskId)| == |tasks|
  {
    RemoveByIdIsSubsequence(HoldingTaskId, tasks, taskId);
    KeepRemovePartition(HoldingTaskId, tasks, taskId);
  }
}
