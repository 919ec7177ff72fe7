/**
 * The frontend's record types: events (templates), their default tasks, holdings (dated
 * instances of an event) and their holding tasks, traQ channels, and the joined shapes the
 * API returns.  Ids are strings throughout, as in the frontend.
 */
module Entities {
  import opened Wrappers

  datatype Event = Event(id: string, name: string)

  datatype DefaultTask = DefaultTask(id: string, eventId: string, name: string, daysBefore: int, description: string)

  /** `eventId` is optional: a holding may have been created without an event to copy from. */
  datatype Holding = Holding(id: string, name: string, date: string, channelId: string, mention: string, eventId: Option<string>)

  datatype HoldingTask = HoldingTask(id: string, holdingId: string, name: string, daysBefore: int, description: string)

  datatype TraQChannel = TraQChannel(id: string, name: string)

  datatype EventWithTasks = EventWithTasks(event: Event, tasks: seq<DefaultTask>)

  datatype HoldingWithEvent = HoldingWithEvent(holding: Holding, eventName: string)

  datatype HoldingWithTasks = HoldingWithTasks(holding: Holding, tasks: seq<HoldingTask>, eventName: Option<string>)

  // Key functions, so that the generic sequence operations can find records by id.
  function EventId(e: Event): string { e.id }
  function DefaultTaskId(t: DefaultTask): string { t.id }
  function DefaultTaskEventId(t: DefaultTask): string { t.eventId }
  function HoldingId(h: Holding): string { h.id }
  function HoldingTaskId(t: HoldingTask): string { t.id }
  function HoldingTaskHoldingId(t: HoldingTask): string { t.holdingId }
  function ChannelId(c: TraQChannel): string { c.id }
  function DefaultTaskDaysBefore(t: DefaultTask): int { t.daysBefore }
  function HoldingTaskDaysBefore(t: HoldingTask): int { t.daysBefore }
}
