/**
 * `pages/EventList.tsx`, a page of the older template/event schema: the events of one template
 * in upcoming and past tabs by their `event_date` string.  It shares the tab logic of the
 * holding list.
 */
module EventList {
  import opened Seqs
  import opened Strings
  import opened DateTabs

  /** An event of the older schema, a dated instance of a template. */
  datatype LegacyEvent = LegacyEvent(eventId: string, eventName: string, templateId: string, eventDate: string,
    slackChannelId: string, slackMention: string)

  function EventDate(e: LegacyEvent): string
  {
    e.eventDate
  }

  function EventListPage(templateId: string, tab: Tab, events: seq<LegacyEvent>, today: string): ListView<LegacyEvent>
  {
    ListPage(templateId, tab, EventDate, events, today)
  }

  /**
   * With a template id, an event is upcoming exactly when `event_date >= today` and past exactly
   * when `event_date < today`; the groups are disjoint and complete, keep the list's order,
   * their tab counts sum to the number of events, and the shown list is the selected group.
   */
  lemma EventTabs(templateId: string, tab: Tab, events: seq<LegacyEvent>, today: string)
    requires templateId != ""
    ensures var v := EventListPage(templateId, tab, events, today);
      && v.Groups?
      && (forall e :: e in v.upcoming <==> e in events && !Less(e.eventDate, today))
      && (forall e :: e in v.past <==> e in events && Less(e.eventDate, today))
      && (forall e :: !(e in v.upcoming && e in v.past))
      && v.upcomingCount + v.pastCount == |events|
      && multiset(v.upcoming) + multiset(v.past) == multiset(events)
      && IsSubsequence(v.upcoming, events) && IsSubsequence(v.past, events)
      && v.shown == (if tab == UpcomingTab then v.upcoming else v.past)
  {
    TabsPartition(EventDate, events, today);
  }
}
