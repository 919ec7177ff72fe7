/**
 * `pages/HoldingList.tsx`: the holdings of one event in two tabs, upcoming and past, split by
 * comparing each `YYYY-MM-DD` date string with today's (the current UTC date, formatted the
 * same way).
 */
module HoldingList {
  import opened Seqs
  import opened Strings
  import opened Entities
  import opened DateTabs

  function HoldingDate(h: HoldingWithEvent): string
  {
    h.holding.date
  }

  function HoldingListPage(eventId: string, tab: Tab, holdings: seq<HoldingWithEvent>, today: string): ListView<HoldingWithEvent>
  {
    ListPage(eventId, tab, HoldingDate, holdings, today)
  }

  /**
   * With an event id, a holding is upcoming exactly when its date is `>= today` and past
   * exactly when it is `< today`; the groups are disjoint, keep the list's order, their tab
   * counts sum to the number of holdings, and the list shown is the selected tab's group.
   */
  lemma HoldingTabs(eventId: string, tab: Tab, holdings: seq<HoldingWithEvent>, today: string)
    requires eventId != ""
    ensures var v := HoldingListPage(eventId, tab, holdings, today);
      && v.Groups?
      && (forall h :: h in v.upcoming <==> h in holdings && !Less(h.holding.date, today))
      && (forall h :: h in v.past <==> h in holdings && Less(h.holding.date, today))
      && (forall h :: !(h in v.upcoming && h in v.past))
      && v.upcomingCount + v.pastCount == |holdings|
      && multiset(v.upcoming) + multiset(v.past) == multiset(holdings)
      && IsSubsequence(v.upcoming, holdings) && IsSubsequence(v.past, holdings)
      && v.shown == (if tab == UpcomingTab then v.upcoming else v.past)
  {
    TabsPartition(HoldingDate, holdings, today);
  }

  /** Without an event id the page shows only its notice. */
  lemma NoEventIdNoList(tab: Tab, holdings: seq<HoldingWithEvent>, today: string)
    ensures HoldingListPage("", tab, holdings, today) == NoRouteId
  {
  }
}
