/**
 * The two tabs of a list page: entries whose `YYYY-MM-DD` date string is `>= today` are
 * upcoming, those `< today` are past, both by JavaScript string comparison; the page shows the
 * group of the selected tab.  Shared by the holding list and the legacy event list.
 */
module DateTabs {
  import opened Seqs
  import opened Strings
  import opened Dates

  datatype Tab = UpcomingTab | PastTab

  function IsUpcoming<T>(date: T -> string, today: string): T -> bool
  {
    x => !Less(date(x), today)
  }

  function IsPast<T>(date: T -> string, today: string): T -> bool
  {
    x => Less(date(x), today)
  }

  function Upcoming<T>(date: T -> string, xs: seq<T>, today: string): seq<T>
  {
    Filter(IsUpcoming(date, today), xs)
  }

  function Past<T>(date: T -> string, xs: seq<T>, today: string): seq<T>
  {
    Filter(IsPast(date, today), xs)
  }

  function Displayed<T>(tab: Tab, date: T -> string, xs: seq<T>, today: string): seq<T>
  {
    if tab == UpcomingTab then Upcoming(date, xs, today) else Past(date, xs, today)
  }

  /** A list page: nothing without its route id, else both groups, their tab counts and the shown group. */
  datatype ListView<T> = NoRouteId | Groups(upcoming: seq<T>, past: seq<T>, upcomingCount: nat, pastCount: nat, shown: seq<T>)

  function ListPage<T>(routeId: string, tab: Tab, date: T -> string, xs: seq<T>, today: string): ListView<T>
  {
    if routeId == "" then NoRouteId
    else
      var up, past := Upcoming(date, xs, today), Past(date, xs, today);
      Groups(up, past, |up|, |past|, Displayed(tab, date, xs, today))
  }

  /**
   * The groups split the list: an entry is upcoming exactly when its date is not before today,
   * and past exactly when it is; no entry is in both; the counts add up to the total and the
   * entries to the whole list; each group keeps the list's order.
   */
  lemma TabsPartition<T>(date: T -> string, xs: seq<T>, today: string)
    ensures forall x :: x in Upcoming(date, xs, today) <==> x in xs && !Less(date(x), today)
    ensures forall x :: x in Past(date, xs, today) <==> x in xs && Less(date(x), today)
    ensures forall x :: !(x in Upcoming(date, xs, today) && x in Past(date, xs, today))
    ensures |Upcoming(date, xs, today)| + |Past(date, xs, today)| == |xs|
    ensures multiset(Upcoming(date, xs, today)) + multiset(Past(date, xs, today)) == multiset(xs)
    ensures IsSubsequence(Upcoming(date, xs, today), xs) && IsSubsequence(Past(date, xs, today), xs)
  {
    FilterSplit(IsUpcoming(date, today), IsPast(date, today), xs);
    FilterIsSubsequence(IsUpcoming(date, today), xs);
    FilterIsSubsequence(IsPast(date, today), xs);
    forall x ensures x in Upcoming(date, xs, today) <==> x in xs && !Less(date(x), today) {
      FilterMembers(IsUpcoming(date, today), xs, x);
    }
    forall x ensures x in Past(date, xs, today) <==> x in xs && Less(date(x), today) {
      FilterMembers(IsPast(date, today), xs, x);
    }
  }

  /** The page shows exactly the group its tab selects. */
  lemma DisplayedIsSelectedGroup<T>(tab: Tab, date: T -> string, xs: seq<T>, today: string)
    ensures tab == UpcomingTab ==> Displayed(tab, date, xs, today) == Upcoming(date, xs, today)
    ensures tab == PastTab ==> Displayed(tab, date, xs, today) == Past(date, xs, today)
  {
  }

  /** For well-formed dates the string test is the calendar test: past means before today. */
  lemma PastMeansBeforeToday(d: Date, today: Date)
    requires ValidDate(d) && ValidDate(today) && d.year <= 9999 && today.year <= 9999
    ensures Less(FormatDate(d), FormatDate(today)) <==> Before(d, today)
    ensures Less(FormatDate(d), FormatDate(today)) <==> DayNumber(d) < DayNumber(today)
  {
    FormattedLessIsBefore(d, today);
    DayNumberOrder(d, today);
  }
}
