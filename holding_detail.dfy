/**
 * `pages/HoldingDetail.tsx`: what the detail page of one holding derives from the store.  Dates
 * are day numbers; "today" is the day number of the current local date.  The holding's date
 * string is read as `YYYY-MM-DD`; a string that does not parse gives JavaScript's invalid date,
 * whose comparisons are all false and whose day differences are NaN.
 */
module HoldingDetail {
  import opened Wrappers
  import opened Dates
  import opened Entities
  import opened TaskOrder

  /** The day number of a holding date, or `None` for an invalid date. */
  function HoldingDay(date: string): Option<int>
  {
    match ParseDate(date)
    case Some(d) => Some(DayNumber(d))
    case None => None
  }

  datatype TaskStatus = Done | DueToday | Upcoming

  /** A countdown badge: hidden, a number of days, or NaN for an invalid date. */
  datatype Countdown = Hidden | Days(n: int) | NotANumber

  /** One entry of the task timeline: its due day (`None` if invalid), status and badge. */
  datatype TaskLine = TaskLine(task: HoldingTask, due: Option<int>, status: TaskStatus, countdown: Countdown)

  datatype DetailView =
    | NoHoldingId
    | Loading
    | NotFound
    | Detail(holding: HoldingWithTasks, isPast: bool, countdown: Countdown, lines: seq<TaskLine>)

  /**
   * A task's timeline entry: due `daysBefore` days before the holding; past first, then today,
   * then upcoming; the "days left" badge only for an upcoming task.
   */
  function Line(t: HoldingTask, holdingDay: Option<int>, today: int): TaskLine
  {
    match holdingDay
    case None => TaskLine(t, None, Upcoming, NotANumber)
    case Some(h) =>
      var due := h - t.daysBefore;
      if due < today then TaskLine(t, Some(due), Done, Hidden)
      else if due == today then TaskLine(t, Some(due), DueToday, Hidden)
      else TaskLine(t, Some(due), Upcoming, Days(due - today))
  }

  function SortedTasks(tasks: seq<HoldingTask>): seq<HoldingTask>
  {
    SortedByDaysDesc(HoldingTaskDaysBefore, tasks)
  }

  /** The page for route parameter `holdingId` (`""` when absent). */
  function DetailPage(holdingId: string, isLoading: bool, current: Option<HoldingWithTasks>, today: int): DetailView
  {
    if holdingId == "" then NoHoldingId
    else if isLoading && current.None? then Loading
    else if current.None? then NotFound
    else
      var h := current.value;
      var day := HoldingDay(h.holding.date);
      var isPast := day.Some? && day.value < today;
      var sorted := SortedTasks(h.tasks);
      Detail(h, isPast, if isPast then Hidden else if day.Some? then Days(day.value - today) else NotANumber,
        seq(|sorted|, i requires 0 <= i < |sorted| => Line(sorted[i], day, today)))
  }

  /** Without a loaded holding no derived data is shown: the page is the spinner or the not-found view. */
  lemma NoHoldingNoDetail(holdingId: string, isLoading: bool, today: int)
    requires holdingId != ""
    ensures DetailPage(holdingId, isLoading, None, today) == (if isLoading then Loading else NotFound)
  {
  }

  /**
   * The holding is past exactly when its date is before today; otherwise the badge shows the
   * days until it.  The loaded holding itself is shown unchanged.
   */
  lemma PastIffBeforeToday(holdingId: string, isLoading: bool, h: HoldingWithTasks, today: int, d: Date)
    requires holdingId != "" && ParseDate(h.holding.date) == Some(d)
    ensures var v := DetailPage(holdingId, isLoading, Some(h), today);
      && v.Detail? && v.holding == h
      && (v.isPast <==> DayNumber(d) < today)
      && (!v.isPast ==> v.countdown == Days(DayNumber(d) - today))
      && (v.isPast ==> v.countdown == Hidden)
  {
  }

  /**
   * The timeline lists the holding's tasks by day count, largest first, as a reordering of a
   * copy: the same tasks, and the stored list is what the view still holds.
   */
  lemma TimelineIsSortedCopy(holdingId: string, isLoading: bool, h: HoldingWithTasks, today: int)
    requires holdingId != ""
    ensures var v := DetailPage(holdingId, isLoading, Some(h), today);
      && v.Detail? && v.holding.tasks == h.tasks && |v.lines| == |h.tasks|
      && multiset(seq(|v.lines|, i requires 0 <= i < |v.lines| => v.lines[i].task)) == multiset(h.tasks)
      && forall i, j :: 0 <= i < j < |v.lines| ==> v.lines[i].task.daysBefore >= v.lines[j].task.daysBefore
  {
    var v := DetailPage(holdingId, isLoading, Some(h), today);
    var sorted := SortedTasks(h.tasks);
    SortedByDaysDescSpec(HoldingTaskDaysBefore, h.tasks);
    assert seq(|v.lines|, i requires 0 <= i < |v.lines| => v.lines[i].task) == sorted;
  }

  /**
   * Each task's status: done exactly when its due day is before today, today when equal,
   * upcoming otherwise, and only an upcoming task shows how many days are left.
   */
  lemma LineStatus(t: HoldingTask, holdingDay: int, today: int)
    ensures var l := Line(t, Some(holdingDay), today);
      && l.due == Some(holdingDay - t.daysBefore)
      && (l.status == Done <==> holdingDay - t.daysBefore < today)
      && (l.status == DueToday <==> holdingDay - t.daysBefore == today)
      && (l.status == Upcoming <==> holdingDay - t.daysBefore > today)
      && (l.countdown.Days? <==> l.status == Upcoming)
      && (l.countdown.Days? ==> l.countdown.n == holdingDay - t.daysBefore - today && l.countdown.n > 0)
  {
  }

  /**
   * With a valid holding date, due days along the timeline never decrease, so every finished
   * task comes before every task that is due today or later.
   */
  lemma DueDaysNonDecreasing(holdingId: string, isLoading: bool, h: HoldingWithTasks, today: int, d: Date)
    requires holdingId != "" && ParseDate(h.holding.date) == Some(d)
    ensures var v := DetailPage(holdingId, isLoading, Some(h), today);
      && v.Detail?
      && (forall i :: 0 <= i < |v.lines| ==> v.lines[i].due.Some?)
      && (forall i, j :: 0 <= i < j < |v.lines| ==> v.lines[i].due.value <= v.lines[j].due.value)
      && (forall i, j :: 0 <= i < j < |v.lines| && v.lines[j].status == Done ==> v.lines[i].status == Done)
  {
    var v := DetailPage(holdingId, isLoading, Some(h), today);
    SortedByDaysDescSpec(HoldingTaskDaysBefore, h.tasks);
    var sorted := SortedTasks(h.tasks);
    forall i, j | 0 <= i < j < |v.lines|
      ensures v.lines[i].due.value <= v.lines[j].due.value
    {
      assert v.lines[i] == Line(sorted[i], Some(DayNumber(d)), today);
      assert v.lines[j] == Line(sorted[j], Some(DayNumber(d)), today);
    }
  }

  /** An invalid holding date makes nothing past: the badges read NaN and every task counts as upcoming. */
  lemma InvalidDateShowsNaN(holdingId: string, isLoading: bool, h: HoldingWithTasks, today: int)
    requires holdingId != "" && ParseDate(h.holding.date).None?
    ensures var v := DetailPage(holdingId, isLoading, Some(h), today);
      && v.Detail? && !v.isPast && v.countdown == NotANumber
      && forall i :: 0 <= i < |v.lines| ==> v.lines[i].status == Upcoming && v.lines[i].countdown == NotANumber
  {
  }
}
