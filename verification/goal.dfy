/** A goal as the server returns it in `goals.data`, and the progress
    percentage the screens read from it. */
module GoalRecord {
  import opened Base
  import opened JsNumber
  import opened Calendar

  /** `progress_percentage`: the text the server sent, with the number
      `parseFloat` reads from it (supplied, not computed here). */
  datatype Percentage = Percentage(text: string, value: Num)

  /** The `progress` object attached to a goal. */
  datatype ProgressRecord = ProgressRecord(percentage: Option<Percentage>)

  /** One element of `goals.data`. `startDate`/`endDate` are None when the
      stored date string does not parse; times are the numbers of "HH:MM:SS";
      `status` is the raw stored string ("pending", "in_progress", ...). */
  datatype Goal = Goal(
    id: nat,
    title: string,
    description: string,
    startDate: Option<CalDate>,
    endDate: Option<CalDate>,
    startTime: Clock,
    endTime: Clock,
    status: string,
    progress: Option<ProgressRecord>)

  /** The body of a `getAllGoals` response; `data` is None when the value held
      has no `data` array (in particular the slice's initial `[]`). */
  datatype GoalsPayload = GoalsPayload(data: Option<seq<Goal>>)

  /** The percentage text when it is present and non-empty (truthy). */
  function PercentageText(g: Goal): Option<Percentage> {
    if g.progress.Some? && g.progress.value.percentage.Some?
       && g.progress.value.percentage.value.text != ""
    then g.progress.value.percentage
    else None
  }

  /** `parseFloat(goal?.progress?.progress_percentage || 0)`: a missing or
      empty percentage counts as 0, anything else is read as a number. */
  function ListedProgress(g: Goal): (r: Num)
    ensures PercentageText(g).None? ==> r == Fin(0.0)
    ensures PercentageText(g).Some? ==> r == PercentageText(g).value.value
  {
    match PercentageText(g)
    case None => Fin(0.0)
    case Some(p) => p.value
  }

  /** `new Date(`${end_date}T${end_time}`)`: the end instant, if it parses. */
  function EndInstant(g: Goal): Option<int> {
    DateTime(g.endDate, g.endTime)
  }

  /** `new Date(end_date) < now`: the end date, taken at the start of its
      day, lies in the past. An unparseable end date never has. */
  predicate Expired(g: Goal, now: int) {
    g.endDate.Some? && DayStart(g.endDate.value) < now
  }

  /** `new Date(`${start_date}T${start_time}`)`: the start instant, if it parses. */
  function StartInstant(g: Goal): Option<int> {
    DateTime(g.startDate, g.startTime)
  }
}
