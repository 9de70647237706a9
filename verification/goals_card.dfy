/** The card list component that renders goals with their dates, times and
    a status label. */
module GoalsCard {
  import opened Base
  import opened Calendar
  import opened GoalRecord

  /** The four status styles of a card. */
  datatype CardStyle = CompletedStyle | PendingStyle | InProgressStyle | FailedStyle

  /** The nested conditional that picks the status style: the three known
      statuses have their own style, "failed" and every other string fall
      back to the failed style. */
  function StyleFor(status: string): (r: CardStyle)
    ensures r == CompletedStyle <==> status == "completed"
    ensures r == PendingStyle <==> status == "pending"
    ensures r == InProgressStyle <==> status == "in_progress"
    ensures r == FailedStyle <==> status != "completed" && status != "pending" && status != "in_progress"
  {
    if status == "completed" then CompletedStyle
    else if status == "pending" then PendingStyle
    else if status == "in_progress" then InProgressStyle
    else FailedStyle
  }

  /** The background colour of each style; pending and in-progress cards
      share the same orange. */
  function Background(s: CardStyle): (r: string)
    ensures r == "#FF9800" <==> s == PendingStyle || s == InProgressStyle
    ensures r == "#4CAF50" <==> s == CompletedStyle
    ensures r == "#F44336" <==> s == FailedStyle
  {
    match s
    case CompletedStyle => "#4CAF50"
    case FailedStyle => "#F44336"
    case PendingStyle => "#FF9800"
    case InProgressStyle => "#FF9800"
  }

  /** What one card shows. */
  datatype Card = Card(
    title: string, description: string,
    startDate: string, endDate: string,
    startTime: string, endTime: string,
    status: string, style: CardStyle)

  /** The card of one goal: its dates as "DD/MM/YYYY", its times on the
      12-hour clock, and its raw stored status. */
  function CardOf(g: Goal): (c: Card)
    ensures c.title == g.title && c.description == g.description
    ensures c.status == g.status && c.style == StyleFor(g.status)
    ensures c.startDate == FormatDate(g.startDate) && c.endDate == FormatDate(g.endDate)
    ensures c.startTime == FormatTime(g.startTime) && c.endTime == FormatTime(g.endTime)
  {
    Card(g.title, g.description, FormatDate(g.startDate), FormatDate(g.endDate),
         FormatTime(g.startTime), FormatTime(g.endTime), g.status, StyleFor(g.status))
  }

  /** `goals.map(...)`: one card per goal, in the given order. */
  function Cards(goals: seq<Goal>): (r: seq<Card>)
    ensures |r| == |goals|
    ensures forall i :: 0 <= i < |goals| ==> r[i] == CardOf(goals[i])
  {
    if goals == [] then [] else [CardOf(goals[0])] + Cards(goals[1..])
  }
}
