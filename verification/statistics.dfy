/** The statistics screen: status counts, the pie chart, the first three
    goals of the breakdown and the achievements count. */
module Statistics {
  import opened Base
  import opened Text
  import opened JsNumber
  import opened Calendar
  import opened GoalRecord

  /** `goalsData.filter((goal) => goal.status === status).length`. */
  function StatusCount(data: seq<Goal>, status: string): (r: nat)
    ensures r <= |data|
  {
    Count(data, (g: Goal) => g.status == status)
  }

  /** One of the four statuses the pie chart counts. */
  predicate Charted(status: string) {
    status == "completed" || status == "pending" || status == "in_progress" || status == "failed"
  }

  /** The goals whose status is none of the four charted ones. */
  function UnchartedCount(data: seq<Goal>): nat {
    Count(data, (g: Goal) => !Charted(g.status))
  }

  /** The four counts and the uncounted rest add up to the total, so the
      four counts never exceed it. */
  lemma {:induction false} CountsPartition(data: seq<Goal>)
    ensures StatusCount(data, "completed") + StatusCount(data, "pending")
      + StatusCount(data, "in_progress") + StatusCount(data, "failed")
      + UnchartedCount(data) == |data|
  {
    if data != [] {
      CountsPartition(data[1..]);
    }
  }

  /** A slice of the pie chart. */
  datatype PieSlice = PieSlice(name: string, population: nat, color: string)

  /** `pieData`: four slices in the order Pending, In Progress, Completed, Failed. */
  function PieData(data: seq<Goal>): (r: seq<PieSlice>)
    ensures |r| == 4
    ensures r[0] == PieSlice("Pending Goal", StatusCount(data, "pending"), "purple")
    ensures r[1] == PieSlice("In Progress Goal", StatusCount(data, "in_progress"), "#3A7BD5")
    ensures r[2] == PieSlice("Completed Goal", StatusCount(data, "completed"), "#35CB00")
    ensures r[3] == PieSlice("Failed Goal", StatusCount(data, "failed"), "#FF0000")
  {
    [PieSlice("Pending Goal", StatusCount(data, "pending"), "purple"),
     PieSlice("In Progress Goal", StatusCount(data, "in_progress"), "#3A7BD5"),
     PieSlice("Completed Goal", StatusCount(data, "completed"), "#35CB00"),
     PieSlice("Failed Goal", StatusCount(data, "failed"), "#FF0000")]
  }

  /** The populations of the pie never add up to more than the goals. */
  lemma PieWithinTotal(data: seq<Goal>)
    ensures var p := PieData(data);
      p[0].population + p[1].population + p[2].population + p[3].population <= |data|
  {
    CountsPartition(data);
  }

  /** "{total} Goals Set, {completed} Completed". */
  function OverviewText(total: nat, completed: nat): string {
    NatToString(total) + " Goals Set, " + NatToString(completed) + " Completed"
  }

  /** What `progressChart` renders. */
  datatype Overview = NoGoals | Chart(pie: seq<PieSlice>, text: string)

  /** `progressChart`: "No goals available." and no chart when there are no
      goals (`goals?.data || []`), otherwise the pie and the overview line. */
  function ProgressChart(data: Option<seq<Goal>>): (v: Overview)
    ensures v.NoGoals? <==> data.GetOr([]) == []
    ensures v.Chart? ==>
      && v.pie == PieData(data.GetOr([]))
      && v.text == OverviewText(|data.GetOr([])|, StatusCount(data.GetOr([]), "completed"))
  {
    var goals := data.GetOr([]);
    if |goals| == 0 then NoGoals
    else Chart(PieData(goals), OverviewText(|goals|, StatusCount(goals, "completed")))
  }

  const NoGoalsText: string := "No goals available."

  /** One row of the breakdown. */
  datatype BreakdownRow = BreakdownRow(title: string, progress: Num, deadline: string)

  /** `goalsData.slice(0, 3)`: the first three goals, in order. */
  function FirstThree(data: seq<Goal>): (r: seq<Goal>)
    ensures |r| == if |data| < 3 then |data| else 3
    ensures forall i :: 0 <= i < |r| ==> r[i] == data[i]
  {
    if |data| <= 3 then data else data[..3]
  }

  /** The breakdown rows: for each of the first three goals its title, its
      percentage (0 when missing) and its end date as "DD/MM/YYYY". */
  function Breakdown(data: Option<seq<Goal>>): (r: seq<BreakdownRow>)
    ensures |r| <= 3 && |r| <= |data.GetOr([])|
    ensures forall i :: 0 <= i < |r| ==>
      r[i] == BreakdownRow(data.value[i].title, ListedProgress(data.value[i]), FormatDate(data.value[i].endDate))
  {
    var shown := FirstThree(data.GetOr([]));
    seq(|shown|, i requires 0 <= i < |shown| =>
      BreakdownRow(shown[i].title, ListedProgress(shown[i]), FormatDate(shown[i].endDate)))
  }

  /** `achievements`: the number of goals whose stored status is "completed". */
  function Achievements(data: Option<seq<Goal>>): nat {
    StatusCount(data.GetOr([]), "completed")
  }

  /** The achievements count is the pie chart's completed population. */
  lemma AchievementsMatchPie(data: Option<seq<Goal>>)
    requires data.GetOr([]) != []
    ensures ProgressChart(data).Chart?
    ensures Achievements(data) == ProgressChart(data).pie[2].population
  {
  }
}
