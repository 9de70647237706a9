/** The progress screen: one entry per goal, the overall average and the
    line chart. */
module ViewProgress {
  import opened Base
  import opened Text
  import opened JsNumber
  import opened GoalRecord

  /** One element of `goalProgress`. */
  datatype Entry = Entry(title: string, progress: Num, status: string)

  /** `goal.progress ? parseFloat(goal.progress.progress_percentage) : 0`:
      0 without a progress record; otherwise the parsed percentage, which is
      NaN when the record has no (or an empty) percentage. */
  function EntryProgress(g: Goal): (r: Num)
    ensures g.progress.None? ==> r == Fin(0.0)
    ensures g.progress.Some? && PercentageText(g).None? ==> r == NaN
    ensures PercentageText(g).Some? ==> r == PercentageText(g).value.value
  {
    match g.progress
    case None => Fin(0.0)
    case Some(rec) =>
      if rec.percentage.Some? && rec.percentage.value.text != "" then rec.percentage.value.value else NaN
  }

  /** `goalProgress`: one entry per goal, in order, with the title and the
      status copied; no entries without `goals.data`. */
  function GoalProgress(data: Option<seq<Goal>>): (r: seq<Entry>)
    ensures |r| == |data.GetOr([])|
    ensures forall i :: 0 <= i < |r| ==>
      r[i] == Entry(data.value[i].title, EntryProgress(data.value[i]), data.value[i].status)
  {
    var goals := data.GetOr([]);
    seq(|goals|, i requires 0 <= i < |goals| =>
      Entry(goals[i].title, EntryProgress(goals[i]), goals[i].status))
  }

  /** `reduce((acc, curr) => acc + curr.progress, 0)`, adding left to right. */
  function Sum(entries: seq<Entry>): Num {
    if entries == [] then Fin(0.0)
    else Add(Sum(entries[..|entries| - 1]), entries[|entries| - 1].progress)
  }

  /** `totalProgress`: the sum divided by the count, or by 1 when there are
      no entries, so no division by zero happens. */
  function TotalProgress(entries: seq<Entry>): (r: Num)
    ensures entries == [] ==> r == Fin(0.0)
  {
    DivBy(Sum(entries), if |entries| == 0 then 1 else |entries|)
  }

  predicate InPercentRange(e: Entry) {
    e.progress.Fin? && 0.0 <= e.progress.r <= 100.0
  }

  lemma {:induction false} SumBounds(entries: seq<Entry>)
    requires forall i :: 0 <= i < |entries| ==> InPercentRange(entries[i])
    ensures Sum(entries).Fin?
    ensures 0.0 <= Sum(entries).r <= 100.0 * |entries| as real
  {
    if entries != [] {
      SumBounds(entries[..|entries| - 1]);
    }
  }

  /** When every goal's progress lies in [0, 100], so does the average. */
  lemma TotalProgressBounds(entries: seq<Entry>)
    requires forall i :: 0 <= i < |entries| ==> InPercentRange(entries[i])
    ensures TotalProgress(entries).Fin?
    ensures 0.0 <= TotalProgress(entries).r <= 100.0
  {
    SumBounds(entries);
    if entries != [] {
      var n := |entries| as real;
      var s := Sum(entries).r;
      assert TotalProgress(entries) == DivBy(Fin(s), |entries|) == Fin(s / n);
      AverageBound(s, n);
    }
  }

  lemma AverageBound(s: real, n: real)
    requires n >= 1.0 && 0.0 <= s <= 100.0 * n
    ensures 0.0 <= s / n <= 100.0
  {
  }

  /** One goal whose percentage does not parse makes the average NaN. */
  lemma {:induction false} NaNSpoilsTotal(entries: seq<Entry>, k: nat)
    requires k < |entries| && entries[k].progress.NaN?
    ensures Sum(entries).NaN? && TotalProgress(entries).NaN?
  {
    if k < |entries| - 1 {
      NaNSpoilsTotal(entries[..|entries| - 1], k);
    }
  }

  /** The line chart: labels "Goal 1" .. "Goal n" and each goal's progress. */
  datatype LineChart = LineChart(labels: seq<string>, values: seq<Num>)

  function ChartLabel(i: nat): string {
    "Goal " + NatToString(i + 1)
  }

  function LineChartData(entries: seq<Entry>): (r: LineChart)
    ensures |r.labels| == |entries| && |r.values| == |entries|
    ensures forall i :: 0 <= i < |entries| ==> r.labels[i] == ChartLabel(i) && r.values[i] == entries[i].progress
  {
    LineChart(seq(|entries|, i requires 0 <= i < |entries| => ChartLabel(i)),
              seq(|entries|, i requires 0 <= i < |entries| => entries[i].progress))
  }

  /** The chart labels are pairwise different. */
  lemma ChartLabelsDistinct(entries: seq<Entry>)
    ensures NoDup(LineChartData(entries).labels)
  {
    var labels := LineChartData(entries).labels;
    forall i, j | 0 <= i < j < |labels| ensures labels[i] != labels[j] {
      var p := "Goal ";
      assert labels[i][|p|..] == NatToString(i + 1);
      assert labels[j][|p|..] == NatToString(j + 1);
      if labels[i] == labels[j] {
        NatToStringInjective(i + 1, j + 1);
      }
    }
  }

  /** What the screen shows. */
  datatype ProgressView = Loading | NoProgress | Charts(total: Num, line: LineChart)

  function ProgressScreen(data: Option<seq<Goal>>, loading: bool): (v: ProgressView)
    ensures loading ==> v.Loading?
    ensures v.NoProgress? <==> !loading && data.GetOr([]) == []
    ensures v.Charts? ==>
      && v.total == TotalProgress(GoalProgress(data))
      && v.line == LineChartData(GoalProgress(data))
  {
    var entries := GoalProgress(data);
    if loading then Loading
    else if |entries| == 0 then NoProgress
    else Charts(TotalProgress(entries), LineChartData(entries))
  }

  const NoProgressText: string := "No Goal Progress Found"
}
