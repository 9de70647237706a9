/** The goal history screen: the goals whose end date has passed, with their
    status rewritten for display. */
module History {
  import opened Base
  import opened JsNumber
  import opened Calendar
  import opened GoalRecord

  /** `goal.progress?.progress_percentage || "0.00"`: the text compared with
      "100.00" and the number `parseFloat` reads from it. */
  function HistoryPercentage(g: Goal): (p: Percentage)
    ensures PercentageText(g).None? ==> p == Percentage("0.00", Fin(0.0))
    ensures PercentageText(g).Some? ==> p == PercentageText(g).value
  {
    PercentageText(g).GetOr(Percentage("0.00", Fin(0.0)))
  }

  /** The status the history shows: "Completed" only for the exact text
      "100.00" together with the stored status "completed"; otherwise
      "Failed" when the percentage reads below 100; otherwise the stored
      status unchanged. */
  function HistoryStatus(g: Goal): (r: string)
    ensures HistoryPercentage(g).text == "100.00" && g.status == "completed" ==> r == "Completed"
    ensures !(HistoryPercentage(g).text == "100.00" && g.status == "completed") ==>
      r == (if Below(HistoryPercentage(g).value, 100.0) then "Failed" else g.status)
    ensures r == "Completed" || r == "Failed" || r == g.status
  {
    var p := HistoryPercentage(g);
    if p.text == "100.00" && g.status == "completed" then "Completed"
    else if Below(p.value, 100.0) then "Failed"
    else g.status
  }

  /** A goal with no percentage is listed as "Failed", and one at "100.00"
      whose stored status is not "completed" keeps that stored status. */
  lemma HistoryStatusCases(g: Goal)
    ensures PercentageText(g).None? ==> HistoryStatus(g) == "Failed"
    ensures (PercentageText(g).Some? && PercentageText(g).value == Percentage("100.00", Fin(100.0))
             && g.status != "completed") ==> HistoryStatus(g) == g.status
  {
  }

  /** The result of the computation: it throws when `goals` has no `data`
      array (`goals?.data.filter` on the slice's initial `[]`). */
  datatype Listing = Throws | Listed(goals: seq<Goal>)

  /** `filteredGoals`: the expired goals, in order, each copied with only its
      status replaced. */
  function HistoryGoals(data: Option<seq<Goal>>, now: int): (r: Listing)
    ensures data.None? <==> r.Throws?
    ensures r.Listed? ==> |r.goals| == |Filter(data.value, g => Expired(g, now))|
    ensures r.Listed? ==> forall i :: 0 <= i < |r.goals| ==>
      var kept := Filter(data.value, g => Expired(g, now))[i];
      r.goals[i] == kept.(status := HistoryStatus(kept))
  {
    match data
    case None => Throws
    case Some(d) =>
      var kept := Filter(d, g => Expired(g, now));
      Listed(seq(|kept|, i requires 0 <= i < |kept| => kept[i].(status := HistoryStatus(kept[i]))))
  }

  /** Every listed goal is an expired goal of the input with only its status
      changed, and every expired input goal is listed with its new status. */
  lemma HistoryGoalsFaithful(data: seq<Goal>, now: int)
    ensures var r := HistoryGoals(Some(data), now).goals;
      forall i :: 0 <= i < |r| ==> r[i].(status := "") in StatusBlanked(data) && Expired(r[i], now)
    ensures var r := HistoryGoals(Some(data), now).goals;
      forall g :: g in data && Expired(g, now) ==> g.(status := HistoryStatus(g)) in r
  {
    var kept := Filter(data, g => Expired(g, now));
    var r := HistoryGoals(Some(data), now).goals;
    forall i | 0 <= i < |r|
      ensures r[i].(status := "") in StatusBlanked(data) && Expired(r[i], now)
    {
      var k := kept[i];
      assert r[i].(status := "") == k.(status := "");
      BlankedMember(data, k);
    }
    forall g | g in data && Expired(g, now)
      ensures g.(status := HistoryStatus(g)) in r
    {
      var j :| 0 <= j < |kept| && kept[j] == g;
      assert r[j] == g.(status := HistoryStatus(g));
    }
  }

  /** The goals with their status erased, for comparing all other fields. */
  function StatusBlanked(data: seq<Goal>): (r: seq<Goal>)
    ensures |r| == |data|
    ensures forall i :: 0 <= i < |data| ==> r[i] == data[i].(status := "")
  {
    if data == [] then [] else [data[0].(status := "")] + StatusBlanked(data[1..])
  }

  lemma BlankedMember(data: seq<Goal>, g: Goal)
    requires g in data
    ensures g.(status := "") in StatusBlanked(data)
  {
    var i :| 0 <= i < |data| && data[i] == g;
    assert StatusBlanked(data)[i] == g.(status := "");
  }

  /** The two card styles of the history list. */
  datatype HistoryStyle = CompletedCard | MissedCard

  /** The card style: completed only for the rewritten status "Completed". */
  function CardStyle(status: string): (r: HistoryStyle)
    ensures r == CompletedCard <==> status == "Completed"
  {
    if status == "Completed" then CompletedCard else MissedCard
  }

  /** The left border colour of each history card style. */
  function BorderColor(s: HistoryStyle): string {
    match s
    case CompletedCard => "#4CAF50"
    case MissedCard => "#F44336"
  }

  datatype HistoryCard = HistoryCard(title: string, endDate: string, status: string, style: HistoryStyle)

  /** What the screen shows once the goals are computed. */
  datatype HistoryView = Crashed | Loading | NoHistory | HistoryCards(cards: seq<HistoryCard>)

  /** The screen body: the computation runs before the loading check, so a
      missing `data` crashes even while loading; an empty result shows
      "No Goals History Found". */
  function HistoryScreen(data: Option<seq<Goal>>, loading: bool, now: int): (v: HistoryView)
    ensures data.None? <==> v.Crashed?
    ensures data.Some? && loading ==> v.Loading?
    ensures v.NoHistory? <==> data.Some? && !loading && HistoryGoals(data, now).goals == []
    ensures v.HistoryCards? ==>
      && |v.cards| == |HistoryGoals(data, now).goals|
      && forall i :: 0 <= i < |v.cards| ==>
        var g := HistoryGoals(data, now).goals[i];
        v.cards[i] == HistoryCard(g.title, FormatDate(g.endDate), g.status, CardStyle(g.status))
  {
    match HistoryGoals(data, now)
    case Throws => Crashed
    case Listed(goals) =>
      if loading then Loading
      else if goals == [] then NoHistory
      else HistoryCards(seq(|goals|, i requires 0 <= i < |goals| =>
        HistoryCard(goals[i].title, FormatDate(goals[i].endDate), goals[i].status, CardStyle(goals[i].status))))
  }

  /** The empty-list message. */
  const NoHistoryText: string := "No Goals History Found"
}
