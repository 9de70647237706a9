/** How the status rules of different screens relate: the checklist's stored
    status against the goal list's displayed status, and the home screen's
    upcoming list against the history screen. */
module Consistency {
  import opened Base
  import opened JsNumber
  import opened Calendar
  import opened GoalRecord
  import GoalsScreen
  import GoalCheck
  import Home
  import History

  /** The label the goal list shows for each status the checklist stores. */
  function LabelOfStored(status: string): Option<GoalsScreen.Shown> {
    if status == "pending" then Some(GoalsScreen.ShownPending)
    else if status == "in_progress" then Some(GoalsScreen.ShownInProgress)
    else if status == "completed" then Some(GoalsScreen.ShownCompleted)
    else None
  }

  /** For a goal spanning several days that has not expired, with a
      percentage in [0, 100], the goal list shows the label matching the
      status the checklist stores for that percentage. */
  lemma MultiDayListAgreesWithChecklist(g: Goal, now: int, p: real)
    requires !GoalsScreen.SameDay(g) && !Expired(g, now)
    requires ListedProgress(g) == Fin(p) && 0.0 <= p <= 100.0
    ensures LabelOfStored(GoalCheck.DetermineStatus(Fin(p))) == Some(GoalsScreen.ResolveStatus(g, now))
  {
  }

  /** For a goal on a single day the two disagree: half done, the checklist
      stores "in_progress" while the goal list shows "Pending" (or "Failed"
      once the end has passed). */
  lemma SameDayListDisagreesWithChecklist(g: Goal, now: int)
    requires GoalsScreen.SameDay(g) && ListedProgress(g) == Fin(50.0)
    ensures GoalCheck.DetermineStatus(Fin(50.0)) == "in_progress"
    ensures GoalsScreen.ResolveStatus(g, now) != GoalsScreen.ShownInProgress
  {
  }

  /** A goal that starts later today is listed both as upcoming on the home
      screen and, since its end date (taken at the start of the day) has
      passed, in the history as "Failed". */
  lemma TodayIsUpcomingAndHistory(d: CalDate, id: nat)
    ensures var g := Goal(id, "t", "", Some(d), Some(d), Clock(12, 0, 0), Clock(13, 0, 0), "pending", None);
      var now := DayStart(d) + 1;
      && Home.IsUpcoming(g, now)
      && Expired(g, now)
      && History.HistoryStatus(g) == "Failed"
  {
  }
}
