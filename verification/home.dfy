/** The home screen's "Upcoming Goals" card. */
module Home {
  import opened Base
  import opened Calendar
  import opened GoalRecord
  import GoalsCard

  /** The goal starts strictly after `now` (false when its start does not parse). */
  predicate StartsAfter(g: Goal, now: int) {
    StartInstant(g).Some? && StartInstant(g).value > now
  }

  /** The filter of `getUpcomingGoalsData`. */
  predicate IsUpcoming(g: Goal, now: int) {
    StartsAfter(g, now) && g.status == "pending"
  }

  /** `getUpcomingGoalsData`: nothing without `goals.data`; otherwise, in
      their order, the goals still "pending" that start after `now`. */
  function UpcomingGoals(data: Option<seq<Goal>>, now: int): (r: seq<Goal>)
    ensures data.None? ==> r == []
    ensures data.Some? ==> IsSubsequence(r, data.value)
    ensures forall i :: 0 <= i < |r| ==> r[i].status == "pending" && StartsAfter(r[i], now)
    ensures forall i :: 0 <= i < |r| ==> StartInstant(r[i]).Some?
    ensures data.Some? ==> forall g :: g in data.value && IsUpcoming(g, now) ==> g in r
  {
    match data
    case None => []
    case Some(d) => Filter(d, g => IsUpcoming(g, now))
  }

  /** What the card shows. */
  datatype UpcomingView = NoUpcoming | UpcomingCards(cards: seq<GoalsCard.Card>)

  /** `goalsCard`: "No Upcoming Goals" for an empty list, otherwise the card
      list of exactly the upcoming goals, every one styled as pending. */
  function UpcomingCard(data: Option<seq<Goal>>, now: int): (v: UpcomingView)
    ensures v.NoUpcoming? <==> UpcomingGoals(data, now) == []
    ensures v.UpcomingCards? ==> v.cards == GoalsCard.Cards(UpcomingGoals(data, now))
    ensures v.UpcomingCards? ==> forall i :: 0 <= i < |v.cards| ==> v.cards[i].style == GoalsCard.PendingStyle
  {
    var upcoming := UpcomingGoals(data, now);
    if |upcoming| > 0 then UpcomingCards(GoalsCard.Cards(upcoming)) else NoUpcoming
  }

  const NoUpcomingText: string := "No Upcoming Goals"

  /** The upcoming list only loses goals as time passes: a goal upcoming at
      a later instant was already upcoming at an earlier one. */
  lemma UpcomingShrinksOverTime(data: Option<seq<Goal>>, now: int, later: int, g: Goal)
    requires now <= later
    ensures g in UpcomingGoals(data, later) ==> g in UpcomingGoals(data, now)
  {
    if g in UpcomingGoals(data, later) {
      assert IsUpcoming(g, now);
    }
  }
}
