/** The bottom tab bar's "press back twice to exit" behaviour. */
module BackPress {

  /** How long the second press may wait: the count is reset this long after
      the first press. */
  const ResetDelayMs: nat := 1000

  /** What the hardware back handler did. */
  datatype Reaction = ExitApp | ArmExit

  /** The two things that change the count: a back press, and the timer the
      first press starts. */
  datatype Event = BackPressed | TimerFired

  /** The count after one event: a press when the count is 1 exits and
      leaves it; any other press sets it to 1; the timer resets it to 0. */
  function Step(count: int, e: Event): int {
    match e
    case BackPressed => if count == 1 then count else 1
    case TimerFired => 0
  }

  /** The count after a sequence of events, starting from 0. */
  function CountAfter(events: seq<Event>): int
    decreases |events|
  {
    if events == [] then 0 else Step(CountAfter(events[..|events| - 1]), events[|events| - 1])
  }

  /** The count is 1 exactly when the last event was a back press, so a
      press exits exactly when the event just before it was also a press,
      with no reset in between. */
  lemma {:induction false} CountIsLastPress(events: seq<Event>)
    ensures CountAfter(events) == (if events != [] && events[|events| - 1] == BackPressed then 1 else 0)
    decreases |events|
  {
    if events != [] {
      CountIsLastPress(events[..|events| - 1]);
    }
  }

  class BackHandler {
    var backClickCount: int

    constructor()
      ensures backClickCount == 0
    {
      backClickCount := 0;
    }

    /** `backAction`: exits on the second press, otherwise arms the exit and
        starts the reset timer; it always reports the event as handled. */
    method Back() returns (reaction: Reaction, handled: bool)
      modifies this
      ensures handled
      ensures reaction == ExitApp <==> old(backClickCount) == 1
      ensures backClickCount == Step(old(backClickCount), BackPressed)
      ensures reaction == ArmExit ==> backClickCount == 1
      ensures ToastShown()
    {
      if backClickCount == 1 {
        reaction := ExitApp;
      } else {
        reaction := ArmExit;
        backClickCount := 1;
      }
      handled := true;
    }

    /** The reset timer started by a first press. */
    method Timer()
      modifies this
      ensures backClickCount == Step(old(backClickCount), TimerFired) == 0
      ensures !ToastShown()
    {
      backClickCount := 0;
    }

    /** `exitInfo`: the "Press Back Once Again to Exit" banner. */
    predicate ToastShown()
      reads this
    {
      backClickCount == 1
    }
  }
}
