/** The header that cycles through five motivational quotes. */
module QuotesHeader {

  /** The quotes, in display order. */
  const Quotes: seq<string> := [
    "Stay consistent, stay motivated.",
    "The only way to do great work is to love what you do.",
    "Success is the sum of small efforts, repeated day in and day out.",
    "Your limitation\U{2014}it\U{2019}s only your imagination.",
    "Dream it. Wish it. Do it."]

  /** The interval between two changes of quote, and the fade on each side. */
  const RotationPeriodMs: nat := 4000
  const FadeMs: nat := 500

  /** The index after one change: `(currentIndex + 1) % motivationalQuotes.length`. */
  function Next(i: nat): (r: nat)
    ensures r < |Quotes|
    ensures i + 1 < |Quotes| ==> r == i + 1
  {
    (i + 1) % |Quotes|
  }

  /** The index after `k` changes from the initial index 0. */
  function AfterChanges(k: nat): nat {
    if k == 0 then 0 else Next(AfterChanges(k - 1))
  }

  /** After `k` changes the header shows quote `k mod 5`. */
  lemma {:induction false} AfterChangesIsMod(k: nat)
    ensures AfterChanges(k) == k % |Quotes|
  {
    if k > 0 {
      AfterChangesIsMod(k - 1);
    }
  }

  /** Every quote is shown within the first five changes (counting the
      initial one), and after five changes the cycle starts again. */
  lemma EveryQuoteShown(q: nat, k: nat)
    requires q < |Quotes|
    ensures AfterChanges(q) == q
    ensures AfterChanges(k + |Quotes|) == AfterChanges(k)
  {
    AfterChangesIsMod(q);
    AfterChangesIsMod(k);
    AfterChangesIsMod(k + |Quotes|);
    assert (k + 5) % 5 == k % 5;
  }

  class Header {
    var currentIndex: nat

    /** The index always names a quote. */
    predicate Valid()
      reads this
    {
      currentIndex < |Quotes|
    }

    constructor()
      ensures Valid() && currentIndex == 0
    {
      currentIndex := 0;
    }

    /** The subtitle under the title. */
    function Subtitle(): (r: string)
      reads this
      requires Valid()
      ensures r in Quotes
    {
      Quotes[currentIndex]
    }

    /** The interval callback, once the fade-out has finished. */
    method Change()
      modifies this
      requires Valid()
      ensures Valid()
      ensures currentIndex == Next(old(currentIndex))
    {
      currentIndex := (currentIndex + 1) % |Quotes|;
    }
  }
}
