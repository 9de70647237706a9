/** The per-goal day checklist: one row per day of the goal, a checkbox per
    day, the selection kept in device storage under a per-goal key, and the
    progress percentage sent to the server. */
module GoalCheck {
  import opened Base
  import opened Text
  import opened JsNumber
  import opened Calendar
  import opened GoalRecord

  // ---------------------------------------------------------------------
  // The day list
  // ---------------------------------------------------------------------

  /** The "DD-MM-YYYY" labels of `n` consecutive days starting at `s`. */
  function DayList(s: CalDate, n: nat): (r: seq<string>)
    ensures |r| == n
    ensures forall i :: 0 <= i < n ==> r[i] == FormatDash(AddDays(s, i))
  {
    if n == 0 then [] else DayList(s, n - 1) + [FormatDash(AddDays(s, n - 1))]
  }

  /** The number of days from `s` to `e` inclusive, 0 when either date does
      not parse or `s` comes after `e`. */
  function SpanDays(s: Option<CalDate>, e: Option<CalDate>): nat {
    if s.Some? && e.Some? && Ordinal(s.value) <= Ordinal(e.value)
    then Ordinal(e.value) - Ordinal(s.value) + 1
    else 0
  }

  /** Label `x` reads back as a day strictly before the day `y` reads back as. */
  predicate LabelBefore(x: string, y: string) {
    ParseDash(x).Some? && ParseDash(y).Some? && DateLess(ParseDash(x).value, ParseDash(y).value)
  }

  /** Consecutive days have pairwise different labels, listed in calendar order. */
  lemma DayListOrdered(s: CalDate, n: nat)
    ensures NoDup(DayList(s, n))
    ensures var r := DayList(s, n); forall i, j :: 0 <= i < j < n ==> LabelBefore(r[i], r[j])
  {
    var r := DayList(s, n);
    forall i, j | 0 <= i < j < n
      ensures r[i] != r[j] && LabelBefore(r[i], r[j])
    {
      var a, b := AddDays(s, i), AddDays(s, j);
      OrdinalOrder(a, b);
      FormatDashRoundTrip(a);
      FormatDashRoundTrip(b);
    }
  }

  /** The `dateList` loop: starting from the start date, push its label and
      move one day on while the cursor is on or before the end date. */
  method BuildDateList(start: Option<CalDate>, end: Option<CalDate>) returns (list: seq<string>)
    ensures |list| == SpanDays(start, end)
    ensures start.Some? ==> list == DayList(start.value, |list|)
    ensures list != [] ==>
      && start.Some? && end.Some?
      && list[0] == FormatDash(start.value) && list[|list| - 1] == FormatDash(end.value)
    ensures NoDup(list)
  {
    list := [];
    if start.None? || end.None? {
      return;
    }
    var s, e := start.value, end.value;
    var cursor := s;
    while Ordinal(cursor) <= Ordinal(e)
      invariant cursor == AddDays(s, |list|)
      invariant list == DayList(s, |list|)
      invariant list != [] ==> Ordinal(cursor) <= Ordinal(e) + 1
      decreases Ordinal(e) + 1 - Ordinal(cursor)
    {
      list := list + [FormatDash(cursor)];
      cursor := NextDay(cursor);
    }
    if list != [] {
      OrdinalOrder(AddDays(s, |list| - 1), e);
    }
    DayListOrdered(s, |list|);
  }

  // ---------------------------------------------------------------------
  // The selection
  // ---------------------------------------------------------------------

  /** The updater in `toggleCheckbox`: a selected date is removed (every
      occurrence of it), an unselected one is appended. */
  function Toggle(sel: seq<string>, date: string): (r: seq<string>)
    ensures date in r <==> date !in sel
    ensures forall d :: d != date ==> (d in r <==> d in sel)
    ensures date !in sel ==> r == sel + [date]
    ensures date in sel ==> IsSubsequence(r, sel) && |r| < |sel|
  {
    if date in sel then Filter(sel, d => d != date) else sel + [date]
  }

  /** Toggling keeps a duplicate-free selection duplicate-free, and keeps
      it within the day list when the toggled date is one of its days. */
  lemma ToggleKeepsSelectionSound(sel: seq<string>, days: seq<string>, date: string)
    requires NoDup(sel)
    ensures NoDup(Toggle(sel, date))
    ensures (forall d :: d in sel ==> d in days) && date in days ==>
      forall d :: d in Toggle(sel, date) ==> d in days
  {
    if date in sel {
      FilterNoDup(sel, d => d != date);
    } else {
      var r := sel + [date];
      forall i, j | 0 <= i < j < |r| ensures r[i] != r[j] {
        if j == |sel| {
          assert r[i] in sel;
        }
      }
    }
  }

  /** Checking a box and unchecking it again restores the exact selection. */
  lemma ToggleTwice(sel: seq<string>, date: string)
    requires date !in sel
    ensures Toggle(Toggle(sel, date), date) == sel
  {
    var p := (d: string) => d != date;
    FilterAppend(sel, [date], p);
    assert Filter([date], p) == [];
    assert Filter(sel, p) == sel;
  }

  // ---------------------------------------------------------------------
  // Progress and status
  // ---------------------------------------------------------------------

  /** `determineStatus`. */
  function DetermineStatus(p: Num): (r: string)
    ensures r == "pending" <==> Is(p, 0.0)
    ensures r == "in_progress" <==> Above(p, 0.0) && Below(p, 100.0)
    ensures r == "completed" <==> Is(p, 100.0)
    ensures r == "failed" <==> !p.Fin? || p.r < 0.0 || p.r > 100.0
  {
    if Is(p, 0.0) then "pending"
    else if Above(p, 0.0) && Below(p, 100.0) then "in_progress"
    else if Is(p, 100.0) then "completed"
    else "failed"
  }

  /** The percentage on the save button: selected days over listed days,
      times 100, with no guard for an empty list. */
  function SavedPercent(selected: nat, listed: nat): (r: Num)
    ensures listed == 0 ==> DetermineStatus(r) == "failed"
  {
    PercentOf(selected, listed)
  }

  lemma RatioBounds(k: real, n: real)
    requires 0.0 <= k <= n && n > 0.0
    ensures 0.0 <= k / n <= 1.0
    ensures k / n == 1.0 <==> k == n
    ensures k / n == 0.0 <==> k == 0.0
  {
  }

  /** When the selection holds distinct days of the list, the saved
      percentage lies in [0, 100] and is 100 exactly when every day is
      checked; it is 0 exactly when nothing is checked. */
  lemma SavedPercentBounds(sel: seq<string>, days: seq<string>)
    requires NoDup(sel) && NoDup(days) && |days| > 0
    requires forall d :: d in sel ==> d in days
    ensures SavedPercent(|sel|, |days|).Fin?
    ensures 0.0 <= SavedPercent(|sel|, |days|).r <= 100.0
    ensures Is(SavedPercent(|sel|, |days|), 100.0) <==> forall d :: d in days ==> d in sel
    ensures Is(SavedPercent(|sel|, |days|), 0.0) <==> sel == []
  {
    var S := set d | d in sel;
    var D := set d | d in days;
    NoDupCardinality(sel);
    NoDupCardinality(days);
    SubsetCardinality(S, D);
    RatioBounds(|sel| as real, |days| as real);
    if forall d :: d in days ==> d in sel {
      assert S == D;
    }
    if |sel| == |days| {
      SameSizeSubset(S, D);
      forall d | d in days ensures d in sel {
        assert d in D;
      }
    }
  }

  lemma SameSizeSubset<T>(a: set<T>, b: set<T>)
    requires a <= b && |a| == |b|
    ensures a == b
  {
    if x :| x in b && x !in a {
      SubsetCardinality(a, b - {x});
    }
  }

  lemma SubsetCardinality<T>(a: set<T>, b: set<T>)
    requires a <= b
    ensures |a| <= |b|
  {
    assert b == a + (b - a);
  }

  /** `STORAGE_KEY`: "selectedDates_" followed by the goal id. */
  function StorageKey(id: nat): (r: string)
    ensures StartsWith(r, "selectedDates_")
  {
    "selectedDates_" + NatToString(id)
  }

  /** Different goals never share a storage key. */
  lemma StorageKeyInjective(a: nat, b: nat)
    requires StorageKey(a) == StorageKey(b)
    ensures a == b
  {
    var p := "selectedDates_";
    assert StorageKey(a)[|p|..] == NatToString(a);
    assert StorageKey(b)[|p|..] == NatToString(b);
    NatToStringInjective(a, b);
  }

  /** The argument of `updateProgress`. */
  datatype ProgressRequest = ProgressRequest(goalId: nat, progress: Num, progressStatus: string)

  /** What `AsyncStorage.getItem` yields: a failure, or the stored list if any. */
  datatype Read = ReadFailed | Stored(value: Option<seq<string>>)

  /** Device storage as a map from key to the stored list of labels. */
  class DateStorage {
    var items: map<string, seq<string>>

    constructor()
      ensures items == map[]
    {
      items := map[];
    }

    /** `setItem`; a failed write leaves the storage as it was. */
    method SetItem(key: string, value: seq<string>, fails: bool)
      modifies this
      ensures items == if fails then old(items) else old(items)[key := value]
    {
      if !fails {
        items := items[key := value];
      }
    }

    /** `getItem`: the stored value, nothing for an absent key, or a failure. */
    method GetItem(key: string, fails: bool) returns (r: Read)
      ensures fails ==> r == ReadFailed
      ensures !fails ==> r == Stored(if key in items then Some(items[key]) else None)
    {
      if fails {
        r := ReadFailed;
      } else if key in items {
        r := Stored(Some(items[key]));
      } else {
        r := Stored(None);
      }
    }
  }

  /** The checklist screen for one goal. */
  class Checklist {
    const goalId: nat
    const dateList: seq<string>
    const storage: DateStorage
    var selected: seq<string>

    /** Mounting the screen: the day list is built and nothing is selected. */
    constructor(g: Goal, storage: DateStorage)
      ensures goalId == g.id && this.storage == storage && selected == []
      ensures |dateList| == SpanDays(g.startDate, g.endDate) && NoDup(dateList)
      ensures g.startDate.Some? ==> dateList == DayList(g.startDate.value, |dateList|)
    {
      var list := BuildDateList(g.startDate, g.endDate);
      goalId := g.id;
      dateList := list;
      this.storage := storage;
      selected := [];
    }

    /** `loadSelectedDates`: the stored list replaces the selection when one
        is stored; a missing entry or a failed read leaves it as it is. */
    method Load(readFails: bool)
      modifies this
      ensures var stored := if !readFails && StorageKey(goalId) in storage.items
                            then Some(storage.items[StorageKey(goalId)]) else None;
        selected == if stored.Some? then stored.value else old(selected)
    {
      var r := storage.GetItem(StorageKey(goalId), readFails);
      if r.Stored? && r.value.Some? {
        selected := r.value.value;
      }
    }

    /** `toggleCheckbox` followed by `saveSelectedDates`: the new selection is
        written under this goal's key (unless the write fails) and no other
        key changes. */
    method ToggleDay(date: string, writeFails: bool)
      modifies this, storage
      ensures selected == Toggle(old(selected), date)
      ensures storage.items == if writeFails then old(storage.items)
                               else old(storage.items)[StorageKey(goalId) := selected]
    {
      selected := Toggle(selected, date);
      storage.SetItem(StorageKey(goalId), selected, writeFails);
    }

    /** The save button: the request `updateProgressHandler` dispatches. */
    method SaveProgress() returns (req: ProgressRequest)
      ensures req.goalId == goalId
      ensures req.progress == SavedPercent(|selected|, |dateList|)
      ensures req.progressStatus == DetermineStatus(req.progress)
      ensures dateList == [] ==> req.progressStatus == "failed"
    {
      var progress := SavedPercent(|selected|, |dateList|);
      req := ProgressRequest(goalId, progress, DetermineStatus(progress));
    }
  }
}
