/**
 Two business days of silence: when a discussion counts as abandoned. Times are milliseconds; the
 offset of Lisbon's local time at each instant is a function.
 */
module BusinessDays {
  import opened Common

  const HOUR := 3600000
  const DAY := 86400000

  // ---- Two business days of silence ------------------------------------------

  datatype Item = Item(at: int, own: bool, bot: bool)

  /** The latest activity that is neither the assistant's own nor a bot's. */
  function LastHuman(items: seq<Item>): (last: Option<int>)
    ensures last.None? <==> forall i :: 0 <= i < |items| ==> items[i].own || items[i].bot
    ensures last.Some? ==> exists i :: 0 <= i < |items| && !items[i].own && !items[i].bot && items[i].at == last.value
    ensures last.Some? ==>
      forall i :: 0 <= i < |items| && !items[i].own && !items[i].bot ==> items[i].at <= last.value
  {
    if items == [] then None
    else
      var rest := LastHuman(items[1..]);
      if items[0].own || items[0].bot then rest
      else if rest.None? || rest.value < items[0].at then Some(items[0].at) else rest
  }

  /** Local days since 1 January 1970, a Thursday. */
  function LocalDay(off: int -> int, t: int): int {
    (t + off(t)) / DAY
  }

  predicate Weekend(day: int) {
    day % 7 == 2 || day % 7 == 3
  }

  /** Saturdays and Sundays, counting Sunday as 0: the first day of 1970 was a Thursday, 4. */
  lemma WeekendIff(day: int)
    ensures Weekend(day) <==> (day + 4) % 7 == 6 || (day + 4) % 7 == 0
  {
  }

  /** A local day holds the instants whose local time lies in it. */
  lemma LocalDayIff(off: int -> int, t: int, day: int)
    ensures LocalDay(off, t) == day <==> day * 86_400_000 <= t + off(t) < (day + 1) * 86_400_000
  {
  }

  /** Business days among the first n steps of 24 hours. */
  function BusinessDays(off: int -> int, t: int, n: nat): nat {
    if n == 0 then 0
    else BusinessDays(off, t, n - 1) + (if Weekend(LocalDay(off, t + n * DAY)) then 0 else 1)
  }

  /** In the five days after t the clock is changed at most once, by at most an hour. */
  ghost predicate OneChange(off: int -> int, t: int, at: int, before: int, after: int) {
    && (forall u :: t <= u <= t + 5 * DAY ==> off(u) == if u < at then before else after)
    && -HOUR <= after - before <= HOUR
  }

  ghost predicate Regular(off: int -> int, t: int) {
    exists at, before, after :: OneChange(off, t, at, before, after)
  }

  /** Under an unchanged offset local days follow each other. */
  lemma SteadyDay(off: int -> int, t: int, k: nat, offset: int)
    requires off(t + k * DAY) == offset
    ensures LocalDay(off, t + k * DAY) == (t + offset) / DAY + k
  {
    assert (t + k * DAY + offset) / DAY == (t + offset) / DAY + k;
  }

  /** A change of the clock moves the count of local days by at most one. */
  lemma ShiftedDay(x: int, y: int)
    requires -HOUR <= y - x <= HOUR
    ensures -1 <= y / DAY - x / DAY <= 1
  {
  }

  /** Five days numbered in a row, but for a shift of one somewhere, hold two business days. */
  lemma FiveDaysHoldTwo(first: int, shift: int, s: nat)
    requires -1 <= shift <= 1 && s <= 6
    ensures var day := (k: int) => first + k + (if k < s then 0 else shift);
      (if Weekend(day(1)) then 0 else 1) + (if Weekend(day(2)) then 0 else 1) + (if Weekend(day(3)) then 0 else 1)
      + (if Weekend(day(4)) then 0 else 1) + (if Weekend(day(5)) then 0 else 1) >= 2
  {
    var r := first % 7;
    assert first == 7 * (first / 7) + r;
  }

  /** The first of the six instants at which the new offset is in force. */
  function FirstAfter(t: int, at: int, k: nat): (s: nat)
    requires k <= 6
    ensures k <= s <= 6
    ensures forall i: nat :: k <= i < s ==> t + i * DAY < at
    ensures s < 6 ==> t + s * DAY >= at
    decreases 6 - k
  {
    if k == 6 || t + k * DAY >= at then k else FirstAfter(t, at, k + 1)
  }

  lemma DayNumber(off: int -> int, t: int, at: int, before: int, after: int, k: nat)
    requires OneChange(off, t, at, before, after) && 1 <= k <= 5
    ensures LocalDay(off, t + k * DAY)
         == (t + before) / DAY + k + (if k < FirstAfter(t, at, 0) then 0 else (t + after) / DAY - (t + before) / DAY)
  {
    var s := FirstAfter(t, at, 0);
    if k < s {
      SteadyDay(off, t, k, before);
    } else {
      assert t + k * DAY >= t + s * DAY;
      SteadyDay(off, t, k, after);
    }
  }

  lemma FiveStepsAreEnough(off: int -> int, t: int)
    requires Regular(off, t)
    ensures BusinessDays(off, t, 5) >= 2
  {
    var at, before, after :| OneChange(off, t, at, before, after);
    ShiftedDay(t + before, t + after);
    var first, s := (t + before) / DAY, FirstAfter(t, at, 0);
    var shift := (t + after) / DAY - first;
    forall k: nat | 1 <= k <= 5 ensures NumberedBy(off, t, first, shift, s, k) {
      DayNumber(off, t, at, before, after, k);
    }
    NumberedDaysHoldTwo(off, t, first, shift, s);
  }

  predicate NumberedBy(off: int -> int, t: int, first: int, shift: int, s: nat, k: nat) {
    LocalDay(off, t + k * DAY) == first + k + (if k < s then 0 else shift)
  }

  lemma NumberedDaysHoldTwo(off: int -> int, t: int, first: int, shift: int, s: nat)
    requires -1 <= shift <= 1 && s <= 6
    requires forall k: nat :: 1 <= k <= 5 ==> NumberedBy(off, t, first, shift, s, k)
    ensures BusinessDays(off, t, 5) >= 2
  {
    assert NumberedBy(off, t, first, shift, s, 1) && NumberedBy(off, t, first, shift, s, 2)
      && NumberedBy(off, t, first, shift, s, 3) && NumberedBy(off, t, first, shift, s, 4)
      && NumberedBy(off, t, first, shift, s, 5);
    FiveDaysHoldTwo(first, shift, s);
    FiveSteps(off, t);
  }

  lemma FiveSteps(off: int -> int, t: int)
    ensures BusinessDays(off, t, 5)
         == (if Weekend(LocalDay(off, t + 1 * DAY)) then 0 else 1)
          + (if Weekend(LocalDay(off, t + 2 * DAY)) then 0 else 1)
          + (if Weekend(LocalDay(off, t + 3 * DAY)) then 0 else 1)
          + (if Weekend(LocalDay(off, t + 4 * DAY)) then 0 else 1)
          + (if Weekend(LocalDay(off, t + 5 * DAY)) then 0 else 1)
  {
    var b := (n: nat) => BusinessDays(off, t, n);
    assert b(5) == b(4) + (if Weekend(LocalDay(off, t + 5 * DAY)) then 0 else 1);
    assert b(4) == b(3) + (if Weekend(LocalDay(off, t + 4 * DAY)) then 0 else 1);
    assert b(3) == b(2) + (if Weekend(LocalDay(off, t + 3 * DAY)) then 0 else 1);
    assert b(2) == b(1) + (if Weekend(LocalDay(off, t + 2 * DAY)) then 0 else 1);
    assert b(1) == b(0) + (if Weekend(LocalDay(off, t + 1 * DAY)) then 0 else 1);
  }

  lemma {:induction false} FewSteps(off: int -> int, t: int, n: nat)
    ensures BusinessDays(off, t, n) <= n
  {
    if n > 0 { FewSteps(off, t, n - 1); }
  }

  lemma {:induction false} MoreSteps(off: int -> int, t: int, m: nat, n: nat)
    requires m <= n
    ensures BusinessDays(off, t, m) <= BusinessDays(off, t, n)
  {
    if m < n { MoreSteps(off, t, m, n - 1); }
  }

  /** The n-th step is the first to complete two business days. */
  ghost predicate SecondAt(off: int -> int, t: int, n: nat) {
    2 <= n <= 5 && BusinessDays(off, t, n) == 2 && forall m: nat :: m < n ==> BusinessDays(off, t, m) < 2
  }

  lemma FirstCompletes(off: int -> int, t: int, n: nat)
    requires BusinessDays(off, t, 5) >= 2 && BusinessDays(off, t, n) == 2
    requires n > 0 ==> BusinessDays(off, t, n - 1) < 2
    ensures SecondAt(off, t, n)
  {
    FewSteps(off, t, n);
    if n > 5 { MoreSteps(off, t, 5, n - 1); }
    forall m: nat | m < n ensures BusinessDays(off, t, m) < 2 { MoreSteps(off, t, m, n - 1); }
  }

  lemma OneStep(off: int -> int, t: int, n: nat, at: int)
    requires n > 0 && at == t + n * DAY
    ensures BusinessDays(off, t, n) == BusinessDays(off, t, n - 1) + (if Weekend(LocalDay(off, at)) then 0 else 1)
  {
  }

  /** While two business days are not complete, fewer than five steps have been made. */
  lemma NotYet(off: int -> int, t: int, n: nat)
    requires BusinessDays(off, t, 5) >= 2 && BusinessDays(off, t, n) < 2
    ensures n < 5
  {
    if n >= 5 { MoreSteps(off, t, 5, n); }
  }

  /**
   The end of the second business day after the last human activity, if there was any: the least
   number of whole days, from two to five, that holds two business days.
   */
  method PublicFollowupAt(items: seq<Item>, off: int -> int) returns (due: Option<int>, ghost n: nat)
    requires LastHuman(items).Some? ==> Regular(off, LastHuman(items).value)
    ensures due.None? <==> LastHuman(items).None?
    ensures due.Some? ==>
      && due.value == LastHuman(items).value + n * DAY
      && SecondAt(off, LastHuman(items).value, n)
      && !Weekend(LocalDay(off, due.value))
  {
    n := 0;
    var last := LastHuman(items);
    if last.None? { return None, n; }
    ghost var t := last.value;
    var at := last.value;
    var days := 0;
    FiveStepsAreEnough(off, t);
    while days < 2
      invariant at == t + n * DAY
      invariant 0 <= days == BusinessDays(off, t, n) <= 2
      invariant n > 0 ==> BusinessDays(off, t, n - 1) < 2
      invariant days == 2 ==> !Weekend(LocalDay(off, at))
      decreases 5 - n
    {
      NotYet(off, t, n);
      at := at + DAY;
      n := n + 1;
      OneStep(off, t, n, at);
      if !Weekend(LocalDay(off, at)) {
        days := days + 1;
      }
    }
    FirstCompletes(off, t, n);
    due := Some(at);
  }
}
