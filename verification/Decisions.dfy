/**
 When a matter is looked at again: the check before a deadline, what a check passes over, and the
 rule that a brought-forward deadline never delays one. Times are milliseconds.
 */
module Decisions {
  import opened Common

  const HOUR := 3600000
  const DAY := 86400000
  const RETRY := 300000
  const LEAD := 900000

  // ---- The next check of a matter ----------------------------------------------

  datatype State = Open | Snoozed | Dismissed | Resolved

  datatype Matter = Matter(state: State, deadline: Option<int>, nextCheck: int)

  datatype Phase = NoDeadline | Future | Approaching | Due

  function Min(x: int, y: int): int {
    if x < y then x else y
  }

  function Max(x: int, y: int): int {
    if x < y then y else x
  }

  function DeadlinePhase(m: Matter, now: int): Phase {
    if m.deadline.None? then NoDeadline
    else if now >= m.deadline.value then Due
    else if now >= m.deadline.value - LEAD then Approaching else Future
  }

  function NextMatterCheck(m: Matter, now: int): Option<int> {
    if m.state.Resolved? || m.state.Dismissed? then None
    else if m.state.Snoozed? && m.nextCheck > now then Some(m.nextCheck)
    else if m.deadline.None? then Some(now + DAY)
    else if m.deadline.value > now then
      var preparation := m.deadline.value - LEAD;
      Some(Min(now + DAY, if preparation > now then preparation else m.deadline.value))
    else Some(now + HOUR)
  }

  function NextInvestigationCheck(m: Matter, abandonedAt: Option<int>, now: int): Option<int> {
    var next := NextMatterCheck(m, now);
    if next.None? || m.state.Snoozed? then next
    else if abandonedAt.Some? && abandonedAt.value > now then Some(Min(next.value, abandonedAt.value))
    else next
  }

  /** A deadline approaches for its last quarter of an hour, and is due from its instant on. */
  lemma PhaseIff(m: Matter, now: int)
    ensures DeadlinePhase(m, now) == NoDeadline <==> m.deadline.None?
    ensures DeadlinePhase(m, now) == Future <==> m.deadline.Some? && now < m.deadline.value - 900_000
    ensures DeadlinePhase(m, now) == Approaching <==>
      m.deadline.Some? && m.deadline.value - 900_000 <= now < m.deadline.value
    ensures DeadlinePhase(m, now) == Due <==> m.deadline.Some? && m.deadline.value <= now
  {
  }

  /** A day without a deadline, an hour after it, and before it a day, its last quarter of an hour or its instant. */
  lemma ChecksInMilliseconds(x: int)
    ensures NextMatterCheck(Matter(Open, None, x), x) == Some(x + 86_400_000)
    ensures NextMatterCheck(Matter(Open, Some(x), x), x) == Some(x + 3_600_000)
    ensures NextMatterCheck(Matter(Open, Some(x + 90_000_000), x), x) == Some(x + 86_400_000)
    ensures NextMatterCheck(Matter(Open, Some(x + 1_000_000), x), x) == Some(x + 100_000)
    ensures NextMatterCheck(Matter(Open, Some(x + 800_000), x), x) == Some(x + 800_000)
    ensures NextMatterCheck(Matter(State.Snoozed, None, x + 1), x) == Some(x + 1)
    ensures NextMatterCheck(Matter(State.Snoozed, None, x), x) == Some(x + 86_400_000)
    ensures NextInvestigationCheck(Matter(Open, None, x), Some(x + 7), x) == Some(x + 7)
  {
  }

  /** A check is never now or earlier, and there is none exactly for a matter that is over. */
  lemma ChecksAreAhead(m: Matter, abandonedAt: Option<int>, now: int)
    ensures NextInvestigationCheck(m, abandonedAt, now).None? <==> m.state.Resolved? || m.state.Dismissed?
    ensures NextInvestigationCheck(m, abandonedAt, now).Some? ==>
      NextInvestigationCheck(m, abandonedAt, now).value > now
  {
  }

  /** The instants a check must not pass over: the lead before the deadline, the deadline, and the abandonment. */
  predicate Landmark(m: Matter, abandonedAt: Option<int>, x: int) {
    || (m.deadline.Some? && (x == m.deadline.value - LEAD || x == m.deadline.value))
    || (abandonedAt.Some? && x == abandonedAt.value)
  }

  /** A check at `check`, set at `now`, comes after a landmark that was ahead. */
  ghost predicate PassesOver(m: Matter, abandonedAt: Option<int>, now: int, check: int) {
    exists x :: Landmark(m, abandonedAt, x) && now < x < check
  }

  /** Some landmark lies between two instants. */
  predicate LandmarkBetween(m: Matter, abandonedAt: Option<int>, from: int, to: int) {
    || (m.deadline.Some? && (from < m.deadline.value - LEAD < to || from < m.deadline.value < to))
    || (abandonedAt.Some? && from < abandonedAt.value < to)
  }

  /** The abandonment comes before what the deadline alone would be checked at. */
  predicate AbandonedBeforeDeadlineCheck(m: Matter, abandonedAt: Option<int>, now: int) {
    && abandonedAt.Some? && now < abandonedAt.value
    && if m.deadline.None? then abandonedAt.value < now + DAY
       else if m.deadline.value <= now then abandonedAt.value < now + HOUR
       else if m.deadline.value - LEAD <= now then abandonedAt.value < m.deadline.value
       else abandonedAt.value < now + DAY && abandonedAt.value < m.deadline.value - LEAD
  }

  lemma PassesOverIff(m: Matter, abandonedAt: Option<int>, now: int, check: int)
    ensures PassesOver(m, abandonedAt, now, check) <==> LandmarkBetween(m, abandonedAt, now, check)
  {
    if m.deadline.Some? {
      assert Landmark(m, abandonedAt, m.deadline.value) && Landmark(m, abandonedAt, m.deadline.value - LEAD);
    }
    if abandonedAt.Some? { assert Landmark(m, abandonedAt, abandonedAt.value); }
  }

  /**
   The check by deadline alone passes over a landmark ahead exactly when a snooze reaches beyond
   one, or the abandonment comes first.
   */
  lemma MatterCheckPassesIff(m: Matter, abandonedAt: Option<int>, now: int)
    requires !m.state.Resolved? && !m.state.Dismissed?
    ensures PassesOver(m, abandonedAt, now, NextMatterCheck(m, now).value) <==>
      if m.state.Snoozed? && m.nextCheck > now then LandmarkBetween(m, abandonedAt, now, m.nextCheck)
      else AbandonedBeforeDeadlineCheck(m, abandonedAt, now)
  {
    PassesOverIff(m, abandonedAt, now, NextMatterCheck(m, now).value);
  }

  /** The check by deadline and abandonment passes over neither, unless the matter is marked snoozed. */
  lemma LandmarksAreMet(m: Matter, abandonedAt: Option<int>, now: int)
    requires !m.state.Resolved? && !m.state.Dismissed?
    ensures PassesOver(m, abandonedAt, now, NextInvestigationCheck(m, abandonedAt, now).value) <==>
      && m.state.Snoozed?
      && if m.nextCheck > now then LandmarkBetween(m, abandonedAt, now, m.nextCheck)
         else AbandonedBeforeDeadlineCheck(m, abandonedAt, now)
  {
    PassesOverIff(m, abandonedAt, now, NextInvestigationCheck(m, abandonedAt, now).value);
    if m.state.Snoozed? { MatterCheckPassesIff(m, abandonedAt, now); }
  }

  // ---- The next check after an investigation ---------------------------------------

  /**
   How an investigation ends, in the order in which the service looks. All but Displaced are the
   endings of a worker that still owns its job; finishing a job one no longer owns changes nothing.
   */
  datatype Ending =
    | Controlled             // the service is stopped or paused
    | Scheduled              // the matter's check is still ahead
    | Unfollowed             // its owner stopped following the thread
    | Active                 // its thread is active in a task
    | Unread                 // its thread could not be read to the end, or is no longer accessible
    | Deferred               // the analysis was refused: budget, concurrency, controls or access
    | Failed                 // any other error
    | Displaced(due: Option<int>)  // the job was scheduled anew, claimed again or deleted meanwhile, and stays as it is
    | Overtaken              // a source changed during the analysis, or the service was stopped
    | Over                   // meanwhile resolved, dismissed or invalid, or found resolved
    | Snoozed(until: int)    // meanwhile snoozed
    | Completed              // analysed, or unchanged since it last was

  /** The endings a matter with this check can have at `now`. */
  predicate Possible(m: Matter, now: int, e: Ending) {
    e.Controlled? || if m.nextCheck > now then e.Scheduled? else !e.Scheduled? && (e.Snoozed? ==> e.until > now)
  }

  /** How long an investigation that was not made is put off. */
  function Delay(e: Ending): Option<int> {
    if e.Controlled? || e.Deferred? then Some(HOUR) else if e.Failed? then Some(RETRY) else None
  }

  /** When the job of an open or snoozed matter is due again, if ever. */
  function InvestigatedNext(m: Matter, abandonedAt: Option<int>, now: int, e: Ending): Option<int> {
    if Delay(e).Some? then Some(now + Delay(e).value)
    else match e
    case Scheduled => Some(m.nextCheck)
    case Active => NextMatterCheck(m, now)
    case Snoozed(until) => Some(until)
    case Displaced(due) => due
    case Completed => NextInvestigationCheck(m.(state := Open), abandonedAt, now)
    case _ => None
  }

  /** A landmark that is ahead is not met: the next check comes after it, or there is none. */
  ghost predicate Misses(m: Matter, abandonedAt: Option<int>, now: int, next: Option<int>) {
    exists x :: Landmark(m, abandonedAt, x) && now < x && (next.None? || x < next.value)
  }

  predicate LandmarkAhead(m: Matter, abandonedAt: Option<int>, now: int) {
    (m.deadline.Some? && now < m.deadline.value) || (abandonedAt.Some? && now < abandonedAt.value)
  }

  lemma MissesIff(m: Matter, abandonedAt: Option<int>, now: int, next: Option<int>)
    ensures Misses(m, abandonedAt, now, next) <==>
      if next.None? then LandmarkAhead(m, abandonedAt, now) else LandmarkBetween(m, abandonedAt, now, next.value)
  {
    if next.Some? { PassesOverIff(m, abandonedAt, now, next.value); }
    if m.deadline.Some? {
      assert Landmark(m, abandonedAt, m.deadline.value) && Landmark(m, abandonedAt, m.deadline.value - LEAD);
    }
    if abandonedAt.Some? { assert Landmark(m, abandonedAt, abandonedAt.value); }
  }

  /** When an ending misses a landmark, told by the stored fields and the clock. */
  predicate MissedBy(m: Matter, abandonedAt: Option<int>, now: int, e: Ending) {
    if Delay(e).Some? then LandmarkBetween(m, abandonedAt, now, now + Delay(e).value)
    else match e
    case Completed => false
    case Active => AbandonedBeforeDeadlineCheck(m, abandonedAt, now)
    case Scheduled => LandmarkBetween(m, abandonedAt, now, m.nextCheck)
    case Snoozed(until) => LandmarkBetween(m, abandonedAt, now, until)
    case Displaced(due) =>
      if due.Some? then LandmarkBetween(m, abandonedAt, now, due.value) else LandmarkAhead(m, abandonedAt, now)
    case _ => LandmarkAhead(m, abandonedAt, now)
  }

  /**
   Exactly when the job of an open or snoozed matter misses a landmark ahead. Analysed or unchanged
   it never does; of an active thread, when the abandonment comes before the check by deadline; put
   off, when a landmark lies within the delay; displaced, when one lies before the job is due again;
   without a next check, when there is one at all.
   */
  lemma InvestigationMissesIff(m: Matter, abandonedAt: Option<int>, now: int, e: Ending)
    requires (m.state.Open? || m.state.Snoozed?) && Possible(m, now, e)
    ensures Misses(m, abandonedAt, now, InvestigatedNext(m, abandonedAt, now, e)) <==> MissedBy(m, abandonedAt, now, e)
  {
    MissesIff(m, abandonedAt, now, InvestigatedNext(m, abandonedAt, now, e));
    match e
    case Active =>
      PassesOverIff(m, abandonedAt, now, NextMatterCheck(m, now).value);
      MatterCheckPassesIff(m, abandonedAt, now);
    case Completed => CompletedMeetsAll(m, abandonedAt, now);
    case _ =>
  }

  lemma CompletedMeetsAll(m: Matter, abandonedAt: Option<int>, now: int)
    requires m.state.Open? || m.state.Snoozed?
    ensures var next := NextInvestigationCheck(m.(state := Open), abandonedAt, now);
      next.Some? && !LandmarkBetween(m, abandonedAt, now, next.value)
  {
  }

  /** With a deadline in thirty-five minutes, an analysis put off by an hour misses the lead and the deadline. */
  lemma DeferralMissesDeadline(now: int)
    ensures var m := Matter(Open, Some(now + 2100000), now);
      && Possible(m, now, Deferred) && InvestigatedNext(m, None, now, Deferred) == Some(now + HOUR)
      && now < m.deadline.value - LEAD < m.deadline.value < now + HOUR
      && Misses(m, None, now, Some(now + HOUR))
      && InvestigatedNext(m, None, now, Completed) == Some(m.deadline.value - LEAD)
  {
    InvestigationMissesIff(Matter(Open, Some(now + 2100000), now), None, now, Deferred);
  }

  /** Stopped, paused or refused it is put off by an hour, after any other error by five minutes. */
  lemma DelaysInMilliseconds(m: Matter, abandonedAt: Option<int>, now: int)
    ensures InvestigatedNext(m, abandonedAt, now, Controlled) == Some(now + 3_600_000)
    ensures InvestigatedNext(m, abandonedAt, now, Deferred) == Some(now + 3_600_000)
    ensures InvestigatedNext(m, abandonedAt, now, Failed) == Some(now + 300_000)
  {
  }

  /** The same when the service is paused, though the check was not due at all. */
  lemma PauseMissesDeadline(now: int)
    ensures var m := Matter(Open, Some(now + 2100000), now + 1200000);
      && Possible(m, now, Controlled) && Misses(m, None, now, InvestigatedNext(m, None, now, Controlled))
      && !Misses(m, None, now, InvestigatedNext(m, None, now, Scheduled))
  {
    InvestigationMissesIff(Matter(Open, Some(now + 2100000), now + 1200000), None, now, Controlled);
    InvestigationMissesIff(Matter(Open, Some(now + 2100000), now + 1200000), None, now, Scheduled);
  }

  /** A job scheduled anew during the analysis stays due since before it, and is looked at again at once. */
  lemma DisplacedMissesNothing(m: Matter, abandonedAt: Option<int>, now: int, due: int)
    requires (m.state.Open? || m.state.Snoozed?) && m.nextCheck <= now && due <= now
    ensures !Misses(m, abandonedAt, now, InvestigatedNext(m, abandonedAt, now, Displaced(Some(due))))
  {
    InvestigationMissesIff(m, abandonedAt, now, Displaced(Some(due)));
  }

  /**
   Overtaken by a change of another thread, an open matter is left without a check before its
   deadline of tomorrow.
   */
  lemma OvertakenMissesDeadline(now: int)
    ensures var m := Matter(Open, Some(now + DAY), now);
      && Possible(m, now, Overtaken) && InvestigatedNext(m, None, now, Overtaken).None?
      && Misses(m, None, now, None)
  {
    InvestigationMissesIff(Matter(Open, Some(now + DAY), now), None, now, Overtaken);
  }

  /** An open matter of an active thread, abandoned within the hour, is next looked at a day later. */
  lemma ActiveThreadPassesAbandonment(now: int)
    ensures var m, abandonedAt := Matter(Open, None, now), Some(now + HOUR);
      && InvestigatedNext(m, abandonedAt, now, Active) == Some(now + DAY)
      && Misses(m, abandonedAt, now, Some(now + DAY))
      && InvestigatedNext(m, abandonedAt, now, Completed) == abandonedAt
  {
    InvestigationMissesIff(Matter(Open, None, now), Some(now + HOUR), now, Active);
  }

  /** A matter snoozed for two days passes over its deadline of tomorrow. */
  lemma SnoozePassesDeadline(now: int)
    ensures var m := Matter(State.Snoozed, Some(now + DAY), now + 2 * DAY);
      && InvestigatedNext(m, None, now, Scheduled) == Some(now + 2 * DAY)
      && Misses(m, None, now, Some(now + 2 * DAY))
  {
    InvestigationMissesIff(Matter(State.Snoozed, Some(now + DAY), now + 2 * DAY), None, now, Scheduled);
  }

  /**
   Computed for a matter still marked snoozed though its snooze has run out, a check would ignore
   the abandonment; the service lifts the snooze first.
   */
  lemma ElapsedSnoozeWouldIgnoreAbandonment()
    ensures var m, abandonedAt := Matter(State.Snoozed, None, 0), Some(20);
      && NextInvestigationCheck(m, abandonedAt, 10) == Some(10 + DAY)
      && PassesOver(m, abandonedAt, 10, 10 + DAY)
      && InvestigatedNext(m, abandonedAt, 10, Completed) == abandonedAt
  {
    LandmarksAreMet(Matter(State.Snoozed, None, 0), Some(20), 10);
  }

  /** Checks made exactly when they are due. */
  function Punctual(m: Matter, abandonedAt: Option<int>, now: int, n: nat): int
    requires m.state.Open?
  {
    if n == 0 then now
    else
      var last := Punctual(m, abandonedAt, now, n - 1);
      NextInvestigationCheck(m, abandonedAt, last).value
  }

  lemma {:induction false} PunctualShift(m: Matter, abandonedAt: Option<int>, now: int, n: nat)
    requires m.state.Open? && n > 0
    ensures Punctual(m, abandonedAt, now, n)
         == Punctual(m, abandonedAt, NextInvestigationCheck(m, abandonedAt, now).value, n - 1)
  {
    if n > 1 { PunctualShift(m, abandonedAt, now, n - 1); }
  }

  /** However far ahead the deadline, punctual checks come to the start of its approaching window, on the instant. */
  lemma {:induction false} ChecksReachLead(m: Matter, abandonedAt: Option<int>, now: int) returns (n: nat)
    requires m.state.Open? && m.deadline.Some? && now <= m.deadline.value - LEAD
    ensures Punctual(m, abandonedAt, now, n) == m.deadline.value - 900_000
    ensures DeadlinePhase(m, Punctual(m, abandonedAt, now, n)) == Approaching
    decreases m.deadline.value - LEAD - now
  {
    if now == m.deadline.value - LEAD {
      n := 0;
    } else {
      var k := ChecksReachLead(m, abandonedAt, NextInvestigationCheck(m, abandonedAt, now).value);
      n := k + 1;
      PunctualShift(m, abandonedAt, now, n);
    }
  }

  // ---- A deadline brought forward ------------------------------------------------

  function ReconciledCheck(previous: Option<Matter>, deadline: Option<int>, now: int): int {
    if previous.None? || previous.value.state.Resolved? then now
    else
      var p := previous.value;
      if p.state.Snoozed? || p.state.Dismissed? then p.nextCheck
      else if deadline.None? || (p.deadline.Some? && deadline.value >= p.deadline.value) then p.nextCheck
      else Min(p.nextCheck, Max(now, deadline.value - LEAD))
  }

  /**
   A matter new or resolved is looked at at once; snoozed or dismissed, or with no nearer deadline, it
   keeps its check; else it is brought forward to the lead of the deadline, if that comes first.
   */
  lemma ReconciledCheckIs(p: Matter, deadline: Option<int>, now: int)
    ensures ReconciledCheck(None, deadline, now) == now
    ensures p.state.Resolved? ==> ReconciledCheck(Some(p), deadline, now) == now
    ensures p.state.Open? && (deadline.None? || (p.deadline.Some? && p.deadline.value <= deadline.value)) ==>
      ReconciledCheck(Some(p), deadline, now) == p.nextCheck
    ensures p.state.Open? && deadline.Some? && (p.deadline.None? || deadline.value < p.deadline.value) ==>
      var lead := if deadline.value - 900_000 < now then now else deadline.value - 900_000;
      ReconciledCheck(Some(p), deadline, now) == if p.nextCheck < lead then p.nextCheck else lead
  {
  }

  /** New findings never delay an open matter, never wake a snoozed one, and meet the lead of a nearer deadline. */
  lemma ReconcilingNeverDelays(p: Matter, deadline: Option<int>, now: int)
    ensures p.state.Open? ==> ReconciledCheck(Some(p), deadline, now) <= p.nextCheck
    ensures p.state.Snoozed? || p.state.Dismissed? ==> ReconciledCheck(Some(p), deadline, now) == p.nextCheck
    ensures p.state.Open? && deadline.Some? && (p.deadline.None? || deadline.value < p.deadline.value)
      ==> ReconciledCheck(Some(p), deadline, now) <= Max(now, deadline.value - LEAD)
    ensures p.state.Open? && p.nextCheck >= now ==> ReconciledCheck(Some(p), deadline, now) >= now
  {
  }
}
