/**
 The spending ledger of InitiativeStore: reservations, settlements and the
 per-day debits they leave.  Rows of `charges` are never deleted, so the table
 is a sequence and a charge id is its position.
 */
module Ledger {
  import opened Common

  const HOUR := 3_600_000
  const PRIORITY_CAP := 200_000_000
  const ROUTINE_CAP := 150_000_000
  const SCOPE_LIMIT := 2_000_000
  const MAX_SAFE_INTEGER := 9_007_199_254_740_991

  // ---- Local days ----------------------------------------------------------

  /** Local days come in order. */
  ghost predicate Monotone(day: int -> int) {
    forall s, t :: s <= t ==> day(s) <= day(t)
  }

  /** A whole local day lasts at least an hour: an instant before it and one after it are further apart than that. */
  ghost predicate HourLong(day: int -> int) {
    forall s, m, t :: day(s) < day(m) < day(t) ==> t - s > 3_600_000
  }

  ghost predicate Touched(day: int -> int, from: int, to: int, d: int) {
    exists t :: from <= t <= to && day(t) == d
  }

  /** Every day some instant of [from, to] falls on. */
  ghost function TouchedDays(day: int -> int, from: int, to: int): set<int> {
    set t | from <= t <= to :: day(t)
  }

  ghost function Elements(days: seq<int>): set<int> {
    set d | d in days
  }

  // ---- Tables --------------------------------------------------------------

  datatype Settlement = Settlement(at: int, actual: int)

  datatype Charge = Charge(maximum: int, admitted: int, scope: Option<string>, settlement: Option<Settlement>)

  datatype Tables = Tables(charges: seq<Charge>, debits: map<(nat, int), int>, pricingError: bool)

  const EMPTY := Tables([], map[], false)

  function Debit(l: Tables, id: nat, d: int): int {
    if (id, d) in l.debits then l.debits[(id, d)] else 0
  }

  /** The debits of local day d. */
  function Debited(l: Tables, d: int): int {
    Sum((i: nat) => Debit(l, i, d), |l.charges|)
  }

  function HeldAt(l: Tables, now: int, i: nat): int {
    if i < |l.charges| && l.charges[i].settlement.None? && l.charges[i].admitted <= now then l.charges[i].maximum else 0
  }

  /** The maxima of the unsettled charges admitted up to now. */
  function Held(l: Tables, now: int): int {
    Sum((i: nat) => HeldAt(l, now, i), |l.charges|)
  }

  function Budget(l: Tables, day: int -> int, now: int): int {
    Debited(l, day(now)) + Held(l, now)
  }

  function ScopeCost(l: Tables, scope: string, i: nat): int {
    if i < |l.charges| && l.charges[i].scope == Some(scope) then
      match l.charges[i].settlement
      case Some(s) => s.actual
      case None => l.charges[i].maximum
    else 0
  }

  /** What the charges of one scope cost, or may cost while unsettled. */
  function ScopeSpend(l: Tables, scope: string): int {
    Sum((i: nat) => ScopeCost(l, scope, i), |l.charges|)
  }

  // ---- Transactions --------------------------------------------------------

  datatype Reservation = Admitted(id: nat) | Refused | BadCharge

  function Reserve(l: Tables, day: int -> int, maximum: int, priority: bool, now: int, scope: Option<string>,
      limit: int)
    : (Tables, Reservation)
  {
    if !(0 < maximum <= MAX_SAFE_INTEGER) then (l, BadCharge)
    else if l.pricingError then (l, Refused)
    else if scope.Some? && scope.value != "" && ScopeSpend(l, scope.value) + maximum > limit then (l, Refused)
    else if Budget(l, day, now) + maximum > (if priority then PRIORITY_CAP else ROUTINE_CAP) then (l, Refused)
    else
      var stored := if scope == Some("") then None else scope;
      (l.(charges := l.charges + [Charge(maximum, now, stored, None)]), Admitted(|l.charges|))
  }

  datatype Settling = Settled | Ignored | BadUsage | PrecedesAdmission | UnprovenDay

  /** The days a settlement debits: the proven execution day, or every day the charge may have run on. */
  ghost function DebitDays(day: int -> int, from: int, to: int, executionDay: Option<int>): set<int> {
    if executionDay.Some? then {executionDay.value} else TouchedDays(day, from, to)
  }

  /** The rows a settlement adds, one for each day. */
  ghost function Rows(id: nat, days: set<int>, amount: int): map<(nat, int), int> {
    map d | d in days :: (id, d) := amount
  }

  ghost function Settle(l: Tables, day: int -> int, id: int, actual: int, now: int, executionDay: Option<int>)
    : (Tables, Settling)
  {
    if !(0 <= actual <= MAX_SAFE_INTEGER) then (l, BadUsage)
    else if !(0 <= id < |l.charges|) || l.charges[id].settlement.Some? then (l, Ignored)
    else
      var charge := l.charges[id];
      if now < charge.admitted then (l, PrecedesAdmission)
      else if executionDay.Some? && executionDay.value !in TouchedDays(day, charge.admitted, now) then (l, UnprovenDay)
      else
        (Tables(l.charges[id := charge.(settlement := Some(Settlement(now, actual)))],
                l.debits + Rows(id, DebitDays(day, charge.admitted, now, executionDay), actual),
                l.pricingError || actual > charge.maximum),
         Settled)
  }

  lemma RowsGrow(id: nat, days: set<int>, d: int, amount: int)
    ensures Rows(id, days + {d}, amount) == Rows(id, days, amount)[(id, d) := amount]
  {
    var grown := Rows(id, days, amount)[(id, d) := amount];
    assert forall k :: k in Rows(id, days + {d}, amount) <==> k in grown;
  }

  // ---- The ledger as it runs -----------------------------------------------

  class SpendingLedger {
    const day: int -> int
    var charges: seq<Charge>
    var debits: map<(nat, int), int>
    var pricingError: bool

    function View(): Tables reads this { Tables(charges, debits, pricingError) }

    constructor (day: int -> int)
      ensures View() == EMPTY && this.day == day
    {
      this.day := day;
      charges, debits, pricingError := [], map[], false;
    }

    method ReserveCharge(maximum: int, priority: bool, now: int, scope: Option<string>,
        limit: int) returns (r: Reservation)
      modifies this
      ensures (View(), r) == Reserve(old(View()), day, maximum, priority, now, scope, limit)
    {
      if !(0 < maximum <= MAX_SAFE_INTEGER) {
        return BadCharge;
      }
      var used := Budget(View(), day, now);
      if pricingError {
        return Refused;
      }
      var scoped := scope.Some? && scope.value != "";
      if scoped && ScopeSpend(View(), scope.value) + maximum > limit {
        return Refused;
      }
      if used + maximum > (if priority then PRIORITY_CAP else ROUTINE_CAP) {
        return Refused;
      }
      r := Admitted(|charges|);
      charges := charges + [Charge(maximum, now, if scoped then scope else None, None)];
    }

    /** The hourly cursor of a settlement: it meets every local day of the interval, once, and no other. */
    method CandidateDays(start: int, now: int) returns (days: seq<int>)
      requires Monotone(day) && HourLong(day)
      requires start <= now
      ensures Elements(days) == TouchedDays(day, start, now)
      ensures forall i, j :: 0 <= i < j < |days| ==> days[i] != days[j]
    {
      days := if day(start) == day(now) then [day(start)] else [day(start), day(now)];
      var cursor := start;
      ghost var steps := 0;
      while cursor <= now
        invariant steps >= 0 && cursor == start + steps * HOUR && cursor - HOUR <= now
        invariant forall d :: d in days ==> d in TouchedDays(day, start, now)
        invariant forall i, j :: 0 <= i < j < |days| ==> days[i] != days[j]
        invariant day(start) in days && day(now) in days
        invariant forall k :: 0 <= k < steps ==> day(start + k * HOUR) in days
        decreases now - cursor
      {
        if day(cursor) !in days {
          days := days + [day(cursor)];
        }
        cursor := cursor + HOUR;
        steps := steps + 1;
      }
      ProbesCover(day, start, now, steps, days);
    }

    /** One debit row per day. */
    method InsertDebits(id: nat, days: seq<int>, amount: int)
      modifies this`debits
      ensures debits == old(debits) + Rows(id, Elements(days), amount)
    {
      for i := 0 to |days|
        invariant debits == old(debits) + Rows(id, Elements(days[..i]), amount)
      {
        assert Elements(days[..i + 1]) == Elements(days[..i]) + {days[i]};
        RowsGrow(id, Elements(days[..i]), days[i], amount);
        debits := debits[(id, days[i]) := amount];
      }
      assert days[..|days|] == days;
    }

    method SettleCharge(id: int, actual: int, now: int, executionDay: Option<int>) returns (r: Settling)
      requires Monotone(day) && HourLong(day)
      modifies this
      ensures (View(), r) == Settle(old(View()), day, id, actual, now, executionDay)
    {
      if !(0 <= actual <= MAX_SAFE_INTEGER) {
        return BadUsage;
      }
      if !(0 <= id < |charges|) || charges[id].settlement.Some? {
        return Ignored;
      }
      var charge := charges[id];
      if now < charge.admitted {
        return PrecedesAdmission;
      }
      var days := CandidateDays(charge.admitted, now);
      if executionDay.Some? && executionDay.value !in days {
        return UnprovenDay;
      }
      assert executionDay.Some? ==> Elements([executionDay.value]) == {executionDay.value};
      InsertDebits(id, if executionDay.Some? then [executionDay.value] else days, actual);
      pricingError := pricingError || actual > charge.maximum;
      charges := charges[id := charge.(settlement := Some(Settlement(now, actual)))];
      r := Settled;
    }
  }

  /** The probes, with the last day, cover every day of the interval. */
  lemma ProbesCover(day: int -> int, start: int, now: int, steps: int, days: seq<int>)
    requires Monotone(day) && HourLong(day) && start <= now
    requires steps > 0 && start + (steps - 1) * HOUR <= now < start + steps * HOUR
    requires day(now) in days && forall k :: 0 <= k < steps ==> day(start + k * HOUR) in days
    ensures TouchedDays(day, start, now) <= Elements(days)
  {
    forall m | start <= m <= now
      ensures day(m) in days
    {
      HourlyProbesMeetDay(day, start, now, steps, m);
    }
  }

  lemma HourlyProbesMeetDay(day: int -> int, start: int, now: int, steps: int, m: int)
    requires Monotone(day) && HourLong(day)
    requires start <= m <= now
    requires steps > 0 && start + (steps - 1) * HOUR <= now < start + steps * HOUR
    ensures day(m) == day(now) || exists k :: 0 <= k < steps && day(start + k * HOUR) == day(m)
  {
    var k := (m - start) / HOUR;
    var here, next := start + k * HOUR, start + (k + 1) * HOUR;
    assert here <= m < next;
    assert 0 <= k < steps;
    assert day(here) <= day(m) <= day(now);
    if day(here) < day(m) {
      if k + 1 < steps {
        assert next <= now;
        assert day(m) <= day(next);
        assert !(day(here) < day(m) < day(next));
        assert day(start + (k + 1) * HOUR) == day(m);
      } else {
        assert !(day(here) < day(m) < day(now));
      }
    } else {
      assert day(start + k * HOUR) == day(m);
    }
  }
}
