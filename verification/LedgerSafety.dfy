/** What every run of the spending ledger keeps. */
module LedgerSafety {
  import opened Common
  import opened Ledger

  /** What charge i may still cost local day d while its usage is unknown. */
  function OpenOn(l: Tables, day: int -> int, d: int, i: nat): int {
    if i < |l.charges| && l.charges[i].settlement.None? && day(l.charges[i].admitted) <= d
    then l.charges[i].maximum else 0
  }

  /** Everything attributed to day d: its debits, and the maxima of the unsettled charges admitted on or before it. */
  function Exposure(l: Tables, day: int -> int, d: int): int {
    Sum((i: nat) => Debit(l, i, d) + OpenOn(l, day, d, i), |l.charges|)
  }

  // ---- The invariant -------------------------------------------------------

  ghost predicate ChargeSound(c: Charge, clock: int) {
    && 0 < c.maximum
    && c.admitted <= clock
    && (c.settlement.Some? ==> c.admitted <= c.settlement.value.at <= clock && 0 <= c.settlement.value.actual)
  }

  ghost predicate DebitSound(l: Tables, day: int -> int, id: nat, d: int)
    requires (id, d) in l.debits
  {
    && id < |l.charges|
    && l.charges[id].settlement.Some?
    && var c := l.charges[id];
       Touched(day, c.admitted, c.settlement.value.at, d) && l.debits[(id, d)] == c.settlement.value.actual
  }

  /** The days charge id is debited on. */
  function DebitedDays(l: Tables, id: nat): set<int> {
    set k | k in l.debits.Keys && k.0 == id :: k.1
  }

  /** A settled charge is debited on all the days it may have run on, or on one proven day of these. */
  ghost predicate DebitsComplete(l: Tables, day: int -> int, id: nat)
    requires id < |l.charges| && l.charges[id].settlement.Some?
  {
    var c := l.charges[id];
    DebitedDays(l, id) == TouchedDays(day, c.admitted, c.settlement.value.at) || |DebitedDays(l, id)| == 1
  }

  ghost predicate Sound(l: Tables, day: int -> int, clock: int) {
    && (forall i :: 0 <= i < |l.charges| ==> ChargeSound(l.charges[i], clock))
    && (forall id: nat, d: int :: (id, d) in l.debits ==> DebitSound(l, day, id, d))
    && (forall i :: 0 <= i < |l.charges| && l.charges[i].settlement.Some? ==> DebitsComplete(l, day, i))
    && (!l.pricingError ==> Within(l, day, PRIORITY_CAP))
  }

  ghost predicate Within(l: Tables, day: int -> int, cap: int) {
    forall d :: Exposure(l, day, d) <= cap
  }

  // ---- Sums ----------------------------------------------------------------

  lemma BudgetIsExposure(l: Tables, day: int -> int, clock: int, now: int)
    requires Monotone(day) && Sound(l, day, clock) && clock <= now
    ensures Budget(l, day, now) == Exposure(l, day, day(now))
  {
    SumSplit((i: nat) => Debit(l, i, day(now)), (i: nat) => HeldAt(l, now, i),
             (i: nat) => Debit(l, i, day(now)) + OpenOn(l, day, day(now), i), |l.charges|);
  }

  lemma {:induction false} SumSplit(f: nat -> int, g: nat -> int, h: nat -> int, n: nat)
    requires forall i: nat :: i < n ==> h(i) == f(i) + g(i)
    ensures Sum(h, n) == Sum(f, n) + Sum(g, n)
  {
    if n > 0 {
      SumSplit(f, g, h, n - 1);
    }
  }

  /** No day after the clock is exposed more than the clock's own day. */
  lemma LaterDaysAreNoWorse(l: Tables, day: int -> int, clock: int, now: int, d: int)
    requires Monotone(day) && Sound(l, day, clock) && clock <= now && day(now) <= d
    ensures Exposure(l, day, d) <= Exposure(l, day, day(now))
  {
    forall i: nat | i < |l.charges|
      ensures Debit(l, i, d) + OpenOn(l, day, d, i) <= Debit(l, i, day(now)) + OpenOn(l, day, day(now), i)
    {
      assert ChargeSound(l.charges[i], clock);
      if (i, d) in l.debits {
        assert DebitSound(l, day, i, d);
        assert day(now) == d;
      }
      if (i, day(now)) in l.debits {
        assert DebitSound(l, day, i, day(now));
      }
    }
    SumBelow((i: nat) => Debit(l, i, d) + OpenOn(l, day, d, i),
             (i: nat) => Debit(l, i, day(now)) + OpenOn(l, day, day(now), i), |l.charges|);
  }

  lemma DebitsAreExposure(l: Tables, day: int -> int, clock: int, d: int)
    requires Sound(l, day, clock)
    ensures 0 <= Debited(l, d) <= Exposure(l, day, d)
  {
    forall i: nat | i < |l.charges|
      ensures 0 <= Debit(l, i, d) <= Debit(l, i, d) + OpenOn(l, day, d, i)
    {
      assert ChargeSound(l.charges[i], clock);
      if (i, d) in l.debits {
        assert DebitSound(l, day, i, d);
      }
    }
    SumBelow((i: nat) => Debit(l, i, d), (i: nat) => Debit(l, i, d) + OpenOn(l, day, d, i), |l.charges|);
    SumBelow((i: nat) => 0, (i: nat) => Debit(l, i, d), |l.charges|);
    SumZero(|l.charges|);
  }

  lemma {:induction false} SumZero(n: nat)
    ensures Sum((i: nat) => 0, n) == 0
  {
    if n > 0 {
      SumZero(n - 1);
    }
  }

  // ---- One reservation -----------------------------------------------------

  /** An admitted charge adds its maximum to its own day and to every later one, and to nothing earlier. */
  lemma AdmissionExposure(l: Tables, day: int -> int, clock: int, c: Charge, d: int)
    requires Sound(l, day, clock) && c.settlement.None?
    ensures Exposure(l.(charges := l.charges + [c]), day, d)
         == Exposure(l, day, d) + if day(c.admitted) <= d then c.maximum else 0
  {
    var l' := l.(charges := l.charges + [c]);
    var n := |l.charges|;
    assert (n, d) !in l.debits;
    SumAgrees((i: nat) => Debit(l, i, d) + OpenOn(l, day, d, i),
              (i: nat) => Debit(l', i, d) + OpenOn(l', day, d, i), n);
  }

  /** With room on every day, one more charge keeps the invariant, whatever the clock said before. */
  lemma AdmittedSound(l: Tables, day: int -> int, clock: int, c: Charge)
    requires Sound(l, day, clock) && 0 < c.maximum && c.admitted <= clock && c.settlement.None?
    requires Within(l.(charges := l.charges + [c]), day, PRIORITY_CAP)
    ensures Sound(l.(charges := l.charges + [c]), day, clock)
  {
    var l' := l.(charges := l.charges + [c]);
    forall id: nat, d: int | (id, d) in l'.debits
      ensures DebitSound(l', day, id, d)
    {
      assert DebitSound(l, day, id, d);
    }
    forall i | 0 <= i < |l'.charges| && l'.charges[i].settlement.Some?
      ensures DebitsComplete(l', day, i)
    {
      assert DebitsComplete(l, day, i);
      assert DebitedDays(l', i) == DebitedDays(l, i);
    }
  }

  lemma ReserveSound(l: Tables, day: int -> int, clock: int, maximum: int, priority: bool, now: int,
      scope: Option<string>, limit: int)
    requires Monotone(day) && Sound(l, day, clock) && clock <= now
    ensures var (l', r) := Reserve(l, day, maximum, priority, now, scope, limit);
      && Sound(l', day, now)
      && (r.Admitted? && !priority ==> forall d :: day(now) <= d ==> Exposure(l', day, d) <= ROUTINE_CAP)
  {
    var (l', r) := Reserve(l, day, maximum, priority, now, scope, limit);
    if r.Admitted? {
      var c := l'.charges[|l.charges|];
      BudgetIsExposure(l, day, clock, now);
      forall d
        ensures Exposure(l', day, d) <= PRIORITY_CAP
        ensures !priority && day(now) <= d ==> Exposure(l', day, d) <= ROUTINE_CAP
      {
        AdmissionExposure(l, day, clock, c, d);
        assert Exposure(l, day, d) <= PRIORITY_CAP;
        if day(now) <= d {
          LaterDaysAreNoWorse(l, day, clock, now, d);
        }
      }
      assert Sound(l, day, now);
      AdmittedSound(l, day, now, c);
    }
  }

  /**
   On a clock that has not gone back a reservation is admitted exactly when it is a whole positive
   amount, no usage has overrun, its day has room under the cap of its tier, and its scope, if it
   has one, under the limit. It is then the last charge, open; otherwise nothing has changed.
   */
  lemma AdmittedIff(l: Tables, day: int -> int, clock: int, maximum: int, priority: bool, now: int,
      scope: Option<string>, limit: int)
    requires Monotone(day) && Sound(l, day, clock) && clock <= now
    ensures var (l', r) := Reserve(l, day, maximum, priority, now, scope, limit);
      && (r.BadCharge? <==> maximum <= 0 || maximum > 9_007_199_254_740_991)
      && (r.Admitted? <==>
           && !r.BadCharge? && !l.pricingError
           && Exposure(l, day, day(now)) + maximum <= (if priority then 200_000_000 else 150_000_000)
           && (scope.Some? && scope.value != "" ==> ScopeSpend(l, scope.value) + maximum <= limit))
      && (!r.Admitted? ==> l' == l)
      && (r.Admitted? ==>
           && r.id == |l.charges|
           && l' == l.(charges := l.charges +
                [Charge(maximum, now, if scope == Some("") then None else scope, None)]))
  {
    BudgetIsExposure(l, day, clock, now);
  }

  /** A reservation adds its maximum to what its scope spends, and to no other. */
  lemma AdmissionSpends(l: Tables, c: Charge, scope: string)
    requires c.settlement.None?
    ensures ScopeSpend(l.(charges := l.charges + [c]), scope)
         == ScopeSpend(l, scope) + if c.scope == Some(scope) then c.maximum else 0
    ensures ScopeSpend(EMPTY, scope) == 0
  {
    var l' := l.(charges := l.charges + [c]);
    SumAgrees((i: nat) => ScopeCost(l, scope, i), (i: nat) => ScopeCost(l', scope, i), |l.charges|);
  }

  /** A settlement replaces it there by the actual cost. */
  lemma SettlementSpends(l: Tables, day: int -> int, id: int, actual: int, now: int, executionDay: Option<int>,
      scope: string)
    requires Settle(l, day, id, actual, now, executionDay).1.Settled?
    ensures ScopeSpend(Settle(l, day, id, actual, now, executionDay).0, scope)
         == ScopeSpend(l, scope) + if l.charges[id].scope == Some(scope) then actual - l.charges[id].maximum else 0
  {
    var l' := Settle(l, day, id, actual, now, executionDay).0;
    SumChanged((i: nat) => ScopeCost(l, scope, i), (i: nat) => ScopeCost(l', scope, i), |l.charges|, id);
  }

  // ---- One settlement ------------------------------------------------------

  /**
   A settlement is refused for a bad amount, ignored for a charge that is not there or settled
   before, refused when it precedes the admission or names a day the charge cannot have run on, and
   made otherwise; an amount above the reservation raises the pricing error.
   */
  lemma SettledIff(l: Tables, day: int -> int, id: int, actual: int, now: int, executionDay: Option<int>)
    ensures var (l', r) := Settle(l, day, id, actual, now, executionDay);
      && (r.BadUsage? <==> actual < 0 || actual > 9_007_199_254_740_991)
      && (r.Ignored? <==> !r.BadUsage? && !(0 <= id < |l.charges| && l.charges[id].settlement.None?))
      && (r.PrecedesAdmission? <==> !r.BadUsage? && !r.Ignored? && now < l.charges[id].admitted)
      && (r.UnprovenDay? <==>
           && !r.BadUsage? && !r.Ignored? && !r.PrecedesAdmission?
           && executionDay.Some? && !Touched(day, l.charges[id].admitted, now, executionDay.value))
      && (!r.Settled? ==> l' == l)
      && (r.Settled? ==> l'.pricingError == (l.pricingError || l.charges[id].maximum < actual))
  {
  }

  lemma SettledTables(l: Tables, day: int -> int, id: int, actual: int, now: int, executionDay: Option<int>)
    requires Settle(l, day, id, actual, now, executionDay).1.Settled?
    ensures var l' := Settle(l, day, id, actual, now, executionDay).0;
      && 0 <= id < |l.charges| && |l'.charges| == |l.charges|
      && var c := l.charges[id];
      && var days := DebitDays(day, c.admitted, now, executionDay);
      && c.settlement.None? && l'.charges == l.charges[id := c.(settlement := Some(Settlement(now, actual)))]
      && (forall d :: d in days ==> Touched(day, c.admitted, now, d))
      && (forall i: nat, d: int :: (i, d) in l'.debits <==> (i, d) in l.debits || (i == id && d in days))
      && (forall i: nat, d: int :: (i, d) in l'.debits ==>
            l'.debits[(i, d)] == if i == id && d in days then actual else l.debits[(i, d)])
  {
  }

  /**
   Settling replaces a charge's maximum by its actual cost on the days it may have run on: no day's
   exposure grows.
   */
  lemma SettlementExposure(l: Tables, day: int -> int, clock: int, id: int, actual: int, now: int,
      executionDay: Option<int>, d: int)
    requires Monotone(day) && Sound(l, day, clock)
    requires Settle(l, day, id, actual, now, executionDay).1.Settled?
    requires actual <= l.charges[id].maximum
    ensures Exposure(Settle(l, day, id, actual, now, executionDay).0, day, d) <= Exposure(l, day, d)
  {
    var l' := Settle(l, day, id, actual, now, executionDay).0;
    SettledTables(l, day, id, actual, now, executionDay);
    forall i: nat | i < |l.charges|
      ensures Debit(l', i, d) + OpenOn(l', day, d, i) <= Debit(l, i, d) + OpenOn(l, day, d, i)
    {
      assert i == id ==> (i, d) !in l.debits;
    }
    SumBelow((i: nat) => Debit(l', i, d) + OpenOn(l', day, d, i),
             (i: nat) => Debit(l, i, d) + OpenOn(l, day, d, i), |l.charges|);
  }

  lemma {:induction false} SumChanged(f: nat -> int, g: nat -> int, n: nat, k: nat)
    requires k < n && forall i: nat :: i < n && i != k ==> g(i) == f(i)
    ensures Sum(g, n) == Sum(f, n) - f(k) + g(k)
  {
    if k == n - 1 {
      SumAgrees(f, g, k);
    } else {
      SumChanged(f, g, n - 1, k);
    }
  }

  /** A proven day alone, or else every day the charge may have run on. */
  ghost predicate DebitedOn(day: int -> int, c: Charge, now: int, executionDay: Option<int>, d: int) {
    if executionDay.Some? then d == executionDay.value else Touched(day, c.admitted, now, d)
  }

  /**
   Exactly: its maximum no longer counts on its day and later ones, its actual cost does on the days
   it is debited.
   */
  lemma SettlementReplaces(l: Tables, day: int -> int, clock: int, id: int, actual: int, now: int,
      executionDay: Option<int>, d: int)
    requires Sound(l, day, clock) && Settle(l, day, id, actual, now, executionDay).1.Settled?
    ensures var l', c := Settle(l, day, id, actual, now, executionDay).0, l.charges[id];
      Exposure(l', day, d) == Exposure(l, day, d) - (if day(c.admitted) <= d then c.maximum else 0)
        + (if DebitedOn(day, c, now, executionDay, d) then actual else 0)
  {
    var l' := Settle(l, day, id, actual, now, executionDay).0;
    SettledTables(l, day, id, actual, now, executionDay);
    assert (id, d) !in l.debits;
    SumChanged((i: nat) => Debit(l, i, d) + OpenOn(l, day, d, i),
               (i: nat) => Debit(l', i, d) + OpenOn(l', day, d, i), |l.charges|, id);
  }

  /** The latest instant seen. */
  function Latest(clock: int, now: int): int {
    if clock < now then now else clock
  }

  /** On any clock, settling keeps the invariant. */
  lemma SettleSound(l: Tables, day: int -> int, clock: int, id: int, actual: int, now: int, executionDay: Option<int>)
    requires Monotone(day) && Sound(l, day, clock)
    ensures Sound(Settle(l, day, id, actual, now, executionDay).0, day, Latest(clock, now))
  {
    var (l', r) := Settle(l, day, id, actual, now, executionDay);
    if r.Settled? {
      SettledTables(l, day, id, actual, now, executionDay);
      var days := DebitDays(day, l.charges[id].admitted, now, executionDay);
      if !l'.pricingError {
        forall d
          ensures Exposure(l', day, d) <= PRIORITY_CAP
        {
          SettlementExposure(l, day, clock, id, actual, now, executionDay, d);
        }
      }
      forall i: nat, d: int | (i, d) in l'.debits
        ensures DebitSound(l', day, i, d)
      {
        if (i, d) in l.debits {
          assert DebitSound(l, day, i, d);
        }
      }
      forall i | 0 <= i < |l'.charges| && l'.charges[i].settlement.Some?
        ensures DebitsComplete(l', day, i)
      {
        SettledDays(l, day, clock, id, actual, now, executionDay, i);
        assert i != id ==> DebitsComplete(l, day, i);
      }
    }
  }

  lemma SettledDays(l: Tables, day: int -> int, clock: int, id: int, actual: int, now: int,
      executionDay: Option<int>, i: nat)
    requires Sound(l, day, clock)
    requires Settle(l, day, id, actual, now, executionDay).1.Settled?
    ensures DebitedDays(Settle(l, day, id, actual, now, executionDay).0, i)
         == if i == id then DebitDays(day, l.charges[id].admitted, now, executionDay) else DebitedDays(l, i)
  {
    SettledTables(l, day, id, actual, now, executionDay);
    var l' := Settle(l, day, id, actual, now, executionDay).0;
    var days := DebitDays(day, l.charges[id].admitted, now, executionDay);
    forall d
      ensures d in DebitedDays(l', i) <==> (i, d) in l'.debits
      ensures i == id ==> (i, d) !in l.debits && (d in DebitedDays(l', i) <==> d in days)
    {
      assert (i, d).0 == i && (i, d).1 == d;
    }
    if i == id {
      assert DebitedDays(l', i) == days;
    } else {
      assert DebitedDays(l', i) == DebitedDays(l, i);
    }
  }

  // ---- Runs ----------------------------------------------------------------

  datatype Step =
    | ReserveStep(maximum: int, priority: bool, now: int, scope: Option<string>, limit: int)
    | SettleStep(id: int, actual: int, now: int, executionDay: Option<int>)

  ghost function Next(l: Tables, day: int -> int, step: Step): Tables {
    match step
    case ReserveStep(maximum, priority, now, scope, limit) => Reserve(l, day, maximum, priority, now, scope, limit).0
    case SettleStep(id, actual, now, executionDay) => Settle(l, day, id, actual, now, executionDay).0
  }

  ghost function Run(l: Tables, day: int -> int, steps: seq<Step>): Tables
    decreases |steps|
  {
    if steps == [] then l else Run(Next(l, day, steps[0]), day, steps[1..])
  }

  /** The clock never goes back, starting from `clock`. */
  ghost predicate Ordered(clock: int, steps: seq<Step>)
    decreases |steps|
  {
    steps == [] || (clock <= steps[0].now && Ordered(steps[0].now, steps[1..]))
  }

  function EndClock(clock: int, steps: seq<Step>): int {
    if steps == [] then clock else steps[|steps| - 1].now
  }

  lemma {:induction false} RunSound(l: Tables, day: int -> int, clock: int, steps: seq<Step>)
    requires Monotone(day) && Sound(l, day, clock) && Ordered(clock, steps)
    ensures Sound(Run(l, day, steps), day, EndClock(clock, steps))
    decreases |steps|
  {
    if steps != [] {
      match steps[0] {
        case ReserveStep(maximum, priority, now, scope, limit) =>
          ReserveSound(l, day, clock, maximum, priority, now, scope, limit);
        case SettleStep(id, actual, now, executionDay) => SettleSound(l, day, clock, id, actual, now, executionDay);
      }
      RunSound(Next(l, day, steps[0]), day, steps[0].now, steps[1..]);
    }
  }

  /**
   Over every run whose clock never goes back, unless some provider usage overran
   its reservation, no local day is ever attributed more than the daily cap.
   */
  lemma DailyCapHolds(day: int -> int, clock: int, steps: seq<Step>, d: int)
    requires Monotone(day) && Ordered(clock, steps)
    ensures var l := Run(EMPTY, day, steps);
      l.pricingError || 0 <= Debited(l, d) <= Exposure(l, day, d) <= 200_000_000
  {
    assert Sound(EMPTY, day, clock);
    RunSound(EMPTY, day, clock, steps);
    DebitsAreExposure(Run(EMPTY, day, steps), day, EndClock(clock, steps), d);
  }

  /**
   Every settled charge of a run stays debited, in full, on all days it may have run on or on one
   proven day of these.
   */
  lemma SettledSpendIsAttributed(day: int -> int, clock: int, steps: seq<Step>, id: nat)
    requires Monotone(day) && Ordered(clock, steps)
    requires id < |Run(EMPTY, day, steps).charges| && Run(EMPTY, day, steps).charges[id].settlement.Some?
    ensures var l := Run(EMPTY, day, steps);
      && DebitsComplete(l, day, id)
      && forall d :: (id, d) in l.debits ==>
           l.debits[(id, d)] == l.charges[id].settlement.value.actual
           && Touched(day, l.charges[id].admitted, l.charges[id].settlement.value.at, d)
  {
    assert Sound(EMPTY, day, clock);
    RunSound(EMPTY, day, clock, steps);
    var l := Run(EMPTY, day, steps);
    forall d | (id, d) in l.debits
      ensures DebitSound(l, day, id, d)
    {
    }
  }

  /** Once a settlement has overrun its reservation no later reservation is admitted, whatever follows. */
  lemma {:induction false} OverrunStopsAdmission(l: Tables, day: int -> int, steps: seq<Step>)
    requires l.pricingError
    ensures Run(l, day, steps).pricingError && |Run(l, day, steps).charges| == |l.charges|
    decreases |steps|
  {
    if steps != [] {
      OverrunStopsAdmission(Next(l, day, steps[0]), day, steps[1..]);
    }
  }

  /** One settlement above its reservation, in any run, ends paid admission for good. */
  lemma OneOverrunEndsAdmission(l: Tables, day: int -> int, id: int, actual: int, now: int,
      executionDay: Option<int>, later: seq<Step>)
    requires Settle(l, day, id, actual, now, executionDay).1.Settled? && l.charges[id].maximum < actual
    ensures var t := Run(l, day, [SettleStep(id, actual, now, executionDay)] + later);
      t.pricingError && |t.charges| == |l.charges|
  {
    var step := SettleStep(id, actual, now, executionDay);
    assert ([step] + later)[0] == step && ([step] + later)[1..] == later;
    OverrunStopsAdmission(Next(l, day, step), day, later);
  }

  // ---- Scopes --------------------------------------------------------------

  ghost predicate NoOverrun(l: Tables) {
    !l.pricingError ==>
      forall i :: 0 <= i < |l.charges| && l.charges[i].settlement.Some? ==>
        l.charges[i].settlement.value.actual <= l.charges[i].maximum
  }

  ghost predicate LimitedTo(steps: seq<Step>, scope: string, limit: int) {
    forall i :: 0 <= i < |steps| && steps[i].ReserveStep? && steps[i].scope == Some(scope) ==> steps[i].limit <= limit
  }

  lemma ScopeAfterStep(l: Tables, day: int -> int, step: Step, scope: string, limit: int)
    requires scope != "" && 0 <= limit && NoOverrun(l) && (l.pricingError || ScopeSpend(l, scope) <= limit)
    requires LimitedTo([step], scope, limit)
    ensures var l' := Next(l, day, step); NoOverrun(l') && (l'.pricingError || ScopeSpend(l', scope) <= limit)
  {
    var l' := Next(l, day, step);
    assert [step][0] == step;
    if |l'.charges| == |l.charges| {
      if !l'.pricingError {
        SumBelow((i: nat) => ScopeCost(l', scope, i), (i: nat) => ScopeCost(l, scope, i), |l.charges|);
      }
    } else {
      SumAgrees((i: nat) => ScopeCost(l', scope, i), (i: nat) => ScopeCost(l, scope, i), |l.charges|);
    }
  }

  lemma {:induction false} ScopeRun(l: Tables, day: int -> int, steps: seq<Step>, scope: string, limit: int)
    requires scope != "" && 0 <= limit && NoOverrun(l) && (l.pricingError || ScopeSpend(l, scope) <= limit)
    requires LimitedTo(steps, scope, limit)
    ensures var l' := Run(l, day, steps); l'.pricingError || ScopeSpend(l', scope) <= limit
    decreases |steps|
  {
    if steps != [] {
      assert LimitedTo([steps[0]], scope, limit);
      ScopeAfterStep(l, day, steps[0], scope, limit);
      assert LimitedTo(steps[1..], scope, limit) by {
        forall i | 0 <= i < |steps[1..]| && steps[1..][i].ReserveStep? && steps[1..][i].scope == Some(scope)
          ensures steps[1..][i].limit <= limit
        {
          assert steps[1..][i] == steps[i + 1];
        }
      }
      ScopeRun(Next(l, day, steps[0]), day, steps[1..], scope, limit);
    }
  }

  /**
   Under the default limit no scope ever spends more than that limit, in any run and on any clock,
   unless usage overran.
   */
  lemma ScopeLimitHolds(day: int -> int, steps: seq<Step>, scope: string)
    requires scope != "" && LimitedTo(steps, scope, SCOPE_LIMIT)
    ensures var l := Run(EMPTY, day, steps); l.pricingError || ScopeSpend(l, scope) <= 2_000_000
  {
    ScopeRun(EMPTY, day, steps, scope, SCOPE_LIMIT);
  }

  // ---- The clock matters ---------------------------------------------------

  lemma EmptyBudgetIsNotNegative(l: Tables, day: int -> int, clock: int, now: int)
    requires Sound(l, day, clock)
    ensures 0 <= Budget(l, day, now)
  {
    DebitsAreExposure(l, day, clock, day(now));
    forall i: nat | i < |l.charges| ensures 0 <= HeldAt(l, now, i) {
      assert ChargeSound(l.charges[i], clock);
    }
    SumBelow((i: nat) => 0, (i: nat) => HeldAt(l, now, i), |l.charges|);
    SumZero(|l.charges|);
  }

  /**
   Whatever the clock says, an admitted reservation keeps the cap exactly when there is room for it
   on its day and every later one.
   */
  lemma AdmissionKeepsCapIff(l: Tables, day: int -> int, clock: int, maximum: int, priority: bool, now: int,
      scope: Option<string>, limit: int)
    requires Sound(l, day, clock) && Reserve(l, day, maximum, priority, now, scope, limit).1.Admitted?
    ensures Within(Reserve(l, day, maximum, priority, now, scope, limit).0, day, PRIORITY_CAP)
       <==> forall d :: day(now) <= d ==> Exposure(l, day, d) + maximum <= PRIORITY_CAP
  {
    var l' := Reserve(l, day, maximum, priority, now, scope, limit).0;
    forall d
      ensures Exposure(l', day, d) == Exposure(l, day, d) + if day(now) <= d then maximum else 0
    {
      AdmissionExposure(l, day, clock, l'.charges[|l.charges|], d);
    }
    assert Within(l, day, PRIORITY_CAP);
  }

  /** If the step admits a charge, there is room for it on its day and on every later one. */
  ghost predicate HasRoom(l: Tables, day: int -> int, step: Step) {
    step.ReserveStep? && Reserve(l, day, step.maximum, step.priority, step.now, step.scope, step.limit).1.Admitted? ==>
      forall d :: day(step.now) <= d ==> Exposure(l, day, d) + step.maximum <= PRIORITY_CAP
  }

  ghost predicate AllHaveRoom(l: Tables, day: int -> int, steps: seq<Step>)
    decreases |steps|
  {
    steps == [] || (HasRoom(l, day, steps[0]) && AllHaveRoom(Next(l, day, steps[0]), day, steps[1..]))
  }

  /** No day is above the cap, at any point of the run up to an overrun. */
  ghost predicate CappedThroughout(l: Tables, day: int -> int, steps: seq<Step>)
    decreases |steps|
  {
    && (l.pricingError || Within(l, day, PRIORITY_CAP))
    && (steps == [] || CappedThroughout(Next(l, day, steps[0]), day, steps[1..]))
  }

  lemma StepCappedIff(l: Tables, day: int -> int, clock: int, step: Step)
    requires Monotone(day) && Sound(l, day, clock)
    ensures var l' := Next(l, day, step);
      && (HasRoom(l, day, step) ==> Sound(l', day, Latest(clock, step.now)))
      && (!HasRoom(l, day, step) ==> !l'.pricingError && !Within(l', day, PRIORITY_CAP))
  {
    match step
    case SettleStep(id, actual, now, executionDay) => SettleSound(l, day, clock, id, actual, now, executionDay);
    case ReserveStep(maximum, priority, now, scope, limit) =>
      var (l', r) := Reserve(l, day, maximum, priority, now, scope, limit);
      assert Sound(l, day, Latest(clock, now));
      if r.Admitted? {
        AdmissionKeepsCapIff(l, day, clock, maximum, priority, now, scope, limit);
        if HasRoom(l, day, step) { AdmittedSound(l, day, Latest(clock, now), l'.charges[|l.charges|]); }
      }
  }

  lemma {:induction false} RunCappedIff(l: Tables, day: int -> int, clock: int, steps: seq<Step>)
    requires Monotone(day) && Sound(l, day, clock)
    ensures CappedThroughout(l, day, steps) <==> AllHaveRoom(l, day, steps)
    decreases |steps|
  {
    if steps != [] {
      StepCappedIff(l, day, clock, steps[0]);
      if HasRoom(l, day, steps[0]) {
        RunCappedIff(Next(l, day, steps[0]), day, Latest(clock, steps[0].now), steps[1..]);
      }
    }
  }

  /** Over every run on any clock, forward or back, the cap holds throughout exactly when every admission had room. */
  lemma CapHoldsIff(day: int -> int, steps: seq<Step>)
    requires Monotone(day)
    ensures CappedThroughout(EMPTY, day, steps) <==> AllHaveRoom(EMPTY, day, steps)
  {
    assert Sound(EMPTY, day, 0);
    RunCappedIff(EMPTY, day, 0, steps);
  }

  /** Every reservation that would be admitted at `now` keeps the cap. */
  ghost predicate AdmissionsKeepCap(l: Tables, day: int -> int, now: int) {
    forall maximum, priority, scope, limit ::
      Reserve(l, day, maximum, priority, now, scope, limit).1.Admitted?
      ==> Within(Reserve(l, day, maximum, priority, now, scope, limit).0, day, PRIORITY_CAP)
  }

  /** The budget read at `now` is no less than what its day, or any later one, is exposed to. */
  ghost predicate BudgetCoversLaterDays(l: Tables, day: int -> int, now: int) {
    forall d :: day(now) <= d ==> Exposure(l, day, d) <= Budget(l, day, now)
  }

  /**
   On any clock, forward or back: all admissions at `now` keep the cap on every day exactly when
   the budget read then covers its own day and all later ones, or has no room left at all.
   */
  lemma AdmissionsKeepCapIff(l: Tables, day: int -> int, clock: int, now: int)
    requires Sound(l, day, clock) && !l.pricingError
    ensures AdmissionsKeepCap(l, day, now) <==>
      BudgetCoversLaterDays(l, day, now) || Budget(l, day, now) >= PRIORITY_CAP
  {
    EmptyBudgetIsNotNegative(l, day, clock, now);
    if BudgetCoversLaterDays(l, day, now) || Budget(l, day, now) >= PRIORITY_CAP {
      forall maximum, priority, scope, limit | Reserve(l, day, maximum, priority, now, scope, limit).1.Admitted?
        ensures Within(Reserve(l, day, maximum, priority, now, scope, limit).0, day, PRIORITY_CAP)
      {
        AdmissionKeepsCapIff(l, day, clock, maximum, priority, now, scope, limit);
      }
    }
    if AdmissionsKeepCap(l, day, now) && Budget(l, day, now) < PRIORITY_CAP {
      var maximum := PRIORITY_CAP - Budget(l, day, now);
      assert Reserve(l, day, maximum, true, now, None, SCOPE_LIMIT).1.Admitted?;
      AdmissionKeepsCapIff(l, day, clock, maximum, true, now, None, SCOPE_LIMIT);
    }
  }

  /** What a caller can look up: no open charge was admitted after `now`, and no later day is debited. */
  ghost predicate NothingAhead(l: Tables, day: int -> int, now: int) {
    && (forall i :: 0 <= i < |l.charges| && l.charges[i].settlement.None? ==> l.charges[i].admitted <= now)
    && (forall i: nat, d: int :: (i, d) in l.debits ==> d <= day(now))
  }

  /** Then the budget covers every day, whatever the clock said in between. */
  lemma NothingAheadCovers(l: Tables, day: int -> int, clock: int, now: int)
    requires Monotone(day) && Sound(l, day, clock) && NothingAhead(l, day, now)
    ensures BudgetCoversLaterDays(l, day, now)
    ensures !l.pricingError ==> AdmissionsKeepCap(l, day, now)
  {
    forall d | day(now) <= d ensures Exposure(l, day, d) <= Budget(l, day, now) {
      var seen := (i: nat) => Debit(l, i, day(now)) + HeldAt(l, now, i);
      SumSplit((i: nat) => Debit(l, i, day(now)), (i: nat) => HeldAt(l, now, i), seen, |l.charges|);
      forall i: nat | i < |l.charges| ensures Debit(l, i, d) + OpenOn(l, day, d, i) <= seen(i) {
        assert ChargeSound(l.charges[i], clock);
        if (i, day(now)) in l.debits {
          assert DebitSound(l, day, i, day(now));
        }
      }
      SumBelow((i: nat) => Debit(l, i, d) + OpenOn(l, day, d, i), seen, |l.charges|);
    }
    if !l.pricingError { AdmissionsKeepCapIff(l, day, clock, now); }
  }

  /** Two whole-cap reservations, the second one on a clock set back. */
  function SetBack(first: int, second: int): seq<Step> {
    [ReserveStep(PRIORITY_CAP, true, first, None, SCOPE_LIMIT),
     ReserveStep(PRIORITY_CAP, true, second, None, SCOPE_LIMIT)]
  }

  lemma SetBackTables(day: int -> int, first: int, second: int)
    requires second < first
    ensures Run(EMPTY, day, SetBack(first, second))
         == Tables([Charge(PRIORITY_CAP, first, None, None), Charge(PRIORITY_CAP, second, None, None)], map[], false)
  {
    var steps := SetBack(first, second);
    assert steps[1..] == [steps[1]] && steps[1..][1..] == [];
    var c1, c2 := Charge(PRIORITY_CAP, first, None, None), Charge(PRIORITY_CAP, second, None, None);
    var l1 := Next(EMPTY, day, steps[0]);
    assert l1 == Tables([c1], map[], false);
    assert Sum((i: nat) => HeldAt(l1, second, i), 0) == 0;
    assert Held(l1, second) == HeldAt(l1, second, 0) == 0;
    assert Sum((i: nat) => Debit(l1, i, day(second)), 0) == 0;
    assert Debited(l1, day(second)) == 0;
    var l2 := Next(l1, day, steps[1]);
    assert l2 == Tables([c1, c2], map[], false);
    assert Run(l2, day, []) == l2 && Run(l1, day, [steps[1]]) == l2;
  }

  lemma TwoOpenCharges(day: int -> int, first: int, second: int, d: int)
    requires day(first) <= d && day(second) <= d
    ensures var charges := [Charge(PRIORITY_CAP, first, None, None), Charge(PRIORITY_CAP, second, None, None)];
      Exposure(Tables(charges, map[], false), day, d) == 2 * PRIORITY_CAP
  {
    var l := Tables([Charge(PRIORITY_CAP, first, None, None), Charge(PRIORITY_CAP, second, None, None)], map[], false);
    assert Sum((i: nat) => Debit(l, i, d) + OpenOn(l, day, d, i), 0) == 0;
    assert Sum((i: nat) => Debit(l, i, d) + OpenOn(l, day, d, i), 1) == PRIORITY_CAP;
  }

  /**
   The daily check looks only at charges admitted up to `now`, so a clock set back
   hides the later ones: two admissions then put twice the cap on one day.
   */
  lemma ClockSetBackBreaksCap()
    ensures var day, steps := (t: int) => 0, SetBack(10, 5);
      && Monotone(day) && !Ordered(10, steps)
      && !Run(EMPTY, day, steps).pricingError
      && Exposure(Run(EMPTY, day, steps), day, 0) == 2 * PRIORITY_CAP
  {
    var day := (t: int) => 0;
    SetBackTables(day, 10, 5);
    TwoOpenCharges(day, 10, 5, 0);
  }

  /** Also over midnight, where the budget of the earlier day is exact and only the later day is exceeded. */
  lemma ClockSetBackBreaksLaterDay()
    ensures var day, steps := (t: int) => if t < 100 then 0 else 1, SetBack(105, 5);
      && Monotone(day)
      && Budget(Run(EMPTY, day, steps[..1]), day, 5) == Exposure(Run(EMPTY, day, steps[..1]), day, day(5))
      && !NothingAhead(Run(EMPTY, day, steps[..1]), day, 5)
      && Exposure(Run(EMPTY, day, steps), day, 1) == 2 * PRIORITY_CAP
  {
    var day := (t: int) => if t < 100 then 0 else 1;
    var steps := SetBack(105, 5);
    SetBackTables(day, 105, 5);
    TwoOpenCharges(day, 105, 5, 1);
    var c1 := Charge(PRIORITY_CAP, 105, None, None);
    var l1 := Tables([c1], map[], false);
    assert Next(EMPTY, day, steps[0]) == l1;
    assert steps[..1] == [steps[0]] && [steps[0]][1..] == [];
    assert Run(EMPTY, day, steps[..1]) == l1;
    SumAgrees((i: nat) => HeldAt(l1, 5, i), (i: nat) => 0, 1);
    SumAgrees((i: nat) => Debit(l1, i, 0), (i: nat) => 0, 1);
    SumAgrees((i: nat) => Debit(l1, i, 0) + OpenOn(l1, day, 0, i), (i: nat) => 0, 1);
    SumZero(1);
    assert l1.charges[0].admitted == 105;
  }
}
