/**
 Requests in flight through ModelGateway: the concurrency bound, the retries, and the whole way
 from a request's byte bound to the cap on what a day is charged.
 */
module GatewayRuns {
  import opened Common
  import opened Gateway
  import L = Ledger
  import S = LedgerSafety

  const MAX_ACTIVE := 4
  const MAX_ATTEMPTS := 3

  /** Between attempts, waiting for the answer to a request paid for by a charge, or over. */
  datatype Phase = Ready | Sent(charge: nat) | Ended

  datatype Flight = Flight(model: string, bytes: nat, priority: bool, scope: Option<string>, attempts: nat,
      phase: Phase)

  datatype State = State(tables: L.Tables, flights: seq<Flight>)

  function Active(flights: seq<Flight>): nat {
    if flights == [] then 0 else Active(flights[1..]) + (if flights[0].phase.Ended? then 0 else 1)
  }

  function Attempts(flights: seq<Flight>): nat {
    if flights == [] then 0 else flights[0].attempts + Attempts(flights[1..])
  }

  // ---- The steps ---------------------------------------------------------------

  /**
   Go says that no owner control, lost authority or abort stands in the way of a dispatch.
   Fault is a server error, after which the request is tried again; Break is any other failure.
   */
  datatype Step =
    | Arrive(model: string, bytes: nat, priority: bool, scope: Option<string>)
    | Dispatch(i: nat, go: bool, now: int)
    | Reply(i: nat, usage: Usage, now: int)
    | Fault(i: nat)
    | Break(i: nat)

  predicate Can(s: State, step: Step) {
    match step
    case Arrive(_, _, _, _) => true
    case Dispatch(i, _, _) => i < |s.flights| && s.flights[i].phase.Ready?
    case Reply(i, _, _) => i < |s.flights| && s.flights[i].phase.Sent?
    case Fault(i) => i < |s.flights| && s.flights[i].phase.Sent?
    case Break(i) => i < |s.flights| && s.flights[i].phase.Sent?
  }

  function Turned(s: State, i: nat, phase: Phase): State
    requires i < |s.flights|
  {
    s.(flights := s.flights[i := s.flights[i].(phase := phase)])
  }

  ghost function Dispatched(s: State, day: int -> int, i: nat, now: int): State
    requires i < |s.flights|
  {
    var f := s.flights[i];
    var p := Prepare(f.model, f.bytes);
    if !p.Prepared? then Turned(s, i, Ended)
    else
      var (tables, r) := L.Reserve(s.tables, day, p.maximum, f.priority, now, f.scope, L.SCOPE_LIMIT);
      if r.Admitted? then State(tables, s.flights[i := f.(attempts := f.attempts + 1, phase := Sent(r.id))])
      else Turned(s, i, Ended)
  }

  ghost function Do(s: State, day: int -> int, step: Step): State
    requires Can(s, step)
  {
    match step
    case Arrive(model, bytes, priority, scope) =>
      if !Prepare(model, bytes).Prepared? || Active(s.flights) >= MAX_ACTIVE then s
      else s.(flights := s.flights + [Flight(model, bytes, priority, scope, 0, Ready)])
    case Dispatch(i, go, now) => if go then Dispatched(s, day, i, now) else Turned(s, i, Ended)
    case Reply(i, usage, now) =>
      var f := s.flights[i];
      var t := Turned(s, i, Ended);
      if PriceOf(f.model).None? || Amount(PriceOf(f.model).value, usage).None? then t
      else t.(tables := L.Settle(s.tables, day, f.phase.charge,
                                 Amount(PriceOf(f.model).value, usage).value, now, None).0)
    case Fault(i) => Turned(s, i, if s.flights[i].attempts < MAX_ATTEMPTS then Ready else Ended)
    case Break(i) => Turned(s, i, Ended)
  }

  function Empty(): State {
    State(L.EMPTY, [])
  }

  // ---- What every step keeps -----------------------------------------------------

  ghost predicate FlightHolds(s: State, i: nat)
    requires i < |s.flights|
  {
    var f := s.flights[i];
    && Prepare(f.model, f.bytes).Prepared?
    && f.attempts <= MAX_ATTEMPTS
    && (f.phase.Ready? ==> f.attempts < MAX_ATTEMPTS)
    && (f.phase.Sent? ==>
         && f.phase.charge < |s.tables.charges|
         && s.tables.charges[f.phase.charge].settlement.None?
         && s.tables.charges[f.phase.charge].maximum == Prepare(f.model, f.bytes).maximum)
  }

  ghost predicate FlightsHold(s: State) {
    forall i :: 0 <= i < |s.flights| ==> FlightHolds(s, i)
  }

  /** No two requests wait on the same charge. */
  ghost predicate OwnCharges(s: State) {
    forall i, j :: 0 <= i < j < |s.flights| && s.flights[i].phase.Sent? && s.flights[j].phase.Sent?
      ==> s.flights[i].phase.charge != s.flights[j].phase.charge
  }

  ghost predicate Good(s: State) {
    && FlightsHold(s) && OwnCharges(s)
    && Active(s.flights) <= MAX_ACTIVE
    && |s.tables.charges| == Attempts(s.flights)
  }

  lemma {:induction false} ActiveAfter(flights: seq<Flight>, i: nat, f: Flight)
    requires i < |flights|
    ensures Active(flights[i := f])
         == Active(flights) - (if flights[i].phase.Ended? then 0 else 1) + (if f.phase.Ended? then 0 else 1)
    ensures Attempts(flights[i := f]) == Attempts(flights) - flights[i].attempts + f.attempts
  {
    if i > 0 {
      assert flights[i := f][1..] == flights[1..][i - 1 := f];
      ActiveAfter(flights[1..], i - 1, f);
    } else {
      assert flights[i := f][1..] == flights[1..];
    }
  }

  lemma {:induction false} OneMoreFlight(flights: seq<Flight>, f: Flight)
    ensures Active(flights + [f]) == Active(flights) + (if f.phase.Ended? then 0 else 1)
    ensures Attempts(flights + [f]) == Attempts(flights) + f.attempts
  {
    if flights == [] {
      assert [f][1..] == [];
    } else {
      assert (flights + [f])[1..] == flights[1..] + [f];
      OneMoreFlight(flights[1..], f);
    }
  }

  lemma TurnedGood(s: State, i: nat, phase: Phase)
    requires Good(s) && i < |s.flights| && !s.flights[i].phase.Ended? && !phase.Sent?
    requires phase.Ready? ==> s.flights[i].attempts < MAX_ATTEMPTS
    ensures Good(Turned(s, i, phase))
  {
    ActiveAfter(s.flights, i, s.flights[i].(phase := phase));
    forall j | 0 <= j < |s.flights| ensures FlightHolds(Turned(s, i, phase), j) {
      assert FlightHolds(s, j);
    }
  }

  lemma DispatchedGood(s: State, day: int -> int, i: nat, now: int)
    requires Good(s) && i < |s.flights| && s.flights[i].phase.Ready?
    ensures Good(Dispatched(s, day, i, now))
  {
    assert FlightHolds(s, i);
    var f, t := s.flights[i], Dispatched(s, day, i, now);
    if t.tables.charges == s.tables.charges {
      TurnedGood(s, i, Ended);
    } else {
      ActiveAfter(s.flights, i, t.flights[i]);
      forall j | 0 <= j < |s.flights| ensures FlightHolds(t, j) {
        assert FlightHolds(s, j);
      }
      forall j | 0 <= j < |s.flights| && s.flights[j].phase.Sent?
        ensures s.flights[j].phase.charge < |s.tables.charges|
      {
        assert FlightHolds(s, j);
      }
    }
  }

  lemma ReplyGood(s: State, day: int -> int, i: nat, usage: Usage, now: int)
    requires Good(s) && i < |s.flights| && s.flights[i].phase.Sent?
    ensures Good(Do(s, day, Reply(i, usage, now)))
  {
    var mid, t := Turned(s, i, Ended), Do(s, day, Reply(i, usage, now));
    TurnedGood(s, i, Ended);
    forall j | 0 <= j < |t.flights| ensures FlightHolds(t, j) {
      assert FlightHolds(mid, j);
      assert FlightHolds(s, i);
      if t.flights[j].phase.Sent? {
        assert t.flights[j].phase.charge != s.flights[i].phase.charge;
      }
    }
  }

  lemma StepGood(s: State, day: int -> int, step: Step)
    requires Good(s) && Can(s, step)
    ensures Good(Do(s, day, step))
  {
    match step
    case Arrive(model, bytes, priority, scope) =>
      if Do(s, day, step) != s {
        OneMoreFlight(s.flights, Flight(model, bytes, priority, scope, 0, Ready));
        forall j | 0 <= j < |s.flights| ensures FlightHolds(Do(s, day, step), j) {
          assert FlightHolds(s, j);
        }
      }
    case Dispatch(i, go, now) =>
      if go { DispatchedGood(s, day, i, now); } else { assert FlightHolds(s, i); TurnedGood(s, i, Ended); }
    case Reply(i, usage, now) => ReplyGood(s, day, i, usage, now);
    case Fault(i) =>
      assert FlightHolds(s, i);
      TurnedGood(s, i, if s.flights[i].attempts < MAX_ATTEMPTS then Ready else Ended);
    case Break(i) => TurnedGood(s, i, Ended);
  }

  ghost predicate Runs(s: State, day: int -> int, steps: seq<Step>, t: State)
    decreases |steps|
  {
    if steps == [] then t == s else Can(s, steps[0]) && Runs(Do(s, day, steps[0]), day, steps[1..], t)
  }

  lemma {:induction false} RunGood(s: State, day: int -> int, steps: seq<Step>, t: State)
    requires Good(s) && Runs(s, day, steps, t)
    ensures Good(t)
    decreases |steps|
  {
    if steps != [] {
      StepGood(s, day, steps[0]);
      RunGood(Do(s, day, steps[0]), day, steps[1..], t);
    }
  }

  /**
   However calls interleave, at most four are active, none is sent more than three times, and
   every request ever sent was paid for by a charge of its own, still open while it waits.
   */
  lemma EveryRequestIsReserved(day: int -> int, steps: seq<Step>, t: State)
    requires Runs(Empty(), day, steps, t)
    ensures Active(t.flights) <= MAX_ACTIVE
    ensures |t.tables.charges| == Attempts(t.flights) && OwnCharges(t)
    ensures forall i :: 0 <= i < |t.flights| ==> t.flights[i].attempts <= MAX_ATTEMPTS
    ensures forall i :: 0 <= i < |t.flights| && t.flights[i].phase.Sent? ==>
      t.flights[i].phase.charge < |t.tables.charges| && t.tables.charges[t.flights[i].phase.charge].settlement.None?
  {
    RunGood(Empty(), day, steps, t);
    forall i | 0 <= i < |t.flights|
      ensures t.flights[i].attempts <= MAX_ATTEMPTS
      ensures t.flights[i].phase.Sent? ==>
        t.flights[i].phase.charge < |t.tables.charges| && t.tables.charges[t.flights[i].phase.charge].settlement.None?
    {
      assert FlightHolds(t, i);
    }
  }

  // ---- What each step does ----------------------------------------------------------

  /** Flight i is this one now, and no other has changed. */
  ghost predicate Only(s: State, t: State, i: nat, f: Flight)
    requires i < |s.flights|
  {
    t.flights == s.flights[i := f]
  }

  /** A call is taken up, unsent, exactly when it is priced, short enough, and fewer than four are active. */
  lemma ArriveEffect(s: State, day: int -> int, model: string, bytes: nat, priority: bool, scope: Option<string>)
    ensures var t := Do(s, day, Arrive(model, bytes, priority, scope));
      && t.tables == s.tables
      && t.flights == s.flights +
           if PriceOf(model).Some? && bytes + 8192 <= 32_000 && Active(s.flights) < 4
           then [Flight(model, bytes, priority, scope, 0, Ready)] else []
  {
    PreparedIff(model, bytes);
  }

  /**
   A call that nothing stands in the way of asks for its reservation, in its own tier and scope. It is
   sent, once more, on the charge it is given, and is over when it is given none.
   */
  lemma DispatchEffect(s: State, day: int -> int, i: nat, go: bool, now: int)
    requires Good(s) && Can(s, Dispatch(i, go, now))
    ensures Prepare(s.flights[i].model, s.flights[i].bytes).Prepared?
    ensures var t, f := Do(s, day, Dispatch(i, go, now)), s.flights[i];
      var (tables, r) := L.Reserve(s.tables, day, Prepare(f.model, f.bytes).maximum, f.priority, now, f.scope,
        2_000_000);
      if go && r.Admitted?
      then t.tables == tables && Only(s, t, i, f.(attempts := f.attempts + 1, phase := Sent(|s.tables.charges|)))
      else t.tables == s.tables && Only(s, t, i, f.(phase := Ended))
  {
    assert FlightHolds(s, i);
  }

  /** What the provider reports in full is settled at its cost; otherwise the reservation stays open. */
  lemma ReplyEffect(s: State, day: int -> int, i: nat, usage: Usage, now: int)
    requires Good(s) && Can(s, Reply(i, usage, now))
    ensures PriceOf(s.flights[i].model).Some? && s.flights[i].phase.charge < |s.tables.charges|
    ensures var t, f := Do(s, day, Reply(i, usage, now)), s.flights[i];
      var c := f.phase.charge;
      && Only(s, t, i, f.(phase := Ended)) && |t.tables.charges| == |s.tables.charges|
      && (forall k :: 0 <= k < |s.tables.charges| && k != c ==> t.tables.charges[k] == s.tables.charges[k])
      && (!Reported(usage) ==> t.tables == s.tables)
      && (Reported(usage) && s.tables.charges[c].admitted <= now
          && Cost(PriceOf(f.model).value, usage) <= L.MAX_SAFE_INTEGER as real ==>
            && t.tables.charges[c].settlement.Some? && t.tables.charges[c].settlement.value.at == now
            && Cost(PriceOf(f.model).value, usage) <= t.tables.charges[c].settlement.value.actual as real
            && (t.tables.charges[c].settlement.value.actual as real) < Cost(PriceOf(f.model).value, usage) + 1.0)
  {
    assert FlightHolds(s, i);
    AmountIsCost(PriceOf(s.flights[i].model).value, usage);
  }

  /** A server error leads to another attempt as long as there have been fewer than three; any other failure to none. */
  lemma FailureEffect(s: State, day: int -> int, i: nat)
    requires i < |s.flights| && s.flights[i].phase.Sent?
    ensures var f, t, u := s.flights[i], Do(s, day, Fault(i)), Do(s, day, Break(i));
      && t.tables == s.tables && u.tables == s.tables
      && Only(s, t, i, f.(phase := if f.attempts < 3 then Ready else Ended)) && Only(s, u, i, f.(phase := Ended))
  {
  }

  // ---- From bytes to the daily cap -------------------------------------------------

  /** The clock never goes back, and every reported usage keeps to its request's bounds. */
  ghost predicate WellBehaved(s: State, day: int -> int, steps: seq<Step>, clock: int)
    decreases |steps|
  {
    steps == [] ||
    (Can(s, steps[0])
     && clock <= Now(steps[0], clock)
     && (steps[0].Reply? ==> Plausible(s.flights[steps[0].i], steps[0].usage))
     && WellBehaved(Do(s, day, steps[0]), day, steps[1..], Now(steps[0], clock)))
  }

  function Now(step: Step, clock: int): int {
    match step
    case Dispatch(_, _, now) => now
    case Reply(_, _, now) => now
    case _ => clock
  }

  /** Usage that is not fully reported is never settled. */
  predicate Plausible(f: Flight, usage: Usage) {
    Reported(usage) ==> Prepare(f.model, f.bytes).Prepared? && Conforms(usage, Prepare(f.model, f.bytes).inputBound)
  }

  lemma StepWithinCap(s: State, day: int -> int, step: Step, clock: int)
    requires L.Monotone(day) && Good(s) && S.Sound(s.tables, day, clock) && !s.tables.pricingError
    requires Can(s, step) && clock <= Now(step, clock) && (step.Reply? ==> Plausible(s.flights[step.i], step.usage))
    ensures S.Sound(Do(s, day, step).tables, day, Now(step, clock)) && !Do(s, day, step).tables.pricingError
  {
    match step
    case Dispatch(i, go, now) =>
      var p := Prepare(s.flights[i].model, s.flights[i].bytes);
      if go && p.Prepared? {
        S.ReserveSound(s.tables, day, clock, p.maximum, s.flights[i].priority, now, s.flights[i].scope, L.SCOPE_LIMIT);
      } else {
        ClockForward(s.tables, day, clock, now);
      }
    case Reply(i, usage, now) =>
      var f := s.flights[i];
      assert FlightHolds(s, i);
      var amount := Amount(PriceOf(f.model).value, usage);
      if amount.Some? {
        ConformingUsageNeverOverruns(s.tables, day, f.model, f.bytes, usage, f.phase.charge, now);
        S.SettleSound(s.tables, day, clock, f.phase.charge, amount.value, now, None);
      } else {
        ClockForward(s.tables, day, clock, now);
      }
    case _ =>
  }

  lemma ClockForward(l: L.Tables, day: int -> int, clock: int, now: int)
    requires S.Sound(l, day, clock) && clock <= now
    ensures S.Sound(l, day, now)
  {
  }

  lemma {:induction false} RunWithinCap(s: State, day: int -> int, steps: seq<Step>, t: State, clock: int, d: int)
    requires L.Monotone(day) && Good(s) && S.Sound(s.tables, day, clock) && !s.tables.pricingError
    requires Runs(s, day, steps, t) && WellBehaved(s, day, steps, clock)
    ensures !t.tables.pricingError
    ensures 0 <= L.Debited(t.tables, d) <= S.Exposure(t.tables, day, d) <= L.PRIORITY_CAP
    decreases |steps|
  {
    if steps == [] {
      S.DebitsAreExposure(s.tables, day, clock, d);
      assert S.Within(s.tables, day, L.PRIORITY_CAP);
    } else {
      StepGood(s, day, steps[0]);
      StepWithinCap(s, day, steps[0], clock);
      RunWithinCap(Do(s, day, steps[0]), day, steps[1..], t, Now(steps[0], clock), d);
    }
  }

  /**
   As long as the provider keeps to the byte bound and to max_tokens and the clock does not go
   back, whatever requests are made, retried, answered or lost, no local day is charged, debits
   and open reservations together, more than the daily cap, and admission is never shut off.
   */
  lemma ProviderWithinBoundsKeepsCap(day: int -> int, steps: seq<Step>, t: State, clock: int, d: int)
    requires L.Monotone(day) && Runs(Empty(), day, steps, t) && WellBehaved(Empty(), day, steps, clock)
    ensures !t.tables.pricingError
    ensures 0 <= L.Debited(t.tables, d) <= S.Exposure(t.tables, day, d) <= L.PRIORITY_CAP
  {
    assert S.Sound(L.EMPTY, day, clock);
    RunWithinCap(Empty(), day, steps, t, clock, d);
  }
}
