/**
 Approved task hand-offs: one row per proposal, a leased token for whoever is
 starting its task, and the two states nothing leaves.
 */
module Handoffs {
  import opened Common

  datatype State = Approved | Prepared | Activated | Stale

  /** What an approval fixes for good. */
  datatype Record = Record(proposal: string, version: string, actor: string, approved: int, task: string,
      delivery: string)

  datatype Row = Row(record: Record, state: State, lease: int, token: Option<nat>)

  datatype Table = Table(rows: map<string, Row>, nextToken: nat)

  predicate Pending(s: State) {
    s.Approved? || s.Prepared?
  }

  // ---- Transactions --------------------------------------------------------

  datatype Approval = Saved(record: Record) | Known(record: Record) | Changed | TaskTaken

  /** The first approval of a proposal is kept; a later one must agree with it; the task id is unique in the table. */
  function Approve(t: Table, r: Record): (Table, Approval) {
    if r.proposal in t.rows then
      var previous := t.rows[r.proposal].record;
      (t, if previous.version != r.version || previous.actor != r.actor then Changed else Known(previous))
    else if exists id :: id in t.rows && t.rows[id].record.task == r.task then (t, TaskTaken)
    else (t.(rows := t.rows[r.proposal := Row(r, Approved, 0, None)]), Saved(r))
  }

  function Claim(t: Table, id: string, now: int): (Table, Option<nat>) {
    if id in t.rows && Pending(t.rows[id].state) && t.rows[id].lease <= now then
      (Table(t.rows[id := t.rows[id].(lease := now + 300_000, token := Some(t.nextToken))], t.nextToken + 1),
       Some(t.nextToken))
    else (t, None)
  }

  predicate Holds(t: Table, id: string, token: nat) {
    id in t.rows && t.rows[id].token == Some(token)
  }

  function Prepare(t: Table, id: string, token: nat): (Table, bool) {
    if Holds(t, id, token) then (t.(rows := t.rows[id := t.rows[id].(state := State.Prepared)]), true) else (t, false)
  }

  function Finish(t: Table, id: string, token: nat, state: Option<State>): Table {
    if Holds(t, id, token) then
      var kept := if state.Some? then state.value else t.rows[id].state;
      t.(rows := t.rows[id := t.rows[id].(state := kept, lease := 0, token := None)])
    else t
  }

  // ---- What is kept --------------------------------------------------------

  ghost predicate RowsSound(t: Table) {
    && (forall id :: id in t.rows ==> t.rows[id].record.proposal == id)
    && (forall a, b :: a in t.rows && b in t.rows && t.rows[a].record.task == t.rows[b].record.task ==> a == b)
    && (forall id :: id in t.rows && t.rows[id].token.Some? ==>
          Pending(t.rows[id].state) && t.rows[id].token.value < t.nextToken)
  }

  ghost predicate ClaimsSound(claims: set<(string, nat)>, nextToken: nat) {
    && (forall c :: c in claims ==> c.1 < nextToken)
    && (forall a, b :: a in claims && b in claims && a.1 == b.1 ==> a == b)
  }

  /** No step removes a row or changes its record; none touches a settled row. */
  ghost predicate Keeps(t: Table, t': Table) {
    forall id :: id in t.rows ==>
      && id in t'.rows && t'.rows[id].record == t.rows[id].record
      && (!Pending(t.rows[id].state) ==> t'.rows[id] == t.rows[id])
  }

  /** Nobody who was given a token for the hand-off still holds it. */
  ghost predicate Unheld(t: Table, claims: set<(string, nat)>, id: string) {
    forall c :: c in claims && c.0 == id ==> !Holds(t, id, c.1)
  }

  /** A claim takes the hand-off from everybody else. */
  lemma ClaimTakes(t: Table, claims: set<(string, nat)>, id: string, now: int)
    requires ClaimsSound(claims, t.nextToken) && Claim(t, id, now).1.Some?
    ensures var (t', token) := Claim(t, id, now);
      ClaimsSound(claims + {(id, token.value)}, t'.nextToken) && Holds(t', id, token.value) && Unheld(t', claims, id)
  {
  }

  class HandoffTable {
    var rows: map<string, Row>
    var nextToken: nat
    /** The tokens handed out so far, each with its hand-off. */
    ghost var claims: set<(string, nat)>

    function View(): Table reads this { Table(rows, nextToken) }

    ghost predicate Valid() reads this { RowsSound(View()) && ClaimsSound(claims, nextToken) }

    constructor ()
      ensures Valid() && View() == Table(map[], 0) && claims == {}
    {
      rows, nextToken, claims := map[], 0, {};
    }

    method ApproveHandoff(r: Record) returns (result: Approval)
      modifies this`rows
      ensures (View(), result) == Approve(old(View()), r)
      ensures View() == Next(World(old(View()), {}, {}, {}), ApproveStep(r)).table
      ensures result.Saved? <==>
        r.proposal !in old(rows) && forall id :: id in old(rows) ==> old(rows)[id].record.task != r.task
      ensures rows == if result.Saved? then old(rows)[r.proposal := Row(r, Approved, 0, None)] else old(rows)
      ensures result.Changed? <==>
        r.proposal in rows && (rows[r.proposal].record.version != r.version || rows[r.proposal].record.actor != r.actor)
          && !result.Saved?
      ensures old(Valid()) ==> Valid() && Keeps(old(View()), View())
      ensures result.Saved? || result.Known? ==>
        && r.proposal in rows && rows[r.proposal].record == result.record && result.record.version == r.version
        && result.record.actor == r.actor
    {
      if r.proposal in rows {
        var previous := rows[r.proposal].record;
        if previous.version != r.version || previous.actor != r.actor {
          return Changed;
        }
        return Known(previous);
      }
      if exists id :: id in rows && rows[id].record.task == r.task {
        return TaskTaken;
      }
      rows := rows[r.proposal := Row(r, Approved, 0, None)];
      result := Saved(r);
    }

    method ClaimHandoff(id: string, now: int) returns (token: Option<nat>)
      modifies this
      ensures (View(), token) == Claim(old(View()), id, now)
      ensures View() == Next(World(old(View()), {}, {}, {}), ClaimStep(id, now)).table
      ensures token.Some? <==>
        && id in old(rows) && old(rows)[id].lease <= now
        && (old(rows)[id].state == Approved || old(rows)[id].state == State.Prepared)
      ensures token.None? ==> View() == old(View())
      ensures token.Some? ==>
        && token.value == old(nextToken) && nextToken == old(nextToken) + 1
        && rows == old(rows)[id := Row(old(rows)[id].record, old(rows)[id].state, now + 300_000, token)]
      ensures claims == old(claims) + (if token.Some? then {(id, token.value)} else {})
      ensures old(Valid()) ==> Valid() && Keeps(old(View()), View())
      ensures old(Valid()) && token.Some? ==> Holds(View(), id, token.value) && Unheld(View(), old(claims), id)
    {
      token := None;
      if id in rows && Pending(rows[id].state) && rows[id].lease <= now {
        token := Some(nextToken);
        rows := rows[id := rows[id].(lease := now + 300_000, token := token)];
        nextToken := nextToken + 1;
        claims := claims + {(id, token.value)};
      }
      if old(Valid()) {
        ClaimSound(old(View()), id, now);
        if token.Some? { ClaimTakes(old(View()), old(claims), id, now); }
      }
    }

    method PrepareHandoff(id: string, token: nat) returns (changed: bool)
      modifies this`rows
      ensures (View(), changed) == Prepare(old(View()), id, token)
      ensures View() == Next(World(old(View()), {}, {(id, token)}, {}), PrepareStep(id, token)).table
      ensures changed <==> id in old(rows) && old(rows)[id].token == Some(token)
      ensures rows == if changed
        then old(rows)[id := old(rows)[id].(state := State.Prepared)] else old(rows)
      ensures old(Valid()) ==> Valid() && Keeps(old(View()), View())
    {
      changed := Holds(View(), id, token);
      if changed {
        rows := rows[id := rows[id].(state := State.Prepared)];
      }
      if old(Valid()) { HolderSound(old(View()), id, token, None); }
    }

    method FinishHandoff(id: string, token: nat, state: Option<State>)
      modifies this`rows
      ensures View() == Finish(old(View()), id, token, state)
      ensures View() == Next(World(old(View()), {}, {(id, token)}, {}), FinishStep(id, token, state)).table
      ensures rows == if id in old(rows) && old(rows)[id].token == Some(token)
        then old(rows)[id := old(rows)[id].(lease := 0, token := None,
                                            state := if state.None? then old(rows)[id].state else state.value)]
        else old(rows)
      ensures old(Valid()) ==> Valid() && Keeps(old(View()), View())
      ensures old(Valid() && Holds(View(), id, token)) ==> Unheld(View(), claims, id)
    {
      if Holds(View(), id, token) {
        var row := rows[id];
        if state.Some? {
          row := row.(state := state.value);
        }
        rows := rows[id := row.(lease := 0, token := None)];
      }
      if old(Valid()) { HolderSound(old(View()), id, token, state); }
    }
  }

  // ---- Runs ----------------------------------------------------------------

  /** The table, the records callers were given or read, the claims handed out, and the tasks anyone started. */
  datatype World = World(table: Table, seen: set<Record>, claims: set<(string, nat)>, started: set<(string, string)>)

  datatype Step =
    | ApproveStep(record: Record)
    | ReadStep(id: string)
    | ClaimStep(id: string, now: int)
    | PrepareStep(id: string, token: nat)
    | StartStep(record: Record)
    | FinishStep(id: string, token: nat, state: Option<State>)

  /** A worker uses only tokens it was handed and starts only the task of a record it was given. */
  function Next(w: World, step: Step): World {
    match step
    case ApproveStep(record) =>
      var (t, result) := Approve(w.table, record);
      World(t, if result.Saved? || result.Known? then w.seen + {result.record} else w.seen, w.claims, w.started)
    case ReadStep(id) => if id in w.table.rows then w.(seen := w.seen + {w.table.rows[id].record}) else w
    case ClaimStep(id, now) =>
      var (t, token) := Claim(w.table, id, now);
      World(t, w.seen, if token.Some? then w.claims + {(id, token.value)} else w.claims, w.started)
    case PrepareStep(id, token) => if (id, token) in w.claims then w.(table := Prepare(w.table, id, token).0) else w
    case StartStep(record) =>
      if record in w.seen then w.(started := w.started + {(record.proposal, record.task)}) else w
    case FinishStep(id, token, state) =>
      if (id, token) in w.claims then w.(table := Finish(w.table, id, token, state)) else w
  }

  function Run(w: World, steps: seq<Step>): World
    decreases |steps|
  {
    if steps == [] then w else Run(Next(w, steps[0]), steps[1..])
  }

  const START := World(Table(map[], 0), {}, {}, {})

  /** Every record that was read and every task that was started is the one its proposal's row still names. */
  ghost predicate NamesSound(w: World) {
    && (forall r :: r in w.seen ==> r.proposal in w.table.rows && w.table.rows[r.proposal].record == r)
    && (forall s :: s in w.started ==> s.0 in w.table.rows && w.table.rows[s.0].record.task == s.1)
  }

  ghost predicate Sound(w: World) {
    RowsSound(w.table) && ClaimsSound(w.claims, w.table.nextToken) && NamesSound(w)
  }

  lemma ApproveSound(t: Table, r: Record)
    requires RowsSound(t)
    ensures var (t', result) := Approve(t, r);
      RowsSound(t') && Keeps(t, t') && t'.nextToken == t.nextToken
      && (result.Saved? || result.Known? ==>
           result.record.proposal in t'.rows && t'.rows[result.record.proposal].record == result.record)
  {
  }

  /** Replacing a pending row's state, lease and token. */
  lemma RowReplaced(t: Table, id: string, row: Row, nextToken: nat)
    requires RowsSound(t) && id in t.rows && Pending(t.rows[id].state) && row.record == t.rows[id].record
    requires t.nextToken <= nextToken && (row.token.Some? ==> Pending(row.state) && row.token.value < nextToken)
    ensures RowsSound(Table(t.rows[id := row], nextToken)) && Keeps(t, Table(t.rows[id := row], nextToken))
  {
    var t' := Table(t.rows[id := row], nextToken);
    assert forall k :: k in t.rows <==> k in t'.rows;
    assert forall k :: k in t.rows ==> t'.rows[k].record == t.rows[k].record;
  }

  lemma ClaimSound(t: Table, id: string, now: int)
    requires RowsSound(t)
    ensures var t' := Claim(t, id, now).0; RowsSound(t') && Keeps(t, t') && t.nextToken <= t'.nextToken
  {
    if Claim(t, id, now).1.Some? {
      RowReplaced(t, id, t.rows[id].(lease := now + 300_000, token := Some(t.nextToken)), t.nextToken + 1);
    }
  }

  lemma HolderSound(t: Table, id: string, token: nat, state: Option<State>)
    requires RowsSound(t)
    ensures RowsSound(Prepare(t, id, token).0) && Keeps(t, Prepare(t, id, token).0)
    ensures RowsSound(Finish(t, id, token, state)) && Keeps(t, Finish(t, id, token, state))
  {
    if Holds(t, id, token) {
      var row := t.rows[id];
      RowReplaced(t, id, row.(state := State.Prepared), t.nextToken);
      var kept := if state.Some? then state.value else row.state;
      RowReplaced(t, id, row.(state := kept, lease := 0, token := None), t.nextToken);
    }
  }

  lemma StepKeeps(w: World, step: Step)
    requires Sound(w)
    ensures RowsSound(Next(w, step).table) && Keeps(w.table, Next(w, step).table)
    ensures w.table.nextToken <= Next(w, step).table.nextToken
  {
    match step
    case ApproveStep(record) => ApproveSound(w.table, record);
    case ReadStep(id) =>
    case ClaimStep(id, now) => ClaimSound(w.table, id, now);
    case PrepareStep(id, token) => HolderSound(w.table, id, token, None);
    case StartStep(record) =>
    case FinishStep(id, token, state) => HolderSound(w.table, id, token, state);
  }

  lemma StepSound(w: World, step: Step)
    requires Sound(w)
    ensures Sound(Next(w, step)) && Keeps(w.table, Next(w, step).table)
  {
    StepKeeps(w, step);
    match step
    case ApproveStep(record) => ApproveSound(w.table, record);
    case _ =>
  }

  lemma {:induction false} RunSound(w: World, steps: seq<Step>)
    requires Sound(w)
    ensures Sound(Run(w, steps))
    decreases |steps|
  {
    if steps != [] {
      StepSound(w, steps[0]);
      RunSound(Next(w, steps[0]), steps[1..]);
    }
  }

  /** A task can be started as soon as its proposal is approved, and then is. */
  lemma ApprovedCanStart(w: World, r: Record)
    requires Sound(w) && Approve(w.table, r).1.Saved?
    ensures var t := Run(w, [ApproveStep(r), StartStep(r)]);
      t.started == w.started + {(r.proposal, r.task)}
      && r.proposal in t.table.rows && Pending(t.table.rows[r.proposal].state)
  {
    var steps := [ApproveStep(r), StartStep(r)];
    assert steps[1..] == [steps[1]] && steps[1..][1..] == [];
    var w1 := Next(w, steps[0]);
    assert Run(w, steps) == Run(w1, [steps[1]]) == Run(Next(w1, steps[1]), []);
  }

  /**
   However often it is approved, retried, lost or recovered, a proposal starts at most one task, and
   no two share one.
   */
  lemma OneTaskPerProposal(steps: seq<Step>, p: (string, string), q: (string, string))
    requires p in Run(START, steps).started && q in Run(START, steps).started
    ensures p.0 == q.0 <==> p.1 == q.1
  {
    RunSound(START, steps);
  }

  /**
   A saved approval keeps its version, actor, time, task and delivery; a settled hand-off never
   changes again at all.
   */
  lemma {:induction false} ApprovalIsPermanent(w: World, id: string, steps: seq<Step>)
    requires Sound(w) && id in w.table.rows
    ensures var t := Run(w, steps).table;
      && id in t.rows && t.rows[id].record == w.table.rows[id].record
      && (!Pending(w.table.rows[id].state) ==> t.rows[id] == w.table.rows[id])
    decreases |steps|
  {
    if steps != [] {
      StepSound(w, steps[0]);
      ApprovalIsPermanent(Next(w, steps[0]), id, steps[1..]);
    }
  }

  /** A token is only ever held while the hand-off is pending. */
  lemma TokenOnlyWhilePending(steps: seq<Step>, id: string, token: nat)
    requires Holds(Run(START, steps).table, id, token)
    ensures Pending(Run(START, steps).table.rows[id].state)
  {
    RunSound(START, steps);
  }

  lemma StepStaysLost(w: World, step: Step, id: string, token: nat)
    requires Sound(w) && (id, token) in w.claims && !Holds(w.table, id, token)
    ensures (id, token) in Next(w, step).claims && !Holds(Next(w, step).table, id, token)
  {
  }

  /** A claimant whose lease was taken over or finished can never change the row again. */
  lemma {:induction false} ReplacedClaimantIsPowerless(w: World, id: string, token: nat, steps: seq<Step>,
      state: Option<State>)
    requires Sound(w) && (id, token) in w.claims && !Holds(w.table, id, token)
    ensures var t := Run(w, steps).table; Prepare(t, id, token) == (t, false) && Finish(t, id, token, state) == t
    decreases |steps|
  {
    if steps != [] {
      StepSound(w, steps[0]);
      StepStaysLost(w, steps[0], id, token);
      ReplacedClaimantIsPowerless(Next(w, steps[0]), id, token, steps[1..], state);
    }
  }

  lemma TakeoverReplaces(w: World, id: string, token: nat, now: int, steps: seq<Step>, state: Option<State>)
    requires Sound(w) && (id, token) in w.claims && Claim(w.table, id, now).1.Some?
    ensures var t := Run(Next(w, ClaimStep(id, now)), steps).table;
      Prepare(t, id, token) == (t, false) && Finish(t, id, token, state) == t
  {
    StepSound(w, ClaimStep(id, now));
    ReplacedClaimantIsPowerless(Next(w, ClaimStep(id, now)), id, token, steps, state);
  }
}
