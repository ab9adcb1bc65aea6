/**
 The job table of InitiativeStore: work that is scheduled, leased to a worker
 under a fresh token, and finished by whoever still owns it.
 */
module Jobs {
  import opened Common

  datatype Key = Key(kind: string, target: string)

  datatype Row = Row(payload: string, due: int, lease: int, token: Option<nat>, attempts: nat, generation: nat)

  /** What a worker holds: a copy of the row as it was when claimed. */
  datatype Job = Job(key: Key, payload: string, token: nat, attempts: nat, generation: nat)

  /** Tokens below nextToken have been handed out; every claim takes a new one. */
  datatype Table = Table(rows: map<Key, Row>, nextToken: nat)

  function Min(a: int, b: int): int {
    if a <= b then a else b
  }

  function Schedule(t: Table, key: Key, due: int, payload: string): Table {
    var row := if key in t.rows
               then t.rows[key].(due := Min(t.rows[key].due, due), payload := payload,
                                 generation := t.rows[key].generation + 1)
               else Row(payload, due, 0, None, 0, 0);
    t.(rows := t.rows[key := row])
  }

  predicate Ready(t: Table, key: Key, now: int) {
    key in t.rows && t.rows[key].due <= now && t.rows[key].lease <= now
  }

  /** A due row that no live lease covers, with none due earlier; ties are broken arbitrarily. */
  predicate Eligible(t: Table, key: Key, now: int) {
    Ready(t, key, now) && forall other :: other in t.rows && Ready(t, other, now) ==>
      t.rows[key].due <= t.rows[other].due
  }

  function ClaimKey(t: Table, key: Key, now: int, leaseMs: int): (Table, Job)
    requires key in t.rows
  {
    var row := t.rows[key];
    (Table(t.rows[key := row.(token := Some(t.nextToken), lease := now + leaseMs, attempts := row.attempts + 1)],
           t.nextToken + 1),
     Job(key, row.payload, t.nextToken, row.attempts + 1, row.generation))
  }

  predicate Holds(t: Table, job: Job) {
    job.key in t.rows && t.rows[job.key].token == Some(job.token)
  }

  predicate Owns(t: Table, job: Job) {
    Holds(t, job) && t.rows[job.key].generation == job.generation
  }

  function Finish(t: Table, job: Job, next: Option<int>): (Table, bool) {
    if !Owns(t, job) then
      (if Holds(t, job) then t.(rows := t.rows[job.key := t.rows[job.key].(lease := 0, token := None)]) else t, false)
    else
      match next
      case None => (t.(rows := t.rows - {job.key}), true)
      case Some(due) =>
        (t.(rows := t.rows[job.key := t.rows[job.key].(due := due, lease := 0, token := None, attempts := 0)]), true)
  }

  const ANALYSIS := {"extract", "investigate", "digest"}

  /** The owner's stop command deletes all analysis jobs, leased or not. */
  function StopAnalysis(t: Table): Table {
    t.(rows := map key | key in t.rows && key.kind !in ANALYSIS :: t.rows[key])
  }

  // ---- What is kept --------------------------------------------------------

  /** The table and every claim handed to a worker so far; workers may be slow, dead or replaced. */
  datatype World = World(table: Table, issued: set<Job>)

  /** Tokens are fresh, and whoever holds a row was given it at or before the row's present generation. */
  ghost predicate Sound(w: World) {
    && (forall job :: job in w.issued ==> job.token < w.table.nextToken)
    && (forall a, b :: a in w.issued && b in w.issued && a.token == b.token ==> a == b)
    && (forall key :: key in w.table.rows && w.table.rows[key].token.Some? ==>
         w.table.rows[key].token.value < w.table.nextToken)
    && (forall job, key :: job in w.issued && key in w.table.rows && w.table.rows[key].token == Some(job.token) ==>
          key == job.key && job.generation <= w.table.rows[key].generation)
  }

  /** Nobody who was given the job before owns it. */
  ghost predicate Unowned(w: World, key: Key) {
    forall job :: job in w.issued && job.key == key ==> !Owns(w.table, job)
  }

  /** The row a claim leaves and the copy its worker gets, under the next token. */
  predicate Leased(t: Table, t': Table, job: Job, until: int) {
    && job.key in t.rows && t'.nextToken == t.nextToken + 1 && job.token == t.nextToken
    && var row := t.rows[job.key];
       && job == Job(job.key, row.payload, t.nextToken, row.attempts + 1, row.generation)
       && t'.rows == t.rows[job.key :=
            Row(row.payload, row.due, until, Some(t.nextToken), row.attempts + 1, row.generation)]
  }

  /** Due and unleased, and no other that is so is due earlier. */
  predicate EarliestDue(rows: map<Key, Row>, key: Key, now: int) {
    && key in rows && rows[key].due <= now && rows[key].lease <= now
    && forall other :: other in rows && rows[other].lease <= now ==> rows[key].due <= rows[other].due
  }

  predicate StillTheOwner(rows: map<Key, Row>, job: Job) {
    job.key in rows && rows[job.key].token == Some(job.token) && rows[job.key].generation == job.generation
  }

  class JobTable {
    var rows: map<Key, Row>
    var nextToken: nat
    /** Every claim handed to a worker so far. */
    ghost var issued: set<Job>

    function View(): Table reads this { Table(rows, nextToken) }

    /** The table with the claims handed out, as the runs see it. */
    ghost function Seen(): World reads this { World(View(), issued) }

    ghost predicate Valid() reads this { Sound(Seen()) }

    constructor ()
      ensures Valid() && View() == Table(map[], 0) && issued == {}
    {
      rows, nextToken, issued := map[], 0, {};
    }

    /** Afterwards no worker owns the job, so none can delete or postpone what was asked for. */
    method ScheduleJob(key: Key, due: int, payload: string)
      modifies this`rows
      ensures View() == Schedule(old(View()), key, due, payload)
      ensures key !in old(rows) ==> rows == old(rows)[key := Row(payload, due, 0, None, 0, 0)]
      ensures key in old(rows) ==>
        rows == old(rows)[key := old(rows)[key].(payload := payload, generation := old(rows)[key].generation + 1,
                                                 due := if due < old(rows)[key].due then due else old(rows)[key].due)]
      ensures Seen() == Next(old(Seen()), ScheduleStep(key, due, payload))
      ensures old(Valid()) ==> Valid() && Unowned(World(View(), issued), key) && rows[key].due <= due
    {
      if key in rows {
        var row := rows[key];
        rows := rows[key := row.(due := Min(row.due, due), payload := payload, generation := row.generation + 1)];
      } else {
        rows := rows[key := Row(payload, due, 0, None, 0, 0)];
      }
    }

    /** The earliest due row that no live lease covers, to one owner, or nothing when there is none. */
    method Claim(now: int, leaseMs: int) returns (job: Option<Job>)
      modifies this
      ensures job.None? ==> View() == old(View()) && issued == old(issued) && forall key :: !Ready(View(), key, now)
      ensures job.Some? ==> Eligible(old(View()), job.value.key, now) && issued == old(issued) + {job.value}
      ensures job.Some? ==> (View(), job.value) == ClaimKey(old(View()), job.value.key, now, leaseMs)
      ensures job.Some? ==>
        Leased(old(View()), View(), job.value, now + leaseMs) && EarliestDue(old(rows), job.value.key, now)
      ensures job.Some? ==> Seen() == Next(old(Seen()), ClaimStep(job.value.key, now, leaseMs))
      ensures job.None? ==> forall key :: key in rows ==> now < rows[key].due || now < rows[key].lease
      ensures old(Valid()) ==> Valid()
      ensures old(Valid()) && job.Some? ==>
        Owns(View(), job.value) && Unowned(World(View(), old(issued)), job.value.key) && job.value !in old(issued)
    {
      if key :| key in rows && Eligible(View(), key, now) {
        var row := rows[key];
        job := Some(Job(key, row.payload, nextToken, row.attempts + 1, row.generation));
        rows := rows[key := row.(token := Some(nextToken), lease := now + leaseMs, attempts := row.attempts + 1)];
        nextToken := nextToken + 1;
        issued := issued + {job.value};
      } else {
        job := None;
        NoneEligible(View(), now);
      }
    }

    /** The owner's stop command: every job of the analysis goes, leased or not, and no other changes. */
    method DeleteAnalysis()
      modifies this`rows
      ensures View() == StopAnalysis(old(View()))
      ensures Seen() == Next(old(Seen()), StopStep)
      ensures forall key :: key in rows <==>
        key in old(rows) && key.kind != "extract" && key.kind != "investigate" && key.kind != "digest"
      ensures forall key :: key in rows ==> rows[key] == old(rows)[key]
      ensures old(Valid()) ==> Valid()
    {
      rows := map key | key in rows && key.kind !in ANALYSIS :: rows[key];
    }

    /** Afterwards nobody owns the job if it was the owner who finished; otherwise the job is there as before. */
    method FinishJob(job: Job, next: Option<int>) returns (done: bool)
      modifies this`rows
      ensures (View(), done) == Finish(old(View()), job, next)
      ensures job in issued ==> Seen() == Next(old(Seen()), FinishStep(job, next))
      ensures done <==> StillTheOwner(old(rows), job)
      ensures done ==> rows == if next.None? then old(rows) - {job.key}
        else old(rows)[job.key := old(rows)[job.key].(due := next.value, lease := 0, token := None, attempts := 0)]
      ensures !done ==> rows == if job.key in old(rows) && old(rows)[job.key].token == Some(job.token)
        then old(rows)[job.key := old(rows)[job.key].(lease := 0, token := None)] else old(rows)
      ensures old(Valid()) ==> Valid()
      ensures old(Valid()) && done ==> Unowned(World(View(), issued), job.key)
      ensures !done ==> rows.Keys == old(rows).Keys
      ensures !done ==> forall key :: key in rows ==>
        rows[key].due == old(rows)[key].due && rows[key].generation == old(rows)[key].generation
    {
      done := Owns(View(), job);
      if !done {
        if Holds(View(), job) {
          rows := rows[job.key := rows[job.key].(lease := 0, token := None)];
        }
      } else if next == None {
        rows := rows - {job.key};
      } else {
        rows := rows[job.key := rows[job.key].(due := next.value, lease := 0, token := None, attempts := 0)];
      }
    }
  }

  lemma {:induction false} EarliestExists(t: Table, keys: set<Key>, some: Key)
    requires some in keys && forall key :: key in keys ==> key in t.rows
    ensures exists key :: key in keys && forall other :: other in keys ==> t.rows[key].due <= t.rows[other].due
    decreases |keys|
  {
    if other :| other in keys && t.rows[other].due < t.rows[some].due {
      assert keys - {some} < keys;
      EarliestExists(t, keys - {some}, other);
      var best :| best in keys - {some} && forall k :: k in keys - {some} ==> t.rows[best].due <= t.rows[k].due;
      assert t.rows[best].due <= t.rows[other].due;
      assert forall k :: k in keys ==> t.rows[best].due <= t.rows[k].due;
    }
  }

  /** When some row is ready, the earliest of the ready ones is eligible. */
  lemma NoneEligible(t: Table, now: int)
    requires forall key :: key in t.rows ==> !Eligible(t, key, now)
    ensures forall key :: !Ready(t, key, now)
  {
    var ready := set key | key in t.rows && Ready(t, key, now);
    forall key | key in ready
      ensures false
    {
      EarliestExists(t, ready, key);
      var best :| best in ready && forall other :: other in ready ==> t.rows[best].due <= t.rows[other].due;
      assert Eligible(t, best, now);
    }
    assert forall key :: Ready(t, key, now) ==> key in ready;
  }

  // ---- Runs ----------------------------------------------------------------

  datatype Step =
    | ScheduleStep(key: Key, due: int, payload: string)
    | ClaimStep(key: Key, now: int, leaseMs: int)
    | FinishStep(job: Job, next: Option<int>)
    | StopStep

  /** A claim of a row that is not up for claiming, or the finish of a job nobody was given, does nothing. */
  function Next(w: World, step: Step): World {
    match step
    case ScheduleStep(key, due, payload) => w.(table := Schedule(w.table, key, due, payload))
    case ClaimStep(key, now, leaseMs) =>
      if Eligible(w.table, key, now) then
        var (t, job) := ClaimKey(w.table, key, now, leaseMs);
        World(t, w.issued + {job})
      else w
    case FinishStep(job, next) => if job in w.issued then w.(table := Finish(w.table, job, next).0) else w
    case StopStep => w.(table := StopAnalysis(w.table))
  }

  function Run(w: World, steps: seq<Step>): World
    decreases |steps|
  {
    if steps == [] then w else Run(Next(w, steps[0]), steps[1..])
  }

  const START := World(Table(map[], 0), {})

  lemma StepSound(w: World, step: Step)
    requires Sound(w)
    ensures Sound(Next(w, step))
  {
  }

  lemma {:induction false} RunSound(w: World, steps: seq<Step>)
    requires Sound(w)
    ensures Sound(Run(w, steps))
    decreases |steps|
  {
    if steps != [] {
      StepSound(w, steps[0]);
      RunSound(Next(w, steps[0]), steps[1..]);
    }
  }

  /** Among all claims ever handed out for a job, at most one owns it. */
  lemma AtMostOneOwner(steps: seq<Step>, a: Job, b: Job)
    requires a in Run(START, steps).issued && b in Run(START, steps).issued
    requires a.key == b.key && Owns(Run(START, steps).table, a) && Owns(Run(START, steps).table, b)
    ensures a == b
  {
    RunSound(START, steps);
  }

  /** A lease that was lost stays lost: the worker can never own the job again, and its finish changes nothing. */
  lemma {:induction false} LostLeaseIsForever(w: World, job: Job, steps: seq<Step>, next: Option<int>)
    requires Sound(w) && job in w.issued && !Holds(w.table, job)
    ensures var t := Run(w, steps).table; !Owns(t, job) && Finish(t, job, next) == (t, false)
    decreases |steps|
  {
    if steps != [] {
      StepSound(w, steps[0]);
      LostLeaseIsForever(Next(w, steps[0]), job, steps[1..], next);
    }
  }

  /** In particular once the job was claimed again. */
  lemma ReclaimedWorkerIsStale(w: World, job: Job, now: int, leaseMs: int, steps: seq<Step>, next: Option<int>)
    requires Sound(w) && job in w.issued && Eligible(w.table, job.key, now)
    ensures var t := Run(Next(w, ClaimStep(job.key, now, leaseMs)), steps).table;
      !Owns(t, job) && Finish(t, job, next) == (t, false)
  {
    StepSound(w, ClaimStep(job.key, now, leaseMs));
    LostLeaseIsForever(Next(w, ClaimStep(job.key, now, leaseMs)), job, steps, next);
  }

  // ---- Wake-ups ------------------------------------------------------------

  /** A requested run that no claim has picked up yet: the row is due in time and nobody may delete or postpone it. */
  ghost predicate WakePending(w: World, key: Key, due: int, lease: int) {
    && key in w.table.rows
    && w.table.rows[key].due <= due
    && (w.table.rows[key].lease <= lease || w.table.rows[key].lease == 0)
    && forall job :: job in w.issued && job.key == key ==> !Owns(w.table, job)
  }

  /** The step neither claims `key` nor is the owner's stop command. */
  predicate LeavesAlone(step: Step, key: Key) {
    !step.StopStep? && !(step.ClaimStep? && step.key == key)
  }

  lemma {:induction false} WakeSurvives(w: World, key: Key, due: int, lease: int, steps: seq<Step>)
    requires Sound(w) && WakePending(w, key, due, lease)
    requires forall i :: 0 <= i < |steps| ==> LeavesAlone(steps[i], key)
    ensures WakePending(Run(w, steps), key, due, lease)
    decreases |steps|
  {
    if steps != [] {
      StepSound(w, steps[0]);
      assert LeavesAlone(steps[0], key);
      assert WakePending(Next(w, steps[0]), key, due, lease);
      WakeSurvives(Next(w, steps[0]), key, due, lease, steps[1..]);
    }
  }

  lemma WakeAfterSchedule(before: seq<Step>, key: Key, due: int, payload: string, after: seq<Step>)
    requires forall i :: 0 <= i < |after| ==> LeavesAlone(after[i], key)
    ensures var w := Run(START, before);
      var lease := if key in w.table.rows then w.table.rows[key].lease else 0;
      WakePending(Run(Next(w, ScheduleStep(key, due, payload)), after), key, due, lease)
  {
    var w := Run(START, before);
    var lease := if key in w.table.rows then w.table.rows[key].lease else 0;
    RunSound(START, before);
    var w' := Next(w, ScheduleStep(key, due, payload));
    StepSound(w, ScheduleStep(key, due, payload));
    assert WakePending(w', key, due, lease);
    WakeSurvives(w', key, due, lease, after);
  }

  /**
   No wake-up is lost.  Whatever other workers do after a schedule, until the job is
   claimed again its row stays, due no later than requested; and when the worker that
   held it finishes, the row is left without a lease.
   */
  lemma NoLostWakeUp(before: seq<Step>, key: Key, due: int, payload: string, after: seq<Step>, job: Job,
      next: Option<int>)
    requires forall i :: 0 <= i < |after| ==> LeavesAlone(after[i], key)
    ensures var w := Run(Next(Run(START, before), ScheduleStep(key, due, payload)), after);
      && key in w.table.rows
      && w.table.rows[key].due <= due
      && (job in w.issued && job.key == key ==>
            var (t, done) := Finish(w.table, job, next);
            && !done && key in t.rows && t.rows[key].due <= due
            && (Holds(w.table, job) ==> t.rows[key].lease == 0 && t.rows[key].token == None))
  {
    WakeAfterSchedule(before, key, due, payload, after);
  }

  /** And the row becomes claimable as soon as its lease, at most the one it had, has run out. */
  lemma WakeUpIsClaimable(before: seq<Step>, key: Key, due: int, payload: string, after: seq<Step>, now: int)
    requires forall i :: 0 <= i < |after| ==> LeavesAlone(after[i], key)
    requires 0 <= now && due <= now
    requires key in Run(START, before).table.rows ==> Run(START, before).table.rows[key].lease <= now
    ensures Ready(Run(Next(Run(START, before), ScheduleStep(key, due, payload)), after).table, key, now)
  {
    WakeAfterSchedule(before, key, due, payload, after);
  }
}
