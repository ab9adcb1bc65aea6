/** What each step on matters and their jobs does, told on the rows of the store and of the job table. */
module WatchEffects {
  import opened Common
  import opened Evidence
  import opened Watch
  import D = Decisions
  import J = Jobs
  import O = OwnerDecisions
  import R = EvidenceRuns

  /** The job of a matter as the store names it. */
  const KIND := "investigate"

  function JobOf(id: string): J.Key {
    J.Key(KIND, id)
  }

  /** Nothing but the store and the jobs has changed. */
  ghost predicate SameDesk(w: World, t: World) {
    && t.clock == w.clock && t.owed == w.owed && t.workers == w.workers && t.reminders == w.reminders
    && t.remembered == w.remembered
  }

  /** Nothing but this worker's record, and perhaps the store, has changed. */
  ghost predicate OnlyWorker(w: World, t: World, token: nat) {
    && t.jobs == w.jobs && t.clock == w.clock && t.owed == w.owed && t.reminders == w.reminders
    && t.remembered == w.remembered && t.evidence.issued == w.evidence.issued
    && t.evidence.admitted == w.evidence.admitted
    && token in t.workers && t.workers == w.workers[token := t.workers[token]]
  }

  /** The row of one matter, and nothing else of the store. */
  ghost predicate OnlyMatter(s: Store, t: Store, id: string, row: MatterRow) {
    t == s.(matters := s.matters[id := row])
  }

  // ---- Starting and reading ---------------------------------------------------------

  /** What a worker that starts has read: nothing has been done yet, and it is ready if the check has come. */
  ghost predicate StartsWith(s: Store, id: string, now: int, worker: Worker)
    requires id in s.matters
  {
    var row := s.matters[id];
    && worker.id == id && worker.read.place == row.place && worker.read.detail == row.body.detail
    && worker.read.evidence == row.body.evidence
    && worker.read.generation == (if row.place in s.threads then Some(s.threads[row.place].generation) else None)
    && (worker.ready <==> row.nextCheck <= now)
    && !worker.lifted && worker.signed.None? && !worker.passed && worker.noted.None?
  }

  /**
   An investigation starts with a job that is due and unleased: leased to a fresh token. Of a matter
   that is valid and open or snoozed it records what it has read.
   */
  lemma StartEffect(w: World, id: string, now: int, leaseMs: int)
    requires Can(w, StartStep(id, now, leaseMs))
    ensures JobOf(id) in w.jobs.table.rows && w.jobs.table.rows[JobOf(id)].due <= now
    ensures var t, s := Begun(w, id, now, leaseMs), w.evidence.store;
      var row, token := w.jobs.table.rows[JobOf(id)], w.jobs.table.nextToken;
      && t.evidence == w.evidence && t.owed == w.owed && t.reminders == w.reminders && t.remembered == w.remembered
      && t.clock == (if w.clock < now then now else w.clock)
      && t.jobs.table.rows == w.jobs.table.rows[JobOf(id) :=
           row.(token := Some(token), lease := now + leaseMs, attempts := row.attempts + 1)]
      && (if id in s.matters && s.matters[id].valid && s.matters[id].body.state in {Open, MatterState.Snoozed}
          then token in t.workers && StartsWith(s, id, now, t.workers[token])
               && t.workers == w.workers[token := t.workers[token]]
          else t.workers == w.workers)
  {
  }

  // ---- What a worker does ------------------------------------------------------------

  /** A snooze that has run out is lifted: the matter is open, its check as the column says; else it is as it was. */
  lemma LiftEffect(w: World, job: J.Job)
    requires MayLift(w, job)
    ensures var t, id := AfterLift(w, job), job.key.target;
      var row := w.evidence.store.matters[id];
      && OnlyWorker(w, t, job.token) && t.workers[job.token] == w.workers[job.token].(lifted := true)
      && w.workers[job.token].ready && w.workers[job.token].noted.None?
      && if row.body.state == MatterState.Snoozed
         then OnlyMatter(w.evidence.store, t.evidence.store, id,
                         row.(body := row.body.(state := Open, nextCheck := row.nextCheck)))
         else t.evidence.store == w.evidence.store
  {
  }

  /** A signature counts the reminders there are; a worker passes only as owner of its job, of a matter alive. */
  lemma SignAndPassEffect(w: World, job: J.Job)
    requires Works(w, job)
    ensures var t := AfterSign(w, job);
      && OnlyWorker(w, t, job.token) && t.evidence == w.evidence
      && t.workers[job.token] == w.workers[job.token].(signed :=
           Some(if job.key.target in w.reminders then w.reminders[job.key.target] else 0))
    ensures var t := AfterPass(w, job);
      && OnlyWorker(w, t, job.token) && t.evidence == w.evidence
      && t.workers[job.token] == w.workers[job.token].(passed := true)
    ensures MayPass(w, job) ==>
      && w.workers[job.token].signed.Some? && job.key in w.jobs.table.rows
      && w.jobs.table.rows[job.key].token == Some(job.token)
      && w.jobs.table.rows[job.key].generation == job.generation
      && Alive(w.evidence.store, job.key.target)
  {
  }

  /** A note sets the matter's check, and only that; it needs the lease of the job. */
  lemma NoteEffect(w: World, job: J.Job, next: int)
    requires MayNote(w, job)
    ensures var t, id := Noted(w, job, next), job.key.target;
      && OnlyWorker(w, t, job.token) && t.workers[job.token] == w.workers[job.token].(noted := Some(next))
      && OnlyMatter(w.evidence.store, t.evidence.store, id, w.evidence.store.matters[id].(nextCheck := next))
      && job.key in w.jobs.table.rows && w.jobs.table.rows[job.key].token == Some(job.token)
  {
  }

  /** A matter found resolved is written as it was read, resolved; its check, place and validity stay. */
  lemma ResolveEffect(w: World, job: J.Job)
    requires Analysed(w, job) && Holder(w, job)
    ensures var t, id, read := Concluded(w, job), job.key.target, w.workers[job.token].read;
      var row := w.evidence.store.matters[id];
      && SameDesk(w, t) && t.jobs == w.jobs
      && OnlyMatter(w.evidence.store, t.evidence.store, id,
           row.(body := row.body.(detail := read.detail, evidence := read.evidence, state := MatterState.Resolved)))
  {
  }

  // ---- Snoozes and extraction ----------------------------------------------------------

  /** A snooze puts the matter off and schedules its job for the same date; one more reminder. */
  lemma SnoozeEffect(w: World, id: string, at: int)
    requires id in w.evidence.store.matters
    ensures var t := PutOff(w, id, at);
      && t.evidence.store == Feedback(w.evidence.store, id, Later(at)) && t.clock == w.clock && t.owed == w.owed
      && t.workers == w.workers && t.remembered == w.remembered
      && t.reminders == w.reminders[id := (if id in w.reminders then w.reminders[id] else 0) + 1]
      && JobOf(id) in t.jobs.table.rows
      && t.jobs.table.rows == w.jobs.table.rows[JobOf(id) := t.jobs.table.rows[JobOf(id)]]
      && var row := t.jobs.table.rows[JobOf(id)];
         if JobOf(id) !in w.jobs.table.rows then row == J.Row("{}", at, 0, None, 0, 0)
         else
           var before := w.jobs.table.rows[JobOf(id)];
           row == before.(payload := "{}", generation := before.generation + 1,
                          due := if at < before.due then at else before.due)
  {
  }

  /** What is owed after a batch: for each matter reported open, in order, its job at the check reported. */
  lemma {:induction false} ErrandsAt(ms: seq<Matter>, i: nat)
    requires i < |Errands(ms)|
    ensures exists k ::
      && 0 <= k < |ms| && ms[k].state.Open? && Errands(ms)[i] == Errand(ms[k].id, ms[k].nextCheck)
      && |Errands(ms[..k])| == i
    decreases |ms|
  {
    if ms[0].state.Open? && i == 0 {
      assert ms[..0] == [] && Errands(ms)[0] == Errand(ms[0].id, ms[0].nextCheck);
    } else {
      var more := if ms[0].state.Open? then 1 else 0;
      ErrandsAt(ms[1..], i - more);
      var k :| 0 <= k < |ms[1..]| && ms[1..][k].state.Open?
        && Errands(ms[1..])[i - more] == Errand(ms[1..][k].id, ms[1..][k].nextCheck)
           && |Errands(ms[1..][..k])| == i - more;
      assert ms[..k + 1][0] == ms[0] && ms[..k + 1][1..] == ms[1..][..k];
      assert ms[k + 1] == ms[1..][k];
    }
  }

  /** The first that is owed is scheduled, and owed no longer. */
  lemma ScheduleEffect(w: World)
    requires w.owed != []
    ensures var t, e := Scheduled(w), w.owed[0];
      && t.evidence == w.evidence && t.clock == w.clock && t.workers == w.workers && t.owed == w.owed[1..]
      && t.reminders == w.reminders && t.remembered == w.remembered
      && t.jobs.table == J.Schedule(w.jobs.table, JobOf(e.id), e.due, "{}") && t.jobs.issued == w.jobs.issued
  {
  }

  /** A batch that is rejected changes nothing; one that is applied leaves its store, and its errands owed. */
  lemma BatchEffect(w: World, job: J.Job, snaps: seq<Snapshot>, os: seq<Observation>, ms: seq<Matter>)
    requires Can(w, ApplyStep(job, snaps, os, ms))
    ensures var t := Do(w, ApplyStep(job, snaps, os, ms));
      var (after, outcome) := Apply(w.evidence.store, w.jobs.table, Some(job), snaps, os, ms);
      && (outcome != Applied ==> t == w)
      && (outcome == Applied ==>
           && t.evidence == w.evidence.(store := after) && t.owed == Errands(ms) && t.jobs == w.jobs
           && t.clock == w.clock && t.workers == w.workers && t.reminders == w.reminders
           && t.remembered == w.remembered)
  {
  }

  /** A remembered check has the count its worker signed, until it is forgotten; neither touches anything else. */
  lemma RememberEffect(w: World, job: J.Job, id: string)
    requires w.owed == []
    ensures Can(w, RememberStep(job)) ==>
      && w.workers[job.token].passed && w.workers[job.token].signed.Some?
      && Do(w, RememberStep(job)) == w.(remembered := w.remembered[job.key.target := w.workers[job.token].signed.value])
    ensures Do(w, ForgetStep(id)) == w.(remembered := w.remembered - {id})
  {
  }

  lemma ScheduleGoes(w: World)
    requires Can(w, ScheduleStep)
    ensures Do(w, ScheduleStep) == Scheduled(w)
  {
  }

  lemma ResolveGoes(w: World, job: J.Job)
    requires Can(w, ResolveStep(job))
    ensures Do(w, ResolveStep(job)) == Concluded(w, job)
  {
  }

  /** Feedback on a matter that is there snoozes it, if that is what was asked; any other only changes the store. */
  lemma FeedbackGoes(w: World, id: string, action: Action)
    requires Can(w, FeedbackStep(id, action))
    ensures Do(w, FeedbackStep(id, action)) ==
      if id in w.evidence.store.matters && action.Later? then PutOff(w, id, action.at)
      else w.(evidence := w.evidence.(store := Feedback(w.evidence.store, id, action)))
  {
  }

  // ---- The end of the service, and of an investigation ------------------------------------

  /** Cut off, the service owes nothing and nobody works; the store and the rows of all jobs are as they were. */
  lemma CutOffEffect(w: World)
    ensures var t := CutOff(w);
      && t.evidence == w.evidence && t.jobs.table == w.jobs.table && t.clock == w.clock
      && t.owed == [] && t.workers == map[] && t.reminders == w.reminders && t.remembered == w.remembered
      && forall job :: job in t.jobs.issued <==> job in w.jobs.issued && !(exists id :: job.key == JobOf(id))
  {
    forall job: J.Job ensures Investigates(job.key) <==> exists id :: job.key == JobOf(id) {
      if Investigates(job.key) { assert job.key == JobOf(job.key.target); }
    }
  }

  /** The stop command deletes the jobs of the analysis, leased or not, and leaves all else. */
  lemma StopEffect(w: World)
    ensures var t := Stopped(w);
      && SameDesk(w, t) && t.evidence == w.evidence && t.jobs.issued == w.jobs.issued
      && (forall key :: key in t.jobs.table.rows <==>
           key in w.jobs.table.rows && key.kind != "extract" && key.kind != KIND && key.kind != "digest")
      && forall key :: key in t.jobs.table.rows ==> t.jobs.table.rows[key] == w.jobs.table.rows[key]
  {
  }

  /** Which endings there are for a worker that was given a job: some always, the others by what is stored. */
  lemma MayEndIff(w: World, job: J.Job, now: int, until: int, due: Option<int>)
    requires job in w.jobs.issued && job.key == JobOf(job.key.target) && now <= w.clock
    ensures var s, id := w.evidence.store, job.key.target;
      && CanEnd(w, job, now, D.Controlled) && CanEnd(w, job, now, D.Deferred) && CanEnd(w, job, now, D.Failed)
      && CanEnd(w, job, now, D.Unfollowed) && CanEnd(w, job, now, D.Unread) && CanEnd(w, job, now, D.Overtaken)
      && (CanEnd(w, job, now, D.Over) <==> !Alive(s, id))
      && (CanEnd(w, job, now, D.Scheduled) <==> Alive(s, id) && now < s.matters[id].nextCheck)
      && (CanEnd(w, job, now, D.Active) <==> Works(w, job) && w.workers[job.token].noted.Some?)
      && (CanEnd(w, job, now, D.Completed) <==> Works(w, job) && w.workers[job.token].noted.Some?)
      && (CanEnd(w, job, now, D.Displaced(due)) <==>
           !J.Owns(w.jobs.table, job)
           && due == if job.key in w.jobs.table.rows then Some(w.jobs.table.rows[job.key].due) else None)
  {
  }

  /** When a job asks to be due again, by how its investigation ended. */
  lemma DueEffect(w: World, job: J.Job, now: int, ending: D.Ending)
    requires CanEnd(w, job, now, ending)
    ensures var next := DueAfter(w, job, now, ending);
      match ending
      case Controlled => next == Some(now + 3_600_000)
      case Deferred => next == Some(now + 3_600_000)
      case Failed => next == Some(now + 300_000)
      case Scheduled =>
        && Alive(w.evidence.store, job.key.target)
        && next == Some(w.evidence.store.matters[job.key.target].nextCheck) && now < next.value
      case Snoozed(until) => next == Some(until)
      case Active => next.Some? && next == w.workers[job.token].noted
      case Completed => next.Some? && next == w.workers[job.token].noted
      case Over => next.None? && !Alive(w.evidence.store, job.key.target)
      case Unfollowed => next.None?
      case Unread => next.None?
      case Overtaken => next.None?
      case Displaced(_) => next.None?
  {
  }

  /**
   An ending finishes the job for that time, and, if the thread could not be read, asks for an
   extraction now; nothing else changes.
   */
  lemma EndEffect(w: World, job: J.Job, now: int, ending: D.Ending)
    requires CanEnd(w, job, now, ending)
    ensures var t := Ended(w, job, now, ending);
      && SameDesk(w, t) && t.evidence == w.evidence
      && t.jobs.table ==
           J.Finish(if ending.Unread? then J.Schedule(w.jobs.table, J.Key("extract", "global"), now, "{}")
                    else w.jobs.table, job, DueAfter(w, job, now, ending)).0
  {
  }
}
