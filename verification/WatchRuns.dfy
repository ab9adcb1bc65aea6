/** Which matters always have a job that looks at them again, over every run, and what becomes of the others. */
module WatchRuns {
  import opened Common
  import opened Evidence
  import opened Watch
  import opened WatchSteps
  import D = Decisions
  import F = Findings
  import J = Jobs
  import P = Provenance
  import R = EvidenceRuns

  // ---- Every run -------------------------------------------------------------------------

  ghost predicate Possible(w: World, steps: seq<Step>)
    decreases |steps|
  {
    steps == [] || (Can(w, steps[0]) && Possible(Do(w, steps[0]), steps[1..]))
  }

  ghost function Run(w: World, steps: seq<Step>): World
    requires Possible(w, steps)
    decreases |steps|
  {
    if steps == [] then w else Run(Do(w, steps[0]), steps[1..])
  }

  ghost predicate WatchedThroughout(w: World, steps: seq<Step>)
    requires Possible(w, steps)
    decreases |steps|
  {
    Watched(w) && (steps == [] || WatchedThroughout(Do(w, steps[0]), steps[1..]))
  }

  ghost predicate AllHarmless(w: World, steps: seq<Step>)
    requires Possible(w, steps)
    decreases |steps|
  {
    steps == [] || (Harmless(w, steps[0]) && AllHarmless(Do(w, steps[0]), steps[1..]))
  }

  lemma {:induction false} RunWatchedIff(w: World, steps: seq<Step>)
    requires Good(w) && Watched(w) && Possible(w, steps)
    ensures WatchedThroughout(w, steps) <==> AllHarmless(w, steps)
    decreases |steps|
  {
    if steps != [] {
      StepGood(w, steps[0]);
      if Harmless(w, steps[0]) { RunWatchedIff(Do(w, steps[0]), steps[1..]); }
    }
  }

  lemma {:induction false} RunGood(w: World, steps: seq<Step>)
    requires Good(w) && Possible(w, steps)
    ensures Good(Run(w, steps))
    decreases |steps|
  {
    if steps != [] {
      StaysGood(w, steps[0]);
      RunGood(Do(w, steps[0]), steps[1..]);
    }
  }

  /**
   Over every run from the empty store, whatever interleaves and wherever the service is cut off:
   every valid matter that is open or snoozed has a job throughout, due at its check or within the
   hour, or is still to be scheduled by then, exactly when no step was harmful.
   */
  lemma AlwaysWatchedIff(settings: Settings, clock: int, steps: seq<Step>)
    requires Possible(Start(settings, clock), steps)
    ensures WatchedThroughout(Start(settings, clock), steps) <==> AllHarmless(Start(settings, clock), steps)
  {
    RunWatchedIff(Start(settings, clock), steps);
  }

  /** So a matter whose check has come can be claimed within the hour, once no lease covers its job. */
  lemma DueIsClaimable(w: World, id: string, now: int)
    requires Watched(w) && w.owed == [] && Alive(w.evidence.store, id)
    requires w.evidence.store.matters[id].nextCheck <= now && w.clock + D.HOUR <= now
    requires KeyOf(id) in w.jobs.table.rows ==> w.jobs.table.rows[KeyOf(id)].lease <= now
    ensures J.Ready(w.jobs.table, KeyOf(id), now)
  {
    assert WatchedAt(w, id);
  }

  // ---- What a holder has read --------------------------------------------------------------

  /**
   However long an investigation waits for its sources or the model: while it still owns its job of
   a matter still alive, the thread is of the generation it read and the finding is the one it read,
   so what it writes back as resolved differs from what is stored in the state alone.
   */
  lemma ReadingStands(settings: Settings, clock: int, steps: seq<Step>, job: J.Job)
    requires Possible(Start(settings, clock), steps) && Run(Start(settings, clock), steps).owed == []
    requires Holder(Run(Start(settings, clock), steps), job)
    ensures var w := Run(Start(settings, clock), steps);
      var s, id := w.evidence.store, job.key.target;
      && Works(w, job) && w.workers[job.token].read == ReadingOf(s, id)
      && Concluded(w, job).evidence.store == WithBody(s, id, s.matters[id].body.(state := Resolved))
  {
    RunGood(Start(settings, clock), steps);
    assert StandsFor(Run(Start(settings, clock), steps), job);
  }

  /**
   Overtaken by a change of the matter's own thread, giving up is harmless: the matter is no longer
   alive, or the job not its own.
   */
  lemma OwnThreadChangeIsHarmless(w: World, job: J.Job, now: int)
    requires Good(w) && w.owed == [] && Works(w, job)
    requires Generation(w.evidence.store, w.workers[job.token].read.place) != w.workers[job.token].read.generation
    ensures Harmless(w, EndStep(job, now, D.Overtaken))
  {
    WorkerOf(w, job);
  }

  // ---- Investigations and provenance ---------------------------------------------------------

  /** A message stays in its thread, and a batch uses an id for one thread only. */
  ghost predicate Permitted(w: World, step: Step) {
    match step
    case StoreStep(step) => R.Permitted(w.evidence, step)
    case ApplyStep(_, _, os, ms) => F.Coherent(ObservationItems(os) + MatterItems(ms))
    case _ => true
  }

  ghost predicate AllPermitted(w: World, steps: seq<Step>)
    requires Possible(w, steps)
    decreases |steps|
  {
    steps == [] || (Permitted(w, steps[0]) && AllPermitted(Do(w, steps[0]), steps[1..]))
  }

  /** What an investigation writes changes neither place, validity nor citations. */
  lemma WrittenBacked(w: World, t: Store, id: string)
    requires P.Sound(w.evidence.store, w.evidence.issued) && id in w.evidence.store.matters && id in t.matters
    requires t == w.evidence.store.(matters := w.evidence.store.matters[id := t.matters[id]])
    requires R.SameCitations(w.evidence.store.matters[id], t.matters[id])
    ensures P.Sound(t, w.evidence.issued)
  {
    assert forall other :: other in w.evidence.store.matters && other != id ==>
      t.matters[other] == w.evidence.store.matters[other];
    R.SameEvidenceSound(w.evidence.store, t, w.evidence.issued);
  }

  /** The store after a step. */
  function StoreNext(w: World, step: Step): Store
    requires Can(w, step)
  {
    var s := w.evidence.store;
    match step
    case StoreStep(step) => R.Next(w.evidence, step).store
    case ApplyStep(job, snaps, os, ms) => Apply(s, w.jobs.table, Some(job), snaps, os, ms).0
    case FeedbackStep(id, action) => Feedback(s, id, action)
    case LiftStep(job) => Lifted(s, job.key.target)
    case NoteStep(job, next) => Noting(s, job.key.target, next)
    case ResolveStep(job) => Concluded(w, job).evidence.store
    case _ => s
  }

  /** Whatever is not a step of the store itself reads no snapshots. */
  lemma StoreOfStep(w: World, step: Step)
    requires Can(w, step)
    ensures Do(w, step).evidence.store == StoreNext(w, step)
    ensures Do(w, step).evidence.issued ==
      if step.StoreStep? then R.Next(w.evidence, step.step).issued else w.evidence.issued
  {
    if step.ApplyStep? { RejectedIsUnchanged(w, step); }
  }

  lemma RejectedIsUnchanged(w: World, step: Step)
    requires step.ApplyStep?
    ensures var (t, outcome) :=
      Apply(w.evidence.store, w.jobs.table, Some(step.job), step.snaps, step.observations, step.matters);
      !outcome.Applied? ==> t == w.evidence.store
  {
  }

  lemma ResolveBacked(w: World, job: J.Job)
    requires Good(w) && w.owed == [] && P.Sound(w.evidence.store, w.evidence.issued) && Works(w, job) && Holder(w, job)
    ensures P.Sound(Concluded(w, job).evidence.store, w.evidence.issued)
  {
    WorkerOf(w, job);
    WrittenBacked(w, Concluded(w, job).evidence.store, job.key.target);
  }

  lemma FeedbackBacked(s: Store, issued: set<Snapshot>, id: string, action: Action)
    requires P.Sound(s, issued)
    ensures P.Sound(Feedback(s, id, action), issued)
  {
    R.FeedbackSameEvidence(s, id, action);
    R.SameEvidenceSound(s, Feedback(s, id, action), issued);
  }

  /** What an investigation writes, if it writes at all. */
  lemma WrittenAfter(w: World, step: Step)
    requires Good(w) && P.Sound(w.evidence.store, w.evidence.issued) && Can(w, step)
    requires !step.StoreStep? && !step.ApplyStep? && !step.FeedbackStep?
    ensures P.Sound(StoreNext(w, step), w.evidence.issued)
  {
    var s := w.evidence.store;
    if step.LiftStep? {
      WrittenBacked(w, Lifted(s, step.job.key.target), step.job.key.target);
    } else if step.NoteStep? {
      WrittenBacked(w, Noting(s, step.job.key.target, step.next), step.job.key.target);
    } else if step.ResolveStep? {
      ResolveBacked(w, step.job);
    }
  }

  lemma AfterBacked(w: World, step: Step)
    requires Good(w) && P.Sound(w.evidence.store, w.evidence.issued) && Can(w, step) && Permitted(w, step)
      && !step.StoreStep?
    ensures P.Sound(StoreNext(w, step), w.evidence.issued)
  {
    var s, issued := w.evidence.store, w.evidence.issued;
    if step.ApplyStep? {
      F.ApplySound(s, issued, w.jobs.table, Some(step.job), step.snaps, step.observations, step.matters);
    } else if step.FeedbackStep? {
      FeedbackBacked(s, issued, step.id, step.action);
    } else {
      WrittenAfter(w, step);
    }
  }

  ghost predicate GoodAndBacked(w: World) {
    Good(w) && P.Sound(w.evidence.store, w.evidence.issued)
  }

  lemma StepBacked(w: World, step: Step)
    requires GoodAndBacked(w) && Can(w, step) && Permitted(w, step)
    ensures GoodAndBacked(Do(w, step))
  {
    StaysGood(w, step);
    StoreOfStep(w, step);
    if step.StoreStep? { R.StepSound(w.evidence, step.step); } else { AfterBacked(w, step); }
  }

  lemma {:induction false} RunBacked(w: World, steps: seq<Step>)
    requires GoodAndBacked(w) && Possible(w, steps) && AllPermitted(w, steps)
    ensures GoodAndBacked(Run(w, steps))
    decreases |steps|
  {
    if steps != [] {
      StepBacked(w, steps[0]);
      RunBacked(Do(w, steps[0]), steps[1..]);
    }
  }

  /** Investigations included, whatever is valid rests on current human evidence of its own thread, over every run. */
  lemma InvestigationsKeepProvenance(settings: Settings, clock: int, steps: seq<Step>)
    requires Possible(Start(settings, clock), steps) && AllPermitted(Start(settings, clock), steps)
    ensures P.AllBacked(Run(Start(settings, clock), steps).evidence.store)
  {
    RunBacked(Start(settings, clock), steps);
  }

  // ---- What is given up ----------------------------------------------------------------------

  /** The thread has changes that extraction has not processed. */
  predicate Dirty(s: Store, place: Place) {
    place in s.threads && s.threads[place].generation > s.threads[place].processed
  }

  /** Given up while alive, a matter has no job, and extraction does not come back to its thread. */
  lemma GivenUpIsForgotten(w: World, job: J.Job, now: int, ending: D.Ending)
    requires Good(w) && P.AllBacked(w.evidence.store)
    requires CanEnd(w, job, now, ending) && GivesUp(ending) && Holder(w, job)
    ensures var t, id := Ended(w, job, now, ending), job.key.target;
      && Alive(t.evidence.store, id) && KeyOf(id) !in t.jobs.table.rows
      && !Dirty(t.evidence.store, t.evidence.store.matters[id].place)
  {
    GivenUpUnwatched(w, job, now, ending);
    var row := w.evidence.store.matters[job.key.target];
    assert P.Backed(w.evidence.store, row.place, row.body.evidence);
  }

  /**
   Applied but not scheduled, a matter whose job is gone has none, and extraction does not come back
   to its thread.
   */
  lemma CutOffIsForgotten(w: World, id: string)
    requires P.AllBacked(w.evidence.store) && Alive(w.evidence.store, id) && KeyOf(id) !in w.jobs.table.rows
    ensures var t := CutOff(w);
      && Alive(t.evidence.store, id) && KeyOf(id) !in t.jobs.table.rows && !Owed(t, id)
      && !Dirty(t.evidence.store, t.evidence.store.matters[id].place)
  {
    var row := w.evidence.store.matters[id];
    assert P.Backed(w.evidence.store, row.place, row.body.evidence);
  }

  /** The steps that ask for a matter to be looked at: extraction that reports it open, and a snooze. */
  predicate AsksFor(step: Step, id: string) {
    (step.ApplyStep? && Mentions(step.matters, id)) || (step.FeedbackStep? && step.id == id && step.action.Later?)
  }

  lemma ApplyForgets(w: World, s: Store, ms: seq<Matter>, id: string)
    requires !Mentions(ms, id)
    ensures !Owed(Extracted(w, s, ms), id)
  {
    OwedIsMentioned(w, s, ms, id);
  }

  lemma ScheduleForgets(w: World, id: string)
    requires w.owed != [] && KeyOf(id) !in w.jobs.table.rows && !Owed(w, id)
    ensures KeyOf(id) !in Scheduled(w).jobs.table.rows && !Owed(Scheduled(w), id)
  {
    assert w.owed[0].id != id && KeyOf(w.owed[0].id) != KeyOf(id);
    assert forall i :: 0 <= i < |w.owed| - 1 ==> Scheduled(w).owed[i] == w.owed[i + 1];
  }

  lemma EndForgets(jobs: J.World, job: J.Job, now: int, ending: D.Ending, next: Option<int>, id: string)
    requires KeyOf(id) !in jobs.table.rows
    ensures KeyOf(id) !in J.Next(Asked(jobs, now, ending), J.FinishStep(job, next)).table.rows
  {
    assert EXTRACTION != KeyOf(id);
  }

  lemma StepForgets(w: World, step: Step, id: string)
    requires Can(w, step) && !AsksFor(step, id) && KeyOf(id) !in w.jobs.table.rows && !Owed(w, id)
    ensures KeyOf(id) !in Do(w, step).jobs.table.rows && !Owed(Do(w, step), id)
  {
    if step.ApplyStep? {
      ApplyForgets(w, Do(w, step).evidence.store, step.matters, id);
    } else if step.ScheduleStep? {
      ScheduleForgets(w, id);
    } else if step.OtherJob? {
      OtherWorkLeavesRows(w.jobs, step.work);
    } else if step.FeedbackStep? {
      if step.id != id { assert KeyOf(step.id) != KeyOf(id); }
    } else if step.EndStep? {
      EndForgets(w.jobs, step.job, step.now, step.ending, DueAfter(w, step.job, step.now, step.ending), id);
    }
  }

  /** And stays so, whatever else happens, until a new extraction reports it open or its owner snoozes it. */
  lemma {:induction false} ForgottenStays(w: World, steps: seq<Step>, id: string)
    requires Possible(w, steps) && KeyOf(id) !in w.jobs.table.rows && !Owed(w, id)
    requires forall i :: 0 <= i < |steps| ==> !AsksFor(steps[i], id)
    ensures KeyOf(id) !in Run(w, steps).jobs.table.rows
    decreases |steps|
  {
    if steps != [] {
      assert !AsksFor(steps[0], id);
      StepForgets(w, steps[0], id);
      ForgottenStays(Do(w, steps[0]), steps[1..], id);
    }
  }
}
