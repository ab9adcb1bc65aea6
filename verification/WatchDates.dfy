/** The date of a snooze: what keeps it, and exactly which notes of a check lose it. */
module WatchDates {
  import opened Common
  import opened Evidence
  import opened Watch
  import opened WatchSteps
  import opened WatchRuns
  import J = Jobs

  /** Until its date has come, the matter sleeps until that date or is awake for another reason. */
  predicate DateKept(w: World, id: string, at: int) {
    Sleeps(w.evidence.store, id) && w.clock < at ==> w.evidence.store.matters[id].nextCheck == at
  }

  /** The owner snoozes the matter again. */
  predicate SnoozesAnew(step: Step, id: string) {
    step.FeedbackStep? && step.id == id && step.action.Later?
  }

  /** A note, before the date has come, of another check for the sleeping matter. */
  predicate LosesDate(w: World, step: Step, id: string, at: int) {
    step.NoteStep? && step.job.key.target == id && Sleeps(w.evidence.store, id) && w.clock < at && step.next != at
  }

  // ---- One step ------------------------------------------------------------------------

  function CheckAfter(s: Store, step: Step, id: string): int
    requires id in s.matters
  {
    if step.NoteStep? && step.job.key.target == id then step.next else s.matters[id].nextCheck
  }

  /** Only a note changes the check of a matter that sleeps, and only a snooze puts one to sleep. */
  ghost predicate SleepsOn(s: Store, t: Store, step: Step, id: string) {
    && (Sleeps(t, id) ==> Sleeps(s, id) && t.matters[id].nextCheck == CheckAfter(s, step, id))
    && (Sleeps(s, id) && step.NoteStep? ==> Sleeps(t, id))
  }

  lemma FeedbackSleepsOn(s: Store, id: string, action: Action, other: string)
    requires !(other == id && action.Later?)
    ensures var t := Feedback(s, id, action);
      Sleeps(t, other) ==> Sleeps(s, other) && t.matters[other].nextCheck == s.matters[other].nextCheck
  {
    FeedbackElsewhere(s, id, action);
    if id in s.matters { JudgedReading(s.matters[id], action); }
  }

  lemma ApplySleepsOn(w: World, step: Step, id: string)
    requires step.ApplyStep? && Can(w, step)
    ensures SleepsOn(w.evidence.store, StoreNext(w, step), step, id)
  {
    if Applies(w, step) { RowAfter(w, step, id); } else { RejectedIsUnchanged(w, step); }
  }

  lemma WorkSleepsOn(w: World, step: Step, id: string)
    requires Can(w, step) && !step.StoreStep? && !step.ApplyStep? && !step.FeedbackStep?
    ensures SleepsOn(w.evidence.store, StoreNext(w, step), step, id)
  {
  }

  lemma AsleepAfter(w: World, step: Step, id: string)
    requires Can(w, step) && !SnoozesAnew(step, id)
    ensures SleepsOn(w.evidence.store, StoreNext(w, step), step, id)
  {
    if step.StoreStep? {
      StoreFades(w.evidence, step.step);
    } else if step.ApplyStep? {
      ApplySleepsOn(w, step, id);
    } else if step.FeedbackStep? {
      FeedbackSleepsOn(w.evidence.store, step.id, step.action, id);
    } else {
      WorkSleepsOn(w, step, id);
    }
  }

  lemma ClockGoesOn(w: World, step: Step)
    requires Can(w, step)
    ensures w.clock <= Do(w, step).clock && (step.NoteStep? ==> Do(w, step).clock == w.clock)
  {
  }

  /** A step keeps the date exactly when it is no note of another check. */
  lemma DateStepIff(w: World, step: Step, id: string, at: int)
    requires Can(w, step) && !SnoozesAnew(step, id) && DateKept(w, id, at)
    ensures DateKept(Do(w, step), id, at) <==> !LosesDate(w, step, id, at)
  {
    StoreOfStep(w, step);
    AsleepAfter(w, step, id);
    ClockGoesOn(w, step);
  }

  // ---- Whose note it is ------------------------------------------------------------------

  /**
   A worker that finds nothing changed since the last check finds its matter awake: the reminders it
   counts include every snooze.
   */
  lemma UnchangedIsAwake(w: World, job: J.Job)
    requires Good(w)
    ensures Unchanged(w, job) ==> !Sleeps(w.evidence.store, job.key.target)
  {
    assert Unchanged(w, job) ==> Counts(w, job.key.target, w.remembered[job.key.target]);
  }

  /** A worker told at once that a task is active finds the check of its matter due, the date of a snooze included. */
  lemma ByTaskIsDue(w: World, job: J.Job)
    requires Good(w) && w.owed == [] && MayNote(w, job)
    ensures ByTask(w, job) ==> w.evidence.store.matters[job.key.target].nextCheck <= w.clock
  {
    WorkerOf(w, job);
  }

  /**
   So a date is lost only to a worker that passed the ownership test before the snooze was given, on
   a signature that counts fewer reminders, and no longer owns its job.
   */
  lemma LosingNoteIsLate(w: World, step: Step, id: string, at: int)
    requires Good(w) && Can(w, step) && DateKept(w, id, at) && LosesDate(w, step, id, at)
    ensures Analysed(w, step.job) && !Holder(w, step.job)
    ensures w.workers[step.job.token].signed.Some? && w.workers[step.job.token].signed.value < Reminders(w, id)
  {
    WorkerOf(w, step.job);
    UnchangedIsAwake(w, step.job);
    ByTaskIsDue(w, step.job);
  }

  // ---- Every run ---------------------------------------------------------------------------

  ghost predicate DateKeptThroughout(w: World, steps: seq<Step>, id: string, at: int)
    requires Possible(w, steps)
    decreases |steps|
  {
    DateKept(w, id, at) && (steps == [] || DateKeptThroughout(Do(w, steps[0]), steps[1..], id, at))
  }

  /** A late note: of a worker that passed its test before the last snooze, and no longer owns the job. */
  predicate LateNote(w: World, step: Step, id: string) {
    && step.NoteStep? && step.job.key.target == id && Analysed(w, step.job) && !Holder(w, step.job)
    && w.workers[step.job.token].signed.Some? && w.workers[step.job.token].signed.value < Reminders(w, id)
  }

  /** The step is a late note of another check, made before the date. */
  predicate LateLoss(w: World, step: Step, id: string, at: int) {
    LateNote(w, step, id) && LosesDate(w, step, id, at)
  }

  ghost predicate LateNotesAgree(w: World, steps: seq<Step>, id: string, at: int)
    requires Possible(w, steps)
    decreases |steps|
  {
    steps == [] || (!LateLoss(w, steps[0], id, at) && LateNotesAgree(Do(w, steps[0]), steps[1..], id, at))
  }

  /** What one step does to the promise: it is kept, or a late note has lost it. */
  lemma NotedDateIff(w: World, step: Step, id: string, at: int)
    requires Good(w) && Can(w, step) && !SnoozesAnew(step, id) && DateKept(w, id, at)
    ensures DateKept(Do(w, step), id, at) <==> !LateLoss(w, step, id, at)
  {
    if LosesDate(w, step, id, at) { LosingNoteIsLate(w, step, id, at); }
    DateStepIff(w, step, id, at);
  }

  lemma StepDateIff(w: World, step: Step, id: string, at: int)
    requires Good(w) && Can(w, step) && !SnoozesAnew(step, id) && DateKept(w, id, at)
    ensures Good(Do(w, step)) && (DateKept(Do(w, step), id, at) <==> !LateLoss(w, step, id, at))
  {
    StaysGood(w, step);
    NotedDateIff(w, step, id, at);
  }

  lemma {:induction false} RunDateIff(w: World, steps: seq<Step>, id: string, at: int)
    requires Good(w) && Possible(w, steps) && DateKept(w, id, at)
    requires forall i :: 0 <= i < |steps| ==> !SnoozesAnew(steps[i], id)
    ensures DateKeptThroughout(w, steps, id, at) <==> LateNotesAgree(w, steps, id, at)
    decreases |steps|
  {
    if steps != [] {
      assert !SnoozesAnew(steps[0], id);
      StepDateIff(w, steps[0], id, at);
      if !LateLoss(w, steps[0], id, at) { RunDateIff(Do(w, steps[0]), steps[1..], id, at); }
    }
  }

  lemma SnoozePromises(settings: Settings, clock: int, before: seq<Step>, id: string, at: int)
    requires Possible(Start(settings, clock), before) && Run(Start(settings, clock), before).owed == []
    requires id in Run(Start(settings, clock), before).evidence.store.matters
    ensures var w := PutOff(Run(Start(settings, clock), before), id, at); Good(w) && DateKept(w, id, at)
  {
    var w := Run(Start(settings, clock), before);
    RunGood(Start(settings, clock), before);
    SnoozeKeeps(w, id, at);
    SnoozedRows(w.evidence.store, id, at);
  }

  /**
   After any run from the empty store a stored matter is snoozed, and then anything may happen but
   another snooze of it. While the date has not come the matter sleeps until it, or is awake for
   another reason, exactly when no worker that passed its ownership test before the snooze notes
   another check afterwards.
   */
  lemma SnoozeKeepsDateIff(settings: Settings, clock: int, before: seq<Step>, id: string, at: int, after: seq<Step>)
    requires Possible(Start(settings, clock), before) && Run(Start(settings, clock), before).owed == []
    requires id in Run(Start(settings, clock), before).evidence.store.matters
    requires Possible(PutOff(Run(Start(settings, clock), before), id, at), after)
    requires forall i :: 0 <= i < |after| ==> !SnoozesAnew(after[i], id)
    ensures var w := PutOff(Run(Start(settings, clock), before), id, at);
      DateKeptThroughout(w, after, id, at) <==> LateNotesAgree(w, after, id, at)
  {
    SnoozePromises(settings, clock, before, id, at);
    RunDateIff(PutOff(Run(Start(settings, clock), before), id, at), after, id, at);
  }
}
