/** What each step keeps of the matters and their jobs, and exactly which steps leave a matter without one. */
module WatchSteps {
  import opened Common
  import opened Evidence
  import opened Watch
  import D = Decisions
  import F = Findings
  import J = Jobs
  import O = OwnerDecisions
  import R = EvidenceRuns

  // ---- Applying a batch -------------------------------------------------------

  /** A row after a batch: unmentioned it is as before; open, the last mention says so; snoozed, it was so before. */
  ghost predicate RowFollows(rows: map<string, MatterRow>, after: map<string, MatterRow>, ms: seq<Matter>, id: string) {
    var last := O.LastMention(ms, id);
    && (last.None? ==> (id in after <==> id in rows) && (id in rows ==> after[id] == rows[id]))
    && (last.Some? && id in after && after[id].body.state.Open? ==>
         ms[last.value].state.Open? && after[id].nextCheck == ms[last.value].nextCheck)
    && (last.Some? && id in after && after[id].body.state.Snoozed? ==> ms[last.value].state.Open?)
    && (id in after && after[id].body.state.Snoozed? ==>
         id in rows && rows[id].body.state.Snoozed? && after[id].nextCheck == rows[id].nextCheck)
  }

  lemma {:induction false} RowAfterBatch(rows: map<string, MatterRow>, revisions: seq<Revision>,
      snaps: seq<Snapshot>, ms: seq<Matter>, id: string)
    requires O.Reported(ms)
    ensures RowFollows(rows, PutMatters(rows, revisions, snaps, ms), ms, id)
    decreases |ms|
  {
    if ms != [] {
      var rest, m := ms[..|ms| - 1], ms[|ms| - 1];
      RowAfterBatch(rows, revisions, snaps, rest, id);
      var before, after := PutMatters(rows, revisions, snaps, rest), PutMatters(rows, revisions, snaps, ms);
      assert m.state.Open? || m.state.Resolved?;
      if m.id != id {
        assert id in after <==> id in before;
      }
    }
  }

  /** Matters the batch does not mention are as they were; those it leaves alive it reported open. */
  lemma AppliedRow(s: Store, jobs: J.Table, job: J.Job, snaps: seq<Snapshot>, os: seq<Observation>, ms: seq<Matter>,
      id: string)
    requires O.Reported(ms) && Apply(s, jobs, Some(job), snaps, os, ms).1.Applied?
    ensures var t, last := Apply(s, jobs, Some(job), snaps, os, ms).0, O.LastMention(ms, id);
      && (Sleeps(t, id) ==> Sleeps(s, id) && t.matters[id].nextCheck == s.matters[id].nextCheck)
      && (Alive(t, id) ==>
           if last.None? then Alive(s, id) && SameMatter(s, t, id)
           else ms[last.value].state.Open? && (Sleeps(t, id) || t.matters[id].nextCheck == ms[last.value].nextCheck))
  {
    F.MarkedThreads(s, snaps);
    F.MarkKeepsTables(s, snaps);
    RowAfterBatch(s.matters, s.revisions, snaps, ms, id);
  }

  /** The step applies its batch. */
  predicate Applies(w: World, step: Step) {
    && step.ApplyStep? && O.Reported(step.matters)
    && Apply(w.evidence.store, w.jobs.table, Some(step.job), step.snaps, step.observations, step.matters).1.Applied?
  }

  function StoreAfter(w: World, step: Step): Store
    requires step.ApplyStep?
  {
    Apply(w.evidence.store, w.jobs.table, Some(step.job), step.snaps, step.observations, step.matters).0
  }

  function After(w: World, step: Step): World
    requires step.ApplyStep?
  {
    Extracted(w, StoreAfter(w, step), step.matters)
  }

  lemma OwedIsMentioned(w: World, s: Store, ms: seq<Matter>, id: string)
    ensures Owed(Extracted(w, s, ms), id) <==> Mentions(ms, id)
  {
    var owed := Errands(ms);
    if i :| 0 <= i < |ms| && ms[i].id == id && ms[i].state.Open? {
      ErrandsAreMentions(ms, Errand(id, ms[i].nextCheck));
      assert Errand(id, ms[i].nextCheck) in owed;
    }
    if i :| 0 <= i < |owed| && owed[i].id == id {
      assert owed[i] in owed;
      ErrandsAreMentions(ms, owed[i]);
    }
  }

  /** Some report of the matter as open asks for it by the limit. */
  predicate MentionedBy(ms: seq<Matter>, id: string, limit: int) {
    exists i :: 0 <= i < |ms| && ms[i].id == id && ms[i].state.Open? && ms[i].nextCheck <= limit
  }

  lemma OwedInTimeIff(w: World, s: Store, ms: seq<Matter>, id: string)
    requires id in s.matters
    ensures OwedAt(Extracted(w, s, ms), id) <==> MentionedBy(ms, id, Limit(Extracted(w, s, ms), id))
  {
    var t := Extracted(w, s, ms);
    var owed, limit := Errands(ms), Limit(t, id);
    if i :| 0 <= i < |ms| && ms[i].id == id && ms[i].state.Open? && ms[i].nextCheck <= limit {
      ErrandsAreMentions(ms, Errand(id, ms[i].nextCheck));
      assert Errand(id, ms[i].nextCheck) in owed;
    }
    if i :| 0 <= i < |owed| && owed[i].id == id && owed[i].due <= limit {
      assert owed[i] in owed;
      ErrandsAreMentions(ms, owed[i]);
    }
  }

  lemma RowAfter(w: World, step: Step, id: string)
    requires Applies(w, step)
    ensures var s, t := w.evidence.store, StoreAfter(w, step);
      && (Sleeps(t, id) ==> Sleeps(s, id) && t.matters[id].nextCheck == s.matters[id].nextCheck)
      && (Alive(t, id) && !Mentions(step.matters, id) ==> Alive(s, id) && SameMatter(s, t, id))
      && (Alive(t, id) && !Sleeps(t, id) && Mentions(step.matters, id) ==>
           MentionedBy(step.matters, id, t.matters[id].nextCheck))
  {
    AppliedRow(w.evidence.store, w.jobs.table, step.job, step.snaps, step.observations, step.matters, id);
    var last := O.LastMention(step.matters, id);
    if last.Some? { assert step.matters[last.value].id == id; }
  }

  lemma ApplyStands(w: World, step: Step)
    requires Good(w) && w.owed == [] && Applies(w, step)
    ensures Standing(After(w, step))
  {
    var t := After(w, step);
    forall job | Holder(t, job) ensures StandsFor(t, job) || Owed(t, job.key.target) {
      RowAfter(w, step, job.key.target);
      OwedIsMentioned(w, StoreAfter(w, step), step.matters, job.key.target);
      if !Owed(t, job.key.target) { assert Holder(w, job) && StandsFor(w, job); }
    }
  }

  /** Nothing fell asleep, and nothing was counted. */
  lemma StillReminding(w: World, t: World)
    requires Reminding(w) && t.workers == w.workers && t.reminders == w.reminders && t.remembered == w.remembered
    requires forall id :: Sleeps(t.evidence.store, id) ==> Sleeps(w.evidence.store, id)
    ensures Reminding(t)
  {
    forall token | token in t.workers ensures Signs(t, t.workers[token]) { assert Signs(w, w.workers[token]); }
    forall id | id in t.remembered ensures Counts(t, id, t.remembered[id]) { assert Counts(w, id, w.remembered[id]); }
  }

  lemma ApplyGood(w: World, step: Step)
    requires Good(w) && w.owed == [] && Applies(w, step)
    ensures Good(After(w, step))
  {
    ApplyStands(w, step);
    forall id | Sleeps(StoreAfter(w, step), id) ensures Sleeps(w.evidence.store, id) { RowAfter(w, step, id); }
    StillReminding(w, After(w, step));
  }

  /** A snoozed matter that the batch does not wake is reported in time, or its job is due in time already. */
  predicate TimelyFor(w: World, ms: seq<Matter>, id: string)
    requires id in w.evidence.store.matters
  {
    WatchedAt(w, id) || MentionedBy(ms, id, Limit(w, id))
  }

  ghost predicate Timely(w: World, ms: seq<Matter>) {
    forall id :: Sleeps(w.evidence.store, id) && Mentions(ms, id) && !O.FoundResolved(ms, id) ==> TimelyFor(w, ms, id)
  }

  /** A snoozed matter the batch mentions, and never finds resolved, sleeps on and is valid. */
  lemma StaysAsleep(w: World, step: Step, id: string)
    requires Applies(w, step) && Sleeps(w.evidence.store, id) && Mentions(step.matters, id)
    requires !O.FoundResolved(step.matters, id)
    ensures var s, t := w.evidence.store, StoreAfter(w, step);
      Alive(t, id) && Sleeps(t, id) && t.matters[id].nextCheck == s.matters[id].nextCheck
  {
    var s, ms := w.evidence.store, step.matters;
    O.DecisionKeptIff(s, w.jobs.table, Some(step.job), step.snaps, step.observations, ms, id);
    F.MarkKeepsTables(s, step.snaps);
    F.MatterRowAfter(s.matters, s.revisions, step.snaps, ms, id);
    var i :| 0 <= i < |ms| && ms[i].id == id && ms[i].state.Open?;
    MentionIsFound(MatterItems(ms), i);
  }

  lemma {:induction false} MentionIsFound(items: seq<Item>, i: nat)
    requires i < |items|
    ensures F.First(items, items[i].id).Some?
    decreases |items|
  {
    if i < |items| - 1 { MentionIsFound(items[..|items| - 1], i); }
  }

  /** Finding a matter resolved wakes it, if only to resolve it. */
  lemma FoundResolvedWakes(w: World, step: Step, id: string)
    requires Applies(w, step) && Sleeps(StoreAfter(w, step), id)
    ensures !O.FoundResolved(step.matters, id)
  {
    RowAfter(w, step, id);
    O.DecisionKeptIff(w.evidence.store, w.jobs.table, Some(step.job), step.snaps, step.observations, step.matters,
      id);
  }

  lemma ApplyWatches(w: World, step: Step, id: string)
    requires Watched(w) && w.owed == [] && Applies(w, step) && Timely(w, step.matters) && Alive(StoreAfter(w, step), id)
    ensures WatchedAt(After(w, step), id) || OwedAt(After(w, step), id)
  {
    RowAfter(w, step, id);
    OwedInTimeIff(w, StoreAfter(w, step), step.matters, id);
    if !Mentions(step.matters, id) {
      assert WatchedAt(w, id);
    } else if Sleeps(StoreAfter(w, step), id) {
      FoundResolvedWakes(w, step, id);
      assert TimelyFor(w, step.matters, id);
    }
  }

  /**
   Applying a batch leaves every matter watched, or to be scheduled in time, exactly when it is
   timely for those that sleep on.
   */
  lemma ApplyWatchedIff(w: World, step: Step)
    requires Watched(w) && w.owed == [] && Applies(w, step)
    ensures Watched(After(w, step)) <==> Timely(w, step.matters)
  {
    var t, ms := After(w, step), step.matters;
    if Timely(w, ms) {
      forall id | Alive(t.evidence.store, id) ensures WatchedAt(t, id) || OwedAt(t, id) { ApplyWatches(w, step, id); }
    }
    if Watched(t) {
      forall id | Sleeps(w.evidence.store, id) && Mentions(ms, id)
        && !O.FoundResolved(ms, id) ensures TimelyFor(w, ms, id) {
        StaysAsleep(w, step, id);
        OwedInTimeIff(w, StoreAfter(w, step), ms, id);
        assert WatchedAt(t, id) || OwedAt(t, id);
      }
    }
  }

  // ---- What extraction still has to schedule -------------------------------------------

  /** What is still to be scheduled after the first. */
  lemma StillOwed(w: World, i: nat)
    requires 0 < i < |w.owed|
    ensures Scheduled(w).owed[i - 1] == w.owed[i]
  {
  }

  lemma ScheduleStands(w: World)
    requires Good(w) && w.owed != []
    ensures Standing(Scheduled(w))
  {
    var t, key := Scheduled(w), KeyOf(w.owed[0].id);
    RescheduledSooner(w.jobs, key, w.owed[0].due);
    Rescheduled(w.jobs, key, w.owed[0].due);
    forall job | Holder(t, job) ensures StandsFor(t, job) || Owed(t, job.key.target) {
      assert Holder(w, job) && job.key != key;
      if !StandsFor(w, job) {
        var i :| 0 <= i < |w.owed| && w.owed[i].id == job.key.target;
        StillOwed(w, i);
      }
    }
  }

  lemma ScheduleRecorded(w: World)
    requires Good(w) && w.owed != []
    ensures Recorded(Scheduled(w))
  {
    RescheduledSooner(w.jobs, KeyOf(w.owed[0].id), w.owed[0].due);
    forall job | Works(Scheduled(w), job) ensures w.workers[job.token].id == job.key.target { assert Works(w, job); }
  }

  lemma ScheduleWatches(w: World, id: string)
    requires J.Sound(w.jobs) && w.owed != [] && id in w.evidence.store.matters
    requires WatchedAt(w, id) || OwedAt(w, id)
    ensures WatchedAt(Scheduled(w), id) || OwedAt(Scheduled(w), id)
  {
    RescheduledSooner(w.jobs, KeyOf(w.owed[0].id), w.owed[0].due);
    Rescheduled(w.jobs, KeyOf(w.owed[0].id), w.owed[0].due);
    if !WatchedAt(w, id) {
      var i :| 0 <= i < |w.owed| && w.owed[i].id == id && w.owed[i].due <= Limit(w, id);
      if i > 0 { StillOwed(w, i); }
    }
  }

  /** Scheduling one more keeps everything. */
  lemma ScheduleKeeps(w: World)
    requires Good(w) && w.owed != []
    ensures Good(Scheduled(w)) && (Watched(w) ==> Watched(Scheduled(w)))
  {
    var t := Scheduled(w);
    ScheduleStands(w);
    ScheduleRecorded(w);
    StillReminding(w, t);
    RescheduledSooner(w.jobs, KeyOf(w.owed[0].id), w.owed[0].due);
    if Watched(w) {
      forall id | Alive(t.evidence.store, id) ensures WatchedAt(t, id) || OwedAt(t, id) { ScheduleWatches(w, id); }
    }
  }

  lemma CutOffGood(w: World)
    requires Good(w)
    ensures Good(CutOff(w))
  {
    var t := CutOff(w);
    assert forall job :: !Holder(t, job) && !Works(t, job);
    forall id | id in t.remembered ensures Counts(t, id, t.remembered[id]) { assert Counts(w, id, w.remembered[id]); }
  }

  /**
   A service cut off leaves every matter watched exactly when none alive was still to be scheduled
   without a job due in time.
   */
  lemma CutOffWatchedIff(w: World)
    requires Watched(w)
    ensures Watched(CutOff(w)) <==> forall id :: Alive(w.evidence.store, id) && Owed(w, id) ==> WatchedAt(w, id)
  {
    var t := CutOff(w);
    assert forall id :: Alive(t.evidence.store, id) ==> !OwedAt(t, id) && (WatchedAt(t, id) <==> WatchedAt(w, id));
    forall id | Alive(w.evidence.store, id) && !WatchedAt(w, id) ensures Owed(w, id) { assert OwedAt(w, id); }
  }

  // ---- Feedback ----------------------------------------------------------------------

  lemma JudgedReading(row: MatterRow, action: Action)
    ensures var after := Judged(row, action);
      && after.place == row.place && after.body.detail == row.body.detail && after.body.evidence == row.body.evidence
      && after.valid == row.valid
      && after.nextCheck == (if action.Later? then action.at else row.nextCheck)
      && (!action.Later? && !after.body.state.Resolved? && !after.body.state.Dismissed? ==>
           after.body.state == row.body.state)
  {
  }

  lemma FeedbackElsewhere(s: Store, id: string, action: Action)
    ensures var t := Feedback(s, id, action);
      && t.threads == s.threads && t.matters.Keys == s.matters.Keys
      && (forall other :: other in s.matters && other != id ==> t.matters[other] == s.matters[other])
      && (id in s.matters ==> t.matters[id] == Judged(s.matters[id], action))
  {
  }

  lemma FeedbackFades(s: Store, id: string, action: Action)
    requires !action.Later?
    ensures Fades(s, Feedback(s, id, action))
  {
    FeedbackElsewhere(s, id, action);
    if id in s.matters { JudgedReading(s.matters[id], action); }
  }

  /** What a snooze leaves: the matter asleep until its date, all others as they were. */
  lemma SnoozedRows(s: Store, id: string, at: int)
    requires id in s.matters
    ensures var t := Feedback(s, id, Later(at));
      && t.threads == s.threads && t.matters.Keys == s.matters.Keys
      && (forall other :: other in s.matters && other != id ==> t.matters[other] == s.matters[other])
      && Sleeps(t, id) && t.matters[id].nextCheck == at && t.matters[id].valid == s.matters[id].valid
  {
  }

  lemma SnoozeStands(w: World, id: string, at: int)
    requires Good(w) && w.owed == [] && id in w.evidence.store.matters
    ensures Standing(PutOff(w, id, at))
  {
    var t := PutOff(w, id, at);
    RescheduledSooner(w.jobs, KeyOf(id), at);
    Rescheduled(w.jobs, KeyOf(id), at);
    SnoozedRows(w.evidence.store, id, at);
    forall job | Holder(t, job) ensures StandsFor(t, job) {
      assert job.key.target != id && Holder(w, job) && StandsFor(w, job);
    }
  }

  /** Every signature made before it counts one reminder less. */
  lemma SnoozeReminds(w: World, id: string, at: int)
    requires Reminding(w) && id in w.evidence.store.matters
    ensures Reminding(PutOff(w, id, at))
  {
    var t := PutOff(w, id, at);
    SnoozedRows(w.evidence.store, id, at);
    forall token | token in t.workers ensures Signs(t, t.workers[token]) { assert Signs(w, w.workers[token]); }
    forall k | k in t.remembered ensures Counts(t, k, t.remembered[k]) { assert Counts(w, k, w.remembered[k]); }
  }

  lemma SnoozeRecorded(w: World, id: string, at: int)
    requires J.Sound(w.jobs) && Recorded(w)
    ensures Recorded(PutOff(w, id, at)) && J.Sound(PutOff(w, id, at).jobs)
  {
    var t := PutOff(w, id, at);
    RescheduledSooner(w.jobs, KeyOf(id), at);
    forall job | Works(t, job) ensures t.workers[job.token].id == job.key.target { assert Works(w, job); }
  }

  /** A snooze schedules the matter's job for its date, and takes it from whoever owns it. */
  lemma SnoozeKeeps(w: World, id: string, at: int)
    requires Good(w) && w.owed == [] && id in w.evidence.store.matters
    ensures Good(PutOff(w, id, at)) && (Watched(w) ==> Watched(PutOff(w, id, at)))
  {
    var t := PutOff(w, id, at);
    SnoozeStands(w, id, at);
    SnoozeReminds(w, id, at);
    SnoozeRecorded(w, id, at);
    RescheduledSooner(w.jobs, KeyOf(id), at);
    Rescheduled(w.jobs, KeyOf(id), at);
    SnoozedRows(w.evidence.store, id, at);
    if Watched(w) {
      forall other | Alive(t.evidence.store, other) ensures WatchedAt(t, other) {
        assert other != id ==> WatchedAt(w, other);
      }
    }
  }

  /** Any other feedback, or a snooze of a matter that is gone. */
  lemma JudgedKeeps(w: World, id: string, action: Action)
    requires Good(w) && w.owed == [] && !(action.Later? && id in w.evidence.store.matters)
    ensures var t := WithStore(w, Feedback(w.evidence.store, id, action)); Good(t) && (Watched(w) ==> Watched(t))
  {
    var s := w.evidence.store;
    if action.Later? { assert Feedback(s, id, action) == s; } else { FeedbackFades(s, id, action); }
    FadingKeeps(w, w.evidence.(store := Feedback(s, id, action)));
  }

  // ---- The job table ---------------------------------------------------------------

  /** Nothing of investigations changes, and whoever owns one owned it before. */
  ghost predicate OtherRows(jobs: J.World, t: J.World) {
    && (forall id :: KeyOf(id) in t.table.rows <==> KeyOf(id) in jobs.table.rows)
    && (forall id :: KeyOf(id) in t.table.rows ==> t.table.rows[KeyOf(id)] == jobs.table.rows[KeyOf(id)])
    && (forall job :: job in t.issued && Investigates(job.key) ==> job in jobs.issued)
  }

  lemma OtherWorkLeavesRows(jobs: J.World, work: J.Step)
    requires OfOtherWork(work)
    ensures OtherRows(jobs, J.Next(jobs, work))
  {
  }

  lemma OtherWorkRecorded(w: World, work: J.Step)
    requires Good(w) && OfOtherWork(work)
    ensures Recorded(Worked(w, work))
  {
    OtherWorkLeavesRows(w.jobs, work);
    forall job | Works(Worked(w, work), job) ensures w.workers[job.token].id == job.key.target { assert Works(w, job); }
  }

  lemma OtherWorkKeeps(w: World, work: J.Step)
    requires Good(w) && w.owed == [] && OfOtherWork(work)
    ensures Good(Worked(w, work)) && (Watched(w) ==> Watched(Worked(w, work)))
  {
    var t := Worked(w, work);
    J.StepSound(w.jobs, work);
    OtherWorkLeavesRows(w.jobs, work);
    OtherWorkRecorded(w, work);
    StillReminding(w, t);
    forall job | Holder(t, job) ensures StandsFor(t, job) {
      assert job.key == KeyOf(job.key.target) && Holder(w, job) && StandsFor(w, job);
    }
    if Watched(w) {
      forall id | Alive(t.evidence.store, id) ensures WatchedAt(t, id) { assert WatchedAt(w, id); }
    }
  }

  lemma StopGood(w: World)
    requires Good(w)
    ensures Good(Stopped(w))
  {
    var t := Stopped(w);
    J.StepSound(w.jobs, J.Step.StopStep);
    StillReminding(w, t);
    assert forall id :: KeyOf(id).kind in J.ANALYSIS;
    assert forall job :: !Holder(t, job);
    forall job | Works(t, job) ensures t.workers[job.token].id == job.key.target { assert Works(w, job); }
  }

  /** The stop command deletes every investigation, of what is alive too. */
  lemma StopWatchedIff(w: World)
    requires w.owed == []
    ensures Watched(Stopped(w)) <==> forall id :: !Alive(w.evidence.store, id)
  {
    assert forall id :: KeyOf(id).kind in J.ANALYSIS;
    assert forall id :: Alive(w.evidence.store, id) ==> !WatchedAt(Stopped(w), id) && !OwedAt(Stopped(w), id);
  }

  // ---- Investigations ----------------------------------------------------------------

  /** One more claim: its holder is the only one, and every other investigation is as it was. */
  lemma Claimed(jobs: J.World, key: J.Key, now: int, leaseMs: int)
    requires J.Sound(jobs) && J.Eligible(jobs.table, key, now)
    ensures var t := J.Next(jobs, J.ClaimStep(key, now, leaseMs));
      && J.Sound(t) && t.table.nextToken == jobs.table.nextToken + 1 && t.table.rows.Keys == jobs.table.rows.Keys
      && (forall other :: other in t.table.rows ==> t.table.rows[other].due == jobs.table.rows[other].due)
      && (forall other :: other in t.table.rows && other != key ==> t.table.rows[other] == jobs.table.rows[other])
      && (forall job :: job in t.issued && job !in jobs.issued ==> job.key == key && job.token == jobs.table.nextToken)
      && (forall job :: job in t.issued && J.Owns(t.table, job) ==>
           if job.key == key then job.token == jobs.table.nextToken
           else job in jobs.issued && J.Owns(jobs.table, job) && job.token < jobs.table.nextToken)
  {
    J.StepSound(jobs, J.ClaimStep(key, now, leaseMs));
  }

  /** Whoever holds an investigation after a claim is the claimant, or held it before. */
  lemma BegunHolder(w: World, id: string, now: int, leaseMs: int, job: J.Job)
    requires J.Sound(w.jobs) && J.Eligible(w.jobs.table, KeyOf(id), now) && Holder(Begun(w, id, now, leaseMs), job)
    ensures if job.key == KeyOf(id) then job.token == w.jobs.table.nextToken
            else Holder(w, job) && job.token < w.jobs.table.nextToken
  {
    Claimed(w.jobs, KeyOf(id), now, leaseMs);
  }

  /** The claim is on record if its matter is alive, and nothing else on record changes. */
  lemma BegunWorkers(w: World, id: string, now: int, leaseMs: int)
    ensures var t := Begun(w, id, now, leaseMs);
      && t.evidence == w.evidence && t.owed == w.owed && t.clock == Max(w.clock, now)
      && t.reminders == w.reminders && t.remembered == w.remembered
      && (forall token :: token in t.workers && token != w.jobs.table.nextToken ==>
           token in w.workers && t.workers[token] == w.workers[token])
      && (forall token :: token in w.workers ==> token in t.workers)
      && (Alive(w.evidence.store, id) ==>
           && w.jobs.table.nextToken in t.workers && t.workers[w.jobs.table.nextToken].id == id
           && Stands(t.workers[w.jobs.table.nextToken], t.evidence.store, id, t.clock)
           && !t.workers[w.jobs.table.nextToken].passed && t.workers[w.jobs.table.nextToken].signed.None?)
      && (!Alive(w.evidence.store, id) ==> t.workers == w.workers)
  {
  }

  lemma BeginStands(w: World, id: string, now: int, leaseMs: int)
    requires Good(w) && w.owed == [] && J.Eligible(w.jobs.table, KeyOf(id), now)
    ensures Standing(Begun(w, id, now, leaseMs))
  {
    var t := Begun(w, id, now, leaseMs);
    BegunWorkers(w, id, now, leaseMs);
    forall job | Holder(t, job) ensures StandsFor(t, job) {
      BegunHolder(w, id, now, leaseMs, job);
      if job.key != KeyOf(id) { assert StandsFor(w, job); }
    }
  }

  lemma BeginRecorded(w: World, id: string, now: int, leaseMs: int)
    requires Good(w) && J.Eligible(w.jobs.table, KeyOf(id), now)
    ensures Recorded(Begun(w, id, now, leaseMs))
  {
    var t := Begun(w, id, now, leaseMs);
    Claimed(w.jobs, KeyOf(id), now, leaseMs);
    BegunWorkers(w, id, now, leaseMs);
    forall job | Works(t, job) ensures t.workers[job.token].id == job.key.target {
      if job in w.jobs.issued { assert job.token < w.jobs.table.nextToken && Works(w, job); }
    }
  }

  lemma BeginReminds(w: World, id: string, now: int, leaseMs: int)
    requires Good(w)
    ensures Reminding(Begun(w, id, now, leaseMs))
  {
    var t := Begun(w, id, now, leaseMs);
    BegunWorkers(w, id, now, leaseMs);
    forall token | token in t.workers ensures Signs(t, t.workers[token]) {
      assert token in w.workers && token != w.jobs.table.nextToken ==> Signs(w, w.workers[token]);
    }
    forall k | k in t.remembered ensures Counts(t, k, t.remembered[k]) { assert Counts(w, k, w.remembered[k]); }
  }

  lemma BeginWatches(w: World, id: string, now: int, leaseMs: int, other: string)
    requires J.Sound(w.jobs) && J.Eligible(w.jobs.table, KeyOf(id), now) && other in w.evidence.store.matters
    requires WatchedAt(w, other)
    ensures WatchedAt(Begun(w, id, now, leaseMs), other)
  {
    Claimed(w.jobs, KeyOf(id), now, leaseMs);
  }

  lemma BeginKeeps(w: World, id: string, now: int, leaseMs: int)
    requires Good(w) && w.owed == [] && J.Eligible(w.jobs.table, KeyOf(id), now)
    ensures var t := Begun(w, id, now, leaseMs); Good(t) && (Watched(w) ==> Watched(t))
  {
    var t := Begun(w, id, now, leaseMs);
    BeginStands(w, id, now, leaseMs);
    BeginRecorded(w, id, now, leaseMs);
    BeginReminds(w, id, now, leaseMs);
    J.StepSound(w.jobs, J.ClaimStep(KeyOf(id), now, leaseMs));
    if Watched(w) {
      forall other | Alive(t.evidence.store, other) ensures WatchedAt(t,
        other) { BeginWatches(w, id, now, leaseMs, other); }
    }
  }

  lemma SameHolder(jobs: J.World, a: J.Job, b: J.Job)
    requires J.Sound(jobs) && a in jobs.issued && b in jobs.issued
    requires J.Holds(jobs.table, a) && J.Owns(jobs.table, b) && a.key == b.key
    ensures a == b
  {
  }

  /** A worker's record may change as long as it tells the truth about the matter, if it still owns its job. */
  lemma RecordKeeps(w: World, job: J.Job, worker: Worker)
    requires Good(w) && w.owed == [] && Works(w, job) && worker.id == job.key.target
    requires Holder(w, job) ==> Stands(worker, w.evidence.store, job.key.target, w.clock)
    requires Signs(WithWorker(w, job.token, worker), worker)
    ensures Good(WithWorker(w, job.token, worker))
    ensures Watched(w) ==> Watched(WithWorker(w, job.token, worker))
  {
    var t := WithWorker(w, job.token, worker);
    forall other | Holder(t, other) ensures StandsFor(t, other) {
      assert Holder(w, other) && StandsFor(w, other);
      assert other.token == job.token ==> other == job;
    }
    forall other | Works(t, other) ensures t.workers[other.token].id == other.key.target {
      assert Works(w, other) && (other.token == job.token ==> other == job);
    }
    forall token | token in t.workers ensures Signs(t, t.workers[token]) {
      assert token != job.token ==> Signs(w, w.workers[token]);
    }
    forall id | id in t.remembered ensures Counts(t, id, t.remembered[id]) { assert Counts(w, id, w.remembered[id]); }
    if Watched(w) {
      forall id | Alive(t.evidence.store, id) ensures WatchedAt(t, id) { assert WatchedAt(w, id); }
    }
  }

  lemma WorkerOf(w: World, job: J.Job)
    requires Good(w) && w.owed == [] && Works(w, job)
    ensures w.workers[job.token].id == job.key.target && Signs(w, w.workers[job.token])
    ensures Holder(w, job) ==> Stands(w.workers[job.token], w.evidence.store, job.key.target, w.clock)
  {
    if Holder(w, job) { assert StandsFor(w, job); }
  }

  lemma LiftFades(s: Store, id: string)
    requires Alive(s, id)
    ensures Fades(s, Lifted(s, id)) && !Sleeps(Lifted(s, id), id)
  {
  }

  lemma LiftKeeps(w: World, job: J.Job)
    requires Good(w) && w.owed == [] && MayLift(w, job)
    ensures var t := AfterLift(w, job); Good(t) && (Watched(w) ==> Watched(t))
  {
    var s, worker := w.evidence.store, w.workers[job.token];
    WorkerOf(w, job);
    LiftFades(s, job.key.target);
    var w1 := WithStore(w, Lifted(s, job.key.target));
    FadingKeeps(w, w1.evidence);
    WorkerOf(w1, job);
    RecordKeeps(w1, job, worker.(lifted := true));
  }

  lemma SignKeeps(w: World, job: J.Job)
    requires Good(w) && w.owed == [] && MaySign(w, job)
    ensures var t := AfterSign(w, job); Good(t) && (Watched(w) ==> Watched(t))
  {
    WorkerOf(w, job);
    RecordKeeps(w, job, w.workers[job.token].(signed := Some(Reminders(w, job.key.target))));
  }

  /** Whoever passes the ownership test has its matter awake. */
  lemma PassKeeps(w: World, job: J.Job)
    requires Good(w) && w.owed == [] && MayPass(w, job)
    ensures var t := AfterPass(w, job); Good(t) && (Watched(w) ==> Watched(t))
  {
    WorkerOf(w, job);
    RecordKeeps(w, job, w.workers[job.token].(passed := true));
  }

  lemma RememberKeeps(w: World, remembered: map<string, nat>)
    requires Good(w) && w.owed == []
    requires forall id :: id in remembered ==> Counts(w, id, remembered[id])
    ensures var t := w.(remembered := remembered); Good(t) && (Watched(w) ==> Watched(t))
  {
    var t := w.(remembered := remembered);
    forall job | Holder(t, job) ensures StandsFor(t, job) { assert Holder(w, job) && StandsFor(w, job); }
    forall job | Works(t, job) ensures t.workers[job.token].id == job.key.target { assert Works(w, job); }
    forall token | token in t.workers ensures Signs(t, t.workers[token]) { assert Signs(w, w.workers[token]); }
    forall id | id in t.remembered ensures Counts(t, id, t.remembered[id]) { assert Counts(w, id, remembered[id]); }
    if Watched(w) {
      forall id | Alive(t.evidence.store, id) ensures WatchedAt(t, id) { assert WatchedAt(w, id); }
    }
  }

  lemma NotingRow(s: Store, id: string, next: int)
    requires id in s.matters
    ensures var t := Noting(s, id, next);
      && t.threads == s.threads && t.matters.Keys == s.matters.Keys
      && t.matters[id] == s.matters[id].(nextCheck := next)
      && (forall other :: other in s.matters && other != id ==> t.matters[other] == s.matters[other])
  {
  }

  lemma NoteStands(w: World, job: J.Job, next: int)
    requires Good(w) && w.owed == [] && Works(w, job) && J.Holds(w.jobs.table, job)
    requires job.key.target in w.evidence.store.matters
    ensures Standing(Noted(w, job, next))
  {
    var t, id := Noted(w, job, next), job.key.target;
    NotingRow(w.evidence.store, id, next);
    forall other | Holder(t, other) ensures StandsFor(t, other) {
      assert Holder(w, other) && StandsFor(w, other);
      if other.key.target == id {
        assert other.key == job.key;
        SameHolder(w.jobs, job, other);
      } else {
        assert other.token != job.token;
      }
    }
  }

  /** A note by whoever holds the job keeps everything, whether it still owns it or not. */
  lemma NoteKeeps(w: World, job: J.Job, next: int)
    requires Good(w) && w.owed == [] && Works(w, job) && J.Holds(w.jobs.table, job)
    requires job.key.target in w.evidence.store.matters
    ensures Good(Noted(w, job, next)) && (Watched(w) ==> Watched(Noted(w, job, next)))
  {
    var t, id := Noted(w, job, next), job.key.target;
    NotingRow(w.evidence.store, id, next);
    NoteStands(w, job, next);
    forall other | Works(t, other) ensures t.workers[other.token].id == other.key.target {
      assert Works(w, other) && w.workers[other.token].id == other.key.target;
    }
    forall token | token in t.workers ensures Signs(t, t.workers[token]) { assert Signs(w, w.workers[token]); }
    forall k | k in t.remembered ensures Counts(t, k, t.remembered[k]) { assert Counts(w, k, w.remembered[k]); }
    if Watched(w) {
      forall other | Alive(t.evidence.store, other) ensures WatchedAt(t, other) { assert WatchedAt(w, other); }
    }
  }

  lemma ConcludedFades(s: Store, id: string, body: Matter)
    requires id in s.matters && body.state.Resolved?
    ensures Fades(s, WithBody(s, id, body))
  {
  }

  // ---- How an investigation ends -------------------------------------------------------

  lemma AskedRows(jobs: J.World, now: int, ending: D.Ending)
    requires J.Sound(jobs)
    ensures var asked := Asked(jobs, now, ending); OnlySooner(jobs, asked) && OtherRows(jobs, asked)
  {
    if ending.Unread? { RescheduledSooner(jobs, EXTRACTION, now); }
  }

  /** Finishing takes the job from its owner, and leaves every other as it was. */
  lemma Finished(jobs: J.World, job: J.Job, next: Option<int>)
    requires J.Sound(jobs) && job in jobs.issued
    ensures var t := J.Next(jobs, J.FinishStep(job, next));
      && J.Sound(t) && t.issued == jobs.issued && t.table.nextToken == jobs.table.nextToken
      && (forall key :: key in t.table.rows ==> key in jobs.table.rows)
      && (forall key :: key in jobs.table.rows && key != job.key ==>
           key in t.table.rows && t.table.rows[key] == jobs.table.rows[key])
      && (forall key :: key in t.table.rows && t.table.rows[key].token.Some? ==>
           t.table.rows[key] == jobs.table.rows[key])
      && (job.key in jobs.table.rows ==>
           if !J.Owns(jobs.table, job)
           then job.key in t.table.rows && t.table.rows[job.key].due == jobs.table.rows[job.key].due
           else if next.None? then job.key !in t.table.rows
           else job.key in t.table.rows && t.table.rows[job.key].due == next.value)
      && (forall other :: other in t.issued && J.Owns(t.table, other) ==> J.Owns(jobs.table, other))
  {
    J.StepSound(jobs, J.FinishStep(job, next));
  }

  /** What an ending leaves of the job of a matter: its owner's due time or nothing; of all others what there was. */
  lemma EndedRow(jobs: J.World, job: J.Job, now: int, ending: D.Ending, next: Option<int>, id: string)
    requires J.Sound(jobs) && job in jobs.issued && Investigates(job.key) && KeyOf(id) in jobs.table.rows
    ensures var t := J.Next(Asked(jobs, now, ending), J.FinishStep(job, next)).table;
      if job.key == KeyOf(id) && J.Owns(jobs.table, job) then
        if next.None? then KeyOf(id) !in t.rows else KeyOf(id) in t.rows && t.rows[KeyOf(id)].due == next.value
      else KeyOf(id) in t.rows && t.rows[KeyOf(id)].due == jobs.table.rows[KeyOf(id)].due
  {
    var asked := Asked(jobs, now, ending);
    AskedRows(jobs, now, ending);
    Finished(asked, job, next);
    assert asked.table.rows[KeyOf(id)] == jobs.table.rows[KeyOf(id)];
    assert job.key == KeyOf(id) ==> (J.Owns(asked.table, job) <==> J.Owns(jobs.table, job));
  }

  lemma EndStands(w: World, job: J.Job, now: int, ending: D.Ending)
    requires Good(w) && w.owed == [] && CanEnd(w, job, now, ending)
    ensures Standing(Ended(w, job, now, ending)) && J.Sound(Ended(w, job, now, ending).jobs)
  {
    var t := Ended(w, job, now, ending);
    AskedRows(w.jobs, now, ending);
    Finished(Asked(w.jobs, now, ending), job, DueAfter(w, job, now, ending));
    forall other | Holder(t, other) ensures StandsFor(t, other) { assert Holder(w, other) && StandsFor(w, other); }
  }

  lemma EndGood(w: World, job: J.Job, now: int, ending: D.Ending)
    requires Good(w) && w.owed == [] && CanEnd(w, job, now, ending)
    ensures Good(Ended(w, job, now, ending))
  {
    var t := Ended(w, job, now, ending);
    EndStands(w, job, now, ending);
    AskedRows(w.jobs, now, ending);
    Finished(Asked(w.jobs, now, ending), job, DueAfter(w, job, now, ending));
    forall other | Works(t, other) ensures t.workers[other.token].id == other.key.target { assert Works(w, other); }
    StillReminding(w, t);
  }

  /** An ending that asks for no further check though its matter may still be alive. */
  predicate GivesUp(ending: D.Ending) {
    ending.Unfollowed? || ending.Unread? || ending.Overtaken?
  }

  /** Any check an ending asks for comes no later than the matter's own, or than an hour from now. */
  lemma DueInTime(w: World, job: J.Job, now: int, ending: D.Ending)
    requires Good(w) && w.owed == [] && CanEnd(w, job, now, ending) && Holder(w, job) && !GivesUp(ending)
    ensures DueAfter(w, job, now, ending).Some?
    ensures DueAfter(w, job, now, ending).value <= Limit(w, job.key.target)
  {
    assert StandsFor(w, job);
  }

  lemma EndWatches(w: World, job: J.Job, now: int, ending: D.Ending, id: string)
    requires Good(w) && w.owed == [] && CanEnd(w, job, now, ending) && !(GivesUp(ending) && Holder(w, job))
    requires Alive(w.evidence.store, id) && WatchedAt(w, id)
    ensures WatchedAt(Ended(w, job, now, ending), id)
  {
    EndedRow(w.jobs, job, now, ending, DueAfter(w, job, now, ending), id);
    if Holder(w, job) { DueInTime(w, job, now, ending); }
  }

  /** Given up by its holder, a matter has no job. */
  lemma GivenUpUnwatched(w: World, job: J.Job, now: int, ending: D.Ending)
    requires Good(w) && CanEnd(w, job, now, ending) && GivesUp(ending) && Holder(w, job)
    ensures job.key !in Ended(w, job, now, ending).jobs.table.rows
  {
    EndedRow(w.jobs, job, now, ending, None, job.key.target);
  }

  lemma EndWatchedIff(w: World, job: J.Job, now: int, ending: D.Ending)
    requires Good(w) && w.owed == [] && Watched(w) && CanEnd(w, job, now, ending)
    ensures Watched(Ended(w, job, now, ending)) <==> !(GivesUp(ending) && Holder(w, job))
  {
    var t := Ended(w, job, now, ending);
    if GivesUp(ending) && Holder(w, job) {
      GivenUpUnwatched(w, job, now, ending);
      assert Alive(t.evidence.store, job.key.target) && !WatchedAt(t, job.key.target) && !OwedAt(t, job.key.target);
    } else {
      forall id | Alive(t.evidence.store, id) ensures WatchedAt(t, id) {
        assert WatchedAt(w, id);
        EndWatches(w, job, now, ending, id);
      }
    }
  }

  /** A snoozed matter is never what the owner of its investigation finds: the snooze has taken the job from it. */
  lemma NoOwnerEndsSnoozed(w: World, job: J.Job, now: int, until: int)
    requires Good(w) && w.owed == []
    ensures !CanEnd(w, job, now, D.Ending.Snoozed(until))
  {
    if CanEnd(w, job, now, D.Ending.Snoozed(until)) {
      WorkerOf(w, job);
      assert false;
    }
  }

  /** Snoozed under its worker, a matter is looked at again at once, however that worker ends. */
  lemma SnoozedComesBack(w: World, job: J.Job, at: int, now: int, ending: D.Ending)
    requires Good(w) && w.owed == [] && Holder(w, job) && CanEnd(PutOff(w, job.key.target, at), job, now, ending)
    ensures var t := Ended(PutOff(w, job.key.target, at), job, now, ending);
      job.key in t.jobs.table.rows && t.jobs.table.rows[job.key].due <= w.clock
  {
    var w1 := PutOff(w, job.key.target, at);
    SnoozeKeeps(w, job.key.target, at);
    Rescheduled(w.jobs, job.key, at);
    EndedRow(w1.jobs, job, now, ending, DueAfter(w1, job, now, ending), job.key.target);
  }

  // ---- Any step ----------------------------------------------------------------------------

  /**
   Giving up spares what is still alive, the stop command finds nothing alive, a batch is timely for
   what sleeps on, and the service is not cut off with something alive to schedule and no job for it.
   */
  ghost predicate Harmless(w: World, step: Step) {
    match step
    case EndStep(job, _, ending) => !(GivesUp(ending) && Holder(w, job))
    case StopStep => forall id :: !Alive(w.evidence.store, id)
    case ApplyStep(_, _, _, ms) => Applies(w, step) ==> Timely(w, ms)
    case CutOffStep => forall id :: Alive(w.evidence.store, id) && Owed(w, id) ==> WatchedAt(w, id)
    case _ => true
  }

  /** What a step leaves: everything kept, and watched exactly when it was harmless. */
  ghost predicate Leaves(w: World, t: World, harmless: bool) {
    Good(t) && (Watched(w) ==> (Watched(t) <==> harmless))
  }

  lemma ApplyStepGood(w: World, step: Step)
    requires Good(w) && w.owed == [] && step.ApplyStep? && O.Reported(step.matters)
    ensures Leaves(w, if Applies(w, step) then After(w, step) else w, Applies(w, step) ==> Timely(w, step.matters))
  {
    if Applies(w, step) {
      ApplyGood(w, step);
      if Watched(w) { ApplyWatchedIff(w, step); }
    }
  }

  lemma StoreStepGood(w: World, step: R.Step)
    requires Good(w) && w.owed == [] && !step.ApplyStep? && !step.FeedbackStep?
    ensures Leaves(w, w.(evidence := R.Next(w.evidence, step)), true)
  {
    StoreFades(w.evidence, step);
    FadingKeeps(w, R.Next(w.evidence, step));
  }

  lemma FeedbackStepGood(w: World, id: string, action: Action)
    requires Good(w) && w.owed == []
    ensures if id in w.evidence.store.matters && action.Later? then Leaves(w, PutOff(w, id, action.at), true)
            else Leaves(w, WithStore(w, Feedback(w.evidence.store, id, action)), true)
  {
    if id in w.evidence.store.matters && action.Later? { SnoozeKeeps(w, id, action.at); }
      else { JudgedKeeps(w, id, action); }
  }

  lemma RememberStepGood(w: World, job: J.Job)
    requires Good(w) && w.owed == [] && Analysed(w, job) && w.workers[job.token].signed.Some?
    ensures Leaves(w, w.(remembered := w.remembered[job.key.target := w.workers[job.token].signed.value]), true)
  {
    WorkerOf(w, job);
    RememberKeeps(w, w.remembered[job.key.target := w.workers[job.token].signed.value]);
  }

  lemma ResolveStepGood(w: World, job: J.Job)
    requires Good(w) && w.owed == [] && Analysed(w, job) && Holder(w, job)
    ensures Leaves(w, Concluded(w, job), true)
  {
    var t := Concluded(w, job);
    ConcludedFades(w.evidence.store, job.key.target, t.evidence.store.matters[job.key.target].body);
    FadingKeeps(w, t.evidence);
  }

  lemma EndStepGood(w: World, job: J.Job, now: int, ending: D.Ending)
    requires Good(w) && w.owed == [] && CanEnd(w, job, now, ending)
    ensures Leaves(w, Ended(w, job, now, ending), !(GivesUp(ending) && Holder(w, job)))
  {
    EndGood(w, job, now, ending);
    if Watched(w) { EndWatchedIff(w, job, now, ending); }
  }

  lemma StepGood(w: World, step: Step)
    requires Good(w) && Can(w, step)
    ensures Leaves(w, Do(w, step), Harmless(w, step))
  {
    match step
    case StoreStep(step) => StoreStepGood(w, step);
    case ApplyStep(_, _, _, _) => ApplyStepGood(w, step);
    case ScheduleStep => ScheduleKeeps(w);
    case CutOffStep => CutOffGood(w); if Watched(w) { CutOffWatchedIff(w); }
    case FeedbackStep(id, action) => FeedbackStepGood(w, id, action);
    case OtherJob(work) => OtherWorkKeeps(w, work);
    case StopStep => StopGood(w); StopWatchedIff(w);
    case StartStep(id, now, leaseMs) => BeginKeeps(w, id, now, leaseMs);
    case LiftStep(job) => LiftKeeps(w, job);
    case SignStep(job) => SignKeeps(w, job);
    case PassStep(job) => PassKeeps(w, job);
    case RememberStep(job) => RememberStepGood(w, job);
    case ForgetStep(id) => RememberKeeps(w, w.remembered - {id});
    case NoteStep(job, next) => NoteKeeps(w, job, next);
    case ResolveStep(job) => ResolveStepGood(w, job);
    case EndStep(job, now, ending) => EndStepGood(w, job, now, ending);
  }

  lemma StaysGood(w: World, step: Step)
    requires Good(w) && Can(w, step)
    ensures Good(Do(w, step))
  {
    StepGood(w, step);
  }
}
