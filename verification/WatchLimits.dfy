/** Runs after which an open, valid matter has no job, and one in which a snooze loses its date. */
module WatchLimits {
  import opened Common
  import opened Evidence
  import opened Watch
  import D = Decisions
  import F = Findings
  import J = Jobs
  import L = ProvenanceLimits
  import P = Provenance
  import R = EvidenceRuns
  import S = WatchSteps
  import W = WatchRuns
  import T = WatchDates

  // ---- Short runs ------------------------------------------------------------------------

  ghost predicate Goes(w: World, step: Step, t: World) {
    Can(w, step) && Do(w, step) == t
  }

  ghost predicate Leads(w: World, steps: seq<Step>, t: World) {
    W.Possible(w, steps) && W.Run(w, steps) == t
  }

  lemma Last(w: World, step: Step, t: World)
    requires Goes(w, step, t)
    ensures Leads(w, [step], t)
  {
    assert [step][1..] == [];
    assert W.Possible(t, []) && W.Run(t, []) == t;
  }

  lemma TwoSteps(w: World, a: Step, u: World, b: Step, t: World)
    requires Goes(w, a, u) && Leads(u, [b], t)
    ensures Leads(w, [a, b], t)
  {
    assert [a, b][1..] == [b];
  }

  lemma StoreGoes(w: World, step: R.Step)
    requires w.owed == [] && !step.ApplyStep? && !step.FeedbackStep?
    ensures Goes(w, StoreStep(step), w.(evidence := R.Next(w.evidence, step)))
  {
  }

  lemma EndGoes(w: World, job: J.Job, now: int, ending: D.Ending)
    requires w.owed == [] && CanEnd(w, job, now, ending)
    ensures Goes(w, EndStep(job, now, ending), Ended(w, job, now, ending))
  {
  }

  lemma BeginGoes(w: World, id: string, now: int, leaseMs: int)
    requires w.owed == [] && J.Eligible(w.jobs.table, KeyOf(id), now)
    ensures Goes(w, StartStep(id, now, leaseMs), Begun(w, id, now, leaseMs))
  {
  }

  lemma LiftGoes(w: World, job: J.Job)
    requires w.owed == [] && MayLift(w, job)
    ensures Goes(w, LiftStep(job), AfterLift(w, job))
  {
  }

  lemma SignGoes(w: World, job: J.Job)
    requires w.owed == [] && MaySign(w, job)
    ensures Goes(w, SignStep(job), AfterSign(w, job))
  {
  }

  lemma PassGoes(w: World, job: J.Job)
    requires w.owed == [] && MayPass(w, job)
    ensures Goes(w, PassStep(job), AfterPass(w, job))
  {
  }

  lemma SnoozeGoes(w: World, id: string, at: int)
    requires w.owed == [] && id in w.evidence.store.matters
    ensures Goes(w, FeedbackStep(id, Action.Later(at)), PutOff(w, id, at))
  {
  }

  lemma NoteGoes(w: World, job: J.Job, next: int)
    requires w.owed == [] && MayNote(w, job)
    ensures Goes(w, NoteStep(job, next), Noted(w, job, next))
  {
  }

  lemma ApplyGoes(w: World, step: Step)
    requires w.owed == [] && S.Applies(w, step) && forall snap :: snap in step.snaps ==> snap in w.evidence.issued
    ensures Goes(w, step, S.After(w, step))
  {
  }

  lemma CutOffGoes(w: World)
    ensures Goes(w, CutOffStep, CutOff(w))
  {
  }

  lemma StopGoes(w: World)
    requires w.owed == []
    ensures Goes(w, StopStep, Stopped(w))
  {
  }

  lemma OtherGoes(w: World, work: J.Step)
    requires w.owed == [] && OfOtherWork(work)
    ensures Goes(w, OtherJob(work), Worked(w, work))
  {
  }

  // ---- Forgotten matters -------------------------------------------------------------

  const OPEN := MatterRow(L.HERE, Matter("m", L.HERE, "", [0], Open, 5, false), true, 5)

  /** Two processed threads; an open matter of one of them, due now, with its job. */
  function Waiting(): World {
    World(R.World(L.Base(L.PROCESSED, map[]).(matters := map["m" := OPEN]), {}, []),
          J.World(J.Table(map[KeyOf("m") := J.Row("{}", 5, 0, None, 0, 0)], 0), {}), 5, [], map[], map[], map[])
  }

  const WORK := J.Job(KeyOf("m"), "{}", 0, 1, 0)

  lemma WaitingIsWatched()
    ensures var w := Waiting();
      Good(w) && Watched(w) && Alive(w.evidence.store, "m") && P.Sound(w.evidence.store, w.evidence.issued)
  {
    var w := Waiting();
    L.BaseFresh(L.PROCESSED, map[]);
    var s := w.evidence.store;
    assert P.Fresh(s, L.HERE, 0) && P.FromHuman(s, 0);
    assert 0 in s.matters["m"].body.evidence;
    assert P.Backed(s, L.HERE, [0]);
    assert w.jobs.table.rows[KeyOf("m")].due == 5;
  }

  const NEWS := Message(L.THERE, "3.0", "3.0", "news", false, false, false, true, "")

  /** The investigation has started, and meanwhile something new is said in the other thread. */
  function Started(): World {
    World(Waiting().evidence,
          J.World(J.Table(map[KeyOf("m") := J.Row("{}", 5, 360_005, Some(0), 1, 0)], 1), {WORK}), 5, [],
          map[0 := Worker("m", ReadingOf(Waiting().evidence.store, "m"), true, false, None, false, None)], map[], map[])
  }

  lemma StartsSo()
    ensures J.Eligible(Waiting().jobs.table, KeyOf("m"), 5) && Begun(Waiting(), "m", 5, 360_000) == Started()
  {
    var w := Waiting();
    assert J.Ready(w.jobs.table, KeyOf("m"), 5);
    assert J.Next(w.jobs, J.ClaimStep(KeyOf("m"), 5, 360_000)) == Started().jobs;
  }

  lemma NewsIsAccepted()
    ensures var s := Waiting().evidence.store; !Refused(s, NEWS) && !Redelivered(s, NEWS)
  {
    L.StampsInOrder();
  }

  lemma NewsIsNew()
    ensures var s := Waiting().evidence.store; Known(s, NEWS).None? && !Repeats(s, NEWS)
  {
    var s := Waiting().evidence.store;
    assert "3.0"[0] != "1.0"[0] && "3.0"[0] != "2.0"[0];
    assert s.revisions == [L.Human(L.HERE, "1.0"), L.Human(L.THERE, "2.0")];
  }

  lemma NewsIsRecorded()
    ensures Record(Waiting().evidence.store, NEWS, 6).1.Stored?
  {
    NewsIsAccepted();
    NewsIsNew();
  }

  lemma NewsElsewhere()
    ensures var t := Record(Waiting().evidence.store, NEWS, 6).0;
      Alive(t, "m") && t.matters["m"] == OPEN && t.threads[L.HERE] == L.PROCESSED && t.threads[L.THERE].generation > 2
  {
    NewsIsRecorded();
    assert "1.0"[0] != "2.0"[0];
    assert L.HERE != L.THERE;
  }

  lemma StartedIsGood()
    ensures Good(Started()) && J.Owns(Started().jobs.table, WORK) && WORK in Started().jobs.issued
  {
    WaitingIsWatched();
    StartsSo();
    S.BeginKeeps(Waiting(), "m", 5, 360_000);
  }

  function Overtaking(): World {
    Started().(evidence := R.Next(Waiting().evidence, R.RecordStep(NEWS, 6)))
  }

  /** After the message the worker still owns its job, of a matter still alive. */
  lemma NewsLeavesHolder()
    ensures Good(Overtaking()) && Holder(Overtaking(), WORK)
    ensures Overtaking().evidence.store.threads[L.HERE] == L.PROCESSED
  {
    StartedIsGood();
    S.StoreStepGood(Started(), R.RecordStep(NEWS, 6));
    NewsElsewhere();
  }

  lemma OvertakenEnds()
    ensures Leads(Overtaking(), [EndStep(WORK, 5, D.Overtaken)], Ended(Overtaking(), WORK, 5, D.Overtaken))
  {
    EndGoes(Overtaking(), WORK, 5, D.Overtaken);
    Last(Overtaking(), EndStep(WORK, 5, D.Overtaken), Ended(Overtaking(), WORK, 5, D.Overtaken));
  }

  /**
   An investigation has started, and a new message comes in another thread that it read as related:
   what it finds is dropped, and the open matter is left without a job, in a thread extraction has
   nothing to do in.
   */
  lemma RelatedChangeForgets()
    ensures Watched(Waiting()) && Goes(Waiting(), StartStep("m", 5, 360_000), Started())
    ensures var t := Ended(Overtaking(), WORK, 5, D.Overtaken);
      && Leads(Started(), [StoreStep(R.RecordStep(NEWS, 6)), EndStep(WORK, 5, D.Overtaken)], t)
      && Alive(t.evidence.store, "m") && KeyOf("m") !in t.jobs.table.rows && !W.Dirty(t.evidence.store, L.HERE)
  {
    WaitingIsWatched();
    Starts();
    OvertakenForgets();
    OvertakenRun();
  }

  lemma Starts()
    ensures Goes(Waiting(), StartStep("m", 5, 360_000), Started())
  {
    StartsSo();
    BeginGoes(Waiting(), "m", 5, 360_000);
  }

  lemma OvertakenForgets()
    ensures var t := Ended(Overtaking(), WORK, 5, D.Overtaken);
      Alive(t.evidence.store, "m") && KeyOf("m") !in t.jobs.table.rows && !W.Dirty(t.evidence.store, L.HERE)
  {
    NewsLeavesHolder();
    S.GivenUpUnwatched(Overtaking(), WORK, 5, D.Overtaken);
  }

  lemma OvertakenRun()
    ensures Leads(Started(), [StoreStep(R.RecordStep(NEWS, 6)), EndStep(WORK, 5, D.Overtaken)],
                  Ended(Overtaking(), WORK, 5, D.Overtaken))
  {
    OvertakenEnds();
    StoreGoes(Started(), R.RecordStep(NEWS, 6));
    TwoSteps(Started(), StoreStep(R.RecordStep(NEWS, 6)), Overtaking(), EndStep(WORK, 5, D.Overtaken),
             Ended(Overtaking(), WORK, 5, D.Overtaken));
  }

  lemma StopDeletes()
    ensures KeyOf("m") !in Stopped(Waiting()).jobs.table.rows
  {
    assert KeyOf("m").kind in J.ANALYSIS;
  }

  const SEED := J.ScheduleStep(EXTRACTION, 5 + D.HOUR, "{}")

  lemma StopRun()
    ensures Leads(Waiting(), [StopStep, OtherJob(SEED)], Worked(Stopped(Waiting()), SEED))
  {
    assert EXTRACTION.kind[0] != KeyOf("m").kind[0];
    SeedGoes(Stopped(Waiting()));
    StopGoes(Waiting());
    TwoSteps(Waiting(), StopStep, Stopped(Waiting()), OtherJob(SEED), Worked(Stopped(Waiting()), SEED));
  }

  lemma SeedGoes(w: World)
    requires w.owed == []
    ensures Leads(w, [OtherJob(SEED)], Worked(w, SEED))
  {
    assert EXTRACTION.kind[0] != KeyOf(EXTRACTION.target).kind[0];
    OtherGoes(w, SEED);
    Last(w, OtherJob(SEED), Worked(w, SEED));
  }

  /** Stopped and started again: extraction is scheduled anew, the investigation is not. */
  lemma StopForgets()
    ensures var t := Worked(Stopped(Waiting()), SEED);
      && Watched(Waiting()) && Leads(Waiting(), [StopStep, OtherJob(SEED)], t)
      && Alive(t.evidence.store, "m") && EXTRACTION in t.jobs.table.rows && KeyOf("m") !in t.jobs.table.rows
  {
    WaitingIsWatched();
    StopDeletes();
    StopRun();
    assert EXTRACTION.kind[0] != KeyOf("m").kind[0];
  }

  // ---- A service cut off ----------------------------------------------------------------

  const BATCH := Matter("m", L.HERE, "", [0], Open, 5, false)
  const EXTRACTING := J.Job(EXTRACTION, "{}", 0, 1, 0)

  /** A thread changed since it was processed, read by the extraction that is under way. */
  function Extracting(): World {
    World(R.World(L.Base(L.CHANGED, map[]), {L.SNAP_HERE}, []),
          J.World(J.Table(map[EXTRACTION := J.Row("{}", 5, 360_005, Some(0), 1, 0)], 1), {EXTRACTING}), 5,
          [], map[], map[], map[])
  }

  lemma ExtractingIsGood()
    ensures var w := Extracting();
      Good(w) && Watched(w) && P.Sound(w.evidence.store, w.evidence.issued) && J.Owns(w.jobs.table, EXTRACTING)
  {
    L.BaseFresh(L.CHANGED, map[]);
    assert "1.0"[0] != "2.0"[0];
  }

  lemma BatchIsApplied()
    ensures var w := Extracting();
      Apply(w.evidence.store, w.jobs.table, Some(EXTRACTING), [L.SNAP_HERE], [], [BATCH]).1.Applied?
  {
    var s, items, snaps := Extracting().evidence.store, MatterItems([BATCH]), [L.SNAP_HERE];
    assert items == [Item("m", L.HERE, [0])];
    assert Find(snaps, L.HERE) == Some(L.SNAP_HERE);
    assert FindCitable(L.SNAP_HERE.evidence, 0) == Some(Citable(0, false, false));
    assert 0 in items[0].evidence;
    assert CheckItem(s, snaps, items[0]) == Applied;
    assert items[1..] == [] && CheckItems(s, snaps, items[1..]) == Applied;
    assert ObservationItems([]) + items == items;
  }

  const APPLYING := ApplyStep(EXTRACTING, [L.SNAP_HERE], [], [BATCH])

  /** The matter is stored valid and open, its thread is processed, and there is no job for it yet. */
  lemma BatchLeaves()
    ensures var t := S.After(Extracting(), APPLYING);
      && Alive(t.evidence.store, "m") && t.evidence.store.matters["m"].place == L.HERE
      && !W.Dirty(t.evidence.store, L.HERE) && KeyOf("m") !in t.jobs.table.rows
  {
    var s, snaps := Extracting().evidence.store, [L.SNAP_HERE];
    BatchIsApplied();
    F.MarkedThreads(s, snaps);
    F.MarkKeepsTables(s, snaps);
    assert CurrentSnapshots(s, snaps) && snaps[0] in snaps && F.Among(snaps, L.HERE);
    var rows := PutMatters(s.matters, s.revisions, snaps, [BATCH]);
    assert [BATCH][..0] == [] && [BATCH][0] == BATCH;
    assert [BATCH][..|[BATCH]| - 1] == [];
    assert PutMatters(s.matters, s.revisions, snaps, []) == map[];
    assert rows == PutMatter(map[], s.revisions, snaps, BATCH);
    assert rows == map["m" := OPEN];
    assert S.After(Extracting(), APPLYING).evidence.store.matters == rows;
    assert S.After(Extracting(), APPLYING).evidence.store.threads == MarkProcessed(s, snaps).threads;
    assert MarkProcessed(s, snaps).threads[L.HERE].processed == s.threads[L.HERE].generation;
    assert EXTRACTION.kind[0] != KeyOf("m").kind[0];
  }

  lemma CutOffRun()
    ensures Leads(Extracting(), [APPLYING, CutOffStep], CutOff(S.After(Extracting(), APPLYING)))
  {
    BatchIsApplied();
    ApplyGoes(Extracting(), APPLYING);
    CutOffEnds(S.After(Extracting(), APPLYING));
    TwoSteps(Extracting(), APPLYING, S.After(Extracting(), APPLYING), CutOffStep,
      CutOff(S.After(Extracting(), APPLYING)));
  }

  lemma CutOffEnds(w: World)
    ensures Leads(w, [CutOffStep], CutOff(w))
  {
    CutOffGoes(w);
    Last(w, CutOffStep, CutOff(w));
  }

  /**
   Cut off between the batch and its schedules, extraction leaves an open matter without a job, in a
   thread it is done with.
   */
  lemma CutOffForgets()
    ensures var t := CutOff(S.After(Extracting(), APPLYING));
      && Watched(Extracting()) && Leads(Extracting(), [APPLYING, CutOffStep], t)
      && Alive(t.evidence.store, "m") && KeyOf("m") !in t.jobs.table.rows && t.owed == []
      && !W.Dirty(t.evidence.store, L.HERE)
  {
    ExtractingIsGood();
    BatchLeaves();
    CutOffRun();
  }

  // ---- A snooze that loses its date -----------------------------------------------------

  const DATE := 86_400_005
  const NEXT := 3_600_005

  /** The investigation has made its signature and passed its test, and waits for access to its audience. */
  function Waits(): World {
    Started().(workers := map[0 := Started().workers[0].(lifted := true, signed := Some(0), passed := true)])
  }

  lemma ComesToWait()
    ensures MayLift(Started(), WORK)
    ensures var w := AfterLift(Started(), WORK);
      && w == Started().(workers := map[0 := Started().workers[0].(lifted := true)]) && MaySign(w, WORK)
    ensures var w := AfterSign(AfterLift(Started(), WORK), WORK); MayPass(w, WORK) && AfterPass(w, WORK) == Waits()
  {
    StartedIsGood();
    var w1 := AfterLift(Started(), WORK);
    assert w1.workers == map[0 := Started().workers[0].(lifted := true)];
    var w2 := AfterSign(w1, WORK);
    assert w2.workers == map[0 := Started().workers[0].(lifted := true, signed := Some(0))];
    assert AfterPass(w2, WORK).workers == Waits().workers;
  }

  /** Meanwhile its matter is snoozed until the next day, and it notes its check in an hour all the same. */
  lemma NotesLate()
    ensures var w := PutOff(Waits(), "m", DATE);
      && MayNote(w, WORK) && Sleeps(w.evidence.store, "m") && w.evidence.store.matters["m"].nextCheck == DATE
      && Sleeps(Noted(w, WORK, NEXT).evidence.store, "m")
      && Noted(w, WORK, NEXT).evidence.store.matters["m"].nextCheck == NEXT
      && T.LateLoss(w, NoteStep(WORK, NEXT), "m", DATE)
  {
    var w := PutOff(Waits(), "m", DATE);
    S.SnoozedRows(Waits().evidence.store, "m", DATE);
    assert w.jobs.table.rows[KeyOf("m")].token == Some(0) && w.jobs.table.rows[KeyOf("m")].generation == 1;
    assert Works(w, WORK) && J.Holds(w.jobs.table, WORK) && !J.Owns(w.jobs.table, WORK);
  }

  /**
   Then it ends; its job is due still, and an hour on the next investigation finds the check come
   and the snooze elapsed.
   */
  lemma EndsAndStartsAnew()
    ensures var w := Noted(PutOff(Waits(), "m", DATE), WORK, NEXT);
      && CanEnd(w, WORK, 5, D.Completed)
      && J.Eligible(Ended(w, WORK, 5, D.Completed).jobs.table, KeyOf("m"), NEXT)
  {
    NotesLate();
    var w := Noted(PutOff(Waits(), "m", DATE), WORK, NEXT);
    assert w.jobs.table.rows == map[KeyOf("m") := J.Row("{}", 5, 360_005, Some(0), 1, 1)];
    assert CanEnd(w, WORK, 5, D.Completed);
    assert Ended(w, WORK, 5, D.Completed).jobs.table.rows == map[KeyOf("m") := J.Row("{}", 5, 0, None, 1, 1)];
  }

  const AGAIN := J.Job(KeyOf("m"), "{}", 1, 2, 1)

  lemma LiftsTooEarly()
    ensures MayLift(Anew(), AGAIN) && Anew().clock < DATE
    ensures AfterLift(Anew(), AGAIN).evidence.store.matters["m"].body.state == Open
  {
    EndsAndStartsAnew();
    NotesLate();
    var v := EndedLate();
    assert v.jobs.table.rows == map[KeyOf("m") := J.Row("{}", 5, 0, None, 1, 1)] && v.jobs.table.nextToken == 1;
    assert AGAIN in Anew().jobs.issued && J.Owns(Anew().jobs.table, AGAIN);
  }

  function Late(): World {
    PutOff(Waits(), "m", DATE)
  }

  lemma LateNoteGoes()
    ensures Leads(Late(), [NoteStep(WORK, NEXT)], Noted(Late(), WORK, NEXT))
  {
    NotesLate();
    NoteGoes(Late(), WORK, NEXT);
    Last(Late(), NoteStep(WORK, NEXT), Noted(Late(), WORK, NEXT));
  }

  lemma LateRun()
    ensures Leads(Waits(), [FeedbackStep("m", Action.Later(DATE)), NoteStep(WORK, NEXT)], Noted(Late(), WORK, NEXT))
  {
    LateNoteGoes();
    NotesLate();
    SnoozeGoes(Waits(), "m", DATE);
    TwoSteps(Waits(), FeedbackStep("m", Action.Later(DATE)), Late(), NoteStep(WORK, NEXT), Noted(Late(), WORK, NEXT));
  }

  /** The way to the wait, from where the investigation started. */
  lemma WaitsAfter()
    ensures Leads(Started(), [LiftStep(WORK), SignStep(WORK)], Signed())
    ensures Goes(Signed(), PassStep(WORK), Waits())
  {
    SignsRun();
    ComesToWait();
    PassGoes(Signed(), WORK);
  }

  function Signed(): World {
    AfterSign(AfterLift(Started(), WORK), WORK)
  }

  lemma SignsLast()
    ensures Leads(AfterLift(Started(), WORK), [SignStep(WORK)], Signed())
  {
    ComesToWait();
    SignGoes(AfterLift(Started(), WORK), WORK);
    Last(AfterLift(Started(), WORK), SignStep(WORK), Signed());
  }

  lemma SignsRun()
    ensures Leads(Started(), [LiftStep(WORK), SignStep(WORK)], Signed())
  {
    SignsLast();
    ComesToWait();
    LiftGoes(Started(), WORK);
    TwoSteps(Started(), LiftStep(WORK), AfterLift(Started(), WORK), SignStep(WORK), Signed());
  }

  function EndedLate(): World {
    Ended(Noted(Late(), WORK, NEXT), WORK, 5, D.Completed)
  }

  function Anew(): World {
    Begun(EndedLate(), "m", NEXT, 360_000)
  }

  lemma AnewRun()
    ensures Leads(EndedLate(), [StartStep("m", NEXT, 360_000)], Anew())
  {
    EndsAndStartsAnew();
    BeginGoes(EndedLate(), "m", NEXT, 360_000);
    Last(EndedLate(), StartStep("m", NEXT, 360_000), Anew());
  }

  lemma EndsRun()
    ensures Leads(Noted(Late(), WORK, NEXT), [EndStep(WORK, 5, D.Completed), StartStep("m", NEXT, 360_000)],
                  Anew())
  {
    AnewRun();
    EndsAndStartsAnew();
    EndGoes(Noted(Late(), WORK, NEXT), WORK, 5, D.Completed);
    TwoSteps(Noted(Late(), WORK, NEXT), EndStep(WORK, 5, D.Completed), EndedLate(), StartStep("m", NEXT, 360_000),
             Anew());
  }

  /** A day early the matter is open again: an hour on its check has come, and the snooze is lifted as elapsed. */
  lemma OpensTooEarly()
    ensures Leads(Noted(Late(), WORK, NEXT), [EndStep(WORK, 5, D.Completed), StartStep("m", NEXT, 360_000)], Anew())
    ensures MayLift(Anew(), AGAIN) && Anew().clock < DATE
    ensures Goes(Anew(), LiftStep(AGAIN), AfterLift(Anew(), AGAIN))
    ensures AfterLift(Anew(), AGAIN).evidence.store.matters["m"].body.state == Open
  {
    EndsRun();
    LiftsTooEarly();
    LiftGoes(Anew(), AGAIN);
  }

  /**
   The investigation has passed its test (Starts, WaitsAfter); the owner snoozes the matter until
   tomorrow; the check is noted for an hour on, and the date is lost. By OpensTooEarly the matter is
   then open again a day early.
   */
  lemma LateNoteLosesDate()
    ensures Leads(Waits(), [FeedbackStep("m", Action.Later(DATE)), NoteStep(WORK, NEXT)], Noted(Late(), WORK, NEXT))
    ensures T.DateKept(Late(), "m", DATE) && T.LateLoss(Late(), NoteStep(WORK, NEXT), "m", DATE)
    ensures !T.DateKept(Noted(Late(), WORK, NEXT), "m", DATE)
  {
    LateRun();
    NotesLate();
  }
}
