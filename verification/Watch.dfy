/**
 The matters of the store together with the jobs that look at them again: feedback, extraction,
 investigations, the owner's stop command and the end of the service as steps on both.
 */
module Watch {
  import opened Common
  import opened Evidence
  import D = Decisions
  import J = Jobs
  import O = OwnerDecisions
  import R = EvidenceRuns

  const EXTRACTION := J.Key("extract", "global")

  /** The job that looks at a matter. */
  function KeyOf(id: string): J.Key {
    J.Key("investigate", id)
  }

  predicate Investigates(key: J.Key) {
    key == KeyOf(key.target)
  }

  /** Valid, and open or snoozed: what an investigation goes on with. */
  predicate Alive(s: Store, id: string) {
    id in s.matters && s.matters[id].valid && (s.matters[id].body.state.Open? || s.matters[id].body.state.Snoozed?)
  }

  predicate Sleeps(s: Store, id: string) {
    id in s.matters && s.matters[id].body.state.Snoozed?
  }

  function Generation(s: Store, place: Place): Option<nat> {
    if place in s.threads then Some(s.threads[place].generation) else None
  }

  /** What an investigation has read of its matter when it starts. */
  datatype Reading = Reading(place: Place, generation: Option<nat>, detail: string, evidence: seq<nat>)

  function ReadingOf(s: Store, id: string): Reading
    requires id in s.matters
  {
    var row := s.matters[id];
    Reading(row.place, Generation(s, row.place), row.body.detail, row.body.evidence)
  }

  /**
   An investigation under way: the matter and what was read of it, whether its check had come,
   whether it went on past an elapsed snooze, the reminders its signature counts, whether it passed
   the ownership test after the analysis, and the check it noted.
   */
  datatype Worker = Worker(id: string, read: Reading, ready: bool, lifted: bool, signed: Option<nat>, passed: bool,
      noted: Option<int>)

  /** A job still to be scheduled for a matter that extraction reported open. */
  datatype Errand = Errand(id: string, due: int)

  /**
   Workers go by the token of their claim. Reminders counts the snoozes of a matter; remembered holds
   the count in the signature of its last remembered check.
   */
  datatype World = World(
    evidence: R.World, jobs: J.World, clock: int, owed: seq<Errand>, workers: map<nat, Worker>,
    reminders: map<string, nat>, remembered: map<string, nat>)

  function Start(settings: Settings, clock: int): World {
    World(R.Fresh0(settings), J.START, clock, [], map[], map[], map[])
  }

  function Max(a: int, b: int): int {
    if a < b then b else a
  }

  function Reminders(w: World, id: string): nat {
    if id in w.reminders then w.reminders[id] else 0
  }

  // ---- Steps ------------------------------------------------------------------

  /**
   One transaction, or what runs to its end without a pause. An extraction applies its batch and then
   schedules the matters it reports open one by one; nothing else of the service comes in between,
   but it may be cut off there as anywhere.
   */
  datatype Step =
    | StoreStep(step: R.Step)
    | ApplyStep(job: J.Job, snaps: seq<Snapshot>, observations: seq<Observation>, matters: seq<Matter>)
    | ScheduleStep
    | CutOffStep
    | FeedbackStep(id: string, action: Action)
    | OtherJob(work: J.Step)
    | StopStep
    | StartStep(id: string, now: int, leaseMs: int)
    | LiftStep(job: J.Job)
    | SignStep(job: J.Job)
    | PassStep(job: J.Job)
    | RememberStep(job: J.Job)
    | ForgetStep(id: string)
    | NoteStep(job: J.Job, next: int)
    | ResolveStep(job: J.Job)
    | EndStep(job: J.Job, now: int, ending: D.Ending)

  /** A step of the job table for other work than investigations. */
  predicate OfOtherWork(step: J.Step) {
    match step
    case ScheduleStep(key, _, _) => !Investigates(key)
    case ClaimStep(key, _, _) => !Investigates(key)
    case FinishStep(job, _) => !Investigates(job.key)
    case StopStep => false
  }

  /** A worker that was given the job, and what it has done so far is on record. */
  predicate Works(w: World, job: J.Job) {
    job in w.jobs.issued && Investigates(job.key) && job.token in w.workers
  }

  /** A worker that was given the job and still owns it, of a matter still to be looked at. */
  predicate Holder(w: World, job: J.Job) {
    && job in w.jobs.issued && Investigates(job.key)
    && J.Owns(w.jobs.table, job) && Alive(w.evidence.store, job.key.target)
  }

  /** Its thread is active in a task: known at once when the investigation starts. */
  predicate ByTask(w: World, job: J.Job) {
    Works(w, job) && Holder(w, job) && !w.workers[job.token].lifted
  }

  /** Its signature, just made, is that of the remembered check; the reminders are a part of it. */
  predicate Unchanged(w: World, job: J.Job) {
    && Works(w, job) && w.workers[job.token].lifted && w.workers[job.token].signed == Some(Reminders(w, job.key.target))
    && job.key.target in w.remembered && w.remembered[job.key.target] == Reminders(w, job.key.target)
  }

  /** It passed the ownership test, before it asked for access to its suggestion's audience. */
  predicate Analysed(w: World, job: J.Job) {
    Works(w, job) && w.workers[job.token].passed
  }

  function DueOf(jobs: J.Table, key: J.Key): Option<int> {
    if key in jobs.rows then Some(jobs.rows[key].due) else None
  }

  predicate CanEnd(w: World, job: J.Job, now: int, ending: D.Ending) {
    var s, id := w.evidence.store, job.key.target;
    && job in w.jobs.issued && Investigates(job.key) && now <= w.clock
    && match ending
       case Scheduled => Alive(s, id) && now < s.matters[id].nextCheck
       case Snoozed(until) =>
         Works(w, job) && Holder(w, job) && w.workers[job.token].passed && Sleeps(s, id)
           && now < until == s.matters[id].nextCheck
       case Active => Works(w, job) && w.workers[job.token].noted.Some?
       case Completed => Works(w, job) && w.workers[job.token].noted.Some?
       case Over => !Alive(s, id)
       case Displaced(due) => !J.Owns(w.jobs.table, job) && due == DueOf(w.jobs.table, job.key)
       case _ => true
  }

  predicate MayLift(w: World, job: J.Job) {
    ByTask(w, job) && w.workers[job.token].ready && w.workers[job.token].noted.None?
  }

  predicate MaySign(w: World, job: J.Job) {
    Works(w, job) && w.workers[job.token].lifted && w.workers[job.token].signed.None?
  }

  predicate MayPass(w: World, job: J.Job) {
    Works(w, job) && Holder(w, job) && w.workers[job.token].signed.Some?
  }

  /** A note needs the lease, and one of the three ways to it; only the first asks who owns the job. */
  predicate MayNote(w: World, job: J.Job) {
    && Works(w, job) && J.Holds(w.jobs.table, job) && job.key.target in w.evidence.store.matters
    && w.workers[job.token].ready && w.workers[job.token].noted.None?
    && (ByTask(w, job) || Unchanged(w, job) || Analysed(w, job))
  }

  predicate Can(w: World, step: Step) {
    match step
    case ScheduleStep => w.owed != []
    case CutOffStep => true
    case _ => w.owed == [] && CanNow(w, step)
  }

  predicate CanNow(w: World, step: Step) {
    match step
    case StoreStep(step) => !step.ApplyStep? && !step.FeedbackStep?
    case ApplyStep(job, snaps, _, ms) => (forall snap :: snap in snaps ==> snap in w.evidence.issued) && O.Reported(ms)
    case OtherJob(work) => OfOtherWork(work)
    case StartStep(id, now, _) => J.Eligible(w.jobs.table, KeyOf(id), now)
    case LiftStep(job) => MayLift(w, job)
    case SignStep(job) => MaySign(w, job)
    case PassStep(job) => MayPass(w, job)
    case RememberStep(job) => Analysed(w, job) && w.workers[job.token].signed.Some?
    case NoteStep(job, _) => MayNote(w, job)
    case ResolveStep(job) => Analysed(w, job) && Holder(w, job)
    case EndStep(job, now, ending) => CanEnd(w, job, now, ending)
    case _ => true
  }

  /** What extraction still has to schedule for a batch, in its order. */
  function Errands(ms: seq<Matter>): seq<Errand> {
    if ms == [] then []
    else (if ms[0].state.Open? then [Errand(ms[0].id, ms[0].nextCheck)] else []) + Errands(ms[1..])
  }

  function WithStore(w: World, s: Store): World {
    w.(evidence := w.evidence.(store := s))
  }

  function WithWorker(w: World, token: nat, worker: Worker): World {
    w.(workers := w.workers[token := worker])
  }

  function WithBody(s: Store, id: string, body: Matter): Store
    requires id in s.matters
  {
    s.(matters := s.matters[id := s.matters[id].(body := body)])
  }

  /** The next check is a column of its own. */
  function Noting(s: Store, id: string, next: int): Store
    requires id in s.matters
  {
    s.(matters := s.matters[id := s.matters[id].(nextCheck := next)])
  }

  /** A snooze that has run out is lifted. */
  function Lifted(s: Store, id: string): Store
    requires id in s.matters
  {
    var row := s.matters[id];
    if row.body.state.Snoozed? then WithBody(s, id, row.body.(state := Open, nextCheck := row.nextCheck)) else s
  }

  /** When the job is due again; it goes with the check noted for its matter. */
  function DueAfter(w: World, job: J.Job, now: int, ending: D.Ending): Option<int>
    requires CanEnd(w, job, now, ending)
  {
    if D.Delay(ending).Some? then Some(now + D.Delay(ending).value)
    else match ending
    case Scheduled => Some(w.evidence.store.matters[job.key.target].nextCheck)
    case Snoozed(until) => Some(until)
    case Active => w.workers[job.token].noted
    case Completed => w.workers[job.token].noted
    case _ => None
  }

  /** The service ends: its investigations end with it, their jobs stay leased, and nothing more is scheduled. */
  function CutOff(w: World): World {
    w.(jobs := w.jobs.(issued := set job | job in w.jobs.issued && !Investigates(job.key)), owed := [],
      workers := map[])
  }

  /** A batch that was applied to the store, its schedules to come. */
  function Extracted(w: World, s: Store, ms: seq<Matter>): World {
    WithStore(w, s).(owed := Errands(ms))
  }

  function Scheduled(w: World): World
    requires w.owed != []
  {
    w.(jobs := J.Next(w.jobs, J.ScheduleStep(KeyOf(w.owed[0].id), w.owed[0].due, "{}")), owed := w.owed[1..])
  }

  /** A snooze: the matter's job is scheduled for its date with it. */
  function PutOff(w: World, id: string, at: int): World {
    WithStore(w, Feedback(w.evidence.store, id, Later(at))).(
      jobs := J.Next(w.jobs, J.ScheduleStep(KeyOf(id), at, "{}")), reminders := w.reminders[id := Reminders(w, id) + 1])
  }

  function Worked(w: World, work: J.Step): World {
    w.(jobs := J.Next(w.jobs, work), clock := if work.ClaimStep? then Max(w.clock, work.now) else w.clock)
  }

  function Stopped(w: World): World {
    w.(jobs := J.Next(w.jobs, J.Step.StopStep))
  }

  function Begun(w: World, id: string, now: int, leaseMs: int): World {
    var s := w.evidence.store;
    var started := w.(jobs := J.Next(w.jobs, J.ClaimStep(KeyOf(id), now, leaseMs)), clock := Max(w.clock, now));
    if !Alive(s, id) then started
    else
      var worker := Worker(id, ReadingOf(s, id), s.matters[id].nextCheck <= now, false, None, false, None);
      WithWorker(started, w.jobs.table.nextToken, worker)
  }

  function AfterLift(w: World, job: J.Job): World
    requires Works(w, job) && job.key.target in w.evidence.store.matters
  {
    WithWorker(WithStore(w, Lifted(w.evidence.store, job.key.target)), job.token, w.workers[job.token].(lifted := true))
  }

  function AfterSign(w: World, job: J.Job): World
    requires Works(w, job)
  {
    WithWorker(w, job.token, w.workers[job.token].(signed := Some(Reminders(w, job.key.target))))
  }

  function AfterPass(w: World, job: J.Job): World
    requires Works(w, job)
  {
    WithWorker(w, job.token, w.workers[job.token].(passed := true))
  }

  function Noted(w: World, job: J.Job, next: int): World
    requires Works(w, job) && job.key.target in w.evidence.store.matters
  {
    WithWorker(WithStore(w, Noting(w.evidence.store, job.key.target, next)), job.token,
               w.workers[job.token].(noted := Some(next)))
  }

  /** What the investigation read, written back as resolved. */
  function Concluded(w: World, job: J.Job): World
    requires Works(w, job) && job.key.target in w.evidence.store.matters
  {
    var s, id, read := w.evidence.store, job.key.target, w.workers[job.token].read;
    var body := s.matters[id].body.(detail := read.detail, evidence := read.evidence, state := MatterState.Resolved);
    WithStore(w, WithBody(s, id, body))
  }

  /** The jobs once an ending has asked for an extraction, if it does. */
  function Asked(jobs: J.World, now: int, ending: D.Ending): J.World {
    if ending.Unread? then J.Next(jobs, J.ScheduleStep(EXTRACTION, now, "{}")) else jobs
  }

  function Ended(w: World, job: J.Job, now: int, ending: D.Ending): World
    requires CanEnd(w, job, now, ending)
  {
    w.(jobs := J.Next(Asked(w.jobs, now, ending), J.FinishStep(job, DueAfter(w, job, now, ending))))
  }

  function Do(w: World, step: Step): World
    requires Can(w, step)
  {
    var s := w.evidence.store;
    match step
    case StoreStep(step) => w.(evidence := R.Next(w.evidence, step))
    case ApplyStep(job, snaps, os, ms) =>
      var (t, outcome) := Apply(s, w.jobs.table, Some(job), snaps, os, ms);
      if outcome.Applied? then Extracted(w, t, ms) else w
    case ScheduleStep => Scheduled(w)
    case CutOffStep => CutOff(w)
    case FeedbackStep(id, action) =>
      if id in s.matters && action.Later? then PutOff(w, id, action.at) else WithStore(w, Feedback(s, id, action))
    case OtherJob(work) => Worked(w, work)
    case StopStep => Stopped(w)
    case StartStep(id, now, leaseMs) => Begun(w, id, now, leaseMs)
    case LiftStep(job) => AfterLift(w, job)
    case SignStep(job) => AfterSign(w, job)
    case PassStep(job) => AfterPass(w, job)
    case RememberStep(job) => w.(remembered := w.remembered[job.key.target := w.workers[job.token].signed.value])
    case ForgetStep(id) => w.(remembered := w.remembered - {id})
    case NoteStep(job, next) => Noted(w, job, next)
    case ResolveStep(job) => Concluded(w, job)
    case EndStep(job, now, ending) => Ended(w, job, now, ending)
  }

  // ---- What is kept --------------------------------------------------------------

  /** Extraction still has to schedule the matter's job. */
  predicate Owed(w: World, id: string) {
    exists i :: 0 <= i < |w.owed| && w.owed[i].id == id
  }

  /** While the holder of an investigation still owns it, what it has read and noted is what is stored. */
  ghost predicate Standing(w: World) {
    forall job :: Holder(w, job) ==> StandsFor(w, job) || Owed(w, job.key.target)
  }

  ghost predicate StandsFor(w: World, job: J.Job)
    requires job.key.target in w.evidence.store.matters
  {
    job.token in w.workers && Stands(w.workers[job.token], w.evidence.store, job.key.target, w.clock)
  }

  /**
   Past an elapsed snooze the matter is awake, and until it notes another the check that had come is
   the stored one.
   */
  predicate Stands(worker: Worker, s: Store, id: string, clock: int)
    requires id in s.matters
  {
    && worker.read == ReadingOf(s, id)
    && (worker.lifted ==> !Sleeps(s, id))
    && match worker.noted
       case Some(next) => next == s.matters[id].nextCheck
       case None => worker.ready ==> s.matters[id].nextCheck <= clock
  }

  /** Only claims are on record, each for its matter, and what is leased was due. */
  ghost predicate Recorded(w: World) {
    && (forall token :: token in w.workers ==> token < w.jobs.table.nextToken)
    && (forall job :: Works(w, job) ==> w.workers[job.token].id == job.key.target)
    && (forall key :: key in w.jobs.table.rows && w.jobs.table.rows[key].token.Some? ==>
         w.jobs.table.rows[key].due <= w.clock)
  }

  /**
   A signature that counts all reminders of a matter: its worker passed, or its check was
   remembered, while it was awake.
   */
  ghost predicate Reminding(w: World) {
    && (forall token :: token in w.workers ==> Signs(w, w.workers[token]))
    && (forall id :: id in w.remembered ==> Counts(w, id, w.remembered[id]))
  }

  predicate Counts(w: World, id: string, count: nat) {
    count <= Reminders(w, id) && (count == Reminders(w, id) ==> !Sleeps(w.evidence.store, id))
  }

  predicate Signs(w: World, worker: Worker) {
    && (worker.signed.Some? ==> worker.lifted && worker.signed.value <= Reminders(w, worker.id))
    && (worker.passed ==> worker.signed.Some? && Counts(w, worker.id, worker.signed.value))
  }

  ghost predicate Good(w: World) {
    J.Sound(w.jobs) && Standing(w) && Recorded(w) && Reminding(w)
  }

  /** By when the matter is to be looked at: at its check, or within the hour. */
  function Limit(w: World, id: string): int
    requires id in w.evidence.store.matters
  {
    Max(w.evidence.store.matters[id].nextCheck, w.clock + D.HOUR)
  }

  /** The matter's job is there, due in time. */
  predicate WatchedAt(w: World, id: string)
    requires id in w.evidence.store.matters
  {
    KeyOf(id) in w.jobs.table.rows && w.jobs.table.rows[KeyOf(id)].due <= Limit(w, id)
  }

  /** Or it is still to be scheduled, in time. */
  predicate OwedAt(w: World, id: string)
    requires id in w.evidence.store.matters
  {
    exists i :: 0 <= i < |w.owed| && w.owed[i].id == id && w.owed[i].due <= Limit(w, id)
  }

  ghost predicate Watched(w: World) {
    forall id :: Alive(w.evidence.store, id) ==> WatchedAt(w, id) || OwedAt(w, id)
  }

  // ---- Transactions that only take life away --------------------------------------

  /** The matter is as it was: its finding, its check and its thread's generation. */
  predicate SameMatter(s: Store, t: Store, id: string)
    requires id in s.matters && id in t.matters
  {
    ReadingOf(t, id) == ReadingOf(s, id) && t.matters[id].nextCheck == s.matters[id].nextCheck
  }

  /** What is still alive was so before, as it was; what sleeps slept before, until the same date. */
  ghost predicate Fades(s: Store, t: Store) {
    && (forall id :: Alive(t, id) ==> Alive(s, id) && SameMatter(s, t, id))
    && (forall id :: Sleeps(t, id) ==> Sleeps(s, id) && t.matters[id].nextCheck == s.matters[id].nextCheck)
  }

  lemma FadesTwice(s: Store, t: Store, u: Store)
    requires Fades(s, t) && Fades(t, u)
    ensures Fades(s, u)
  {
  }

  lemma InvalidateFades(s: Store, scope: Scope)
    ensures Fades(s, Invalidate(s, scope))
  {
  }

  /** A change of its thread ends the life of a matter with the generation it was found in. */
  lemma TouchFades(s: Store, place: Place, now: int)
    ensures Fades(s, Invalidate(TouchedThread(s, place, now), Threads({place})))
  {
    var touched := TouchedThread(s, place, now);
    var t := Invalidate(touched, Threads({place}));
    forall id | Alive(t, id)
      ensures Alive(s, id) && SameMatter(s, t, id)
    {
      assert t.matters[id] == s.matters[id] && s.matters[id].place != place;
      assert Generation(t, s.matters[id].place) == Generation(touched, s.matters[id].place);
    }
  }

  lemma RedateFades(s: Store, place: Place, now: int)
    requires place in s.threads
    ensures Fades(s, s.(threads := s.threads[place := s.threads[place].(changed := now)]))
  {
  }

  lemma OwnMessageFades(s: Store, place: Place, now: int)
    requires place in s.threads
    ensures var t := Invalidate(s, Threads({place}));
      Fades(s, t.(threads := t.threads[place := t.threads[place].(changed := now)]))
  {
    var t := Invalidate(s, Threads({place}));
    InvalidateFades(s, Threads({place}));
    RedateFades(t, place, now);
    FadesTwice(s, t, t.(threads := t.threads[place := t.threads[place].(changed := now)]));
  }

  lemma AppendFades(s: Store, m: Message, now: int, t: Store)
    requires Fades(Appended(s, m, now), t)
    ensures Fades(s, t)
  {
    assert Fades(s, Appended(s, m, now));
    FadesTwice(s, Appended(s, m, now), t);
  }

  lemma RecordFades(s: Store, m: Message, now: int)
    ensures Fades(s, Record(s, m, now).0)
  {
    var (t, outcome) := Record(s, m, now);
    if outcome.Stored? {
      var s1 := Appended(s, m, now);
      if !m.own {
        TouchFades(s1, m.place, now);
      } else if Known(s, m).Some? && m.place in s.threads {
        OwnMessageFades(s1, m.place, now);
      } else {
        assert t == s1;
      }
      AppendFades(s, m, now, t);
    } else {
      EventsFade(s, t.events);
    }
  }

  lemma EventsFade(s: Store, events: map<string, int>)
    ensures Fades(s, s.(events := events))
  {
  }

  lemma ChannelFades(s: Store, id: string, allowed: bool, shared: bool, gapGiven: bool)
    ensures Fades(s, SetChannel(s, id, allowed, shared, gapGiven))
  {
    var s1 := s.(channels := s.channels[id := ChannelRow(allowed, shared)]);
    assert Fades(s, s1);
    InvalidateFades(s1, WholeChannel(id));
    FadesTwice(s, s1, Invalidate(s1, WholeChannel(id)));
  }

  /** Whatever happens to deliveries, settings and the runner. */
  lemma DeliveriesFade(s: Store, t: Store)
    requires t == s.(deliveries := t.deliveries, settings := t.settings, runner := t.runner)
    ensures Fades(s, t)
  {
  }

  lemma ExpireFades(s: Store, now: int)
    ensures Fades(s, Expire(s, now))
  {
    var s1 := InvalidateThreads(s, Ageing(s.revisions, now));
    InvalidateFades(s, Threads(Ageing(s.revisions, now)));
    assert Fades(s1, Erase(s1, now));
    FadesTwice(s, s1, Erase(s1, now));
  }

  lemma StoreFades(w: R.World, step: R.Step)
    requires !step.ApplyStep? && !step.FeedbackStep?
    ensures Fades(w.store, R.Next(w, step).store)
  {
    match step
    case ReadStep(_) => DeliveriesFade(w.store, w.store);
    case ChannelStep(id, allowed, shared, gapGiven) => ChannelFades(w.store, id, allowed, shared, gapGiven);
    case RecordStep(m, now) => RecordFades(w.store, m, now);
    case ExpireStep(now) => ExpireFades(w.store, now);
    case AdmitStep(id, today, cardCurrent) => DeliveriesFade(w.store, Admit(w.store, id, today, cardCurrent).0);
    case DeskStep(desk) => R.DeskSameEvidence(w.store, desk); DeliveriesFade(w.store, R.AtDesk(w.store, desk));
  }

  /** A transaction on the evidence alone that only takes life away keeps everything. */
  lemma FadingKeeps(w: World, evidence: R.World)
    requires Good(w) && w.owed == [] && Fades(w.evidence.store, evidence.store)
    ensures Good(w.(evidence := evidence)) && (Watched(w) ==> Watched(w.(evidence := evidence)))
  {
    var t := w.(evidence := evidence);
    forall job | Holder(t, job) ensures StandsFor(t, job) { assert Holder(w, job) && StandsFor(w, job); }
    forall token | token in t.workers ensures Signs(t, t.workers[token]) { assert Signs(w, w.workers[token]); }
    forall id | id in t.remembered ensures Counts(t, id, t.remembered[id]) { assert Counts(w, id, w.remembered[id]); }
    if Watched(w) {
      forall id | Alive(t.evidence.store, id) ensures WatchedAt(t, id) { assert WatchedAt(w, id); }
    }
  }

  // ---- Transactions that schedule --------------------------------------------------

  /** Jobs of other keys are as they were, and of this one nobody is the owner. */
  lemma Rescheduled(jobs: J.World, key: J.Key, due: int)
    requires J.Sound(jobs)
    ensures var t := J.Next(jobs, J.ScheduleStep(key, due, "{}"));
      && J.Sound(t) && t.issued == jobs.issued && t.table.nextToken == jobs.table.nextToken
      && t.table.rows.Keys == jobs.table.rows.Keys + {key} && t.table.rows[key].due <= due
      && J.Unowned(t, key)
      && (forall other :: other in jobs.table.rows ==>
           && t.table.rows[other].due <= jobs.table.rows[other].due
           && t.table.rows[other].token == jobs.table.rows[other].token)
      && (key !in jobs.table.rows ==> t.table.rows[key].token.None?)
      && (forall other :: other in jobs.table.rows && other != key ==> t.table.rows[other] == jobs.table.rows[other])
  {
    J.StepSound(jobs, J.ScheduleStep(key, due, "{}"));
  }

  /** What scheduling keeps of the job table. */
  ghost predicate OnlySooner(jobs: J.World, t: J.World) {
    && J.Sound(t) && t.issued == jobs.issued && t.table.nextToken == jobs.table.nextToken
    && (forall key :: key in jobs.table.rows ==>
         key in t.table.rows && t.table.rows[key].due <= jobs.table.rows[key].due)
    && (forall key :: key in t.table.rows && t.table.rows[key].token.Some? ==>
          key in jobs.table.rows && jobs.table.rows[key].token == t.table.rows[key].token)
    && (forall job :: job in t.issued && J.Owns(t.table, job) ==> J.Owns(jobs.table, job))
  }

  lemma RescheduledSooner(jobs: J.World, key: J.Key, due: int)
    requires J.Sound(jobs)
    ensures OnlySooner(jobs, J.Next(jobs, J.ScheduleStep(key, due, "{}")))
  {
    var t := J.Next(jobs, J.ScheduleStep(key, due, "{}"));
    Rescheduled(jobs, key, due);
    forall job | job in t.issued && J.Owns(t.table, job) ensures J.Owns(jobs.table, job) {
      assert job.key != key;
    }
  }

  predicate Mentions(ms: seq<Matter>, id: string) {
    exists i :: 0 <= i < |ms| && ms[i].id == id && ms[i].state.Open?
  }

  /** What is owed for a matter after a batch are its reports as open. */
  lemma {:induction false} ErrandsAreMentions(ms: seq<Matter>, e: Errand)
    ensures e in Errands(ms) <==>
      exists i :: 0 <= i < |ms| && ms[i].id == e.id && ms[i].nextCheck == e.due && ms[i].state.Open?
  {
    if ms != [] {
      ErrandsAreMentions(ms[1..], e);
      assert forall i :: 0 < i < |ms| ==> ms[i] == ms[1..][i - 1];
    }
  }
}
