/** Retention, deliveries, and what every run of the evidence store keeps. */
module EvidenceRuns {
  import opened Common
  import opened Evidence
  import opened Provenance
  import opened Findings
  import Jobs

  // ---- Retention -----------------------------------------------------------

  /** Outside the ageing threads nothing fresh loses its text. */
  lemma FreshAfterErase(s: Store, now: int, place: Place, id: nat)
    requires Fresh(s, place, id) && place !in Ageing(s.revisions, now)
    ensures Fresh(Erase(s, now), place, id)
  {
    assert s.revisions[id].captured >= now - 90 * DAY;
  }

  lemma BackedAfterErase(s: Store, now: int, place: Place, evidence: seq<nat>)
    requires Backed(s, place, evidence) && place !in Ageing(s.revisions, now)
    ensures Backed(Erase(s, now), place, evidence)
  {
    forall id | id in evidence
      ensures Fresh(Erase(s, now), place, id)
    {
      FreshAfterErase(s, now, place, id);
    }
    var human :| human in evidence && FromHuman(s, human);
    assert FromHuman(Erase(s, now), human);
  }

  /** After the ageing threads were invalidated, nothing valid and no current snapshot is left in them. */
  ghost predicate Settled(s: Store, issued: set<Snapshot>, scope: Scope) {
    && (forall id :: id in s.observations && s.observations[id].valid ==> !Covers(scope, s.observations[id].place))
    && (forall id :: id in s.matters && s.matters[id].valid ==> !Covers(scope, s.matters[id].place))
    && (forall snap ::
          snap in issued && snap.place in s.threads && snap.generation == s.threads[snap.place].generation ==>
          !Covers(scope, snap.place))
  }

  lemma InvalidateSettles(s: Store, issued: set<Snapshot>, scope: Scope)
    requires forall snap :: snap in issued ==> NotNewer(s, snap)
    ensures Settled(Invalidate(s, scope), issued, scope)
  {
    assert forall snap :: snap in issued ==> NotNewer(s, snap);
  }

  lemma EraseRows(s: Store, issued: set<Snapshot>, now: int)
    requires AllBacked(s) && Settled(s, issued, Threads(Ageing(s.revisions, now)))
    ensures AllBacked(Erase(s, now))
    ensures forall id :: id in s.matters && s.matters[id].valid ==> Erase(s, now).matters[id].valid
  {
    var s' := Erase(s, now);
    forall id | id in s.observations && s.observations[id].valid
      ensures Backed(s', s.observations[id].place, s.observations[id].evidence)
    {
      BackedAfterErase(s, now, s.observations[id].place, s.observations[id].evidence);
    }
    forall id | id in s.matters && s.matters[id].valid
      ensures Backed(s', s.matters[id].place, s.matters[id].body.evidence)
      ensures s'.matters[id].valid
    {
      BackedAfterErase(s, now, s.matters[id].place, s.matters[id].body.evidence);
      assert forall r :: r in s.matters[id].body.evidence ==> Fresh(s', s.matters[id].place, r);
    }
  }

  lemma EraseSnapshots(s: Store, issued: set<Snapshot>, now: int)
    requires SnapshotsFresh(s, issued, NOWHERE) && Settled(s, issued, Threads(Ageing(s.revisions, now)))
    ensures SnapshotsFresh(Erase(s, now), issued, NOWHERE)
  {
    var s' := Erase(s, now);
    assert forall snap :: snap in issued ==> NotNewer(s, snap);
    forall snap, e | snap in issued && snap.generation == s'.threads[snap.place].generation && e in snap.evidence
      ensures Matches(s', snap, e)
    {
      assert Matches(s, snap, e);
      FreshAfterErase(s, now, snap.place, e.id);
    }
  }

  lemma EraseShaped(s: Store, now: int)
    requires Shaped(s) && IdsAgree(s)
    ensures Shaped(Erase(s, now)) && IdsAgree(Erase(s, now))
  {
  }

  lemma EraseSound(s: Store, issued: set<Snapshot>, now: int)
    requires Sound(s, issued) && Settled(s, issued, Threads(Ageing(s.revisions, now)))
    ensures Sound(Erase(s, now), issued)
    ensures forall id :: id in s.matters && s.matters[id].valid ==> Erase(s, now).matters[id].valid
  {
    EraseRows(s, issued, now);
    EraseSnapshots(s, issued, now);
    EraseShaped(s, now);
  }

  /** The invalidation that comes before the erasures. */
  lemma AgeingInvalidated(s: Store, issued: set<Snapshot>, now: int)
    requires Sound(s, issued)
    ensures var s1 := InvalidateThreads(s, Ageing(s.revisions, now));
      s1.revisions == s.revisions && Sound(s1, issued) && Settled(s1, issued, Threads(Ageing(s.revisions, now)))
  {
    var scope := Threads(Ageing(s.revisions, now));
    if Ageing(s.revisions, now) != {} {
      EverywhereIncludes(s, issued, scope);
      InvalidateRepairs(s, issued, scope);
      InvalidateSettles(s, issued, scope);
    }
  }

  lemma ExpireSound(s: Store, issued: set<Snapshot>, now: int)
    requires Sound(s, issued)
    ensures Sound(Expire(s, now), issued)
  {
    AgeingInvalidated(s, issued, now);
    EraseSound(InvalidateThreads(s, Ageing(s.revisions, now)), issued, now);
  }

  lemma EverywhereIncludes(s: Store, issued: set<Snapshot>, scope: Scope)
    requires Sound(s, issued)
    ensures SoundBut(s, issued, scope)
  {
  }

  // ---- Transactions that leave the evidence alone --------------------------

  /** Only deliveries, settings, the runner, and the owner's decisions on matters may differ. */
  ghost predicate SameEvidence(s: Store, s': Store) {
    && s'.channels == s.channels && s'.threads == s.threads && s'.revisions == s.revisions && s'.messages == s.messages
    && s'.observations == s.observations && s'.matters.Keys == s.matters.Keys
    && forall id :: id in s.matters ==> SameCitations(s.matters[id], s'.matters[id])
  }

  predicate SameCitations(row: MatterRow, row': MatterRow) {
    row'.place == row.place && row'.valid == row.valid && row'.body.evidence == row.body.evidence
  }

  lemma SameEvidenceSound(s: Store, s': Store, issued: set<Snapshot>)
    requires Sound(s, issued) && SameEvidence(s, s')
    ensures Sound(s', issued)
  {
    forall id | id in s'.observations && s'.observations[id].valid
      ensures Backed(s', s'.observations[id].place, s'.observations[id].evidence)
    {
      SameRevisions(s, s', s.observations[id].place, s.observations[id].evidence);
    }
    forall id | id in s'.matters && s'.matters[id].valid
      ensures Backed(s', s'.matters[id].place, s'.matters[id].body.evidence)
    {
      assert SameCitations(s.matters[id], s'.matters[id]);
      SameRevisions(s, s', s.matters[id].place, s.matters[id].body.evidence);
    }
    assert forall snap :: snap in issued ==> NotNewer(s, snap);
    forall snap, e | snap in issued && snap.generation == s'.threads[snap.place].generation && e in snap.evidence
      ensures Matches(s', snap, e)
    {
      assert Matches(s, snap, e);
    }
  }

  // ---- Slots ---------------------------------------------------------------

  /** A delivery that waits, or was withdrawn while waiting, has never been given a slot. */
  ghost predicate SlotsUnused(rows: map<string, Delivery>) {
    forall id :: id in rows ==> SlotUnused(rows[id])
  }

  predicate SlotUnused(d: Delivery) {
    Committed(d.state) || d.slot.None?
  }

  ghost predicate SlotsCapped(s: Store) {
    forall day: int, digest: bool :: |Occupied(s, day, digest)| <= SlotCap(digest)
  }

  /** The row keeps its slot, and starts or stops nothing while it has one. */
  predicate QuietRow(d: Delivery, d': Delivery) {
    d'.slot == d.slot && d'.digest == d.digest && (d.slot.Some? ==> (Committed(d'.state) <==> Committed(d.state)))
  }

  ghost predicate Quiet(rows: map<string, Delivery>, rows': map<string, Delivery>) {
    && (forall id :: id in rows ==> id in rows' && QuietRow(rows[id], rows'[id]))
    && (forall id :: id in rows' && id !in rows ==> rows'[id].slot.None?)
  }

  lemma SubsetSize<T>(a: set<T>, b: set<T>)
    requires a <= b
    ensures |a| <= |b|
  {
    assert b == a + (b - a);
  }

  lemma QuietKeepsSlots(s: Store, s': Store)
    requires Quiet(s.deliveries, s'.deliveries) && SlotsUnused(s.deliveries) && SlotsCapped(s)
    ensures SlotsUnused(s'.deliveries) && SlotsCapped(s')
  {
    forall day: int, digest: bool
      ensures |Occupied(s', day, digest)| <= SlotCap(digest)
    {
      forall id | id in Occupied(s', day, digest)
        ensures id in Occupied(s, day, digest)
      {
        assert Occupies(s'.deliveries[id], day, digest);
      }
      SubsetSize(Occupied(s', day, digest), Occupied(s, day, digest));
    }
  }

  /** Admission occupies one slot of its own kind and day, and no other. */
  lemma AdmitOccupies(s: Store, id: string, today: int, cardCurrent: bool, day: int, digest: bool)
    requires Admit(s, id, today, cardCurrent).1 && s.deliveries[id].slot.None?
    ensures Occupied(Admit(s, id, today, cardCurrent).0, day, digest)
         == Occupied(s, day, digest) + (if day == today && digest == s.deliveries[id].digest then {id} else {})
  {
    var s' := Admit(s, id, today, cardCurrent).0;
    var more := if day == today && digest == s.deliveries[id].digest then {id} else {};
    forall d
      ensures d in Occupied(s', day, digest) <==> d in Occupied(s, day, digest) + more
    {
      assert d != id && d in s.deliveries ==> s'.deliveries[d] == s.deliveries[d];
    }
  }

  lemma AdmitKeepsCaps(s: Store, id: string, today: int, cardCurrent: bool, day: int, digest: bool)
    requires SlotsUnused(s.deliveries) && Admit(s, id, today, cardCurrent).1
    requires |Occupied(s, day, digest)| <= SlotCap(digest)
    ensures |Occupied(Admit(s, id, today, cardCurrent).0, day, digest)| <= SlotCap(digest)
  {
    assert SlotUnused(s.deliveries[id]);
    AdmitOccupies(s, id, today, cardCurrent, day, digest);
  }

  lemma AdmitKeepsSlots(s: Store, id: string, today: int, cardCurrent: bool)
    requires SlotsUnused(s.deliveries) && SlotsCapped(s)
    ensures SlotsUnused(Admit(s, id, today, cardCurrent).0.deliveries)
      && SlotsCapped(Admit(s, id, today, cardCurrent).0)
  {
    var (s', admitted) := Admit(s, id, today, cardCurrent);
    if admitted {
      forall day: int, digest: bool
        ensures |Occupied(s', day, digest)| <= SlotCap(digest)
      {
        assert |Occupied(s, day, digest)| <= SlotCap(digest);
        AdmitKeepsCaps(s, id, today, cardCurrent, day, digest);
      }
    }
  }

  // ---- Waiting deliveries --------------------------------------------------

  /** What waits to be sent names only valid matters. */
  ghost predicate PendingBacked(s: Store) {
    forall id, m :: id in s.deliveries && s.deliveries[id].state == Pending && m in s.deliveries[id].matters ==>
      m in s.matters && s.matters[m].valid
  }

  lemma InvalidatePending(s: Store, scope: Scope)
    requires forall id, m ::
      id in s.deliveries && s.deliveries[id].state == Pending && m in s.deliveries[id].matters ==> m in s.matters
    ensures PendingBacked(Invalidate(s, scope))
  {
    var s' := Invalidate(s, scope);
    forall id, m | id in s'.deliveries && s'.deliveries[id].state == Pending && m in s'.deliveries[id].matters
      ensures m in s'.matters && s'.matters[m].valid
    {
      assert !Undermined(s.deliveries[id], s'.matters, s.revisions, scope);
    }
  }

  // ---- Runs ----------------------------------------------------------------

  /** The store, every snapshot a worker ever read, and the deliveries admitted so far in order. */
  datatype World = World(store: Store, issued: set<Snapshot>, admitted: seq<string>)

  datatype Step =
    | ReadStep(snap: Snapshot)
    | ChannelStep(id: string, allowed: bool, shared: bool, gapGiven: bool)
    | RecordStep(message: Message, now: int)
    | ApplyStep(jobs: Jobs.Table, job: Option<Jobs.Job>, snaps: seq<Snapshot>, observations: seq<Observation>,
                matters: seq<Matter>)
    | ExpireStep(now: int)
    | FeedbackStep(id: string, action: Action)
    | AdmitStep(id: string, today: int, cardCurrent: bool)
    | DeskStep(desk: Desk)

  /** Everything that only queues, withdraws and settles deliveries, and the owner's controls. */
  datatype Desk =
    | EnqueueStep(id: string, delivery: Delivery, cardCurrent: bool)
    | AcquireStep(owner: string, now: int)
    | ReleaseStep(owner: string)
    | CancelStep(id: string)
    | CancelAllStep
    | FinishStep(id: string, sent: bool, ts: Option<string>)
    | UncertainStep(id: string)
    | SettingsStep(settings: Settings)

  function AtDesk(s: Store, desk: Desk): Store {
    match desk
    case EnqueueStep(id, d, cardCurrent) => Enqueue(s, id, d, cardCurrent).0
    case AcquireStep(owner, now) => AcquireRunner(s, owner, now).0
    case ReleaseStep(owner) => ReleaseRunner(s, owner)
    case CancelStep(id) => CancelDelivery(s, id)
    case CancelAllStep => CancelAll(s)
    case FinishStep(id, sent, ts) => FinishDelivery(s, id, sent, ts)
    case UncertainStep(id) => UncertainDelivery(s, id)
    case SettingsStep(settings) => s.(settings := settings)
  }

  /** A read returns a snapshot of the present state; findings are applied only under snapshots that were read. */
  function Next(w: World, step: Step): World {
    match step
    case ReadStep(snap) => if SnapshotOf(w.store, snap) then w.(issued := w.issued + {snap}) else w
    case ChannelStep(id, allowed, shared, gapGiven) => w.(store := SetChannel(w.store, id, allowed, shared, gapGiven))
    case RecordStep(m, now) => w.(store := Record(w.store, m, now).0)
    case ApplyStep(jobs, job, snaps, os, ms) =>
      if forall snap :: snap in snaps ==> snap in w.issued
      then w.(store := Apply(w.store, jobs, job, snaps, os, ms).0) else w
    case ExpireStep(now) => w.(store := Expire(w.store, now))
    case FeedbackStep(id, action) => w.(store := Feedback(w.store, id, action))
    case AdmitStep(id, today, cardCurrent) =>
      var (s', admitted) := Admit(w.store, id, today, cardCurrent);
      World(s', w.issued, if admitted then w.admitted + [id] else w.admitted)
    case DeskStep(desk) => w.(store := AtDesk(w.store, desk))
  }

  function Run(w: World, steps: seq<Step>): World
    decreases |steps|
  {
    if steps == [] then w else Run(Next(w, steps[0]), steps[1..])
  }

  function Fresh0(settings: Settings): World {
    World(Store(map[], map[], [], map[], map[], map[], map[], map[], settings, None), {}, [])
  }

  /** A message stays in its thread, and a batch uses an id for one thread only. */
  ghost predicate Permitted(w: World, step: Step) {
    && (step.RecordStep? ==> KeepsThread(w.store, step.message))
    && (step.ApplyStep? ==> Coherent(ObservationItems(step.observations) + MatterItems(step.matters)))
  }

  ghost predicate AllPermitted(w: World, steps: seq<Step>)
    decreases |steps|
  {
    steps == [] || (Permitted(w, steps[0]) && AllPermitted(Next(w, steps[0]), steps[1..]))
  }

  lemma ReadSound(s: Store, issued: set<Snapshot>, snap: Snapshot)
    requires Sound(s, issued) && SnapshotOf(s, snap)
    ensures Sound(s, issued + {snap})
  {
    forall e | e in snap.evidence
      ensures Matches(s, snap, e)
    {
      assert Live(s, snap.place, e.id);
    }
  }

  lemma FeedbackSameEvidence(s: Store, id: string, action: Action)
    ensures SameEvidence(s, Feedback(s, id, action))
  {
    if id in s.matters {
      var row := Judged(s.matters[id], action);
      assert SameCitations(s.matters[id], row);
    }
  }

  lemma DeskSameEvidence(s: Store, desk: Desk)
    ensures var s' := AtDesk(s, desk);
      s' == s.(deliveries := s'.deliveries, settings := s'.settings, runner := s'.runner)
  {
    match desk
    case EnqueueStep(id, d, cardCurrent) =>
    case AcquireStep(owner, now) =>
    case ReleaseStep(owner) =>
    case CancelStep(id) =>
    case CancelAllStep =>
    case FinishStep(id, sent, ts) =>
    case UncertainStep(id) =>
    case SettingsStep(settings) =>
  }

  lemma StepSound(w: World, step: Step)
    requires Sound(w.store, w.issued) && Permitted(w, step)
    ensures Sound(Next(w, step).store, Next(w, step).issued)
  {
    var s, issued := w.store, w.issued;
    match step
    case ReadStep(snap) => if SnapshotOf(s, snap) { ReadSound(s, issued, snap); }
    case ChannelStep(id, allowed, shared, gapGiven) => ChannelSound(s, issued, id, allowed, shared, gapGiven);
    case RecordStep(m, now) => RecordSound(s, issued, m, now);
    case ApplyStep(jobs, job, snaps, os, ms) =>
      if forall snap :: snap in snaps ==> snap in issued { ApplySound(s, issued, jobs, job, snaps, os, ms); }
    case ExpireStep(now) => ExpireSound(s, issued, now);
    case FeedbackStep(id, action) =>
      FeedbackSameEvidence(s, id, action);
      SameEvidenceSound(s, Feedback(s, id, action), issued);
    case AdmitStep(id, today, cardCurrent) => SameEvidenceSound(s, Admit(s, id, today, cardCurrent).0, issued);
    case DeskStep(desk) =>
      DeskSameEvidence(s, desk);
      SameEvidenceSound(s, AtDesk(s, desk), issued);
  }

  /**
   In every run, under any interleaving with readers that act on snapshots as old as
   they like, whatever is valid rests on current human evidence of its own thread.
   */
  lemma {:induction false} ValidIsBacked(w: World, steps: seq<Step>)
    requires Sound(w.store, w.issued) && AllPermitted(w, steps)
    ensures Sound(Run(w, steps).store, Run(w, steps).issued) && AllBacked(Run(w, steps).store)
    decreases |steps|
  {
    if steps != [] {
      StepSound(w, steps[0]);
      ValidIsBacked(Next(w, steps[0]), steps[1..]);
    }
  }

  lemma FromTheStart(settings: Settings, steps: seq<Step>)
    requires AllPermitted(Fresh0(settings), steps)
    ensures AllBacked(Run(Fresh0(settings), steps).store)
  {
    ValidIsBacked(Fresh0(settings), steps);
  }

  // ---- Deliveries in runs --------------------------------------------------

  lemma CancellingIsQuiet(s: Store, scope: Scope)
    ensures Quiet(s.deliveries, Invalidate(s, scope).deliveries)
  {
  }

  lemma ErasingIsQuiet(s: Store, now: int)
    ensures Quiet(s.deliveries, Erase(s, now).deliveries)
  {
  }

  lemma QuietTwice(a: map<string, Delivery>, b: map<string, Delivery>, c: map<string, Delivery>)
    requires Quiet(a, b) && Quiet(b, c) && a.Keys == b.Keys == c.Keys
    ensures Quiet(a, c)
  {
    forall id | id in a
      ensures QuietRow(a[id], c[id])
    {
      assert QuietRow(a[id], b[id]) && QuietRow(b[id], c[id]);
    }
  }

  lemma RecordIsQuiet(s: Store, m: Message, now: int)
    ensures Quiet(s.deliveries, Record(s, m, now).0.deliveries)
  {
    var (s', outcome) := Record(s, m, now);
    if outcome.Stored? {
      var s1 := Appended(s, m, now);
      if m.own {
        CancellingIsQuiet(s1, Threads({m.place}));
      } else {
        CancellingIsQuiet(TouchedThread(s1, m.place, now), Threads({m.place}));
      }
    } else {
      assert s'.deliveries == s.deliveries;
    }
  }

  lemma ExpireIsQuiet(s: Store, now: int)
    ensures Quiet(s.deliveries, Expire(s, now).deliveries)
  {
    var s1 := InvalidateThreads(s, Ageing(s.revisions, now));
    CancellingIsQuiet(s, Threads(Ageing(s.revisions, now)));
    ErasingIsQuiet(s1, now);
    QuietTwice(s.deliveries, s1.deliveries, Erase(s1, now).deliveries);
  }

  lemma UpdateIsQuiet(rows: map<string, Delivery>, id: string, d: Delivery)
    requires if id in rows then QuietRow(rows[id], d) else d.slot.None?
    ensures Quiet(rows, rows[id := d])
  {
  }

  lemma FinishIsQuiet(s: Store, id: string, sent: bool, ts: Option<string>)
    requires SlotsUnused(s.deliveries)
    ensures Quiet(s.deliveries, FinishDelivery(s, id, sent, ts).deliveries)
  {
    if id in s.deliveries {
      assert SlotUnused(s.deliveries[id]);
      UpdateIsQuiet(s.deliveries, id, s.deliveries[id].(state := if sent then Sent else Uncertain, ts := ts));
    }
  }

  lemma UncertainIsQuiet(s: Store, id: string)
    requires SlotsUnused(s.deliveries)
    ensures Quiet(s.deliveries, UncertainDelivery(s, id).deliveries)
  {
    if id in s.deliveries {
      assert SlotUnused(s.deliveries[id]);
      UpdateIsQuiet(s.deliveries, id, s.deliveries[id].(state := Uncertain));
    }
  }

  lemma CancelIsQuiet(s: Store, id: string)
    ensures Quiet(s.deliveries, CancelDelivery(s, id).deliveries)
  {
    if id in s.deliveries && s.deliveries[id].state == Pending {
      UpdateIsQuiet(s.deliveries, id, s.deliveries[id].(state := Cancelled));
    }
  }

  lemma EnqueueIsQuiet(s: Store, id: string, d: Delivery, cardCurrent: bool)
    ensures Quiet(s.deliveries, Enqueue(s, id, d, cardCurrent).0.deliveries)
  {
    var s' := Enqueue(s, id, d, cardCurrent).0;
    if id in s'.deliveries && s' != s {
      UpdateIsQuiet(s.deliveries, id, s'.deliveries[id]);
    }
  }

  lemma FeedbackIsQuiet(s: Store, id: string, action: Action)
    ensures Quiet(s.deliveries, Feedback(s, id, action).deliveries)
  {
  }

  lemma UnsettlingIsQuiet(rows: map<string, Delivery>)
    ensures Quiet(rows, Unsettled(rows)) && Quiet(rows, rows)
  {
  }

  lemma TakeoverIsQuiet(s: Store, owner: string, now: int)
    ensures Quiet(s.deliveries, AcquireRunner(s, owner, now).0.deliveries)
  {
    UnsettlingIsQuiet(s.deliveries);
  }

  lemma CancelAllIsQuiet(s: Store)
    ensures Quiet(s.deliveries, CancelAll(s).deliveries)
  {
  }

  lemma DeskIsQuiet(s: Store, desk: Desk)
    requires SlotsUnused(s.deliveries)
    ensures Quiet(s.deliveries, AtDesk(s, desk).deliveries)
  {
    match desk
    case EnqueueStep(id, d, cardCurrent) => EnqueueIsQuiet(s, id, d, cardCurrent);
    case AcquireStep(owner, now) => TakeoverIsQuiet(s, owner, now);
    case ReleaseStep(owner) =>
    case CancelStep(id) => CancelIsQuiet(s, id);
    case CancelAllStep => CancelAllIsQuiet(s);
    case FinishStep(id, sent, ts) => FinishIsQuiet(s, id, sent, ts);
    case UncertainStep(id) => UncertainIsQuiet(s, id);
    case SettingsStep(settings) =>
  }

  lemma ChannelIsQuiet(s: Store, id: string, allowed: bool, shared: bool, gapGiven: bool)
    ensures Quiet(s.deliveries, SetChannel(s, id, allowed, shared, gapGiven).deliveries)
  {
    CancellingIsQuiet(s.(channels := s.channels[id := ChannelRow(allowed, shared)]), WholeChannel(id));
  }

  lemma StepIsQuiet(w: World, step: Step)
    requires !step.AdmitStep? && SlotsUnused(w.store.deliveries)
    ensures Quiet(w.store.deliveries, Next(w, step).store.deliveries)
  {
    var s := w.store;
    match step
    case ReadStep(snap) =>
    case ChannelStep(id, allowed, shared, gapGiven) => ChannelIsQuiet(s, id, allowed, shared, gapGiven);
    case RecordStep(m, now) => RecordIsQuiet(s, m, now);
    case ApplyStep(jobs, job, snaps, os, ms) => ApplyLeavesDeliveries(s, jobs, job, snaps, os, ms);
    case ExpireStep(now) => ExpireIsQuiet(s, now);
    case FeedbackStep(id, action) => FeedbackIsQuiet(s, id, action);
    case DeskStep(desk) => DeskIsQuiet(s, desk);
  }

  lemma ApplyLeavesDeliveries(s: Store, jobs: Jobs.Table, job: Option<Jobs.Job>, snaps: seq<Snapshot>,
      os: seq<Observation>, ms: seq<Matter>)
    ensures Apply(s, jobs, job, snaps, os, ms).0.deliveries == s.deliveries
  {
    MarkKeepsTables(s, snaps);
  }

  /** A delivery that was admitted keeps a slot for good, so it can never be admitted again. */
  ghost predicate SlotsSound(w: World) {
    && SlotsUnused(w.store.deliveries) && SlotsCapped(w.store)
    && (forall id :: id in w.admitted ==> id in w.store.deliveries && w.store.deliveries[id].slot.Some?)
    && (forall i, j :: 0 <= i < j < |w.admitted| ==> w.admitted[i] != w.admitted[j])
  }

  lemma StepKeepsSlots(w: World, step: Step)
    requires SlotsSound(w)
    ensures SlotsSound(Next(w, step))
  {
    if step.AdmitStep? {
      AdmitKeepsSlots(w.store, step.id, step.today, step.cardCurrent);
    } else {
      StepIsQuiet(w, step);
      QuietKeepsSlots(w.store, Next(w, step).store);
    }
  }

  lemma {:induction false} RunKeepsSlots(w: World, steps: seq<Step>)
    requires SlotsSound(w)
    ensures SlotsSound(Run(w, steps))
    decreases |steps|
  {
    if steps != [] {
      StepKeepsSlots(w, steps[0]);
      RunKeepsSlots(Next(w, steps[0]), steps[1..]);
    }
  }

  /**
   Over every run, with runners taking over and outcomes written blindly, no delivery
   is admitted for sending twice, and no day holds more than two ordinary deliveries
   and one digest that are being sent, may have been sent, or were sent.
   */
  lemma AtMostOnceAndCapped(settings: Settings, steps: seq<Step>)
    ensures var w := Run(Fresh0(settings), steps);
      && (forall i, j :: 0 <= i < j < |w.admitted| ==> w.admitted[i] != w.admitted[j])
      && (forall day: int :: |Occupied(w.store, day, false)| <= 2 && |Occupied(w.store, day, true)| <= 1)
  {
    var start := Fresh0(settings);
    forall day: int, digest: bool
      ensures |Occupied(start.store, day, digest)| <= SlotCap(digest)
    {
      assert Occupied(start.store, day, digest) == {};
    }
    RunKeepsSlots(start, steps);
    var w := Run(start, steps);
    forall day: int
      ensures |Occupied(w.store, day, false)| <= 2 && |Occupied(w.store, day, true)| <= 1
    {
      assert |Occupied(w.store, day, false)| <= SlotCap(false) && |Occupied(w.store, day, true)| <= SlotCap(true);
    }
  }

  lemma {:induction false} PutMattersStayValid(rows: map<string, MatterRow>, revisions: seq<Revision>,
      snaps: seq<Snapshot>, ms: seq<Matter>)
    ensures forall id :: id in rows && rows[id].valid ==>
      id in PutMatters(rows, revisions, snaps, ms) && PutMatters(rows, revisions, snaps, ms)[id].valid
    decreases |ms|
  {
    if ms != [] {
      PutMattersStayValid(rows, revisions, snaps, ms[..|ms| - 1]);
    }
  }

  lemma RecordPending(s: Store, m: Message, now: int)
    requires PendingBacked(s)
    ensures PendingBacked(Record(s, m, now).0)
  {
    var s1 := Appended(s, m, now);
    InvalidatePending(s1, Threads({m.place}));
    InvalidatePending(TouchedThread(s1, m.place, now), Threads({m.place}));
  }

  lemma ExpirePending(s: Store, issued: set<Snapshot>, now: int)
    requires Sound(s, issued) && PendingBacked(s)
    ensures PendingBacked(Expire(s, now))
  {
    var s1 := InvalidateThreads(s, Ageing(s.revisions, now));
    InvalidatePending(s, Threads(Ageing(s.revisions, now)));
    AgeingInvalidated(s, issued, now);
    EraseSound(s1, issued, now);
    assert NoNewPending(s1, Erase(s1, now));
    NoNewPendingKeeps(s1, Erase(s1, now));
  }

  /** Rows that wait afterwards waited before with the same matters, and no valid matter is gone. */
  ghost predicate NoNewPending(s: Store, s': Store) {
    && (forall id :: id in s'.deliveries && s'.deliveries[id].state == Pending ==>
          id in s.deliveries && s.deliveries[id].state == Pending
          && s'.deliveries[id].matters == s.deliveries[id].matters)
    && (forall m :: m in s.matters && s.matters[m].valid ==> m in s'.matters && s'.matters[m].valid)
  }

  lemma NoNewPendingKeeps(s: Store, s': Store)
    requires PendingBacked(s) && NoNewPending(s, s')
    ensures PendingBacked(s')
  {
  }

  /** Rows that wait afterwards waited before, for the same matters. */
  ghost predicate Waited(rows: map<string, Delivery>, rows': map<string, Delivery>) {
    forall id :: id in rows' && rows'[id].state == Pending ==>
      id in rows && rows[id].state == Pending && rows'[id].matters == rows[id].matters
  }

  lemma UpdateWaited(rows: map<string, Delivery>, id: string, d: Delivery)
    requires d.state != Pending
    ensures Waited(rows, rows[id := d])
  {
  }

  lemma FeedbackPending(s: Store, id: string, action: Action)
    requires PendingBacked(s)
    ensures PendingBacked(Feedback(s, id, action))
  {
    assert NoNewPending(s, Feedback(s, id, action));
  }

  lemma EnqueuePending(s: Store, id: string, d: Delivery, cardCurrent: bool)
    requires PendingBacked(s)
    ensures PendingBacked(Enqueue(s, id, d, cardCurrent).0)
  {
    var s' := Enqueue(s, id, d, cardCurrent).0;
    forall k, m | k in s'.deliveries && s'.deliveries[k].state == Pending && m in s'.deliveries[k].matters
      ensures m in s.matters && s.matters[m].valid
    {
      assert k != id ==> k in s.deliveries && s'.deliveries[k] == s.deliveries[k];
    }
  }

  lemma AdmitWaited(s: Store, id: string, today: int, cardCurrent: bool)
    ensures Waited(s.deliveries, Admit(s, id, today, cardCurrent).0.deliveries)
  {
    if Admit(s, id, today, cardCurrent).1 {
      UpdateWaited(s.deliveries, id, s.deliveries[id].(state := Sending, slot := Some(today)));
    }
  }

  lemma SettleWaited(s: Store, id: string, sent: bool, ts: Option<string>)
    ensures Waited(s.deliveries, FinishDelivery(s, id, sent, ts).deliveries)
    ensures Waited(s.deliveries, UncertainDelivery(s, id).deliveries)
  {
    if id in s.deliveries {
      UpdateWaited(s.deliveries, id, s.deliveries[id].(state := if sent then Sent else Uncertain, ts := ts));
      UpdateWaited(s.deliveries, id, s.deliveries[id].(state := Uncertain));
    }
  }

  lemma WithdrawWaited(s: Store, id: string)
    ensures Waited(s.deliveries, CancelDelivery(s, id).deliveries)
  {
    if id in s.deliveries {
      UpdateWaited(s.deliveries, id, s.deliveries[id].(state := Cancelled));
    }
  }

  lemma CancelAllWaited(s: Store)
    ensures Waited(s.deliveries, CancelAll(s).deliveries)
  {
  }

  lemma UnsettlingWaited(rows: map<string, Delivery>)
    ensures Waited(rows, Unsettled(rows)) && Waited(rows, rows)
  {
  }

  lemma TakeoverWaited(s: Store, owner: string, now: int)
    ensures Waited(s.deliveries, AcquireRunner(s, owner, now).0.deliveries)
  {
    UnsettlingWaited(s.deliveries);
  }

  lemma WaitedPending(s: Store, s': Store)
    requires PendingBacked(s) && s'.matters == s.matters && Waited(s.deliveries, s'.deliveries)
    ensures PendingBacked(s')
  {
  }

  lemma DeskWaited(s: Store, desk: Desk)
    requires !desk.EnqueueStep?
    ensures Waited(s.deliveries, AtDesk(s, desk).deliveries)
  {
    match desk
    case AcquireStep(owner, now) => TakeoverWaited(s, owner, now);
    case ReleaseStep(owner) =>
    case CancelStep(id) => WithdrawWaited(s, id);
    case CancelAllStep => CancelAllWaited(s);
    case FinishStep(id, sent, ts) => SettleWaited(s, id, sent, ts);
    case UncertainStep(id) => SettleWaited(s, id, true, None);
    case SettingsStep(settings) =>
  }

  lemma DeskPending(s: Store, desk: Desk)
    requires PendingBacked(s)
    ensures PendingBacked(AtDesk(s, desk))
  {
    if desk.EnqueueStep? {
      EnqueuePending(s, desk.id, desk.delivery, desk.cardCurrent);
    } else {
      DeskSameEvidence(s, desk);
      DeskWaited(s, desk);
      WaitedPending(s, AtDesk(s, desk));
    }
  }

  lemma StepPending(w: World, step: Step)
    requires Sound(w.store, w.issued) && PendingBacked(w.store)
    ensures PendingBacked(Next(w, step).store)
  {
    var s := w.store;
    match step
    case ReadStep(snap) =>
    case ChannelStep(id, allowed, shared, gapGiven) =>
      InvalidatePending(s.(channels := s.channels[id := ChannelRow(allowed, shared)]), WholeChannel(id));
    case RecordStep(m, now) => RecordPending(s, m, now);
    case ApplyStep(jobs, job, snaps, os, ms) =>
      ApplyLeavesDeliveries(s, jobs, job, snaps, os, ms);
      MarkKeepsTables(s, snaps);
      PutMattersStayValid(s.matters, MarkProcessed(s, snaps).revisions, snaps, ms);
      NoNewPendingKeeps(s, Next(w, step).store);
    case ExpireStep(now) => ExpirePending(s, w.issued, now);
    case FeedbackStep(id, action) => FeedbackPending(s, id, action);
    case AdmitStep(id, today, cardCurrent) =>
      AdmitWaited(s, id, today, cardCurrent);
      WaitedPending(s, Admit(s, id, today, cardCurrent).0);
    case DeskStep(desk) => DeskPending(s, desk);
  }

  /** In every run, what waits to be sent names only matters that are valid and backed. */
  lemma {:induction false} WaitingIsBacked(w: World, steps: seq<Step>, id: string, m: string)
    requires Sound(w.store, w.issued) && PendingBacked(w.store) && AllPermitted(w, steps)
    ensures var s := Run(w, steps).store;
      id in s.deliveries && s.deliveries[id].state == Pending && m in s.deliveries[id].matters ==>
        m in s.matters && s.matters[m].valid && Backed(s, s.matters[m].place, s.matters[m].body.evidence)
    decreases |steps|
  {
    if steps != [] {
      StepSound(w, steps[0]);
      StepPending(w, steps[0]);
      WaitingIsBacked(Next(w, steps[0]), steps[1..], id, m);
    }
  }

  /**
   Delivery is enabled and not muted, paused or stopped; everything cited is the current, undeleted,
   unerased revision of its message in an allowed channel; and every matter named is open, valid,
   and itself backed.
   */
  ghost predicate Sendable(s: Store, d: Delivery) {
    && s.settings.deliveryEnabled && !s.settings.muted && !s.settings.paused && !s.settings.stopped
    && d.state == Pending && d.evidence != []
    && (forall r :: r in d.evidence ==>
         r < |s.revisions| && Fresh(s, s.revisions[r].place, r) && Allowed(s, s.revisions[r].place.channel))
    && forall m :: m in d.matters ==>
      m in s.matters && s.matters[m].valid && s.matters[m].body.state == Open
      && Backed(s, s.matters[m].place, s.matters[m].body.evidence)
  }

  /** At the step that admits a delivery, it is sendable. */
  lemma AdmissionIsBacked(s: Store, issued: set<Snapshot>, id: string, today: int, cardCurrent: bool)
    requires Sound(s, issued) && Admit(s, id, today, cardCurrent).1
    ensures Sendable(s, s.deliveries[id]) && Admit(s, id, today, cardCurrent).0.deliveries[id].slot == Some(today)
  {
    var d := s.deliveries[id];
    forall r | r in d.evidence
      ensures r < |s.revisions| && Fresh(s, s.revisions[r].place, r) && Allowed(s, s.revisions[r].place.channel)
    {
      assert IsCurrent(s, r);
    }
  }

  /** If the step admits anything, it is this one delivery, which is there and sendable. */
  ghost predicate AdmitsSendable(w: World, step: Step) {
    Next(w, step).admitted != w.admitted ==>
      && step.AdmitStep? && Next(w, step).admitted == w.admitted + [step.id]
      && step.id in w.store.deliveries && Sendable(w.store, w.store.deliveries[step.id])
  }

  ghost predicate AdmitsOnlySendable(w: World, steps: seq<Step>)
    decreases |steps|
  {
    steps == [] || (AdmitsSendable(w, steps[0]) && AdmitsOnlySendable(Next(w, steps[0]), steps[1..]))
  }

  /** Over every run, whatever is admitted is sendable at that moment. */
  lemma {:induction false} AdmissionsAreSendable(w: World, steps: seq<Step>)
    requires Sound(w.store, w.issued) && AllPermitted(w, steps)
    ensures AdmitsOnlySendable(w, steps)
    decreases |steps|
  {
    if steps != [] {
      var step := steps[0];
      if step.AdmitStep? && Admit(w.store, step.id, step.today, step.cardCurrent).1 {
        AdmissionIsBacked(w.store, w.issued, step.id, step.today, step.cardCurrent);
      }
      StepSound(w, step);
      AdmissionsAreSendable(Next(w, step), steps[1..]);
    }
  }

  /** A worker whose job was taken over cannot write findings either. */
  lemma StaleWorkerCannotApply(s: Store, w: Jobs.World, job: Jobs.Job, steps: seq<Jobs.Step>,
      snaps: seq<Snapshot>, os: seq<Observation>, ms: seq<Matter>)
    requires Jobs.Sound(w) && job in w.issued && !Jobs.Holds(w.table, job)
    ensures Apply(s, Jobs.Run(w, steps).table, Some(job), snaps, os, ms) == (s, Stale)
  {
    Jobs.LostLeaseIsForever(w, job, steps, None);
  }
}
