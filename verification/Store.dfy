/**
 InitiativeStore as it runs: one field per table, each transaction a method that keeps what every
 run of the store keeps.
 */
module StoreClass {
  import opened Common
  import opened Evidence
  import opened Findings
  import opened Provenance
  import B = BatchEffects
  import D = DeskEffects
  import E = Effects
  import Jobs
  import R = EvidenceRuns

  /**
   What every run keeps: valid findings rest on current human evidence of their own thread, what
   waits to be sent names only valid matters, and no delivery or day has more than its slots.
   */
  ghost predicate Kept(w: R.World) {
    Sound(w.store, w.issued) && R.PendingBacked(w.store) && R.SlotsSound(w)
  }

  lemma StepKept(w: R.World, step: R.Step)
    requires Kept(w) && R.Permitted(w, step)
    ensures Kept(R.Next(w, step))
  {
    R.StepSound(w, step);
    R.StepPending(w, step);
    R.StepKeepsSlots(w, step);
  }

  lemma ChannelKept(w: R.World, id: string, allowed: bool, shared: bool, gapGiven: bool)
    ensures Kept(w) ==> Kept(w.(store := SetChannel(w.store, id, allowed, shared, gapGiven)))
  {
    if Kept(w) { StepKept(w, R.ChannelStep(id, allowed, shared, gapGiven)); }
  }

  lemma RecordKept(w: R.World, m: Message, now: int)
    ensures Kept(w) && KeepsThread(w.store, m) ==> Kept(w.(store := Record(w.store, m, now).0))
  {
    if Kept(w) && KeepsThread(w.store, m) { StepKept(w, R.RecordStep(m, now)); }
  }

  /** Read snapshots, and an id for one thread only. */
  ghost predicate Proper(w: R.World, snaps: seq<Snapshot>, os: seq<Observation>, ms: seq<Matter>) {
    (forall snap :: snap in snaps ==> snap in w.issued) && Coherent(ObservationItems(os) + MatterItems(ms))
  }

  lemma ApplyKept(w: R.World, jobs: Jobs.Table, job: Option<Jobs.Job>, snaps: seq<Snapshot>, os: seq<Observation>,
      ms: seq<Matter>)
    ensures Kept(w) && Proper(w, snaps, os, ms) ==> Kept(w.(store := Apply(w.store, jobs, job, snaps, os, ms).0))
  {
    if Kept(w) && Proper(w, snaps, os, ms) { StepKept(w, R.ApplyStep(jobs, job, snaps, os, ms)); }
  }

  lemma ExpireKept(w: R.World, now: int)
    ensures Kept(w) ==> Kept(w.(store := Expire(w.store, now)))
  {
    if Kept(w) { StepKept(w, R.ExpireStep(now)); }
  }

  lemma FeedbackKept(w: R.World, id: string, action: Action)
    ensures Kept(w) ==> Kept(w.(store := Feedback(w.store, id, action)))
  {
    if Kept(w) {
      R.FeedbackSameEvidence(w.store, id, action);
      R.SameEvidenceSound(w.store, Feedback(w.store, id, action), w.issued);
      R.FeedbackPending(w.store, id, action);
      R.FeedbackIsQuiet(w.store, id, action);
      R.QuietKeepsSlots(w.store, Feedback(w.store, id, action));
    }
  }

  /** What only queues, withdraws or settles deliveries. */
  lemma DeskKept(w: R.World, desk: R.Desk)
    requires Kept(w)
    ensures Kept(w.(store := R.AtDesk(w.store, desk)))
  {
    R.DeskSameEvidence(w.store, desk);
    R.SameEvidenceSound(w.store, R.AtDesk(w.store, desk), w.issued);
    R.DeskPending(w.store, desk);
    R.DeskIsQuiet(w.store, desk);
    R.QuietKeepsSlots(w.store, R.AtDesk(w.store, desk));
  }

  lemma EnqueueKept(w: R.World, id: string, d: Delivery, cardCurrent: bool)
    ensures Kept(w) ==> Kept(w.(store := Enqueue(w.store, id, d, cardCurrent).0))
  {
    if Kept(w) { DeskKept(w, R.EnqueueStep(id, d, cardCurrent)); }
  }

  lemma AcquireKept(w: R.World, owner: string, now: int)
    ensures Kept(w) ==> Kept(w.(store := AcquireRunner(w.store, owner, now).0))
  {
    if Kept(w) { DeskKept(w, R.AcquireStep(owner, now)); }
  }

  lemma ReleaseKept(w: R.World, owner: string)
    ensures Kept(w) ==> Kept(w.(store := ReleaseRunner(w.store, owner)))
  {
    if Kept(w) { DeskKept(w, R.ReleaseStep(owner)); }
  }

  /** What admitting a delivery for sending guarantees, from the state before to the state after. */
  ghost predicate Guaranteed(s: Store, t: Store, id: string, today: int) {
    && id in s.deliveries && id in t.deliveries && t.deliveries[id].slot == Some(today)
    && s.settings.deliveryEnabled && !s.settings.muted && !s.settings.paused && !s.settings.stopped
    && s.deliveries[id].evidence != []
    && (forall r :: r in s.deliveries[id].evidence ==>
         r < |t.revisions| && Fresh(t, t.revisions[r].place, r) && Allowed(t, t.revisions[r].place.channel))
    && (forall m :: m in s.deliveries[id].matters ==>
         m in t.matters && t.matters[m].valid && t.matters[m].body.state == Open
         && Backed(t, t.matters[m].place, t.matters[m].body.evidence))
    && |Occupied(t, today, s.deliveries[id].digest)| <= SlotCap(s.deliveries[id].digest)
  }

  lemma AdmittedOnce(w: R.World, id: string, today: int, cardCurrent: bool)
    requires R.SlotsSound(w) && Admit(w.store, id, today, cardCurrent).1
    ensures id !in w.admitted
    ensures var t := Admit(w.store, id, today, cardCurrent).0;
      |Occupied(t, today, w.store.deliveries[id].digest)| <= SlotCap(w.store.deliveries[id].digest)
  {
    R.AdmitKeepsSlots(w.store, id, today, cardCurrent);
    assert R.SlotUnused(w.store.deliveries[id]);
  }

  lemma AdmitKept(w: R.World, id: string, today: int, cardCurrent: bool)
    ensures var (t, admitted) := Admit(w.store, id, today, cardCurrent);
      Kept(w) ==> Kept(R.World(t, w.issued, if admitted then w.admitted + [id] else w.admitted))
  {
    if Kept(w) {
      var (t, admitted) := Admit(w.store, id, today, cardCurrent);
      R.SameEvidenceSound(w.store, t, w.issued);
      R.AdmitWaited(w.store, id, today, cardCurrent);
      R.WaitedPending(w.store, t);
      R.AdmitKeepsSlots(w.store, id, today, cardCurrent);
      if admitted { AdmittedOnce(w, id, today, cardCurrent); }
    }
  }

  /** An admission changes nothing that its checks looked at. */
  lemma GuaranteedAfter(s: Store, issued: set<Snapshot>, id: string, today: int, cardCurrent: bool)
    requires Sound(s, issued) && Admit(s, id, today, cardCurrent).1
    requires var digest := s.deliveries[id].digest;
      |Occupied(Admit(s, id, today, cardCurrent).0, today, digest)| <= SlotCap(digest)
    ensures Guaranteed(s, Admit(s, id, today, cardCurrent).0, id, today)
  {
    R.AdmissionIsBacked(s, issued, id, today, cardCurrent);
  }

  lemma AdmissionGuarantees(w: R.World, id: string, today: int, cardCurrent: bool)
    ensures Kept(w) && Admit(w.store, id, today, cardCurrent).1 ==>
      Guaranteed(w.store, Admit(w.store, id, today, cardCurrent).0, id, today) && id !in w.admitted
  {
    if Kept(w) && Admit(w.store, id, today, cardCurrent).1 {
      AdmittedOnce(w, id, today, cardCurrent);
      GuaranteedAfter(w.store, w.issued, id, today, cardCurrent);
    }
  }

  lemma NothingWaitsFor(s: Store, id: string, action: Action)
    ensures var rows := Feedback(s, id, action).deliveries;
      id in s.matters ==> forall d :: d in rows && id in rows[d].matters ==> rows[d].state != Pending
  {
  }

  function Redated(s: Store, place: Place, now: int): Store
    requires place in s.threads
  {
    s.(threads := s.threads[place := s.threads[place].(changed := now)])
  }

  predicate MattersOpen(s: Store, ids: seq<string>) {
    forall m :: m in ids ==>
      m in s.matters && s.matters[m].valid && NotBarred(s, s.matters[m].place.channel)
        && s.matters[m].body.state == Open
  }

  lemma FreshKept(settings: Settings)
    ensures Kept(R.Fresh0(settings))
  {
    var start := R.Fresh0(settings);
    forall today: int, digest: bool
      ensures |Occupied(start.store, today, digest)| <= SlotCap(digest)
    {
      assert Occupied(start.store, today, digest) == {};
    }
  }

  class InitiativeStore {
    const day: int -> int
    var channels: map<string, ChannelRow>
    var threads: map<Place, ThreadRow>
    var revisions: seq<Revision>
    var messages: map<(string, string), nat>
    var events: map<string, int>
    var observations: map<string, ObservationRow>
    var matters: map<string, MatterRow>
    var deliveries: map<string, Delivery>
    var settings: Settings
    var runner: Option<Runner>
    /** The snapshots workers have read, and the deliveries admitted so far. */
    ghost var issued: set<Snapshot>
    ghost var admissions: seq<string>

    function View(): Store
      reads this
    {
      Store(channels, threads, revisions, messages, events, observations, matters, deliveries, settings, runner)
    }

    ghost function World(): R.World
      reads this
    {
      R.World(View(), issued, admissions)
    }

    ghost predicate Valid()
      reads this
    {
      Kept(World())
    }

    constructor (settings: Settings, day: int -> int)
      ensures Valid()
      ensures View() == Store(map[], map[], [], map[], map[], map[], map[], map[], settings, None)
      ensures this.day == day
    {
      this.day := day;
      this.settings, runner := settings, None;
      channels, threads, revisions, messages, events := map[], map[], [], map[], map[];
      observations, matters, deliveries := map[], map[], map[];
      issued, admissions := {}, [];
      new;
      FreshKept(settings);
    }

    /** A worker is given a snapshot of the present state. */
    ghost method HandOut(snap: Snapshot)
      requires SnapshotOf(View(), snap)
      modifies this`issued
      ensures World() == R.Next(old(World()), R.ReadStep(snap))
      ensures issued == old(issued) + {snap}
      ensures old(Valid()) ==> Valid()
    {
      issued := issued + {snap};
      if old(Valid()) { StepKept(old(World()), R.ReadStep(snap)); }
    }

    method InvalidateScope(scope: Scope)
      modifies this`threads, this`observations, this`matters, this`deliveries
      ensures View() == Invalidate(old(View()), scope)
    {
      threads := BumpedThreads(threads, scope);
      observations := DroppedObservations(observations, scope);
      matters := DroppedMatters(matters, scope);
      deliveries := CancelledDeliveries(deliveries, matters, revisions, scope);
    }

    method Channel(id: string, allowed: bool, shared: bool, gapGiven: bool)
      modifies this`channels, this`threads, this`observations, this`matters, this`deliveries
      ensures View() == SetChannel(old(View()), id, allowed, shared, gapGiven)
      ensures E.ChannelDone(old(View()), View(), id, allowed, shared, gapGiven)
      ensures World() == R.Next(old(World()), R.ChannelStep(id, allowed, shared, gapGiven))
      ensures old(Valid()) ==> Valid()
    {
      if gapGiven || id !in channels || channels[id] != ChannelRow(allowed, shared) {
        channels := channels[id := ChannelRow(allowed, shared)];
        if !allowed {
          InvalidateScope(WholeChannel(id));
        }
      }
      ChannelKept(old(World()), id, allowed, shared, gapGiven);
      E.ChannelEffect(old(View()), id, allowed, shared, gapGiven);
    }

    method RecordMessage(m: Message, now: int) returns (r: Recording)
      modifies this`threads, this`revisions, this`messages, this`events, this`observations, this`matters,
        this`deliveries
      ensures (View(), r) == Record(old(View()), m, now)
      ensures E.RecordDone(old(View()), View(), m, now, r)
      ensures World() == R.Next(old(World()), R.RecordStep(m, now))
      ensures old(Valid() && KeepsThread(View(), m)) ==> Valid()
    {
      r := Receive(m, now);
      RecordKept(old(World()), m, now);
      E.RecordEffect(old(View()), m, now);
    }

    method Receive(m: Message, now: int) returns (r: Recording)
      modifies this`threads, this`revisions, this`messages, this`events, this`observations, this`matters,
        this`deliveries
      ensures (View(), r) == Record(old(View()), m, now)
    {
      r := Skipped;
      if !Refused(View(), m) && !Redelivered(View(), m) {
        var known := Known(View(), m);
        if known.Some? && known.value < |revisions| && Superseded(revisions[known.value], m) {
          events := Seen(View(), m, now);
        } else if Repeats(View(), m) {
          r := Duplicate;
        } else {
          r := Stored(|revisions|);
          StoreMessage(m, now, known.Some?);
        }
      }
    }

    /** A message that is new: its revision, the message that now shows it, and what its thread loses by it. */
    method StoreMessage(m: Message, now: int, wasKnown: bool)
      requires wasKnown == Known(View(), m).Some?
      modifies this`threads, this`revisions, this`messages, this`events, this`observations, this`matters,
        this`deliveries
      ensures View() ==
        if !m.own then Invalidate(TouchedThread(Appended(old(View()), m, now), m.place, now), Threads({m.place}))
        else if wasKnown && m.place in old(threads)
        then Redated(Invalidate(Appended(old(View()), m, now), Threads({m.place})), m.place, now)
        else Appended(old(View()), m, now)
    {
      events := Seen(View(), m, now);
      messages := messages[(m.place.channel, m.ts) := |revisions|];
      revisions := revisions + [RevisionOf(m, now)];
      assert View() == Appended(old(View()), m, now);
      if m.own {
        if wasKnown && m.place in threads {
          InvalidateScope(Threads({m.place}));
          threads := threads[m.place := threads[m.place].(changed := now)];
        }
      } else {
        if m.place in threads {
          var row := threads[m.place];
          threads := threads[m.place := row.(generation := row.generation + 1, changed := now)];
        } else {
          threads := threads[m.place := ThreadRow(1, 0, now)];
        }
        assert View() == TouchedThread(Appended(old(View()), m, now), m.place, now);
        InvalidateScope(Threads({m.place}));
      }
    }

    /** Checks every item before anything is written. */
    method CheckAll(snaps: seq<Snapshot>, items: seq<Item>) returns (verdict: Applying)
      ensures verdict == CheckItems(View(), snaps, items)
    {
      for i := 0 to |items|
        invariant CheckItems(View(), snaps, items) == CheckItems(View(), snaps, items[i..])
      {
        assert items[i..][0] == items[i] && items[i..][1..] == items[i + 1..];
        verdict := CheckItem(View(), snaps, items[i]);
        if verdict != Applied {
          return;
        }
      }
      verdict := Applied;
    }

    method ApplyFindings(jobs: Jobs.JobTable, job: Option<Jobs.Job>, snaps: seq<Snapshot>,
        os: seq<Observation>, ms: seq<Matter>)
      returns (r: Applying)
      modifies this`threads, this`observations, this`matters
      ensures (View(), r) == Apply(old(View()), jobs.View(), job, snaps, os, ms)
      ensures B.ApplyDone(old(View()), jobs.View(), job, snaps, os, ms, View(), r)
      ensures old(Proper(World(), snaps, os, ms)) ==>
        World() == R.Next(old(World()), R.ApplyStep(jobs.View(), job, snaps, os, ms))
      ensures old(Valid() && Proper(World(), snaps, os, ms)) ==> Valid()
    {
      r := ApplyBatch(jobs, job, snaps, os, ms);
      ApplyKept(old(World()), jobs.View(), job, snaps, os, ms);
      B.ApplyEffect(old(View()), jobs.View(), job, snaps, os, ms);
    }

    method ApplyBatch(jobs: Jobs.JobTable, job: Option<Jobs.Job>, snaps: seq<Snapshot>,
        os: seq<Observation>, ms: seq<Matter>)
      returns (r: Applying)
      modifies this`threads, this`observations, this`matters
      ensures (View(), r) == Apply(old(View()), jobs.View(), job, snaps, os, ms)
    {
      if (job.Some? && !Jobs.Owns(jobs.View(), job.value)) || !CurrentSnapshots(View(), snaps) {
        r := Stale;
      } else {
        r := CheckAll(snaps, ObservationItems(os) + MatterItems(ms));
        if r == Applied {
          WriteFindings(snaps, os, ms);
        }
      }
    }

    method WriteFindings(snaps: seq<Snapshot>, os: seq<Observation>, ms: seq<Matter>)
      modifies this`threads, this`observations, this`matters
      ensures var marked := MarkProcessed(old(View()), snaps);
        View() == marked.(observations := PutObservations(marked.observations, os),
                          matters := PutMatters(marked.matters, marked.revisions, snaps, ms))
    {
      MarkThreads(snaps);
      WriteObservations(os);
      WriteMatters(snaps, ms);
    }

    method MarkThreads(snaps: seq<Snapshot>)
      modifies this`threads, this`observations
      ensures View() == MarkProcessed(old(View()), snaps)
    {
      for i := 0 to |snaps|
        invariant View() == MarkProcessed(old(View()), snaps[..i])
      {
        assert snaps[..i + 1][..i] == snaps[..i];
        var snap := snaps[i];
        observations := DroppedObservations(observations, Threads({snap.place}));
        if snap.place in threads {
          threads := threads[snap.place := threads[snap.place].(processed := snap.generation)];
        }
      }
      assert snaps[..|snaps|] == snaps;
    }

    method WriteObservations(os: seq<Observation>)
      modifies this`observations
      ensures observations == PutObservations(old(observations), os)
    {
      for i := 0 to |os|
        invariant observations == PutObservations(old(observations), os[..i])
      {
        assert os[..i + 1][..i] == os[..i];
        var o := os[i];
        if o.id in observations {
          observations := observations[o.id :=
            observations[o.id].(text := o.text, evidence := o.evidence, valid := true)];
        } else {
          observations := observations[o.id := ObservationRow(o.place, o.text, o.evidence, true)];
        }
      }
      assert os[..|os|] == os;
    }

    method WriteMatters(snaps: seq<Snapshot>, ms: seq<Matter>)
      modifies this`matters
      ensures matters == PutMatters(old(matters), revisions, snaps, ms)
    {
      for i := 0 to |ms|
        invariant matters == PutMatters(old(matters), revisions, snaps, ms[..i])
      {
        assert ms[..i + 1][..i] == ms[..i];
        var m := ms[i];
        if m.id in matters {
          var previous, nextCheck := matters[m.id].body, matters[m.id].nextCheck;
          if previous.state in {Dismissed, Snoozed} && m.state != Resolved {
            m := m.(state := previous.state, nextCheck := nextCheck);
          }
          if previous.state == Resolved && m.state == Open
            && !(m.reopen && NewHumanEvidence(revisions, previous, snaps, m)) {
            m := m.(state := Resolved);
          }
          matters := matters[m.id := matters[m.id].(body := m, valid := true, nextCheck := m.nextCheck)];
        } else {
          matters := matters[m.id := MatterRow(m.place, m, true, m.nextCheck)];
        }
      }
      assert ms[..|ms|] == ms;
    }

    /** Every ageing thread once. */
    method AgeingThreads(now: int) returns (places: seq<Place>)
      ensures PlacesIn(places) == Ageing(revisions, now)
      ensures forall i, j :: 0 <= i < j < |places| ==> places[i] != places[j]
    {
      places := [];
      for i := 0 to |revisions|
        invariant forall p :: p in places <==>
          exists k :: 0 <= k < i && revisions[k].place == p && revisions[k].captured < now - 90 * DAY
            && revisions[k].excerpt != ""
        invariant forall k, l :: 0 <= k < l < |places| ==> places[k] != places[l]
      {
        if revisions[i].captured < now - 90 * DAY && revisions[i].excerpt != "" && revisions[i].place !in places {
          places := places + [revisions[i].place];
        }
      }
    }

    method InvalidateAgeing(now: int)
      modifies this`threads, this`observations, this`matters, this`deliveries
      ensures View() == InvalidateThreads(old(View()), Ageing(old(revisions), now))
    {
      var affected := AgeingThreads(now);
      for i := 0 to |affected|
        invariant View() == InvalidateThreads(old(View()), PlacesIn(affected[..i]))
      {
        ghost var done := PlacesIn(affected[..i]);
        assert PlacesIn(affected[..i + 1]) == done + {affected[i]};
        InvalidatedOneByOne(old(View()), done, affected[i]);
        InvalidateScope(Threads({affected[i]}));
      }
      assert affected[..|affected|] == affected;
    }

    method ExpireEvidence(now: int)
      modifies this`threads, this`revisions, this`events, this`observations, this`matters, this`deliveries
      ensures View() == Expire(old(View()), now)
      ensures D.ExpireDone(old(View()), View(), now)
      ensures World() == R.Next(old(World()), R.ExpireStep(now))
      ensures old(Valid()) ==> Valid()
    {
      AgeRows(now);
      ExpireKept(old(World()), now);
    }

    method AgeRows(now: int)
      modifies this`threads, this`revisions, this`events, this`observations, this`matters, this`deliveries
      ensures View() == Expire(old(View()), now)
      ensures D.ExpireDone(old(View()), View(), now)
    {
      InvalidateAgeing(now);
      EraseAged(now);
      D.ExpireEffect(old(View()), now);
    }

    /** Old texts go, then old excerpts, and with them what rested on them. */
    method EraseAged(now: int)
      modifies this`revisions, this`events, this`observations, this`matters, this`deliveries
      ensures View() == Erase(old(View()), now)
    {
      revisions := AgedRevisions(revisions, now);
      events := map e | e in events && events[e] >= now - 30 * DAY :: events[e];
      observations := map id | id in observations :: ErasedObservation(observations[id], revisions);
      matters := map id | id in matters :: ErasedMatter(matters[id], revisions);
      deliveries := map id | id in deliveries :: ErasedDelivery(deliveries[id], revisions, now);
    }

    /** The rows of a feedback button. */
    method JudgeMatter(id: string, action: Action)
      modifies this`matters, this`deliveries, this`settings
      ensures View() == Feedback(old(View()), id, action)
      ensures D.FeedbackDone(old(View()), View(), id, action)
    {
      if id in matters {
        var row := Judged(matters[id], action);
        matters := matters[id := row];
        deliveries := WithoutMatter(deliveries, id);
        if action.StopFollowing? {
          settings := settings.(unfollowed := settings.unfollowed + {row.body.place});
        }
      }
      D.FeedbackEffect(old(View()), id, action);
    }

    /** A feedback button: the matter's new state, its waiting deliveries withdrawn, and the reminder it asks for. */
    method GiveFeedback(jobs: Jobs.JobTable, id: string, action: Action)
      modifies this`matters, this`deliveries, this`settings, jobs
      ensures View() == Feedback(old(View()), id, action)
      ensures jobs.View() == if id in old(matters) && action.Later?
        then Jobs.Schedule(old(jobs.View()), Jobs.Key("investigate", id), action.at, "{}") else old(jobs.View())
      ensures forall d :: d in deliveries && id in old(matters) && id in deliveries[d].matters ==>
        deliveries[d].state != Pending
      ensures D.FeedbackDone(old(View()), View(), id, action)
      ensures World() == R.Next(old(World()), R.FeedbackStep(id, action))
      ensures old(Valid()) ==> Valid()
      ensures old(jobs.Valid()) ==> jobs.Valid()
    {
      var reminded := id in matters && action.Later?;
      JudgeMatter(id, action);
      if reminded {
        jobs.ScheduleJob(Jobs.Key("investigate", id), action.at, "{}");
      }
      FeedbackKept(old(World()), id, action);
      NothingWaitsFor(old(View()), id, action);
    }

    method TakeDelivery(id: string, d: Delivery, cardCurrent: bool) returns (queued: bool)
      modifies this`deliveries
      ensures (View(), queued) == Enqueue(old(View()), id, d, cardCurrent)
    {
      queued := Enqueueable(View(), d, cardCurrent) && (id in deliveries ==> Retryable(deliveries[id], d));
      if queued {
        if id !in deliveries {
          deliveries := deliveries[id := d.(ts := None, slot := None)];
        } else {
          deliveries := deliveries[id := deliveries[id].(text := d.text, matters := d.matters, evidence := d.evidence,
                                                          created := d.created, state := Pending)];
        }
      }
    }

    method EnqueueDelivery(id: string, d: Delivery, cardCurrent: bool) returns (queued: bool)
      modifies this`deliveries
      ensures (View(), queued) == Enqueue(old(View()), id, d, cardCurrent)
      ensures D.EnqueueDone(old(View()), id, d, cardCurrent, View(), queued)
      ensures World() == R.Next(old(World()), R.DeskStep(R.EnqueueStep(id, d, cardCurrent)))
      ensures old(Valid()) ==> Valid()
    {
      queued := TakeDelivery(id, d, cardCurrent);
      EnqueueKept(old(World()), id, d, cardCurrent);
      D.EnqueueEffect(old(View()), id, d, cardCurrent);
    }

    method TakeSlot(id: string, today: int, cardCurrent: bool) returns (admitted: bool)
      modifies this`deliveries
      ensures (View(), admitted) == Admit(old(View()), id, today, cardCurrent)
      ensures D.AdmitDone(old(View()), id, today, cardCurrent, View(), admitted)
    {
      admitted := false;
      if id in deliveries {
        var d := deliveries[id];
        if d.state == Pending && EvidenceCurrent(View(), d.evidence) && (d.proposal.Some? ==> cardCurrent)
          && !Controlled(settings)
          && MattersOpen(View(), d.matters) && |Occupied(View(), today, d.digest)| < SlotCap(d.digest)
        {
          deliveries := deliveries[id := d.(state := Sending, slot := Some(today))];
          admitted := true;
        }
      }
      D.AdmitEffect(old(View()), id, today, cardCurrent);
    }

    method AdmitDelivery(id: string, now: int, cardCurrent: bool) returns (admitted: bool)
      modifies this`deliveries, this`admissions
      ensures (View(), admitted) == Admit(old(View()), id, day(now), cardCurrent)
      ensures admissions == if admitted then old(admissions) + [id] else old(admissions)
      ensures D.AdmitDone(old(View()), id, day(now), cardCurrent, View(), admitted)
      ensures World() == R.Next(old(World()), R.AdmitStep(id, day(now), cardCurrent))
      ensures old(Valid()) ==> Valid()
      ensures old(Valid()) && admitted ==> Guaranteed(old(View()), View(), id, day(now)) && id !in old(admissions)
    {
      admitted := TakeSlot(id, day(now), cardCurrent);
      if admitted {
        admissions := admissions + [id];
      }
      AdmitKept(old(World()), id, day(now), cardCurrent);
      AdmissionGuarantees(old(World()), id, day(now), cardCurrent);
    }

    /** Withdraws one delivery, if it still waits. */
    method WithdrawDelivery(id: string)
      modifies this`deliveries
      ensures World() == R.Next(old(World()), R.DeskStep(R.CancelStep(id)))
      ensures deliveries == if id in old(deliveries) && old(deliveries)[id].state == Pending
        then old(deliveries)[id := old(deliveries)[id].(state := Cancelled)] else old(deliveries)
      ensures old(Valid()) ==> Valid()
    {
      if id in deliveries && deliveries[id].state == Pending {
        deliveries := deliveries[id := deliveries[id].(state := Cancelled)];
      }
      if old(Valid()) { DeskKept(old(World()), R.CancelStep(id)); }
    }

    /** The owner's stop command: whatever waits is withdrawn. */
    method WithdrawAll()
      modifies this`deliveries
      ensures World() == R.Next(old(World()), R.DeskStep(R.CancelAllStep))
      ensures deliveries.Keys == old(deliveries).Keys
      ensures forall d :: d in deliveries ==> deliveries[d].state != Pending
      ensures forall d :: d in deliveries && old(deliveries)[d].state != Pending ==> deliveries[d] == old(deliveries)[d]
      ensures forall d :: d in deliveries && old(deliveries)[d].state == Pending ==>
        deliveries[d] == old(deliveries)[d].(state := Cancelled)
      ensures old(Valid()) ==> Valid()
    {
      deliveries := map d | d in deliveries ::
        if deliveries[d].state == Pending then deliveries[d].(state := Cancelled) else deliveries[d];
      if old(Valid()) { DeskKept(old(World()), R.CancelAllStep); }
    }

    /** What became of a send, whatever the row says by now. */
    method SettleDelivery(id: string, sent: bool, ts: Option<string>)
      modifies this`deliveries
      ensures World() == R.Next(old(World()), R.DeskStep(R.FinishStep(id, sent, ts)))
      ensures deliveries == if id !in old(deliveries) then old(deliveries)
        else old(deliveries)[id := old(deliveries)[id].(ts := ts, state := if sent then Sent else Uncertain)]
      ensures old(Valid()) ==> Valid()
    {
      if id in deliveries {
        deliveries := deliveries[id := deliveries[id].(state := if sent then Sent else Uncertain, ts := ts)];
      }
      if old(Valid()) { DeskKept(old(World()), R.FinishStep(id, sent, ts)); }
    }

    /** A send that threw: whether it was sent is not known. */
    method DoubtDelivery(id: string)
      modifies this`deliveries
      ensures World() == R.Next(old(World()), R.DeskStep(R.UncertainStep(id)))
      ensures deliveries == if id !in old(deliveries) then old(deliveries)
        else old(deliveries)[id := old(deliveries)[id].(state := Uncertain)]
      ensures old(Valid()) ==> Valid()
    {
      if id in deliveries {
        deliveries := deliveries[id := deliveries[id].(state := Uncertain)];
      }
      if old(Valid()) { DeskKept(old(World()), R.UncertainStep(id)); }
    }

    /** The owner's controls. */
    method Configure(controls: Settings)
      modifies this`settings
      ensures World() == R.Next(old(World()), R.DeskStep(R.SettingsStep(controls))) && settings == controls
      ensures old(Valid()) ==> Valid()
    {
      settings := controls;
      if old(Valid()) { DeskKept(old(World()), R.SettingsStep(controls)); }
    }

    method TakeRunner(owner: string, now: int) returns (taken: bool)
      modifies this`deliveries, this`runner
      ensures (View(), taken) == AcquireRunner(old(View()), owner, now)
      ensures D.AcquireDone(old(View()), owner, now, View(), taken)
      ensures World() == R.Next(old(World()), R.DeskStep(R.AcquireStep(owner, now)))
      ensures old(Valid()) ==> Valid()
    {
      taken := runner.None? || runner.value.owner == owner || runner.value.until <= now;
      if taken {
        if !(runner.Some? && runner.value.owner == owner) {
          deliveries := Unsettled(deliveries);
        }
        runner := Some(Runner(owner, now + 600_000));
      }
      AcquireKept(old(World()), owner, now);
      D.AcquireEffect(old(View()), owner, now);
    }

    method GiveUpRunner(owner: string)
      modifies this`runner
      ensures View() == ReleaseRunner(old(View()), owner)
      ensures World() == R.Next(old(World()), R.DeskStep(R.ReleaseStep(owner)))
      ensures runner == if old(runner).Some? && old(runner).value.owner == owner then None else old(runner)
      ensures old(Valid()) ==> Valid()
    {
      if runner.Some? && runner.value.owner == owner {
        runner := None;
      }
      ReleaseKept(old(World()), owner);
    }
  }

  function PlacesIn(places: seq<Place>): set<Place> {
    set p | p in places
  }

  // ---- Invalidating threads one at a time ----------------------------------

  lemma FindingsOneByOne(s: Store, done: set<Place>, place: Place)
    requires place !in done
    ensures var s1, whole := Invalidate(s, Threads(done)), Invalidate(s, Threads(done + {place}));
      var s2 := Invalidate(s1, Threads({place}));
      s2.threads == whole.threads && s2.observations == whole.observations && s2.matters == whole.matters
  {
  }

  lemma DeliveriesOneByOne(s: Store, done: set<Place>, place: Place)
    requires place !in done
    ensures var s1, whole := Invalidate(s, Threads(done)), Invalidate(s, Threads(done + {place}));
      Invalidate(s1, Threads({place})).deliveries == whole.deliveries
  {
    FindingsOneByOne(s, done, place);
    var s1, whole := Invalidate(s, Threads(done)), Invalidate(s, Threads(done + {place}));
    var s2 := Invalidate(s1, Threads({place}));
    forall id | id in s.deliveries
      ensures s2.deliveries[id] == whole.deliveries[id]
    {
      UnderminedTwice(s.deliveries[id], s1.matters, s2.matters, s.revisions, done, place);
    }
  }

  /** One more thread: the same as all of them at once. */
  lemma InvalidatedOneByOne(s: Store, done: set<Place>, place: Place)
    requires place !in done
    ensures Invalidate(InvalidateThreads(s, done), Threads({place})) == InvalidateThreads(s, done + {place})
  {
    if done == {} {
      assert done + {place} == {place};
    } else {
      FindingsOneByOne(s, done, place);
      DeliveriesOneByOne(s, done, place);
    }
  }

  lemma UnderminedTwice(d: Delivery, earlier: map<string, MatterRow>, later: map<string, MatterRow>,
      revisions: seq<Revision>, done: set<Place>, place: Place)
    requires earlier.Keys == later.Keys && forall m :: m in earlier && !earlier[m].valid ==> !later[m].valid
    ensures Undermined(d, earlier, revisions, Threads(done)) || Undermined(d, later, revisions, Threads({place}))
      <==> Undermined(d, later, revisions, Threads(done + {place}))
  {
  }
}
