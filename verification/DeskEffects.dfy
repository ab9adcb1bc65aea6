/** What retention, feedback, deliveries and the runner's lease leave in the rows of the store. */
module DeskEffects {
  import opened Common
  import opened Evidence
  import opened Effects

  const MONTH := 2_592_000_000
  const QUARTER := 7_776_000_000

  // ---- Retention --------------------------------------------------------------

  /** More than ninety days old, and not erased yet. */
  predicate Fading(r: Revision, now: int) {
    r.captured < now - QUARTER && r.excerpt != ""
  }

  /** The places with something of that age. */
  ghost function FadingAt(revisions: seq<Revision>, now: int): Place -> bool {
    (p: Place) => exists i :: 0 <= i < |revisions| && revisions[i].place == p && Fading(revisions[i], now)
  }

  predicate AnyFading(revisions: seq<Revision>, now: int) {
    exists i :: 0 <= i < |revisions| && Fading(revisions[i], now)
  }

  /** It cites a revision that is missing, or whose excerpt is erased by now. */
  ghost predicate Faded(evidence: seq<nat>, revisions: seq<Revision>, now: int) {
    exists r :: r in evidence
      && (r >= |revisions| || revisions[r].excerpt == "" || revisions[r].captured < now - QUARTER)
  }

  /** Texts go after thirty days and excerpts after ninety; nothing else about a revision changes. */
  ghost predicate RevisionsAged(rows: seq<Revision>, after: seq<Revision>, now: int) {
    && |after| == |rows|
    && forall i :: 0 <= i < |rows| ==>
      && after[i] == rows[i].(text := after[i].text, excerpt := after[i].excerpt)
      && after[i].text == (if rows[i].captured < now - MONTH then "" else rows[i].text)
      && after[i].excerpt == (if rows[i].captured < now - QUARTER then "" else rows[i].excerpt)
  }

  ghost predicate EventsAged(events: map<string, int>, after: map<string, int>, now: int) {
    && (forall e :: e in after <==> e in events && now - MONTH <= events[e])
    && forall e :: e in after ==> after[e] == events[e]
  }

  ghost predicate ObservationAged(s: Store, row: ObservationRow, after: ObservationRow, now: int) {
    after == if Faded(row.evidence, s.revisions, now) then row.(text := "", valid := false)
             else if FadingAt(s.revisions, now)(row.place) then row.(valid := false) else row
  }

  ghost predicate MatterAged(s: Store, row: MatterRow, after: MatterRow, now: int) {
    after == if Faded(row.body.evidence, s.revisions, now) then row.(body := row.body.(detail := ""), valid := false)
             else if FadingAt(s.revisions, now)(row.place) then row.(valid := false) else row
  }

  /**
   A delivery more than ninety days old or resting on erased evidence loses its text, and is
   withdrawn if it waits.
   */
  ghost predicate DeliveryAged(s: Store, d: Delivery, after: Delivery, now: int) {
    var erased := d.created < now - QUARTER || Faded(d.evidence, s.revisions, now);
    var withdrawn := d.state == Pending
      && (erased || (AnyFading(s.revisions, now)
                     && Disturbed(s.matters, d, FadingAt(s.revisions, now), s.revisions)));
    after == d.(text := if erased then "" else d.text, state := if withdrawn then Cancelled else d.state)
  }

  ghost predicate ExpireDone(s: Store, t: Store, now: int) {
    && t.channels == s.channels && t.messages == s.messages && SameOffice(s, t)
    && RevisionsAged(s.revisions, t.revisions, now) && EventsAged(s.events, t.events, now)
    && ThreadsOn(s.threads, t.threads, FadingAt(s.revisions, now))
    && t.observations.Keys == s.observations.Keys && t.matters.Keys == s.matters.Keys
    && t.deliveries.Keys == s.deliveries.Keys
    && (forall o :: o in s.observations ==> ObservationAged(s, s.observations[o], t.observations[o], now))
    && (forall m :: m in s.matters ==> MatterAged(s, s.matters[m], t.matters[m], now))
    && forall d :: d in s.deliveries ==> DeliveryAged(s, s.deliveries[d], t.deliveries[d], now)
  }

  lemma AgeingIsFading(s: Store, now: int, p: Place)
    ensures p in Ageing(s.revisions, now) <==> FadingAt(s.revisions, now)(p)
  {
  }

  lemma CitesExpiredIff(s: Store, evidence: seq<nat>, now: int)
    ensures CitesExpired(evidence, AgedRevisions(s.revisions, now)) <==> Faded(evidence, s.revisions, now)
  {
    var aged := AgedRevisions(s.revisions, now);
    assert forall r: nat :: r < |s.revisions| ==> aged[r] == AgedRevision(s.revisions[r], now);
  }

  /** What the invalidations that come before the erasures leave. */
  lemma AgeingThreadsEffect(s: Store, now: int)
    ensures var s1 := InvalidateThreads(s, Ageing(s.revisions, now));
      && s1.revisions == s.revisions && s1.messages == s.messages && s1.events == s.events && SameOffice(s, s1)
      && s1.channels == s.channels
      && ThreadsOn(s.threads, s1.threads, FadingAt(s.revisions, now))
      && (Ageing(s.revisions, now) == {} ==> s1 == s)
      && (Ageing(s.revisions, now) != {} ==> Withdrawn(s, s1, FadingAt(s.revisions, now)))
  {
    var places := Ageing(s.revisions, now);
    forall p ensures p in places <==> FadingAt(s.revisions, now)(p) {
      AgeingIsFading(s, now, p);
    }
    if places != {} {
      InvalidateWithdraws(s, s, Threads(places), FadingAt(s.revisions, now));
      InvalidateKeeps(s, Threads(places));
    }
  }

  lemma SomeFading(s: Store, now: int)
    ensures Ageing(s.revisions, now) == {} <==> !AnyFading(s.revisions, now)
  {
    forall i | 0 <= i < |s.revisions| && Fading(s.revisions[i], now)
      ensures s.revisions[i].place in Ageing(s.revisions, now)
    {
    }
  }

  lemma ObservationsAged(s: Store, now: int)
    ensures var t := Expire(s, now);
      && t.observations.Keys == s.observations.Keys
      && forall o :: o in s.observations ==> ObservationAged(s, s.observations[o], t.observations[o], now)
  {
    AgeingThreadsEffect(s, now);
    SomeFading(s, now);
    forall o | o in s.observations
      ensures ObservationAged(s, s.observations[o], Expire(s, now).observations[o], now)
    {
      CitesExpiredIff(s, s.observations[o].evidence, now);
    }
  }

  lemma MattersAged(s: Store, now: int)
    ensures var t := Expire(s, now);
      && t.matters.Keys == s.matters.Keys
      && forall m :: m in s.matters ==> MatterAged(s, s.matters[m], t.matters[m], now)
  {
    AgeingThreadsEffect(s, now);
    SomeFading(s, now);
    forall m | m in s.matters
      ensures MatterAged(s, s.matters[m], Expire(s, now).matters[m], now)
    {
      CitesExpiredIff(s, s.matters[m].body.evidence, now);
    }
  }

  lemma DeliveriesAged(s: Store, now: int)
    ensures var t := Expire(s, now);
      && t.deliveries.Keys == s.deliveries.Keys
      && forall d :: d in s.deliveries ==> DeliveryAged(s, s.deliveries[d], t.deliveries[d], now)
  {
    AgeingThreadsEffect(s, now);
    SomeFading(s, now);
    forall d | d in s.deliveries
      ensures DeliveryAged(s, s.deliveries[d], Expire(s, now).deliveries[d], now)
    {
      CitesExpiredIff(s, s.deliveries[d].evidence, now);
    }
  }

  lemma ExpireEffect(s: Store, now: int)
    ensures ExpireDone(s, Expire(s, now), now)
  {
    AgeingThreadsEffect(s, now);
    ObservationsAged(s, now);
    MattersAged(s, now);
    DeliveriesAged(s, now);
  }

  // ---- Feedback ---------------------------------------------------------------

  /** The state a button leaves; any other action leaves the one there was. */
  function StateAfter(state: MatterState, action: Action): MatterState {
    match action
    case Handled => Resolved
    case NotUseful => Dismissed
    case StopFollowing => Dismissed
    case Later(_) => Snoozed
    case Other => state
  }

  /**
   The matter's state is that of the button, its next check only a snooze's, what waits naming it is
   withdrawn, and its thread is no longer followed if that was the button; nothing else has changed.
   */
  ghost predicate FeedbackDone(s: Store, t: Store, id: string, action: Action) {
    if id !in s.matters then t == s
    else
      && t == s.(matters := t.matters, deliveries := t.deliveries, settings := t.settings)
      && t.matters.Keys == s.matters.Keys && t.deliveries.Keys == s.deliveries.Keys
      && (forall m :: m in s.matters && m != id ==> t.matters[m] == s.matters[m])
      && (var row, next := s.matters[id], if action.Later? then action.at else s.matters[id].nextCheck;
          t.matters[id] == MatterRow(row.place,
                                     row.body.(state := StateAfter(row.body.state, action), nextCheck := next),
                                     row.valid, next))
      && (forall d :: d in s.deliveries ==>
           t.deliveries[d] == if s.deliveries[d].state == Pending && id in s.deliveries[d].matters
                              then s.deliveries[d].(state := Cancelled) else s.deliveries[d])
      && t.settings == s.settings.(unfollowed := t.settings.unfollowed)
      && forall p :: p in t.settings.unfollowed <==>
           p in s.settings.unfollowed || (action.StopFollowing? && p == s.matters[id].body.place)
  }

  lemma FeedbackEffect(s: Store, id: string, action: Action)
    ensures FeedbackDone(s, Feedback(s, id, action), id, action)
  {
  }

  // ---- Deliveries -------------------------------------------------------------

  /** What its message shows now, with a text that was neither deleted nor erased, of a channel that is not barred. */
  ghost predicate Presentable(s: Store, id: nat) {
    && id < |s.revisions|
    && var r := s.revisions[id];
       && (r.place.channel, r.ts) in s.messages && s.messages[(r.place.channel, r.ts)] == id
       && !r.deleted && r.excerpt != ""
       && (r.place.channel in s.channels ==> s.channels[r.place.channel].allowed)
  }

  ghost predicate AllPresentable(s: Store, evidence: seq<nat>) {
    evidence != [] && forall id :: id in evidence ==> Presentable(s, id)
  }

  lemma PresentableIff(s: Store, evidence: seq<nat>)
    ensures EvidenceCurrent(s, evidence) <==> AllPresentable(s, evidence)
  {
    assert forall id: nat :: Presentable(s, id) <==>
      IsCurrent(s, id) && !s.revisions[id].deleted && s.revisions[id].excerpt != ""
      && NotBarred(s, s.revisions[id].place.channel);
  }

  /** It may be queued: it says something, its card is current, its matters are valid and followed. */
  ghost predicate MayQueue(s: Store, d: Delivery, cardCurrent: bool) {
    && (d.state == Pending ==> AllPresentable(s, d.evidence))
    && !(d.matters == [] && d.proposal.None?) && !(d.proposal.Some? && !cardCurrent)
    && forall m :: m in d.matters ==>
      m in s.matters && s.matters[m].valid && s.matters[m].body.place !in s.settings.unfollowed
  }

  /** A card that was withdrawn before it had a slot or a timestamp, queued again for the same proposal. */
  predicate CardAgain(stored: Delivery, d: Delivery) {
    && stored.state == Cancelled && d.state == Pending && stored.ts == None && stored.slot == None
    && stored.proposal == d.proposal && d.proposal != None
  }

  /** A delivery is taken if it is new or a card again, and then only its own row changes. */
  ghost predicate EnqueueDone(s: Store, id: string, d: Delivery, cardCurrent: bool, t: Store, queued: bool) {
    && (queued <==> MayQueue(s, d, cardCurrent) && (id in s.deliveries ==> CardAgain(s.deliveries[id], d)))
    && if !queued then t == s
       else
         var row := if id in s.deliveries then d.(digest := s.deliveries[id].digest) else d;
         t == s.(deliveries := s.deliveries[id := row.(ts := None, slot := None)])
  }

  lemma EnqueueEffect(s: Store, id: string, d: Delivery, cardCurrent: bool)
    ensures var (t, queued) := Enqueue(s, id, d, cardCurrent); EnqueueDone(s, id, d, cardCurrent, t, queued)
  {
    PresentableIff(s, d.evidence);
  }

  /** Delivery is enabled, and the owner has neither muted, paused nor stopped it. */
  predicate Running(settings: Settings) {
    settings.deliveryEnabled && !settings.muted && !settings.paused && !settings.stopped
  }

  predicate UsesSlot(d: Delivery, day: int, digest: bool) {
    d.slot == Some(day) && d.digest == digest && d.state in {Sending, Uncertain, Sent}
  }

  predicate HasSlot(s: Store, id: string, day: int, digest: bool) {
    id in s.deliveries && UsesSlot(s.deliveries[id], day, digest)
  }

  /** Two ordinary deliveries of a day, or one digest. */
  ghost predicate SlotFree(s: Store, day: int, digest: bool) {
    if digest then forall d :: !HasSlot(s, d, day, true)
    else forall d, e :: HasSlot(s, d, day, false) && HasSlot(s, e, day, false) ==> d == e
  }

  /** It waits, all it cites and names stands, its card is current, nothing is switched off, and the day has a slot. */
  ghost predicate MaySend(s: Store, d: Delivery, today: int, cardCurrent: bool) {
    && d.state == Pending && AllPresentable(s, d.evidence) && !(d.proposal.Some? && !cardCurrent)
    && Running(s.settings)
    && (forall m :: m in d.matters ==>
         && m in s.matters && s.matters[m].valid && s.matters[m].body.state == Open
         && (s.matters[m].place.channel in s.channels ==> s.channels[s.matters[m].place.channel].allowed))
    && SlotFree(s, today, d.digest)
  }

  /** A delivery is admitted exactly when it may be sent; it is then being sent, in a slot of the day. */
  ghost predicate AdmitDone(s: Store, id: string, today: int, cardCurrent: bool, t: Store, admitted: bool) {
    && (admitted <==> id in s.deliveries && MaySend(s, s.deliveries[id], today, cardCurrent))
    && t == if admitted
            then s.(deliveries := s.deliveries[id := s.deliveries[id].(state := Sending, slot := Some(today))]) else s
  }

  lemma AtMostOne<T>(s: set<T>)
    ensures |s| < 2 <==> forall a, b :: a in s && b in s ==> a == b
  {
    if s != {} {
      var a :| a in s;
      if |s| < 2 {
        assert |s - {a}| == 0;
        assert s - {a} == {};
      } else {
        assert |s - {a}| > 0;
        var b :| b in s - {a};
      }
    }
  }

  lemma SlotFreeIff(s: Store, day: int, digest: bool)
    ensures |Occupied(s, day, digest)| < SlotCap(digest) <==> SlotFree(s, day, digest)
  {
    var used := Occupied(s, day, digest);
    assert forall d :: d in used <==> HasSlot(s, d, day, digest);
    AtMostOne(used);
    if digest {
      assert |used| < 1 <==> used == {};
    }
  }

  lemma AdmitEffect(s: Store, id: string, today: int, cardCurrent: bool)
    ensures var (t, admitted) := Admit(s, id, today, cardCurrent); AdmitDone(s, id, today, cardCurrent, t, admitted)
  {
    if id in s.deliveries {
      PresentableIff(s, s.deliveries[id].evidence);
      SlotFreeIff(s, today, s.deliveries[id].digest);
    }
  }

  // ---- The runner ---------------------------------------------------------------

  /**
   The lease of ten minutes is refused only while another's lasts; one who takes over does not know
   whether what was being sent was sent.
   */
  ghost predicate AcquireDone(s: Store, owner: string, now: int, t: Store, taken: bool) {
    && (!taken <==> s.runner.Some? && s.runner.value.owner != owner && now < s.runner.value.until)
    && if !taken then t == s
       else
         && t == s.(runner := Some(Runner(owner, now + 600_000)), deliveries := t.deliveries)
         && if s.runner.Some? && s.runner.value.owner == owner then t.deliveries == s.deliveries
            else StatesAfter(s.deliveries, t.deliveries,
                             (d: Delivery) => if d.state == Sending then Uncertain else d.state)
  }

  /** Only the state of deliveries has changed. */
  ghost predicate StatesAfter(rows: map<string, Delivery>, after: map<string, Delivery>,
      state: Delivery -> DeliveryState)
  {
    && after.Keys == rows.Keys
    && forall d :: d in rows ==> after[d] == rows[d].(state := state(rows[d]))
  }

  lemma AcquireEffect(s: Store, owner: string, now: int)
    ensures var (t, taken) := AcquireRunner(s, owner, now); AcquireDone(s, owner, now, t, taken)
  {
  }
}
