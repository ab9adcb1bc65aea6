/**
 What each transaction of the store leaves in its rows, told on the rows alone: which it changes
 and how, and that it changes no other.
 */
module Effects {
  import opened Common
  import opened Evidence

  // ---- Findings that are withdrawn ------------------------------------------

  /** The delivery waits, and names a matter that is invalid or of these places, or cites a revision of them. */
  ghost predicate Disturbed(matters: map<string, MatterRow>, d: Delivery, gone: Place -> bool,
      revisions: seq<Revision>) {
    && d.state == Pending
    && ((exists m :: m in d.matters && m in matters && (!matters[m].valid || gone(matters[m].place)))
        || (exists r :: r in d.evidence && r < |revisions| && gone(revisions[r].place)))
  }

  ghost predicate ObservationsFall(rows: map<string, ObservationRow>, after: map<string, ObservationRow>,
      gone: Place -> bool) {
    && after.Keys == rows.Keys
    && forall o :: o in rows ==> after[o] == if gone(rows[o].place) then rows[o].(valid := false) else rows[o]
  }

  ghost predicate MattersFall(rows: map<string, MatterRow>, after: map<string, MatterRow>, gone: Place -> bool) {
    && after.Keys == rows.Keys
    && forall m :: m in rows ==> after[m] == if gone(rows[m].place) then rows[m].(valid := false) else rows[m]
  }

  ghost predicate DeliveriesFall(s: Store, after: map<string, Delivery>, gone: Place -> bool,
      revisions: seq<Revision>) {
    && after.Keys == s.deliveries.Keys
    && forall d :: d in s.deliveries ==>
      after[d] == if Disturbed(s.matters, s.deliveries[d], gone, revisions)
                  then s.deliveries[d].(state := Cancelled) else s.deliveries[d]
  }

  /** The threads of these places are in their next generation, and no other has changed. */
  ghost predicate ThreadsOn(rows: map<Place, ThreadRow>, after: map<Place, ThreadRow>, gone: Place -> bool) {
    && after.Keys == rows.Keys
    && forall p :: p in rows ==>
      after[p] == if gone(p) then rows[p].(generation := rows[p].generation + 1) else rows[p]
  }

  /** Findings of these places are no longer valid, and what waited for them is withdrawn. */
  ghost predicate Withdrawn(s: Store, t: Store, gone: Place -> bool) {
    && ObservationsFall(s.observations, t.observations, gone) && MattersFall(s.matters, t.matters, gone)
    && DeliveriesFall(s, t.deliveries, gone, t.revisions)
  }

  ghost predicate SameFindings(s: Store, t: Store) {
    t.threads == s.threads && t.observations == s.observations && t.matters == s.matters && t.deliveries == s.deliveries
  }

  ghost predicate SameBooks(s: Store, t: Store) {
    t.revisions == s.revisions && t.messages == s.messages && t.events == s.events
  }

  ghost predicate SameOffice(s: Store, t: Store) {
    t.settings == s.settings && t.runner == s.runner
  }

  lemma UnderminedIsDisturbed(s: Store, scope: Scope, d: Delivery, gone: Place -> bool)
    requires forall p :: Covers(scope, p) <==> gone(p)
    ensures d.state == Pending && Undermined(d, DroppedMatters(s.matters, scope), s.revisions, scope)
       <==> Disturbed(s.matters, d, gone, s.revisions)
  {
    var rows := DroppedMatters(s.matters, scope);
    assert forall m :: m in s.matters ==> (!rows[m].valid <==> !s.matters[m].valid || gone(s.matters[m].place));
  }

  /** The store before and the one that is invalidated may differ in other tables. */
  lemma InvalidateWithdraws(s: Store, s1: Store, scope: Scope, gone: Place -> bool)
    requires forall p :: Covers(scope, p) <==> gone(p)
    requires s1.observations == s.observations && s1.matters == s.matters && s1.deliveries == s.deliveries
    ensures Withdrawn(s, Invalidate(s1, scope), gone) && ThreadsOn(s1.threads, Invalidate(s1, scope).threads, gone)
  {
    forall d | d in s.deliveries
      ensures s.deliveries[d].state == Pending
          && Undermined(s.deliveries[d], DroppedMatters(s.matters, scope), s1.revisions, scope)
         <==> Disturbed(s.matters, s.deliveries[d], gone, s1.revisions)
    {
      UnderminedIsDisturbed(s1, scope, s.deliveries[d], gone);
    }
  }

  lemma InvalidateKeeps(s: Store, scope: Scope)
    ensures var t := Invalidate(s, scope); SameBooks(s, t) && SameOffice(s, t) && t.channels == s.channels
  {
  }

  // ---- Access ---------------------------------------------------------------

  function Of(channel: string): Place -> bool {
    (p: Place) => p.channel == channel
  }

  /**
   The access row is stored and no other changes. Only when access is denied, and the row was another
   or a gap was reported, the channel's threads go into their next generation with all that rests on them.
   */
  ghost predicate ChannelDone(s: Store, t: Store, id: string, allowed: bool, shared: bool, gapGiven: bool) {
    && t.channels == s.channels[id := ChannelRow(allowed, shared)]
    && SameBooks(s, t) && SameOffice(s, t)
    && if allowed || (!gapGiven && id in s.channels && s.channels[id] == ChannelRow(allowed, shared))
       then SameFindings(s, t)
       else
         ThreadsOn(s.threads, t.threads, Of(id)) && Withdrawn(s, t, Of(id))
  }

  lemma DeniedEffect(s: Store, id: string, shared: bool)
    ensures var s1 := s.(channels := s.channels[id := ChannelRow(false, shared)]);
      var t := Invalidate(s1, WholeChannel(id));
      && t.channels == s1.channels && SameBooks(s, t) && SameOffice(s, t)
      && ThreadsOn(s.threads, t.threads, Of(id)) && Withdrawn(s, t, Of(id))
  {
    var s1 := s.(channels := s.channels[id := ChannelRow(false, shared)]);
    InvalidateWithdraws(s, s1, WholeChannel(id), Of(id));
    InvalidateKeeps(s1, WholeChannel(id));
  }

  lemma ChannelEffect(s: Store, id: string, allowed: bool, shared: bool, gapGiven: bool)
    ensures ChannelDone(s, SetChannel(s, id, allowed, shared, gapGiven), id, allowed, shared, gapGiven)
  {
    var row := ChannelRow(allowed, shared);
    if !gapGiven && id in s.channels && s.channels[id] == row {
      assert s.channels[id := row] == s.channels;
    } else if !allowed {
      DeniedEffect(s, id, shared);
    }
  }

  ghost predicate CitesNothingOf(evidence: seq<nat>, revisions: seq<Revision>, channel: string) {
    forall r :: r in evidence && r < |revisions| ==> revisions[r].place.channel != channel
  }

  /** So a channel that loses its access keeps no valid finding, no thread of a snapshot, and nothing waits on it. */
  lemma DeniedIsForgotten(s: Store, id: string, shared: bool, gapGiven: bool)
    requires gapGiven || id !in s.channels || s.channels[id].allowed
    ensures var t := SetChannel(s, id, false, shared, gapGiven);
      && !Allowed(t, id)
      && (forall o :: o in t.observations && t.observations[o].place.channel == id ==> !t.observations[o].valid)
      && (forall m :: m in t.matters && t.matters[m].place.channel == id ==> !t.matters[m].valid)
      && (forall p :: p in s.threads && p.channel == id ==>
            p in t.threads && t.threads[p].generation == s.threads[p].generation + 1)
      && forall d :: d in t.deliveries && t.deliveries[d].state == Pending ==>
           CitesNothingOf(t.deliveries[d].evidence, t.revisions, id)
  {
    ChannelEffect(s, id, false, shared, gapGiven);
    var t := SetChannel(s, id, false, shared, gapGiven);
    forall d | d in t.deliveries && t.deliveries[d].state == Pending
      ensures CitesNothingOf(t.deliveries[d].evidence, t.revisions, id)
    {
      assert !Disturbed(s.matters, s.deliveries[d], Of(id), t.revisions);
      forall r | r in t.deliveries[d].evidence && r < |t.revisions| ensures t.revisions[r].place.channel != id {
        assert !Of(id)(t.revisions[r].place);
      }
    }
  }

  // ---- Source messages --------------------------------------------------------

  function At(place: Place): Place -> bool {
    (p: Place) => p == place
  }

  /** Well formed, of an allowed channel, not wholly older than the watermark, and not delivered before. */
  ghost predicate Welcome(s: Store, m: Message) {
    && IsStamp(m.ts) && IsStamp(m.version)
    && m.place.channel in s.channels && s.channels[m.place.channel].allowed
    && (m.context || s.settings.watermark <= Seconds(m.ts) || s.settings.watermark <= Seconds(m.version))
    && (m.eventId == "" || m.eventId !in s.events)
  }

  /** What the message shows now is deleted, newer, or the same content under the same version. */
  predicate Outdone(shown: Revision, m: Message) {
    || shown.deleted
    || Seconds(m.version) < Seconds(shown.version)
    || (shown.version == m.version && shown.hash == Hash(m.deleted, m.own || m.bot, m.text))
  }

  ghost predicate OutdoneIn(s: Store, m: Message) {
    && (m.place.channel, m.ts) in s.messages && s.messages[(m.place.channel, m.ts)] < |s.revisions|
    && Outdone(s.revisions[s.messages[(m.place.channel, m.ts)]], m)
  }

  /** The same content has been stored under this version of the message before. */
  ghost predicate InBooks(s: Store, m: Message) {
    exists r :: r in s.revisions && r.place.channel == m.place.channel && r.ts == m.ts && r.version == m.version
      && r.hash == Hash(m.deleted, m.own || m.bot, m.text)
  }

  /** The row of the message: a message of the assistant counts as automated. */
  ghost predicate RowOf(r: Revision, m: Message, now: int) {
    && r.place == m.place && r.ts == m.ts && r.version == m.version && r.text == m.text
    && r.excerpt <= m.text && |r.excerpt| <= 2000 && (|m.text| > 2000 ==> |r.excerpt| == 2000)
    && (|m.text| <= 2000 ==> r.excerpt == m.text)
    && r.deleted == m.deleted && r.own == m.own && r.bot == (m.own || m.bot) && r.captured == now
    && r.hash == Hash(m.deleted, m.own || m.bot, m.text)
  }

  /** The event is noted, if the message came with one. */
  ghost predicate Noted(s: Store, t: Store, m: Message, now: int) {
    t.events == if m.eventId == "" then s.events else s.events[m.eventId := now]
  }

  /** One more revision, which its message now shows. */
  ghost predicate Booked(s: Store, t: Store, m: Message, now: int) {
    && |t.revisions| == |s.revisions| + 1 && t.revisions[..|s.revisions|] == s.revisions
    && RowOf(t.revisions[|s.revisions|], m, now)
    && t.messages == s.messages[(m.place.channel, m.ts) := |s.revisions|] && Noted(s, t, m, now)
  }

  /** The thread has changed now, so many generations on; a thread not seen before starts there. */
  ghost predicate ThreadChanged(s: Store, t: Store, place: Place, more: nat, now: int) {
    t.threads == s.threads[place :=
      if place in s.threads then ThreadRow(s.threads[place].generation + more, s.threads[place].processed, now)
      else ThreadRow(more, 0, now)]
  }

  /**
   A message that is welcome and says something new is booked. Another's message changes its thread,
   by two generations, with all that rests on it; the assistant's own does so, by one, only when it
   replaces what was shown in a thread that is known.
   */
  ghost predicate RecordDone(s: Store, t: Store, m: Message, now: int, outcome: Recording) {
    && t.channels == s.channels && SameOffice(s, t)
    && if !Welcome(s, m) then outcome == Skipped && t == s
       else if OutdoneIn(s, m) then
         outcome == Skipped && SameFindings(s, t) && t.revisions == s.revisions && t.messages == s.messages
         && Noted(s, t, m, now)
       else if InBooks(s, m) then outcome == Duplicate && t == s
       else
         && outcome == Stored(|s.revisions|) && Booked(s, t, m, now)
         && if !m.own then ThreadChanged(s, t, m.place, 2, now) && Withdrawn(s, t, At(m.place))
            else if (m.place.channel, m.ts) in s.messages && m.place in s.threads
            then ThreadChanged(s, t, m.place, 1, now) && Withdrawn(s, t, At(m.place))
            else SameFindings(s, t)
  }

  lemma StoredWhen(s: Store, m: Message, now: int)
    ensures !Welcome(s, m) <==> Refused(s, m) || Redelivered(s, m)
    ensures InBooks(s, m) <==> Repeats(s, m)
    ensures OutdoneIn(s, m) <==>
      Known(s, m).Some? && Known(s, m).value < |s.revisions| && Superseded(s.revisions[Known(s, m).value], m)
  {
    if i :| 0 <= i < |s.revisions| && s.revisions[i].place.channel == m.place.channel && s.revisions[i].ts == m.ts
             && s.revisions[i].version == m.version && s.revisions[i].hash == HashOf(m) {
      assert s.revisions[i] in s.revisions;
    }
  }

  lemma AppendBooks(s: Store, m: Message, now: int)
    ensures var t := Appended(s, m, now);
      Booked(s, t, m, now) && SameFindings(s, t) && SameOffice(s, t) && t.channels == s.channels
  {
  }

  lemma OthersEffect(s: Store, m: Message, now: int)
    ensures var t := Invalidate(TouchedThread(Appended(s, m, now), m.place, now), Threads({m.place}));
      && Booked(s, t, m, now) && t.channels == s.channels && SameOffice(s, t)
      && ThreadChanged(s, t, m.place, 2, now) && Withdrawn(s, t, At(m.place))
  {
    var s1 := TouchedThread(Appended(s, m, now), m.place, now);
    AppendBooks(s, m, now);
    InvalidateWithdraws(s, s1, Threads({m.place}), At(m.place));
    InvalidateKeeps(s1, Threads({m.place}));
  }

  lemma OwnEffect(s: Store, m: Message, now: int)
    requires m.place in s.threads
    ensures var t := Invalidate(Appended(s, m, now), Threads({m.place}));
      && m.place in t.threads
      && var u := t.(threads := t.threads[m.place := t.threads[m.place].(changed := now)]);
      && Booked(s, u, m, now) && u.channels == s.channels && SameOffice(s, u)
      && ThreadChanged(s, u, m.place, 1, now) && Withdrawn(s, u, At(m.place))
  {
    var s1 := Appended(s, m, now);
    AppendBooks(s, m, now);
    InvalidateWithdraws(s, s1, Threads({m.place}), At(m.place));
    InvalidateKeeps(s1, Threads({m.place}));
  }

  lemma RecordEffect(s: Store, m: Message, now: int)
    ensures RecordDone(s, Record(s, m, now).0, m, now, Record(s, m, now).1)
  {
    StoredWhen(s, m, now);
    if Record(s, m, now).1.Stored? {
      AppendBooks(s, m, now);
      if !m.own {
        OthersEffect(s, m, now);
      } else if m.place in s.threads {
        OwnEffect(s, m, now);
      }
    }
  }
}
