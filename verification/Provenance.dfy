/**
 Every valid observation and matter rests on current human evidence of its own
 thread, in every state the transactions can reach, whatever slow readers do with
 the snapshots they took earlier.
 */
module Provenance {
  import opened Common
  import opened Evidence

  // ---- What is kept --------------------------------------------------------

  /** Current, undeleted, in its thread, and with text that has not been erased. */
  predicate Fresh(s: Store, place: Place, id: nat) {
    Live(s, place, id) && s.revisions[id].excerpt != ""
  }

  predicate FromHuman(s: Store, id: nat) {
    id < |s.revisions| && !s.revisions[id].own && !s.revisions[id].bot
  }

  /**
   The thread was processed at its present generation, in an allowed channel, and every citation is
   fresh, one of them human.
   */
  predicate Backed(s: Store, place: Place, evidence: seq<nat>) {
    && place in s.threads && s.threads[place].processed == s.threads[place].generation
    && Allowed(s, place.channel)
    && (forall id :: id in evidence ==> Fresh(s, place, id))
    && (exists id :: id in evidence && FromHuman(s, id))
  }

  const NOWHERE := Threads({})

  ghost predicate ObservationsBacked(s: Store, except: Scope) {
    forall id :: id in s.observations && s.observations[id].valid && !Covers(except, s.observations[id].place) ==>
      Backed(s, s.observations[id].place, s.observations[id].evidence)
  }

  ghost predicate MattersBacked(s: Store, except: Scope) {
    forall id :: id in s.matters && s.matters[id].valid && !Covers(except, s.matters[id].place) ==>
      Backed(s, s.matters[id].place, s.matters[id].body.evidence)
  }

  /** The property the store is for. */
  ghost predicate AllBacked(s: Store) {
    ObservationsBacked(s, NOWHERE) && MattersBacked(s, NOWHERE)
  }

  // ---- What it takes to keep it --------------------------------------------

  ghost predicate Shaped(s: Store) {
    && (forall key :: key in s.messages ==>
          (s.messages[key] < |s.revisions|
           && s.revisions[s.messages[key]].place.channel == key.0 && s.revisions[s.messages[key]].ts == key.1))
    && (forall i :: 0 <= i < |s.revisions| ==> s.revisions[i].place.channel in s.channels)
    && (forall i :: 0 <= i < |s.revisions| && s.revisions[i].excerpt == "" ==> s.revisions[i].text == "")
  }

  predicate Matches(s: Store, snap: Snapshot, e: Citable) {
    Fresh(s, snap.place, e.id) && e.own == s.revisions[e.id].own && e.bot == s.revisions[e.id].bot
  }

  predicate NotNewer(s: Store, snap: Snapshot) {
    snap.place in s.threads && snap.generation <= s.threads[snap.place].generation
  }

  /** A snapshot of the thread's present generation still says the truth. */
  ghost predicate SnapshotsFresh(s: Store, issued: set<Snapshot>, except: Scope) {
    && (forall snap :: snap in issued ==> NotNewer(s, snap))
    && (forall snap ::
          snap in issued && !Covers(except, snap.place) && snap.generation == s.threads[snap.place].generation ==>
          forall e :: e in snap.evidence ==> Matches(s, snap, e))
  }

  /** An id used for both an observation and a matter stands for one thread. */
  ghost predicate IdsAgree(s: Store) {
    forall id :: id in s.observations && id in s.matters ==> s.observations[id].place == s.matters[id].place
  }

  /** All but `except`; a transaction breaks one scope and then invalidates it. */
  ghost predicate SoundBut(s: Store, issued: set<Snapshot>, except: Scope) {
    && Shaped(s) && ObservationsBacked(s, except) && MattersBacked(s, except) && SnapshotsFresh(s, issued, except)
    && IdsAgree(s)
  }

  ghost predicate Sound(s: Store, issued: set<Snapshot>) {
    SoundBut(s, issued, NOWHERE)
  }

  // ---- Invalidation repairs ------------------------------------------------

  lemma BackedElsewhere(s: Store, scope: Scope, place: Place, evidence: seq<nat>)
    requires !Covers(scope, place) && Backed(s, place, evidence)
    ensures Backed(Invalidate(s, scope), place, evidence)
  {
    var s' := Invalidate(s, scope);
    assert forall id :: id in evidence ==> Fresh(s', place, id) by {
      forall id | id in evidence
        ensures Fresh(s', place, id)
      {
        assert Fresh(s, place, id);
      }
    }
    var human :| human in evidence && FromHuman(s, human);
    assert FromHuman(s', human);
  }

  // ---- What invalidation leaves ----------------------------------------------

  /** The scope's threads, and no others, are in their next generation. */
  lemma InvalidatedThreads(s: Store, scope: Scope)
    ensures var t := Invalidate(s, scope);
      && t.threads.Keys == s.threads.Keys
      && forall p :: p in s.threads ==>
           t.threads[p].generation == s.threads[p].generation + (if Covers(scope, p) then 1 else 0)
  {
  }

  /** Findings of the scope are no longer valid, others are as they were. */
  lemma InvalidatedFindings(s: Store, scope: Scope)
    ensures var t := Invalidate(s, scope);
      && t.observations.Keys == s.observations.Keys && t.matters.Keys == s.matters.Keys
      && (forall id :: id in s.observations ==>
           (t.observations[id].valid <==> s.observations[id].valid && !Covers(scope, s.observations[id].place)))
      && (forall id :: id in s.matters ==>
           (t.matters[id].valid <==> s.matters[id].valid && !Covers(scope, s.matters[id].place)))
  {
  }

  /** A delivery that still waits afterwards waited before, and neither names an invalid matter nor cites the scope. */
  lemma InvalidatedDelivery(s: Store, scope: Scope, id: string)
    requires id in s.deliveries
    ensures var t := Invalidate(s, scope);
      && id in t.deliveries
      && (s.deliveries[id].state != Pending ==> t.deliveries[id] == s.deliveries[id])
      && (t.deliveries[id].state == Pending ==>
           && t.deliveries[id] == s.deliveries[id]
           && (forall m :: m in s.deliveries[id].matters && m in t.matters ==> t.matters[m].valid)
           && (forall r :: r in s.deliveries[id].evidence && r < |s.revisions| ==>
                !Covers(scope, s.revisions[r].place)))
  {
    var t := Invalidate(s, scope);
    if t.deliveries[id].state == Pending {
      assert !Undermined(s.deliveries[id], t.matters, s.revisions, scope);
    }
  }

  /** Invalidating a scope makes everything sound again, however unsound that scope was. */
  lemma InvalidateRepairs(s: Store, issued: set<Snapshot>, scope: Scope)
    requires SoundBut(s, issued, scope)
    ensures Sound(Invalidate(s, scope), issued)
  {
    var s' := Invalidate(s, scope);
    forall id | id in s'.observations && s'.observations[id].valid
      ensures Backed(s', s'.observations[id].place, s'.observations[id].evidence)
    {
      BackedElsewhere(s, scope, s.observations[id].place, s.observations[id].evidence);
    }
    forall id | id in s'.matters && s'.matters[id].valid
      ensures Backed(s', s'.matters[id].place, s'.matters[id].body.evidence)
    {
      BackedElsewhere(s, scope, s.matters[id].place, s.matters[id].body.evidence);
    }
    forall snap | snap in issued && snap.generation == s'.threads[snap.place].generation
      ensures forall e :: e in snap.evidence ==> Matches(s', snap, e)
    {
      assert NotNewer(s, snap);
      assert !Covers(scope, snap.place);
      forall e | e in snap.evidence
        ensures Matches(s', snap, e)
      {
        assert Matches(s, snap, e);
      }
    }
  }

  // ---- Channels ------------------------------------------------------------

  lemma ChannelSound(s: Store, issued: set<Snapshot>, id: string, allowed: bool, shared: bool, gapGiven: bool)
    requires Sound(s, issued)
    ensures Sound(SetChannel(s, id, allowed, shared, gapGiven), issued)
  {
    var s' := s.(channels := s.channels[id := ChannelRow(allowed, shared)]);
    var scope := if allowed then NOWHERE else WholeChannel(id);
    forall o | o in s.observations && s.observations[o].valid && !Covers(scope, s.observations[o].place)
      ensures Backed(s', s.observations[o].place, s.observations[o].evidence)
    {
      SameRevisions(s, s', s.observations[o].place, s.observations[o].evidence);
    }
    forall m | m in s.matters && s.matters[m].valid && !Covers(scope, s.matters[m].place)
      ensures Backed(s', s.matters[m].place, s.matters[m].body.evidence)
    {
      SameRevisions(s, s', s.matters[m].place, s.matters[m].body.evidence);
    }
    forall snap | snap in issued && snap.generation == s'.threads[snap.place].generation
      ensures forall e :: e in snap.evidence ==> Matches(s', snap, e)
    {
      assert forall e :: e in snap.evidence ==> Matches(s, snap, e);
    }
    assert SoundBut(s', issued, scope);
    if !allowed {
      InvalidateRepairs(s', issued, scope);
    }
  }

  lemma SameRevisions(s: Store, s': Store, place: Place, evidence: seq<nat>)
    requires Backed(s, place, evidence) && Allowed(s', place.channel)
    requires s'.threads == s.threads && s'.revisions == s.revisions && s'.messages == s.messages
    ensures Backed(s', place, evidence)
  {
    forall id | id in evidence
      ensures Fresh(s', place, id)
    {
      assert Fresh(s, place, id);
    }
    var human :| human in evidence && FromHuman(s, human);
    assert FromHuman(s', human);
  }

  // ---- Source messages -----------------------------------------------------

  /** The message is new, or stays in the thread it was first seen in. */
  predicate KeepsThread(s: Store, m: Message) {
    var known := Known(s, m);
    known.Some? && known.value < |s.revisions| ==> s.revisions[known.value].place == m.place
  }

  /** A revision other than the replaced one stays as fresh as it was. */
  lemma FreshAfterAppend(s: Store, m: Message, now: int, place: Place, id: nat)
    requires Fresh(s, place, id) && Known(s, m) != Some(id)
    ensures Fresh(Appended(s, m, now), place, id)
  {
    var key := (s.revisions[id].place.channel, s.revisions[id].ts);
    assert s.messages[key] == id;
    assert key != (m.place.channel, m.ts);
  }

  lemma BackedAfterAppend(s: Store, m: Message, now: int, place: Place, evidence: seq<nat>)
    requires Backed(s, place, evidence) && forall id :: id in evidence ==> Known(s, m) != Some(id)
    ensures Backed(Appended(s, m, now), place, evidence)
  {
    forall id | id in evidence
      ensures Fresh(Appended(s, m, now), place, id)
    {
      FreshAfterAppend(s, m, now, place, id);
    }
    var human :| human in evidence && FromHuman(s, human);
    assert FromHuman(Appended(s, m, now), human);
  }

  /** No valid item outside the message's thread cites the revision the message replaces. */
  ghost predicate NotCitedElsewhere(s: Store, m: Message) {
    var known := Known(s, m);
    known.Some? ==>
      && (forall id :: id in s.observations && s.observations[id].valid && s.observations[id].place != m.place ==>
            known.value !in s.observations[id].evidence)
      && (forall id :: id in s.matters && s.matters[id].valid && s.matters[id].place != m.place ==>
            known.value !in s.matters[id].body.evidence)
  }

  /** The places an append may have damaged: the message's own thread, when it replaced something. */
  function Damaged(s: Store, m: Message): Scope {
    if Known(s, m).Some? && m.place in s.threads then Threads({m.place}) else NOWHERE
  }

  lemma AppendBacked(s: Store, issued: set<Snapshot>, m: Message, now: int)
    requires Sound(s, issued) && NotCitedElsewhere(s, m)
    ensures var s' := Appended(s, m, now); ObservationsBacked(s', Damaged(s, m)) && MattersBacked(s', Damaged(s, m))
  {
    var s' := Appended(s, m, now);
    forall id | id in s.observations && s.observations[id].valid && !Covers(Damaged(s, m), s.observations[id].place)
      ensures Backed(s', s.observations[id].place, s.observations[id].evidence)
    {
      BackedAfterAppend(s, m, now, s.observations[id].place, s.observations[id].evidence);
    }
    forall id | id in s.matters && s.matters[id].valid && !Covers(Damaged(s, m), s.matters[id].place)
      ensures Backed(s', s.matters[id].place, s.matters[id].body.evidence)
    {
      BackedAfterAppend(s, m, now, s.matters[id].place, s.matters[id].body.evidence);
    }
  }

  lemma AppendShaped(s: Store, m: Message, now: int)
    requires Shaped(s) && Allowed(s, m.place.channel)
    ensures Shaped(Appended(s, m, now))
  {
  }

  lemma AppendSnapshots(s: Store, issued: set<Snapshot>, m: Message, now: int)
    requires Sound(s, issued) && KeepsThread(s, m)
    ensures SnapshotsFresh(Appended(s, m, now), issued, Damaged(s, m))
  {
    var s' := Appended(s, m, now);
    forall snap | snap in issued && !Covers(Damaged(s, m), snap.place)
      && snap.generation == s'.threads[snap.place].generation
      ensures forall e :: e in snap.evidence ==> Matches(s', snap, e)
    {
      assert NotNewer(s, snap);
      forall e | e in snap.evidence
        ensures Matches(s', snap, e)
      {
        assert Matches(s, snap, e);
        FreshAfterAppend(s, m, now, snap.place, e.id);
      }
    }
  }

  lemma KeptThreadIsNotCitedElsewhere(s: Store, issued: set<Snapshot>, m: Message)
    requires Sound(s, issued) && KeepsThread(s, m)
    ensures NotCitedElsewhere(s, m)
  {
    var known := Known(s, m);
    if known.Some? {
      forall id | id in s.observations && s.observations[id].valid && s.observations[id].place != m.place
        ensures known.value !in s.observations[id].evidence
      {
        assert Backed(s, s.observations[id].place, s.observations[id].evidence);
        assert known.value in s.observations[id].evidence ==> Fresh(s, s.observations[id].place, known.value);
      }
      forall id | id in s.matters && s.matters[id].valid && s.matters[id].place != m.place
        ensures known.value !in s.matters[id].body.evidence
      {
        assert Backed(s, s.matters[id].place, s.matters[id].body.evidence);
        assert known.value in s.matters[id].body.evidence ==> Fresh(s, s.matters[id].place, known.value);
      }
    }
  }

  lemma TouchKeeps(s: Store, issued: set<Snapshot>, place: Place, now: int)
    requires SoundBut(s, issued, Threads({place}))
    ensures SoundBut(TouchedThread(s, place, now), issued, Threads({place}))
  {
    var s' := TouchedThread(s, place, now);
    forall id | id in s.observations && s.observations[id].valid && s.observations[id].place != place
      ensures Backed(s', s.observations[id].place, s.observations[id].evidence)
    {
      assert Backed(s, s.observations[id].place, s.observations[id].evidence);
      BackedBesides(s, s', s.observations[id].place, s.observations[id].evidence);
    }
    forall id | id in s.matters && s.matters[id].valid && s.matters[id].place != place
      ensures Backed(s', s.matters[id].place, s.matters[id].body.evidence)
    {
      assert Backed(s, s.matters[id].place, s.matters[id].body.evidence);
      BackedBesides(s, s', s.matters[id].place, s.matters[id].body.evidence);
    }
    forall snap | snap in issued && snap.place != place && snap.generation == s'.threads[snap.place].generation
      ensures forall e :: e in snap.evidence ==> Matches(s', snap, e)
    {
      assert NotNewer(s, snap);
      assert forall e :: e in snap.evidence ==> Matches(s, snap, e);
    }
    assert forall snap :: snap in issued ==> NotNewer(s, snap);
  }

  lemma BackedBesides(s: Store, s': Store, place: Place, evidence: seq<nat>)
    requires Backed(s, place, evidence)
    requires s'.channels == s.channels && s'.revisions == s.revisions && s'.messages == s.messages
    requires place in s'.threads && s'.threads[place] == s.threads[place]
    ensures Backed(s', place, evidence)
  {
    forall id | id in evidence
      ensures Fresh(s', place, id)
    {
      assert Fresh(s, place, id);
    }
    var human :| human in evidence && FromHuman(s, human);
    assert FromHuman(s', human);
  }

  /** Only the time of the last change differs. */
  lemma RedatedSound(s: Store, issued: set<Snapshot>, place: Place, now: int)
    requires Sound(s, issued) && place in s.threads
    ensures Sound(s.(threads := s.threads[place := s.threads[place].(changed := now)]), issued)
  {
    var s' := s.(threads := s.threads[place := s.threads[place].(changed := now)]);
    forall id | id in s.observations && s.observations[id].valid
      ensures Backed(s', s.observations[id].place, s.observations[id].evidence)
    {
      SameGenerations(s, s', s.observations[id].place, s.observations[id].evidence);
    }
    forall id | id in s.matters && s.matters[id].valid
      ensures Backed(s', s.matters[id].place, s.matters[id].body.evidence)
    {
      SameGenerations(s, s', s.matters[id].place, s.matters[id].body.evidence);
    }
    assert forall snap :: snap in issued ==> NotNewer(s, snap);
    forall snap, e | snap in issued && snap.generation == s'.threads[snap.place].generation && e in snap.evidence
      ensures Matches(s', snap, e)
    {
      assert Matches(s, snap, e);
    }
  }

  lemma SameGenerations(s: Store, s': Store, place: Place, evidence: seq<nat>)
    requires Backed(s, place, evidence)
    requires s'.channels == s.channels && s'.revisions == s.revisions && s'.messages == s.messages
    requires place in s'.threads && s'.threads[place].generation == s.threads[place].generation
    requires s'.threads[place].processed == s.threads[place].processed
    ensures Backed(s', place, evidence)
  {
    forall id | id in evidence
      ensures Fresh(s', place, id)
    {
      assert Fresh(s, place, id);
    }
    var human :| human in evidence && FromHuman(s, human);
    assert FromHuman(s', human);
  }

  /** Dropping an event id or adding one touches nothing that counts. */
  lemma EventsDoNotMatter(s: Store, issued: set<Snapshot>, events: map<string, int>)
    requires Sound(s, issued)
    ensures Sound(s.(events := events), issued)
  {
    var s' := s.(events := events);
    forall id | id in s.observations && s.observations[id].valid
      ensures Backed(s', s.observations[id].place, s.observations[id].evidence)
    {
      SameRevisions(s, s', s.observations[id].place, s.observations[id].evidence);
    }
    forall id | id in s.matters && s.matters[id].valid
      ensures Backed(s', s.matters[id].place, s.matters[id].body.evidence)
    {
      SameRevisions(s, s', s.matters[id].place, s.matters[id].body.evidence);
    }
    forall snap, e | snap in issued && snap.generation == s'.threads[snap.place].generation && e in snap.evidence
      ensures Matches(s', snap, e)
    {
      assert Matches(s, snap, e);
    }
  }

  lemma WiderException(s: Store, issued: set<Snapshot>, place: Place, scope: Scope)
    requires SoundBut(s, issued, scope) && (scope == NOWHERE || scope == Threads({place}))
    ensures SoundBut(s, issued, Threads({place}))
  {
  }

  /** The rest of a recording repairs what the append left broken. */
  lemma RecordRepairs(s: Store, issued: set<Snapshot>, m: Message, now: int)
    requires Record(s, m, now).1.Stored? && SoundBut(Appended(s, m, now), issued, Damaged(s, m))
    ensures Sound(Record(s, m, now).0, issued)
  {
    var s1 := Appended(s, m, now);
    if !m.own {
      WiderException(s1, issued, m.place, Damaged(s, m));
      TouchKeeps(s1, issued, m.place, now);
      InvalidateRepairs(TouchedThread(s1, m.place, now), issued, Threads({m.place}));
    } else if Known(s, m).Some? && m.place in s.threads {
      InvalidateRepairs(s1, issued, Threads({m.place}));
      RedatedSound(Invalidate(s1, Threads({m.place})), issued, m.place, now);
    }
  }

  lemma RecordSound(s: Store, issued: set<Snapshot>, m: Message, now: int)
    requires Sound(s, issued) && KeepsThread(s, m)
    ensures Sound(Record(s, m, now).0, issued)
  {
    var (s', outcome) := Record(s, m, now);
    if outcome.Skipped? {
      EventsDoNotMatter(s, issued, s'.events);
      assert s' == s.(events := s'.events);
    } else if outcome.Stored? {
      KeptThreadIsNotCitedElsewhere(s, issued, m);
      AppendBacked(s, issued, m, now);
      AppendShaped(s, m, now);
      AppendSnapshots(s, issued, m, now);
      RecordRepairs(s, issued, m, now);
    }
  }

  lemma ReplacedIsNotFresh(s: Store, m: Message, now: int, place: Place)
    requires Shaped(s) && Record(s, m, now).1.Stored? && Known(s, m).Some?
    ensures !Fresh(Record(s, m, now).0, place, Known(s, m).value)
  {
    var s', id := Record(s, m, now).0, Known(s, m).value;
    assert s'.messages == s.messages[(m.place.channel, m.ts) := |s.revisions|];
    assert s'.revisions[id] == s.revisions[id];
  }

  lemma InvalidateElsewhere(s: Store, scope: Scope, id: string)
    ensures id in s.observations && !Covers(scope, s.observations[id].place) ==>
      id in Invalidate(s, scope).observations && Invalidate(s, scope).observations[id] == s.observations[id]
    ensures id in s.matters && !Covers(scope, s.matters[id].place) ==>
      id in Invalidate(s, scope).matters && Invalidate(s, scope).matters[id] == s.matters[id]
  {
  }

  lemma RecordElsewhereUntouched(s: Store, m: Message, now: int, id: string)
    requires Record(s, m, now).1.Stored?
    ensures id in s.observations && s.observations[id].place != m.place ==>
      id in Record(s, m, now).0.observations && Record(s, m, now).0.observations[id] == s.observations[id]
    ensures id in s.matters && s.matters[id].place != m.place ==>
      id in Record(s, m, now).0.matters && Record(s, m, now).0.matters[id] == s.matters[id]
  {
    var s1 := Appended(s, m, now);
    if m.own {
      InvalidateElsewhere(s1, Threads({m.place}), id);
    } else {
      InvalidateElsewhere(TouchedThread(s1, m.place, now), Threads({m.place}), id);
    }
  }

  lemma RecordBreaks(s: Store, m: Message, now: int)
    requires Shaped(s) && Record(s, m, now).1.Stored? && !NotCitedElsewhere(s, m)
    ensures !AllBacked(Record(s, m, now).0)
  {
    var s', known := Record(s, m, now).0, Known(s, m).value;
    if id :| id in s.observations && s.observations[id].valid && s.observations[id].place != m.place
             && known in s.observations[id].evidence {
      RecordElsewhereUntouched(s, m, now, id);
      ReplacedIsNotFresh(s, m, now, s.observations[id].place);
      assert !Backed(s', s'.observations[id].place, s'.observations[id].evidence);
    } else {
      var id :| id in s.matters && s.matters[id].valid && s.matters[id].place != m.place
        && known in s.matters[id].body.evidence;
      RecordElsewhereUntouched(s, m, now, id);
      ReplacedIsNotFresh(s, m, now, s.matters[id].place);
      assert !Backed(s', s'.matters[id].place, s'.matters[id].body.evidence);
    }
  }

  /** Recording keeps the property exactly when nothing valid in another thread cites the revision that is replaced. */
  lemma RecordExact(s: Store, issued: set<Snapshot>, m: Message, now: int)
    requires Sound(s, issued) && Record(s, m, now).1.Stored?
    ensures AllBacked(Record(s, m, now).0) <==> NotCitedElsewhere(s, m)
  {
    if NotCitedElsewhere(s, m) {
      // With no snapshot outstanding the append is unsound in the message's thread only.
      AppendBacked(s, issued, m, now);
      AppendShaped(s, m, now);
      RecordRepairs(s, {}, m, now);
    } else {
      RecordBreaks(s, m, now);
    }
  }
}
