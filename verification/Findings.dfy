/** Applying findings: what the checks establish, and exactly which batches keep provenance. */
module Findings {
  import opened Common
  import opened Evidence
  import opened Provenance
  import Jobs

  // ---- What the checks establish -------------------------------------------

  lemma {:induction false} FoundSnapshot(snaps: seq<Snapshot>, place: Place)
    requires Find(snaps, place).Some?
    ensures Find(snaps, place).value in snaps && Find(snaps, place).value.place == place
  {
    if snaps[0].place != place {
      FoundSnapshot(snaps[1..], place);
    }
  }

  lemma {:induction false} FoundCitable(evidence: seq<Citable>, id: nat)
    requires FindCitable(evidence, id).Some?
    ensures FindCitable(evidence, id).value in evidence && FindCitable(evidence, id).value.id == id
  {
    if evidence[0].id != id {
      FoundCitable(evidence[1..], id);
    }
  }

  /** Everything an accepted item claims about its thread and citations. */
  ghost predicate Supported(s: Store, snaps: seq<Snapshot>, item: Item) {
    && (exists snap :: snap in snaps && snap.place == item.place)
    && item.place in s.threads && Allowed(s, item.place.channel)
    && (forall id :: id in item.evidence ==> Fresh(s, item.place, id))
    && (exists id :: id in item.evidence && FromHuman(s, id))
    && (PlaceOf(s, item.id).Some? ==> PlaceOf(s, item.id).value == item.place)
  }

  lemma AcceptedIsSupported(s: Store, issued: set<Snapshot>, snaps: seq<Snapshot>, item: Item)
    requires Sound(s, issued) && CurrentSnapshots(s, snaps) && forall snap :: snap in snaps ==> snap in issued
    requires CheckItem(s, snaps, item) == Applied
    ensures Supported(s, snaps, item)
  {
    FoundSnapshot(snaps, item.place);
    var snap := Find(snaps, item.place).value;
    assert snap in issued && snap.generation == s.threads[snap.place].generation;
    forall id | id in item.evidence
      ensures Fresh(s, item.place, id)
      ensures !Automated(snap, id) ==> FromHuman(s, id)
    {
      assert Cites(snap, id);
      FoundCitable(snap.evidence, id);
      assert Matches(s, snap, FindCitable(snap.evidence, id).value);
    }
    var human :| human in item.evidence && !Automated(snap, human);
    assert FromHuman(s, human);
  }

  lemma {:induction false} AllAccepted(s: Store, snaps: seq<Snapshot>, items: seq<Item>, i: nat)
    requires CheckItems(s, snaps, items) == Applied && i < |items|
    ensures CheckItem(s, snaps, items[i]) == Applied
  {
    if i > 0 {
      AllAccepted(s, snaps, items[1..], i - 1);
    }
  }

  // ---- Marking threads processed -------------------------------------------

  predicate Among(snaps: seq<Snapshot>, place: Place) {
    exists snap :: snap in snaps && snap.place == place
  }

  lemma {:induction false} MarkedThreads(s: Store, snaps: seq<Snapshot>)
    requires CurrentSnapshots(s, snaps)
    ensures var s' := MarkProcessed(s, snaps);
      && s' == s.(threads := s'.threads, observations := s'.observations)
      && s'.threads.Keys == s.threads.Keys
      && (forall p :: p in s.threads ==>
            s'.threads[p].generation == s.threads[p].generation && s'.threads[p].changed == s.threads[p].changed)
      && (forall p :: p in s.threads ==>
            s'.threads[p].processed == if Among(snaps, p) then s.threads[p].generation else s.threads[p].processed)
    decreases |snaps|
  {
    if snaps != [] {
      var rest, snap := snaps[..|snaps| - 1], snaps[|snaps| - 1];
      assert snaps == rest + [snap];
      assert forall p :: Among(snaps, p) <==> Among(rest, p) || p == snap.place;
      MarkedThreads(s, rest);
      assert snap in snaps;
    }
  }

  lemma {:induction false} MarkedObservations(s: Store, snaps: seq<Snapshot>)
    ensures var rows := MarkProcessed(s, snaps).observations;
      && rows.Keys == s.observations.Keys
      && (forall id :: id in s.observations ==>
            rows[id] == if Among(snaps, s.observations[id].place) then s.observations[id].(valid := false)
              else s.observations[id])
    decreases |snaps|
  {
    if snaps != [] {
      var rest, snap := snaps[..|snaps| - 1], snaps[|snaps| - 1];
      assert snaps == rest + [snap];
      assert forall p :: Among(snaps, p) <==> Among(rest, p) || p == snap.place;
      MarkedObservations(s, rest);
    }
  }

  /** Marking touches only threads and the validity of observations. */
  lemma {:induction false} MarkKeepsTables(s: Store, snaps: seq<Snapshot>)
    ensures MarkProcessed(s, snaps).matters == s.matters && MarkProcessed(s, snaps).revisions == s.revisions
    ensures MarkProcessed(s, snaps).messages == s.messages && MarkProcessed(s, snaps).deliveries == s.deliveries
    decreases |snaps|
  {
    if snaps != [] {
      MarkKeepsTables(s, snaps[..|snaps| - 1]);
    }
  }

  lemma MarkedRows(s: Store, issued: set<Snapshot>, snaps: seq<Snapshot>)
    requires Sound(s, issued) && CurrentSnapshots(s, snaps)
    ensures AllBacked(MarkProcessed(s, snaps))
  {
    var s' := MarkProcessed(s, snaps);
    MarkedThreads(s, snaps);
    MarkedObservations(s, snaps);
    forall id | id in s'.observations && s'.observations[id].valid
      ensures Backed(s', s'.observations[id].place, s'.observations[id].evidence)
    {
      assert Backed(s, s.observations[id].place, s.observations[id].evidence);
      SameGenerations(s, s', s.observations[id].place, s.observations[id].evidence);
    }
    forall id | id in s'.matters && s'.matters[id].valid
      ensures Backed(s', s'.matters[id].place, s'.matters[id].body.evidence)
    {
      assert Backed(s, s.matters[id].place, s.matters[id].body.evidence);
      assert s.threads[s.matters[id].place].processed == s.threads[s.matters[id].place].generation;
      SameGenerations(s, s', s.matters[id].place, s.matters[id].body.evidence);
    }
  }

  lemma MarkedSnapshots(s: Store, issued: set<Snapshot>, snaps: seq<Snapshot>)
    requires SnapshotsFresh(s, issued, NOWHERE) && CurrentSnapshots(s, snaps)
    ensures SnapshotsFresh(MarkProcessed(s, snaps), issued, NOWHERE)
  {
    var s' := MarkProcessed(s, snaps);
    MarkedThreads(s, snaps);
    assert forall snap :: snap in issued ==> NotNewer(s, snap);
    forall snap, e | snap in issued && snap.generation == s'.threads[snap.place].generation && e in snap.evidence
      ensures Matches(s', snap, e)
    {
      assert Matches(s, snap, e);
    }
  }

  lemma MarkSound(s: Store, issued: set<Snapshot>, snaps: seq<Snapshot>)
    requires Sound(s, issued) && CurrentSnapshots(s, snaps)
    ensures Sound(MarkProcessed(s, snaps), issued)
    ensures forall id :: PlaceOf(MarkProcessed(s, snaps), id) == PlaceOf(s, id)
  {
    MarkedThreads(s, snaps);
    MarkedObservations(s, snaps);
    MarkedRows(s, issued, snaps);
    MarkedSnapshots(s, issued, snaps);
  }

  lemma SupportedIsBacked(s: Store, snaps: seq<Snapshot>, item: Item)
    requires CurrentSnapshots(s, snaps) && Supported(s, snaps, item)
    ensures Backed(MarkProcessed(s, snaps), item.place, item.evidence)
  {
    var s' := MarkProcessed(s, snaps);
    MarkedThreads(s, snaps);
    assert Among(snaps, item.place);
    forall id | id in item.evidence
      ensures Fresh(s', item.place, id)
    {
      assert Fresh(s, item.place, id);
    }
    var human :| human in item.evidence && FromHuman(s, human);
    assert FromHuman(s', human);
  }

  // ---- Writing rows --------------------------------------------------------

  function First(items: seq<Item>, id: string): Option<Item>
    decreases |items|
  {
    if items == [] then None
    else
      var earlier := First(items[..|items| - 1], id);
      if earlier.Some? then earlier else if items[|items| - 1].id == id then Some(items[|items| - 1]) else None
  }

  function Last(items: seq<Item>, id: string): Option<Item>
    decreases |items|
  {
    if items == [] then None
    else if items[|items| - 1].id == id then Some(items[|items| - 1])
    else Last(items[..|items| - 1], id)
  }

  lemma {:induction false} FirstAndLastAreItems(items: seq<Item>, id: string)
    ensures First(items, id).Some? <==> Last(items, id).Some?
    ensures First(items, id).Some? ==> First(items, id).value in items && First(items, id).value.id == id
    ensures Last(items, id).Some? ==> Last(items, id).value in items && Last(items, id).value.id == id
    decreases |items|
  {
    if items != [] {
      FirstAndLastAreItems(items[..|items| - 1], id);
    }
  }

  predicate AlignedAt(items: seq<Item>, id: string) {
    First(items, id).Some? && Last(items, id).Some? ==> First(items, id).value.place == Last(items, id).value.place
  }

  /** An id used twice in one list begins and ends in the same thread. */
  ghost predicate Aligned(items: seq<Item>) {
    forall id :: AlignedAt(items, id)
  }

  lemma {:induction false} ObservationRowAfter(rows: map<string, ObservationRow>, os: seq<Observation>, id: string)
    ensures var rows', items := PutObservations(rows, os), ObservationItems(os);
      && (id in rows' <==> id in rows || First(items, id).Some?)
      && (First(items, id).None? && id in rows ==> rows'[id] == rows[id])
      && (First(items, id).Some? ==>
           Last(items, id).Some? && rows'[id].valid && rows'[id].evidence == Last(items, id).value.evidence)
      && (First(items, id).Some? ==>
           rows'[id].place == if id in rows then rows[id].place else First(items, id).value.place)
    decreases |os|
  {
    if os != [] {
      var rest := os[..|os| - 1];
      assert ObservationItems(os)[..|os| - 1] == ObservationItems(rest);
      ObservationRowAfter(rows, rest, id);
      FirstAndLastAreItems(ObservationItems(rest), id);
    }
  }

  lemma {:induction false} MatterRowAfter(rows: map<string, MatterRow>, revisions: seq<Revision>,
      snaps: seq<Snapshot>, ms: seq<Matter>, id: string)
    ensures var rows', items := PutMatters(rows, revisions, snaps, ms), MatterItems(ms);
      && (id in rows' <==> id in rows || First(items, id).Some?)
      && (First(items, id).None? && id in rows ==> rows'[id] == rows[id])
      && (First(items, id).Some? ==>
           Last(items, id).Some? && rows'[id].valid && rows'[id].body.evidence == Last(items, id).value.evidence)
      && (First(items, id).Some? ==>
           rows'[id].place == if id in rows then rows[id].place else First(items, id).value.place)
    decreases |ms|
  {
    if ms != [] {
      var rest := ms[..|ms| - 1];
      assert MatterItems(ms)[..|ms| - 1] == MatterItems(rest);
      MatterRowAfter(rows, revisions, snaps, rest, id);
      FirstAndLastAreItems(MatterItems(rest), id);
    }
  }

  // ---- One application -----------------------------------------------------

  /** What an accepted batch means for the store it is applied to. */
  ghost predicate Accepted(s: Store, snaps: seq<Snapshot>, items: seq<Item>) {
    forall i :: 0 <= i < |items| ==> Supported(s, snaps, items[i])
  }

  lemma ApplyAccepts(s: Store, issued: set<Snapshot>, jobs: Jobs.Table, job: Option<Jobs.Job>,
      snaps: seq<Snapshot>, os: seq<Observation>, ms: seq<Matter>)
    requires Sound(s, issued) && forall snap :: snap in snaps ==> snap in issued
    requires Apply(s, jobs, job, snaps, os, ms).1.Applied?
    ensures CurrentSnapshots(s, snaps) && Accepted(s, snaps, ObservationItems(os))
      && Accepted(s, snaps, MatterItems(ms))
  {
    var items := ObservationItems(os) + MatterItems(ms);
    forall i | 0 <= i < |items|
      ensures Supported(s, snaps, items[i])
    {
      AllAccepted(s, snaps, items, i);
      AcceptedIsSupported(s, issued, snaps, items[i]);
    }
    forall i | 0 <= i < |ms|
      ensures Supported(s, snaps, MatterItems(ms)[i])
    {
      assert items[|os| + i] == MatterItems(ms)[i];
    }
    forall i | 0 <= i < |os|
      ensures Supported(s, snaps, ObservationItems(os)[i])
    {
      assert items[i] == ObservationItems(os)[i];
    }
  }

  /** Every item is backed where it says, and agrees with what is stored under its id. */
  ghost predicate Prepared(s: Store, items: seq<Item>) {
    forall item :: item in items ==>
      Backed(s, item.place, item.evidence) && (PlaceOf(s, item.id).Some? ==> PlaceOf(s, item.id).value == item.place)
  }

  lemma ApplyPrepares(s: Store, issued: set<Snapshot>, jobs: Jobs.Table, job: Option<Jobs.Job>,
      snaps: seq<Snapshot>, os: seq<Observation>, ms: seq<Matter>)
    requires Sound(s, issued) && forall snap :: snap in snaps ==> snap in issued
    requires Apply(s, jobs, job, snaps, os, ms).1.Applied?
    ensures var s1 := MarkProcessed(s, snaps);
      Sound(s1, issued) && Prepared(s1, ObservationItems(os)) && Prepared(s1, MatterItems(ms))
  {
    ApplyAccepts(s, issued, jobs, job, snaps, os, ms);
    MarkSound(s, issued, snaps);
    forall item | item in ObservationItems(os) || item in MatterItems(ms)
      ensures Backed(MarkProcessed(s, snaps), item.place, item.evidence)
      ensures PlaceOf(s, item.id).Some? ==> PlaceOf(s, item.id).value == item.place
    {
      assert Supported(s, snaps, item);
      SupportedIsBacked(s, snaps, item);
    }
  }

  /** Evidence that backs something in one thread backs nothing in another. */
  lemma BackedNamesPlace(s: Store, place: Place, other: Place, evidence: seq<nat>)
    requires Backed(s, place, evidence)
    ensures Backed(s, other, evidence) <==> place == other
  {
    var human :| human in evidence && FromHuman(s, human);
    assert Fresh(s, place, human);
    assert Fresh(s, other, human) ==> place == other;
  }

  lemma ObservationExact(s: Store, os: seq<Observation>, id: string)
    requires ObservationsBacked(s, NOWHERE) && Prepared(s, ObservationItems(os))
    ensures var rows, items := PutObservations(s.observations, os), ObservationItems(os);
      && (id in rows && rows[id].valid ==> (Backed(s, rows[id].place, rows[id].evidence) <==> AlignedAt(items, id)))
      && (First(items, id).Some? ==> id in rows && rows[id].valid)
  {
    var rows, items := PutObservations(s.observations, os), ObservationItems(os);
    ObservationRowAfter(s.observations, os, id);
    FirstAndLastAreItems(items, id);
    if First(items, id).Some? {
      var first, last := First(items, id).value, Last(items, id).value;
      assert first in items && last in items;
      BackedNamesPlace(s, last.place, rows[id].place, rows[id].evidence);
      assert rows[id].place == first.place;
    }
  }

  lemma MatterExact(s: Store, snaps: seq<Snapshot>, ms: seq<Matter>, id: string)
    requires MattersBacked(s, NOWHERE) && IdsAgree(s) && Prepared(s, MatterItems(ms))
    ensures var rows, items := PutMatters(s.matters, s.revisions, snaps, ms), MatterItems(ms);
      && (id in rows && rows[id].valid ==>
           (Backed(s, rows[id].place, rows[id].body.evidence) <==> AlignedAt(items, id)))
      && (First(items, id).Some? ==> id in rows && rows[id].valid)
  {
    var rows, items := PutMatters(s.matters, s.revisions, snaps, ms), MatterItems(ms);
    MatterRowAfter(s.matters, s.revisions, snaps, ms, id);
    FirstAndLastAreItems(items, id);
    if First(items, id).Some? {
      var first, last := First(items, id).value, Last(items, id).value;
      assert first in items && last in items;
      BackedNamesPlace(s, last.place, rows[id].place, rows[id].body.evidence);
      assert rows[id].place == first.place;
    }
  }

  /** Which rows there are does not bear on what backs anything. */
  lemma BackedIgnoresRows(s: Store, s': Store, place: Place, evidence: seq<nat>)
    requires s' == s.(observations := s'.observations, matters := s'.matters)
    ensures Backed(s', place, evidence) <==> Backed(s, place, evidence)
  {
    assert forall id :: Fresh(s', place, id) <==> Fresh(s, place, id);
    assert forall id :: FromHuman(s', id) <==> FromHuman(s, id);
  }

  /** The rows a batch leaves, judged in the store they were written to. */
  lemma BatchExact(s: Store, snaps: seq<Snapshot>, os: seq<Observation>, ms: seq<Matter>)
    requires AllBacked(s) && IdsAgree(s) && Prepared(s, ObservationItems(os)) && Prepared(s, MatterItems(ms))
    ensures var s' := s.(observations := PutObservations(s.observations, os),
                         matters := PutMatters(s.matters, s.revisions, snaps, ms));
      && (ObservationsBacked(s', NOWHERE) <==> Aligned(ObservationItems(os)))
      && (MattersBacked(s', NOWHERE) <==> Aligned(MatterItems(ms)))
  {
    var s' := s.(observations := PutObservations(s.observations, os),
                 matters := PutMatters(s.matters, s.revisions, snaps, ms));
    forall id
      ensures id in s'.observations && s'.observations[id].valid ==>
        (Backed(s', s'.observations[id].place, s'.observations[id].evidence) <==> AlignedAt(ObservationItems(os), id))
      ensures !AlignedAt(ObservationItems(os), id) ==> id in s'.observations && s'.observations[id].valid
    {
      ObservationExact(s, os, id);
      if id in s'.observations {
        BackedIgnoresRows(s, s', s'.observations[id].place, s'.observations[id].evidence);
      }
    }
    forall id
      ensures id in s'.matters && s'.matters[id].valid ==>
        (Backed(s', s'.matters[id].place, s'.matters[id].body.evidence) <==> AlignedAt(MatterItems(ms), id))
      ensures !AlignedAt(MatterItems(ms), id) ==> id in s'.matters && s'.matters[id].valid
    {
      MatterExact(s, snaps, ms, id);
      if id in s'.matters {
        BackedIgnoresRows(s, s', s'.matters[id].place, s'.matters[id].body.evidence);
      }
    }
  }

  /**
   An accepted batch keeps every item backed exactly when, in each of its two lists,
   an id that occurs more than once begins and ends in the same thread.
   */
  lemma ApplyExact(s: Store, issued: set<Snapshot>, jobs: Jobs.Table, job: Option<Jobs.Job>,
      snaps: seq<Snapshot>, os: seq<Observation>, ms: seq<Matter>)
    requires Sound(s, issued) && forall snap :: snap in snaps ==> snap in issued
    requires Apply(s, jobs, job, snaps, os, ms).1.Applied?
    ensures AllBacked(Apply(s, jobs, job, snaps, os, ms).0) <==>
      Aligned(ObservationItems(os)) && Aligned(MatterItems(ms))
  {
    ApplyPrepares(s, issued, jobs, job, snaps, os, ms);
    BatchExact(MarkProcessed(s, snaps), snaps, os, ms);
  }

  /** One id, one thread, across the whole batch. */
  ghost predicate Coherent(items: seq<Item>) {
    forall a, b :: a in items && b in items && a.id == b.id ==> a.place == b.place
  }

  lemma CoherentIsAligned(os: seq<Observation>, ms: seq<Matter>)
    requires Coherent(ObservationItems(os) + MatterItems(ms))
    ensures Aligned(ObservationItems(os)) && Aligned(MatterItems(ms))
  {
    forall id
      ensures AlignedAt(ObservationItems(os), id) && AlignedAt(MatterItems(ms), id)
    {
      FirstAndLastAreItems(ObservationItems(os), id);
      FirstAndLastAreItems(MatterItems(ms), id);
    }
  }

  lemma IdsStillAgree(s: Store, snaps: seq<Snapshot>, os: seq<Observation>, ms: seq<Matter>)
    requires IdsAgree(s) && Coherent(ObservationItems(os) + MatterItems(ms))
    requires Prepared(s, ObservationItems(os)) && Prepared(s, MatterItems(ms))
    ensures IdsAgree(s.(observations := PutObservations(s.observations, os),
                        matters := PutMatters(s.matters, s.revisions, snaps, ms)))
  {
    var s' := s.(observations := PutObservations(s.observations, os),
                 matters := PutMatters(s.matters, s.revisions, snaps, ms));
    var all := ObservationItems(os) + MatterItems(ms);
    forall id | id in s'.observations && id in s'.matters
      ensures s'.observations[id].place == s'.matters[id].place
    {
      ObservationRowAfter(s.observations, os, id);
      MatterRowAfter(s.matters, s.revisions, snaps, ms, id);
      FirstAndLastAreItems(ObservationItems(os), id);
      FirstAndLastAreItems(MatterItems(ms), id);
      var o, m := First(ObservationItems(os), id), First(MatterItems(ms), id);
      assert o.Some? ==> o.value in all && (PlaceOf(s, id).Some? ==> PlaceOf(s, id).value == o.value.place);
      assert m.Some? ==> m.value in all && (PlaceOf(s, id).Some? ==> PlaceOf(s, id).value == m.value.place);
    }
  }

  lemma ApplySound(s: Store, issued: set<Snapshot>, jobs: Jobs.Table, job: Option<Jobs.Job>,
      snaps: seq<Snapshot>, os: seq<Observation>, ms: seq<Matter>)
    requires Sound(s, issued) && forall snap :: snap in snaps ==> snap in issued
    requires Coherent(ObservationItems(os) + MatterItems(ms))
    ensures Sound(Apply(s, jobs, job, snaps, os, ms).0, issued)
  {
    var (s', outcome) := Apply(s, jobs, job, snaps, os, ms);
    if outcome.Applied? {
      var s1 := MarkProcessed(s, snaps);
      ApplyPrepares(s, issued, jobs, job, snaps, os, ms);
      CoherentIsAligned(os, ms);
      BatchExact(s1, snaps, os, ms);
      IdsStillAgree(s1, snaps, os, ms);
      RowsKeepSnapshots(s1, s', issued);
    }
  }

  lemma RowsKeepSnapshots(s: Store, s': Store, issued: set<Snapshot>)
    requires Shaped(s) && SnapshotsFresh(s, issued, NOWHERE)
    requires s' == s.(observations := s'.observations, matters := s'.matters)
    ensures Shaped(s') && SnapshotsFresh(s', issued, NOWHERE)
  {
    assert forall snap :: snap in issued ==> NotNewer(s, snap);
    forall snap, e | snap in issued && snap.generation == s'.threads[snap.place].generation && e in snap.evidence
      ensures Matches(s', snap, e)
    {
      assert Matches(s, snap, e);
    }
  }
}
