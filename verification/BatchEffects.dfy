/** What applying a batch of findings answers and leaves, told on the snapshots, the items and the rows alone. */
module BatchEffects {
  import opened Common
  import opened Evidence
  import opened Findings
  import E = Effects
  import Jobs

  // ---- When a batch is accepted -----------------------------------------------

  /** The first snapshot of a thread in the list. */
  predicate FirstOf(snaps: seq<Snapshot>, place: Place, i: int) {
    0 <= i < |snaps| && snaps[i].place == place && forall k :: 0 <= k < i ==> snaps[k].place != place
  }

  /** The first entry of a revision in a snapshot. */
  predicate EntryOf(evidence: seq<Citable>, id: nat, k: int) {
    0 <= k < |evidence| && evidence[k].id == id && forall l :: 0 <= l < k ==> evidence[l].id != id
  }

  ghost predicate Listed(snap: Snapshot, id: nat) {
    exists k :: EntryOf(snap.evidence, id, k)
  }

  ghost predicate ListedHuman(snap: Snapshot, id: nat) {
    exists k :: EntryOf(snap.evidence, id, k) && !snap.evidence[k].own && !snap.evidence[k].bot
  }

  /** It cites something, and only what this snapshot of its thread holds. */
  ghost predicate CitesWithin(snap: Snapshot, item: Item) {
    item.evidence != [] && forall id :: id in item.evidence ==> Listed(snap, id)
  }

  ghost predicate WithinThread(snaps: seq<Snapshot>, item: Item) {
    exists i :: FirstOf(snaps, item.place, i) && CitesWithin(snaps[i], item)
  }

  ghost predicate CitesHuman(snaps: seq<Snapshot>, item: Item) {
    exists i, id :: FirstOf(snaps, item.place, i) && id in item.evidence && ListedHuman(snaps[i], id)
  }

  /** The id stands for something of another thread: an observation, or failing one a matter. */
  predicate Elsewhere(s: Store, item: Item) {
    if item.id in s.observations then s.observations[item.id].place != item.place
    else item.id in s.matters && s.matters[item.id].place != item.place
  }

  ghost predicate Objection(s: Store, snaps: seq<Snapshot>, item: Item, verdict: Applying) {
    verdict == if !WithinThread(snaps, item) then OutsideThread else if !CitesHuman(snaps, item) then NoHuman
               else if Elsewhere(s, item) then Collision else Applied
  }

  /** Item i is the first there is an objection to. */
  ghost predicate ObjectionAt(s: Store, snaps: seq<Snapshot>, items: seq<Item>, verdict: Applying, i: int) {
    && 0 <= i < |items| && Objection(s, snaps, items[i], verdict)
    && forall k :: 0 <= k < i ==> Objection(s, snaps, items[k], Applied)
  }

  /** The objection to the first item there is one to, or none to any. */
  ghost predicate FirstObjection(s: Store, snaps: seq<Snapshot>, items: seq<Item>, verdict: Applying) {
    if verdict == Applied then forall i :: 0 <= i < |items| ==> Objection(s, snaps, items[i], Applied)
    else exists i :: ObjectionAt(s, snaps, items, verdict, i)
  }

  /** Its thread has moved on, or its channel is no longer allowed. */
  predicate OutOfDate(s: Store, snap: Snapshot) {
    !(snap.place in s.threads && s.threads[snap.place].generation == snap.generation
      && snap.place.channel in s.channels && s.channels[snap.place.channel].allowed)
  }

  /** The job was scheduled anew, claimed again or deleted meanwhile. */
  predicate Displaced(jobs: Jobs.Table, job: Jobs.Job) {
    !(job.key in jobs.rows && jobs.rows[job.key].token == Some(job.token)
      && jobs.rows[job.key].generation == job.generation)
  }

  lemma {:induction false} FindIsFirst(snaps: seq<Snapshot>, place: Place, i: int)
    requires FirstOf(snaps, place, i)
    ensures Find(snaps, place) == Some(snaps[i])
  {
    if i > 0 {
      FindIsFirst(snaps[1..], place, i - 1);
    }
  }

  lemma {:induction false} FoundIsFirst(snaps: seq<Snapshot>, place: Place)
    ensures Find(snaps, place).Some? ==> exists i :: FirstOf(snaps, place, i)
  {
    if snaps != [] {
      if snaps[0].place == place {
        assert FirstOf(snaps, place, 0);
      } else {
        FoundIsFirst(snaps[1..], place);
        if i :| FirstOf(snaps[1..], place, i) { assert FirstOf(snaps, place, i + 1); }
      }
    }
  }

  lemma {:induction false} EntryIsFirst(evidence: seq<Citable>, id: nat, k: int)
    requires EntryOf(evidence, id, k)
    ensures FindCitable(evidence, id) == Some(evidence[k])
  {
    if k > 0 {
      EntryIsFirst(evidence[1..], id, k - 1);
    }
  }

  lemma {:induction false} FoundEntry(evidence: seq<Citable>, id: nat)
    ensures FindCitable(evidence, id).Some? ==> exists k :: EntryOf(evidence, id, k)
  {
    if evidence != [] {
      if evidence[0].id == id {
        assert EntryOf(evidence, id, 0);
      } else {
        FoundEntry(evidence[1..], id);
        if k :| EntryOf(evidence[1..], id, k) { assert EntryOf(evidence, id, k + 1); }
      }
    }
  }

  lemma ListedIff(snap: Snapshot, id: nat)
    ensures Cites(snap, id) <==> Listed(snap, id)
    ensures Cites(snap, id) && !Automated(snap, id) <==> ListedHuman(snap, id)
  {
    FoundEntry(snap.evidence, id);
    if k :| EntryOf(snap.evidence, id, k) {
      EntryIsFirst(snap.evidence, id, k);
      forall l | EntryOf(snap.evidence, id, l) ensures FindCitable(snap.evidence, id) == Some(snap.evidence[l]) {
        EntryIsFirst(snap.evidence, id, l);
      }
    }
  }

  /** The check of one item against a snapshot that was found. */
  lemma ItemJudged(s: Store, snaps: seq<Snapshot>, item: Item, i: int)
    requires FirstOf(snaps, item.place, i)
    ensures Find(snaps, item.place) == Some(snaps[i])
    ensures WithinThread(snaps, item) <==> CitesWithin(snaps[i], item)
    ensures CitesHuman(snaps, item) <==> exists id :: id in item.evidence && ListedHuman(snaps[i], id)
  {
    FindIsFirst(snaps, item.place, i);
    forall k | FirstOf(snaps, item.place, k) ensures k == i {
    }
  }

  lemma CheckItemEffect(s: Store, snaps: seq<Snapshot>, item: Item)
    ensures Objection(s, snaps, item, CheckItem(s, snaps, item))
  {
    FoundIsFirst(snaps, item.place);
    if i :| FirstOf(snaps, item.place, i) {
      ItemJudged(s, snaps, item, i);
      forall id ensures Cites(snaps[i], id) <==> Listed(snaps[i], id)
                ensures Cites(snaps[i], id) && !Automated(snaps[i], id) <==> ListedHuman(snaps[i], id) {
        ListedIff(snaps[i], id);
      }
    }
  }

  lemma {:induction false} CheckItemsEffect(s: Store, snaps: seq<Snapshot>, items: seq<Item>)
    ensures FirstObjection(s, snaps, items, CheckItems(s, snaps, items))
  {
    if items != [] {
      var verdict := CheckItems(s, snaps, items);
      CheckItemEffect(s, snaps, items[0]);
      if CheckItem(s, snaps, items[0]) != Applied {
        assert ObjectionAt(s, snaps, items, verdict, 0);
      } else {
        CheckItemsEffect(s, snaps, items[1..]);
        if verdict != Applied {
          var i :| ObjectionAt(s, snaps, items[1..], verdict, i);
          assert forall k :: 0 < k <= i ==> items[k] == items[1..][k - 1];
          assert ObjectionAt(s, snaps, items, verdict, i + 1);
        }
      }
    }
  }

  // ---- What it leaves ----------------------------------------------------------

  /** The threads that were read count as processed at their present generation. */
  ghost predicate Processed(s: Store, t: Store, snaps: seq<Snapshot>) {
    && t.threads.Keys == s.threads.Keys
    && forall p :: p in s.threads ==>
      t.threads[p] == if Among(snaps, p) then s.threads[p].(processed := s.threads[p].generation) else s.threads[p]
  }

  /** Mention k of an observation is the last in the batch. */
  predicate LastObservation(os: seq<Observation>, id: string, k: int) {
    0 <= k < |os| && os[k].id == id && forall l :: k < l < |os| ==> os[l].id != id
  }

  predicate LastMatter(ms: seq<Matter>, id: string, k: int) {
    0 <= k < |ms| && ms[k].id == id && forall l :: k < l < |ms| ==> ms[l].id != id
  }

  /** Reported, an observation is as last reported; unreported in a thread that was read, it is no longer valid. */
  ghost predicate ObservationReplaced(s: Store, t: Store, snaps: seq<Snapshot>, os: seq<Observation>, id: string) {
    && (id in s.observations ==> id in t.observations && t.observations[id].place == s.observations[id].place)
    && (forall k :: LastObservation(os, id, k) ==>
         id in t.observations
         && t.observations[id] == ObservationRow(t.observations[id].place, os[k].text, os[k].evidence, true))
    && ((forall k :: 0 <= k < |os| ==> os[k].id != id) ==>
         && (id in t.observations <==> id in s.observations)
         && (id in s.observations && Among(snaps, s.observations[id].place) ==>
              t.observations[id] == s.observations[id].(valid := false))
         && (id in s.observations && !Among(snaps, s.observations[id].place) ==>
              t.observations[id] == s.observations[id]))
  }

  /** Reported, a matter is as last reported but for state and next check; unreported, it is as it was. */
  ghost predicate MatterWritten(s: Store, t: Store, ms: seq<Matter>, id: string) {
    && (id in s.matters ==> id in t.matters && t.matters[id].place == s.matters[id].place)
    && (forall k :: LastMatter(ms, id, k) ==>
         && id in t.matters && t.matters[id].valid && t.matters[id].nextCheck == t.matters[id].body.nextCheck
         && t.matters[id].body == ms[k].(state := t.matters[id].body.state, nextCheck := t.matters[id].nextCheck))
    && ((forall k :: 0 <= k < |ms| ==> ms[k].id != id) ==>
         (id in t.matters <==> id in s.matters) && (id in s.matters ==> t.matters[id] == s.matters[id]))
  }

  ghost predicate ApplyDone(s: Store, jobs: Jobs.Table, job: Option<Jobs.Job>, snaps: seq<Snapshot>,
      os: seq<Observation>, ms: seq<Matter>, t: Store, outcome: Applying) {
    if (job.Some? && Displaced(jobs, job.value)) || exists snap :: snap in snaps && OutOfDate(s, snap)
    then outcome == Stale && t == s
    else
      && FirstObjection(s, snaps, ObservationItems(os) + MatterItems(ms), outcome)
      && if outcome != Applied then t == s
         else
           && t == s.(threads := t.threads, observations := t.observations, matters := t.matters)
           && Processed(s, t, snaps)
           && forall id :: ObservationReplaced(s, t, snaps, os, id) && MatterWritten(s, t, ms, id)
  }

  lemma NotReported(items: seq<Item>, id: string)
    requires forall k :: 0 <= k < |items| ==> items[k].id != id
    ensures First(items, id).None?
  {
    FirstAndLastAreItems(items, id);
  }

  lemma {:induction false} LastObservationRow(rows: map<string, ObservationRow>, os: seq<Observation>, id: string,
      k: int)
    requires LastObservation(os, id, k)
    ensures var after := PutObservations(rows, os);
      id in after && after[id] == ObservationRow(after[id].place, os[k].text, os[k].evidence, true)
    decreases |os|
  {
    if k < |os| - 1 {
      LastObservationRow(rows, os[..|os| - 1], id, k);
    }
  }

  lemma {:induction false} LastMatterRow(rows: map<string, MatterRow>, revisions: seq<Revision>,
      snaps: seq<Snapshot>, ms: seq<Matter>, id: string, k: int)
    requires LastMatter(ms, id, k)
    ensures var after := PutMatters(rows, revisions, snaps, ms);
      && id in after && after[id].valid && after[id].nextCheck == after[id].body.nextCheck
      && after[id].body == ms[k].(state := after[id].body.state, nextCheck := after[id].nextCheck)
    decreases |ms|
  {
    if k < |ms| - 1 {
      LastMatterRow(rows, revisions, snaps, ms[..|ms| - 1], id, k);
    }
  }

  lemma ObservationEffect(s: Store, snaps: seq<Snapshot>, os: seq<Observation>, id: string)
    ensures var s1 := MarkProcessed(s, snaps);
      ObservationReplaced(s, s1.(observations := PutObservations(s1.observations, os)), snaps, os, id)
  {
    var s1, items := MarkProcessed(s, snaps), ObservationItems(os);
    MarkedObservations(s, snaps);
    ObservationRowAfter(s1.observations, os, id);
    forall k | LastObservation(os, id, k)
      ensures var after := PutObservations(s1.observations, os);
        id in after && after[id] == ObservationRow(after[id].place, os[k].text, os[k].evidence, true)
    {
      LastObservationRow(s1.observations, os, id, k);
    }
    if forall k :: 0 <= k < |os| ==> os[k].id != id { NotReported(items, id); }
  }

  lemma MatterEffect(s: Store, s1: Store, snaps: seq<Snapshot>, ms: seq<Matter>, id: string)
    requires s1.matters == s.matters
    ensures MatterWritten(s, s1.(matters := PutMatters(s1.matters, s1.revisions, snaps, ms)), ms, id)
  {
    var items := MatterItems(ms);
    MatterRowAfter(s1.matters, s1.revisions, snaps, ms, id);
    forall k | LastMatter(ms, id, k)
      ensures var after := PutMatters(s1.matters, s1.revisions, snaps, ms);
        && id in after && after[id].valid && after[id].nextCheck == after[id].body.nextCheck
        && after[id].body == ms[k].(state := after[id].body.state, nextCheck := after[id].nextCheck)
    {
      LastMatterRow(s1.matters, s1.revisions, snaps, ms, id, k);
    }
    if forall k :: 0 <= k < |ms| ==> ms[k].id != id { NotReported(items, id); }
  }

  lemma {:induction false} MarkKeepsRest(s: Store, snaps: seq<Snapshot>)
    ensures var t := MarkProcessed(s, snaps); t == s.(threads := t.threads, observations := t.observations)
    decreases |snaps|
  {
    if snaps != [] {
      MarkKeepsRest(s, snaps[..|snaps| - 1]);
    }
  }

  lemma WrittenEffect(s: Store, snaps: seq<Snapshot>, os: seq<Observation>, ms: seq<Matter>)
    requires CurrentSnapshots(s, snaps)
    ensures var s1 := MarkProcessed(s, snaps);
      var t := s1.(observations := PutObservations(s1.observations, os),
                   matters := PutMatters(s1.matters, s1.revisions, snaps, ms));
      && t == s.(threads := t.threads, observations := t.observations, matters := t.matters)
      && Processed(s, t, snaps) && forall id :: ObservationReplaced(s, t, snaps, os, id) && MatterWritten(s, t, ms, id)
  {
    MarkKeepsRest(s, snaps);
    MarkedThreads(s, snaps);
    var s1 := MarkProcessed(s, snaps);
    var t := s1.(observations := PutObservations(s1.observations, os),
                 matters := PutMatters(s1.matters, s1.revisions, snaps, ms));
    forall id ensures ObservationReplaced(s, t, snaps, os, id) && MatterWritten(s, t, ms, id) {
      ObservationEffect(s, snaps, os, id);
      MatterEffect(s, s1, snaps, ms, id);
    }
  }

  /**
   A batch is stale exactly when its job was displaced or a snapshot is out of date, and otherwise
   rejected for the first item there is an objection to; in neither case is anything written.
   */
  lemma ApplyEffect(s: Store, jobs: Jobs.Table, job: Option<Jobs.Job>, snaps: seq<Snapshot>, os: seq<Observation>,
      ms: seq<Matter>)
    ensures var (t, outcome) := Apply(s, jobs, job, snaps, os, ms); ApplyDone(s, jobs, job, snaps, os, ms, t, outcome)
  {
    assert CurrentSnapshots(s, snaps) <==> !(exists snap :: snap in snaps && OutOfDate(s, snap));
    CheckItemsEffect(s, snaps, ObservationItems(os) + MatterItems(ms));
    if CurrentSnapshots(s, snaps) { WrittenEffect(s, snaps, os, ms); }
  }
}
