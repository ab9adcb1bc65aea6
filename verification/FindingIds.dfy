/**
 The ids under which the extraction service files its findings. They name their thread, so the
 batches the service applies never use one id in two threads.
 */
module FindingIds {
  import opened Common
  import opened Evidence
  import opened Provenance
  import opened Findings
  import Jobs
  import R = EvidenceRuns

  const COLON := ':'

  /** Channel, thread, kind and key, joined by colons. */
  function IdOf(place: Place, kind: char, key: string): string {
    place.channel + [COLON] + (place.thread + [COLON] + ([kind, COLON] + key))
  }

  /** Slack's channel ids and timestamps hold no colon. */
  predicate Plain(s: string) {
    forall i :: 0 <= i < |s| ==> s[i] != COLON
  }

  predicate PlainPlace(place: Place) {
    Plain(place.channel) && Plain(place.thread)
  }

  lemma FirstColon(a: string, x: string, b: string, y: string)
    requires Plain(a) && Plain(b) && a + [COLON] + x == b + [COLON] + y
    ensures a == b && x == y
  {
    var s := a + [COLON] + x;
    assert s[|a|] == COLON && s[|b|] == COLON;
    assert forall i :: 0 <= i < |a| ==> s[i] == a[i];
    assert forall i :: 0 <= i < |b| ==> s[i] == b[i];
    assert |a| == |b|;
    assert s[..|a|] == a && s[..|b|] == b;
    assert s[|a| + 1..] == x && s[|b| + 1..] == y;
  }

  lemma IdAsWritten()
    ensures IdOf(Place(['C'], ['1']), 'o', ['k']) == ['C', ':', '1', ':', 'o', ':', 'k']
  {
  }

  /** An id tells its thread, kind and key. */
  lemma IdIsInjective(p: Place, j: char, x: string, q: Place, k: char, y: string)
    requires PlainPlace(p) && PlainPlace(q) && IdOf(p, j, x) == IdOf(q, k, y)
    ensures p == q && j == k && x == y
  {
    FirstColon(p.channel, p.thread + [COLON] + ([j, COLON] + x), q.channel, q.thread + [COLON] + ([k, COLON] + y));
    FirstColon(p.thread, [j, COLON] + x, q.thread, [k, COLON] + y);
    assert ([j, COLON] + x)[0] == j && ([k, COLON] + y)[0] == k;
    assert ([j, COLON] + x)[2..] == x && ([k, COLON] + y)[2..] == y;
  }

  ghost predicate Named(id: string, place: Place) {
    PlainPlace(place) && exists kind, key :: id == IdOf(place, kind, key)
  }

  lemma NameTellsPlace(id: string, p: Place, q: Place)
    requires Named(id, p) && Named(id, q)
    ensures p == q
  {
    var j, x :| id == IdOf(p, j, x);
    var k, y :| id == IdOf(q, k, y);
    IdIsInjective(p, j, x, q, k, y);
  }

  /** Every stored matter goes by an id of its own thread. */
  ghost predicate MattersNamed(s: Store) {
    forall id :: id in s.matters ==> Named(id, s.matters[id].place)
  }

  /**
   Where the service takes an item's id from: a fresh id of the item's thread, or the id of a
   stored matter of that thread which the finding continues.
   */
  ghost predicate Filed(s: Store, item: Item) {
    || Named(item.id, item.place)
    || (item.id in s.matters && s.matters[item.id].place == item.place)
  }

  ghost predicate AllFiled(s: Store, items: seq<Item>) {
    forall item :: item in items ==> Filed(s, item)
  }

  lemma FiledIsNamed(s: Store, item: Item)
    requires MattersNamed(s) && Filed(s, item)
    ensures Named(item.id, item.place)
  {
  }

  /** Batches filed by the service use each id for one thread only. */
  lemma FiledIsCoherent(s: Store, items: seq<Item>)
    requires MattersNamed(s) && AllFiled(s, items)
    ensures Coherent(items)
  {
    forall a, b | a in items && b in items && a.id == b.id ensures a.place == b.place {
      FiledIsNamed(s, a);
      FiledIsNamed(s, b);
      NameTellsPlace(a.id, a.place, b.place);
    }
  }

  /** And leave the stored matters named. */
  lemma AppliedStaysNamed(s: Store, jobs: Jobs.Table, job: Option<Jobs.Job>, snaps: seq<Snapshot>,
      os: seq<Observation>, ms: seq<Matter>)
    requires MattersNamed(s) && AllFiled(s, ObservationItems(os) + MatterItems(ms))
    ensures MattersNamed(Apply(s, jobs, job, snaps, os, ms).0)
  {
    var t := Apply(s, jobs, job, snaps, os, ms).0;
    MarkKeepsTables(s, snaps);
    forall id | id in t.matters ensures Named(id, t.matters[id].place) {
      if Apply(s, jobs, job, snaps, os, ms).1.Applied? {
        MatterRowAfter(s.matters, s.revisions, snaps, ms, id);
        FirstAndLastAreItems(MatterItems(ms), id);
        if id !in s.matters {
          var first := First(MatterItems(ms), id).value;
          assert first in ObservationItems(os) + MatterItems(ms);
          FiledIsNamed(s, first);
        }
      }
    }
  }

  /** So what the service applies always keeps provenance, whatever the model found. */
  lemma ServiceKeepsProvenance(s: Store, issued: set<Snapshot>, jobs: Jobs.Table, job: Option<Jobs.Job>,
      snaps: seq<Snapshot>, os: seq<Observation>, ms: seq<Matter>)
    requires Sound(s, issued) && MattersNamed(s) && forall snap :: snap in snaps ==> snap in issued
    requires AllFiled(s, ObservationItems(os) + MatterItems(ms))
    ensures Sound(Apply(s, jobs, job, snaps, os, ms).0, issued) && MattersNamed(Apply(s, jobs, job, snaps, os, ms).0)
  {
    FiledIsCoherent(s, ObservationItems(os) + MatterItems(ms));
    ApplySound(s, issued, jobs, job, snaps, os, ms);
    AppliedStaysNamed(s, jobs, job, snaps, os, ms);
  }

  // ---- Runs of the service ------------------------------------------------------

  /** Every stored matter stays what it was named, in its place. */
  ghost predicate SamePlaces(s: Store, t: Store) {
    t.matters.Keys == s.matters.Keys && forall id :: id in s.matters ==> t.matters[id].place == s.matters[id].place
  }

  lemma InvalidateSamePlaces(s: Store, scope: Scope)
    ensures SamePlaces(s, Invalidate(s, scope))
  {
  }

  lemma RecordSamePlaces(s: Store, m: Message, now: int)
    ensures SamePlaces(s, Record(s, m, now).0)
  {
    var t := Record(s, m, now).0;
    if Record(s, m, now).1.Stored? {
      var s1 := Appended(s, m, now);
      InvalidateSamePlaces(s1, Threads({m.place}));
      InvalidateSamePlaces(TouchedThread(s1, m.place, now), Threads({m.place}));
    }
  }

  lemma ExpireSamePlaces(s: Store, now: int)
    ensures SamePlaces(s, Expire(s, now))
  {
    InvalidateSamePlaces(s, Threads(Ageing(s.revisions, now)));
  }

  /** A message stays in its thread, and every batch is filed by the service. */
  ghost predicate OfService(w: R.World, step: R.Step) {
    && (step.RecordStep? ==> KeepsThread(w.store, step.message))
    && (step.ApplyStep? ==> AllFiled(w.store, ObservationItems(step.observations) + MatterItems(step.matters)))
  }

  ghost predicate AllOfService(w: R.World, steps: seq<R.Step>)
    decreases |steps|
  {
    steps == [] || (OfService(w, steps[0]) && AllOfService(R.Next(w, steps[0]), steps[1..]))
  }

  lemma StepStaysNamed(w: R.World, step: R.Step)
    requires MattersNamed(w.store) && OfService(w, step)
    ensures MattersNamed(R.Next(w, step).store)
  {
    match step
    case ApplyStep(jobs, job, snaps, os, ms) => AppliedStaysNamed(w.store, jobs, job, snaps, os, ms);
    case ChannelStep(id, allowed, shared, gapGiven) =>
      InvalidateSamePlaces(w.store.(channels := w.store.channels[id := ChannelRow(allowed, shared)]), WholeChannel(id));
    case RecordStep(m, now) => RecordSamePlaces(w.store, m, now);
    case ExpireStep(now) => ExpireSamePlaces(w.store, now);
    case DeskStep(desk) => R.DeskSameEvidence(w.store, desk);
    case _ =>
  }

  lemma OfServiceIsPermitted(w: R.World, step: R.Step)
    requires MattersNamed(w.store) && OfService(w, step)
    ensures R.Permitted(w, step)
  {
    if step.ApplyStep? { FiledIsCoherent(w.store, ObservationItems(step.observations) + MatterItems(step.matters)); }
  }

  lemma {:induction false} ServiceRunIsPermitted(w: R.World, steps: seq<R.Step>)
    requires MattersNamed(w.store) && AllOfService(w, steps)
    ensures R.AllPermitted(w, steps) && MattersNamed(R.Run(w, steps).store)
    decreases |steps|
  {
    if steps != [] {
      OfServiceIsPermitted(w, steps[0]);
      StepStaysNamed(w, steps[0]);
      ServiceRunIsPermitted(R.Next(w, steps[0]), steps[1..]);
    }
  }

  /**
   From the empty store, whatever the model finds, however workers interleave and however old
   what they read: no run of the service leaves a valid finding without evidence of its thread.
   */
  lemma ServiceRunsKeepProvenance(settings: Settings, steps: seq<R.Step>)
    requires AllOfService(R.Fresh0(settings), steps)
    ensures AllBacked(R.Run(R.Fresh0(settings), steps).store) && MattersNamed(R.Run(R.Fresh0(settings), steps).store)
  {
    ServiceRunIsPermitted(R.Fresh0(settings), steps);
    R.FromTheStart(settings, steps);
  }
}
