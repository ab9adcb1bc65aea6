/** What the owner decided about a matter, and what a later extraction may do to it. */
module OwnerDecisions {
  import opened Common
  import opened Evidence
  import opened Provenance
  import opened Findings
  import Jobs

  // ---- What a batch says of a matter -----------------------------------------

  predicate Decided(state: MatterState) {
    state == Dismissed || state == Snoozed
  }

  /** Extraction reports matters as open or resolved, never as dismissed or snoozed. */
  predicate Reported(ms: seq<Matter>) {
    forall i :: 0 <= i < |ms| ==> ms[i].state == Open || ms[i].state == Resolved
  }

  predicate FoundResolved(ms: seq<Matter>, id: string) {
    exists i :: 0 <= i < |ms| && ms[i].id == id && ms[i].state == Resolved
  }

  /** The last mention of a matter in a batch. */
  function LastMention(ms: seq<Matter>, id: string): (p: Option<nat>)
    ensures p.None? ==> forall k :: 0 <= k < |ms| ==> ms[k].id != id
    ensures p.Some? ==> p.value < |ms| && ms[p.value].id == id && forall k :: p.value < k < |ms| ==> ms[k].id != id
    decreases |ms|
  {
    if ms == [] then None
    else if ms[|ms| - 1].id == id then Some(|ms| - 1) else LastMention(ms[..|ms| - 1], id)
  }

  lemma FoundResolvedBefore(ms: seq<Matter>, id: string)
    requires ms != []
    ensures FoundResolved(ms, id) <==>
      FoundResolved(ms[..|ms| - 1], id) || (ms[|ms| - 1].id == id && ms[|ms| - 1].state == Resolved)
  {
    var rest := ms[..|ms| - 1];
    if i :| 0 <= i < |ms| && ms[i].id == id && ms[i].state == Resolved {
      if i < |ms| - 1 { assert rest[i].id == id && rest[i].state == Resolved; }
    }
    if i :| 0 <= i < |rest| && rest[i].id == id && rest[i].state == Resolved {
      assert ms[i].id == id && ms[i].state == Resolved;
    }
  }

  // ---- What is new -------------------------------------------------------------

  /** What the revision says was said by one cited before: as deleted, as automated, and the same text. */
  predicate SaidBefore(revisions: seq<Revision>, earlier: seq<nat>, id: nat)
    requires id < |revisions|
  {
    exists p :: p in earlier && p < |revisions|
      && revisions[p].hash.deleted == revisions[id].hash.deleted
      && revisions[p].hash.automated == revisions[id].hash.automated
      && revisions[p].hash.text == revisions[id].hash.text
  }

  /** Among what is cited is something of a person's that was not said in what was cited before. */
  predicate BringsNews(revisions: seq<Revision>, earlier: seq<nat>, cited: seq<nat>) {
    exists id :: id in cited && id < |revisions| && !revisions[id].own && !revisions[id].bot
      && !SaidBefore(revisions, earlier, id)
  }

  predicate Lists(snaps: seq<Snapshot>, id: nat) {
    exists snap, e :: snap in snaps && e in snap.evidence && e.id == id
  }

  /** The snapshots tell whose every revision is, and hold all that the matter cites. */
  ghost predicate Heard(revisions: seq<Revision>, snaps: seq<Snapshot>, m: Matter) {
    && (forall snap, e :: snap in snaps && e in snap.evidence ==>
         e.id < |revisions| && e.own == revisions[e.id].own && e.bot == revisions[e.id].bot)
    && forall id :: id in m.evidence ==> Lists(snaps, id)
  }

  ghost predicate AllHeard(revisions: seq<Revision>, snaps: seq<Snapshot>, ms: seq<Matter>) {
    forall j :: 0 <= j < |ms| ==> Heard(revisions, snaps, ms[j])
  }

  lemma SaidBeforeIff(revisions: seq<Revision>, earlier: seq<nat>, id: nat)
    requires id < |revisions|
    ensures SaidBefore(revisions, earlier, id) <==>
      !(forall p :: p in earlier && p < |revisions| ==> revisions[p].hash != revisions[id].hash)
  {
  }

  /** What the store compares by hashes and snapshots is told by the rows of what is cited. */
  lemma NewsIff(revisions: seq<Revision>, previous: Matter, snaps: seq<Snapshot>, m: Matter)
    requires Heard(revisions, snaps, m)
    ensures NewHumanEvidence(revisions, previous, snaps, m) <==> BringsNews(revisions, previous.evidence, m.evidence)
  {
    if snap, e :| snap in snaps && e in snap.evidence && e.id in m.evidence && !e.own && !e.bot && e.id < |revisions|
                  && forall id :: id in previous.evidence && id < |revisions| ==>
                       revisions[id].hash != revisions[e.id].hash {
      SaidBeforeIff(revisions, previous.evidence, e.id);
    }
    if id :| id in m.evidence && id < |revisions| && !revisions[id].own && !revisions[id].bot
             && !SaidBefore(revisions, previous.evidence, id) {
      SaidBeforeIff(revisions, previous.evidence, id);
      var snap, e :| snap in snaps && e in snap.evidence && e.id == id;
    }
  }

  /** Current snapshots that were read tell whose every revision in them is. */
  lemma ReadTellsWhose(s: Store, issued: set<Snapshot>, snaps: seq<Snapshot>)
    requires Sound(s, issued) && CurrentSnapshots(s, snaps) && forall snap :: snap in snaps ==> snap in issued
    ensures forall snap, e :: snap in snaps && e in snap.evidence ==>
      e.id < |s.revisions| && e.own == s.revisions[e.id].own && e.bot == s.revisions[e.id].bot
  {
    forall snap, e | snap in snaps && e in snap.evidence
      ensures e.id < |s.revisions| && e.own == s.revisions[e.id].own && e.bot == s.revisions[e.id].bot
    {
      assert snap in issued && snap.generation == s.threads[snap.place].generation;
      assert Matches(s, snap, e);
    }
  }

  lemma AcceptedIsListed(s: Store, snaps: seq<Snapshot>, item: Item, id: nat)
    requires CheckItem(s, snaps, item) == Applied && id in item.evidence
    ensures Lists(snaps, id)
  {
    FoundSnapshot(snaps, item.place);
    var snap := Find(snaps, item.place).value;
    assert Cites(snap, id);
    FoundCitable(snap.evidence, id);
  }

  /** Under snapshots that were read, the items of an accepted batch cite only what these hold. */
  lemma AcceptedIsHeard(s: Store, issued: set<Snapshot>, jobs: Jobs.Table, job: Option<Jobs.Job>,
      snaps: seq<Snapshot>, os: seq<Observation>, ms: seq<Matter>)
    requires Sound(s, issued) && forall snap :: snap in snaps ==> snap in issued
    requires Apply(s, jobs, job, snaps, os, ms).1.Applied?
    ensures AllHeard(s.revisions, snaps, ms)
  {
    var items := ObservationItems(os) + MatterItems(ms);
    ReadTellsWhose(s, issued, snaps);
    forall j, id | 0 <= j < |ms| && id in ms[j].evidence
      ensures Lists(snaps, id)
    {
      assert items[|os| + j] == MatterItems(ms)[j];
      AllAccepted(s, snaps, items, |os| + j);
      AcceptedIsListed(s, snaps, MatterItems(ms)[j], id);
    }
  }

  // ---- What becomes of a matter ---------------------------------------------------

  /** The body stored under an id. */
  function Stored(rows: map<string, MatterRow>, id: string): Option<Matter> {
    if id in rows then Some(rows[id].body) else None
  }

  /** What mention j is compared with: the citations of the mention before it, or of the stored matter. */
  function CitedBefore(stored: Option<Matter>, ms: seq<Matter>, id: string, j: nat): seq<nat>
    requires j <= |ms|
  {
    var p := LastMention(ms[..j], id);
    if p.Some? then ms[p.value].evidence else if stored.Some? then stored.value.evidence else []
  }

  /** It was resolved in the store, or an earlier mention found it so. */
  predicate WasResolved(stored: Option<Matter>, ms: seq<Matter>, id: string) {
    (stored.Some? && stored.value.state == Resolved) || FoundResolved(ms, id)
  }

  /** Mention j asks to reopen what was resolved, on news, and no later one finds it resolved. */
  ghost predicate ReopenedBy(revisions: seq<Revision>, stored: Option<Matter>, ms: seq<Matter>, id: string, j: int) {
    && 0 <= j < |ms| && ms[j].id == id && ms[j].state == Open && ms[j].reopen
    && WasResolved(stored, ms[..j], id)
    && BringsNews(revisions, CitedBefore(stored, ms, id, j), ms[j].evidence)
    && forall k :: j < k < |ms| && ms[k].id == id ==> ms[k].state != Resolved
  }

  ghost predicate Reopened(revisions: seq<Revision>, stored: Option<Matter>, ms: seq<Matter>, id: string) {
    exists j :: ReopenedBy(revisions, stored, ms, id, j)
  }

  lemma EarlierReopening(revisions: seq<Revision>, stored: Option<Matter>, ms: seq<Matter>, id: string, j: nat)
    requires j < |ms| - 1
    ensures ReopenedBy(revisions, stored, ms, id, j) <==>
      ReopenedBy(revisions, stored, ms[..|ms| - 1], id, j)
      && (ms[|ms| - 1].id == id ==> ms[|ms| - 1].state != Resolved)
  {
    var rest := ms[..|ms| - 1];
    assert rest[..j] == ms[..j];
    assert forall k :: 0 <= k < |rest| ==> rest[k] == ms[k];
  }

  /** The last mention reopens what was resolved by then. */
  predicate LastReopens(revisions: seq<Revision>, stored: Option<Matter>, ms: seq<Matter>, id: string)
    requires ms != []
  {
    var last, n := ms[|ms| - 1], |ms| - 1;
    last.id == id && last.state == Open && last.reopen && WasResolved(stored, ms[..n], id)
      && BringsNews(revisions, CitedBefore(stored, ms, id, n), last.evidence)
  }

  lemma ReopenedForth(revisions: seq<Revision>, stored: Option<Matter>, ms: seq<Matter>, id: string)
    requires ms != [] && Reopened(revisions, stored, ms, id)
    ensures LastReopens(revisions, stored, ms, id)
      || (Reopened(revisions, stored, ms[..|ms| - 1], id) && (ms[|ms| - 1].id == id ==> ms[|ms| - 1].state != Resolved))
  {
    var j :| ReopenedBy(revisions, stored, ms, id, j);
    if j < |ms| - 1 { EarlierReopening(revisions, stored, ms, id, j); }
  }

  lemma ReopenedStays(revisions: seq<Revision>, stored: Option<Matter>, ms: seq<Matter>, id: string)
    requires ms != [] && Reopened(revisions, stored, ms[..|ms| - 1], id)
    requires ms[|ms| - 1].id == id ==> ms[|ms| - 1].state != Resolved
    ensures Reopened(revisions, stored, ms, id)
  {
    var j :| ReopenedBy(revisions, stored, ms[..|ms| - 1], id, j);
    EarlierReopening(revisions, stored, ms, id, j);
  }

  lemma ReopenedLast(revisions: seq<Revision>, stored: Option<Matter>, ms: seq<Matter>, id: string)
    requires ms != []
    ensures Reopened(revisions, stored, ms, id) <==>
      LastReopens(revisions, stored, ms, id)
      || (Reopened(revisions, stored, ms[..|ms| - 1], id) && (ms[|ms| - 1].id == id ==> ms[|ms| - 1].state != Resolved))
  {
    if Reopened(revisions, stored, ms, id) { ReopenedForth(revisions, stored, ms, id); }
    if LastReopens(revisions, stored, ms, id) {
      assert ReopenedBy(revisions, stored, ms, id, |ms| - 1);
    } else if Reopened(revisions, stored, ms[..|ms| - 1], id)
      && (ms[|ms| - 1].id == id ==> ms[|ms| - 1].state != Resolved) {
      ReopenedStays(revisions, stored, ms, id);
    }
  }

  /** The state a batch leaves. */
  ghost predicate StateFate(revisions: seq<Revision>, stored: Option<Matter>, ms: seq<Matter>, id: string,
      after: MatterState) {
    after == if WasResolved(stored, ms, id)
             then (if Reopened(revisions, stored, ms, id) then Open else Resolved)
             else if stored.Some? then stored.value.state else Open
  }

  /** What a batch leaves of a matter that was stored or is mentioned. */
  ghost predicate Fate(rows: map<string, MatterRow>, after: map<string, MatterRow>, revisions: seq<Revision>,
      ms: seq<Matter>, id: string) {
    var stored, last := Stored(rows, id), LastMention(ms, id);
    && (id in after <==> id in rows || last.Some?)
    && (id in after ==>
         && StateFate(revisions, stored, ms, id, after[id].body.state)
         && after[id].body.evidence == CitedBefore(stored, ms, id, |ms|)
         && after[id].nextCheck ==
              if last.None? || Decided(after[id].body.state)
              then (if id in rows then rows[id].nextCheck else after[id].nextCheck) else ms[last.value].nextCheck)
  }

  lemma FateElsewhere(rows: map<string, MatterRow>, before: map<string, MatterRow>, revisions: seq<Revision>,
      snaps: seq<Snapshot>, ms: seq<Matter>, id: string)
    requires ms != [] && ms[|ms| - 1].id != id && Fate(rows, before, revisions, ms[..|ms| - 1], id)
    ensures Fate(rows, PutMatter(before, revisions, snaps, ms[|ms| - 1]), revisions, ms, id)
  {
    var rest, stored := ms[..|ms| - 1], Stored(rows, id);
    FoundResolvedBefore(ms, id);
    ReopenedLast(revisions, stored, ms, id);
    assert rest[..|rest|] == rest && ms[..|ms|] == ms;
  }

  /** What the last mention makes of the state that the mentions before it left. */
  lemma StateHere(revisions: seq<Revision>, stored: Option<Matter>, ms: seq<Matter>, id: string, state: MatterState)
    requires ms != [] && ms[|ms| - 1].id == id && Reported(ms)
    requires StateFate(revisions, stored, ms[..|ms| - 1], id, state)
    ensures var last := ms[|ms| - 1];
      StateFate(revisions, stored, ms, id,
        if last.state == Resolved then Resolved
        else if Decided(state) then state
        else if state == Resolved && !LastReopens(revisions, stored, ms, id) then Resolved else Open)
  {
    FoundResolvedBefore(ms, id);
    ReopenedLast(revisions, stored, ms, id);
  }

  lemma FateHere(rows: map<string, MatterRow>, before: map<string, MatterRow>, revisions: seq<Revision>,
      snaps: seq<Snapshot>, ms: seq<Matter>, id: string)
    requires ms != [] && ms[|ms| - 1].id == id && Reported(ms) && Heard(revisions, snaps, ms[|ms| - 1])
    requires Fate(rows, before, revisions, ms[..|ms| - 1], id)
    ensures Fate(rows, PutMatter(before, revisions, snaps, ms[|ms| - 1]), revisions, ms, id)
  {
    var rest, stored, last := ms[..|ms| - 1], Stored(rows, id), ms[|ms| - 1];
    assert rest[..|rest|] == rest && ms[..|ms|] == ms;
    assert CitedBefore(stored, ms, id, |rest|) == CitedBefore(stored, rest, id, |rest|);
    if id in before {
      NewsIff(revisions, before[id].body, snaps, last);
      StateHere(revisions, stored, ms, id, before[id].body.state);
    } else {
      assert !FoundResolved(rest, id);
      FoundResolvedBefore(ms, id);
      ReopenedLast(revisions, stored, ms, id);
    }
  }

  lemma {:induction false} MatterFate(rows: map<string, MatterRow>, revisions: seq<Revision>,
      snaps: seq<Snapshot>, ms: seq<Matter>, id: string)
    requires Reported(ms) && AllHeard(revisions, snaps, ms)
    ensures Fate(rows, PutMatters(rows, revisions, snaps, ms), revisions, ms, id)
    decreases |ms|
  {
    if ms == [] {
      assert !FoundResolved(ms, id) && ms[..0] == [];
    } else {
      var rest, last := ms[..|ms| - 1], ms[|ms| - 1];
      MatterFate(rows, revisions, snaps, rest, id);
      var before := PutMatters(rows, revisions, snaps, rest);
      if last.id == id {
        FateHere(rows, before, revisions, snaps, ms, id);
      } else {
        FateElsewhere(rows, before, revisions, snaps, ms, id);
      }
    }
  }

  /** Stored or not, a matter's state, citations and next check after an accepted batch of reports. */
  lemma FateOfMatter(s: Store, issued: set<Snapshot>, jobs: Jobs.Table, job: Option<Jobs.Job>, snaps: seq<Snapshot>,
      os: seq<Observation>, ms: seq<Matter>, id: string)
    requires Sound(s, issued) && forall snap :: snap in snaps ==> snap in issued
    requires Apply(s, jobs, job, snaps, os, ms).1.Applied? && Reported(ms)
    ensures Fate(s.matters, Apply(s, jobs, job, snaps, os, ms).0.matters, s.revisions, ms, id)
  {
    AcceptedIsHeard(s, issued, jobs, job, snaps, os, ms);
    MarkKeepsTables(s, snaps);
    MatterFate(s.matters, s.revisions, snaps, ms, id);
  }

  // ---- A dismissal or a snooze ------------------------------------------------------

  lemma {:induction false} DecisionStands(rows: map<string, MatterRow>, revisions: seq<Revision>,
      snaps: seq<Snapshot>, ms: seq<Matter>, id: string)
    requires id in rows && Decided(rows[id].body.state) && Reported(ms)
    ensures var after := PutMatters(rows, revisions, snaps, ms);
      && id in after
      && (FoundResolved(ms, id) ==> !Decided(after[id].body.state))
      && (!FoundResolved(ms, id) ==>
           after[id].body.state == rows[id].body.state && after[id].nextCheck == rows[id].nextCheck)
    decreases |ms|
  {
    if ms != [] {
      DecisionStands(rows, revisions, snaps, ms[..|ms| - 1], id);
      FoundResolvedBefore(ms, id);
    }
  }

  /**
   Under whatever snapshots, a dismissal or snooze survives a batch with its date unless a mention
   finds it resolved.
   */
  lemma DecisionKeptIff(s: Store, jobs: Jobs.Table, job: Option<Jobs.Job>, snaps: seq<Snapshot>,
      os: seq<Observation>, ms: seq<Matter>, id: string)
    requires Apply(s, jobs, job, snaps, os, ms).1.Applied? && Reported(ms)
    requires id in s.matters && Decided(s.matters[id].body.state)
    ensures var s' := Apply(s, jobs, job, snaps, os, ms).0;
      && id in s'.matters
      && (s'.matters[id].body.state == s.matters[id].body.state <==> !FoundResolved(ms, id))
      && (!FoundResolved(ms, id) ==> s'.matters[id].nextCheck == s.matters[id].nextCheck)
  {
    MarkKeepsTables(s, snaps);
    DecisionStands(s.matters, s.revisions, snaps, ms, id);
  }

  /**
   However often a batch mentions a matter, a dismissal or snooze with its date survives it exactly
   when no mention finds the matter resolved; otherwise the matter is left resolved, or open
   exactly when a later mention reopens it on news.
   */
  lemma DecisionSurvivesIff(s: Store, issued: set<Snapshot>, jobs: Jobs.Table, job: Option<Jobs.Job>,
      snaps: seq<Snapshot>, os: seq<Observation>, ms: seq<Matter>, id: string)
    requires Sound(s, issued) && forall snap :: snap in snaps ==> snap in issued
    requires Apply(s, jobs, job, snaps, os, ms).1.Applied? && Reported(ms)
    requires id in s.matters && Decided(s.matters[id].body.state)
    ensures var s' := Apply(s, jobs, job, snaps, os, ms).0;
      && id in s'.matters
      && (s'.matters[id].body.state == s.matters[id].body.state <==> !FoundResolved(ms, id))
      && (!FoundResolved(ms, id) ==> s'.matters[id].nextCheck == s.matters[id].nextCheck)
      && (FoundResolved(ms, id) ==>
           s'.matters[id].body.state == if Reopened(s.revisions, Stored(s.matters, id), ms, id) then Open else Resolved)
  {
    DecisionKeptIff(s, jobs, job, snaps, os, ms, id);
    FateOfMatter(s, issued, jobs, job, snaps, os, ms, id);
  }

  // ---- A resolved matter -----------------------------------------------------------

  /**
   A resolved matter is open after a batch exactly when some mention asks to reopen it on something
   of a person's that was not said in what was cited before, and no later mention finds it resolved.
   */
  lemma ReopenedIff(s: Store, issued: set<Snapshot>, jobs: Jobs.Table, job: Option<Jobs.Job>, snaps: seq<Snapshot>,
      os: seq<Observation>, ms: seq<Matter>, id: string)
    requires Sound(s, issued) && forall snap :: snap in snaps ==> snap in issued
    requires Apply(s, jobs, job, snaps, os, ms).1.Applied? && Reported(ms)
    requires id in s.matters && s.matters[id].body.state == Resolved
    ensures var s' := Apply(s, jobs, job, snaps, os, ms).0;
      && id in s'.matters
      && s'.matters[id].body.state ==
           if Reopened(s.revisions, Stored(s.matters, id), ms, id) then Open else Resolved
  {
    FateOfMatter(s, issued, jobs, job, snaps, os, ms, id);
  }

  /** Mention j cites something of a person's, and it was not said in what was cited before. */
  predicate CitesNews(revisions: seq<Revision>, stored: Option<Matter>, ms: seq<Matter>, id: string, j: int, r: nat) {
    && 0 <= j < |ms| && ms[j].id == id && r in ms[j].evidence && r < |revisions|
    && !revisions[r].own && !revisions[r].bot && !SaidBefore(revisions, CitedBefore(stored, ms, id, j), r)
  }

  /** Mention j asks to reopen the matter on it, and no mention after that finds the matter resolved. */
  predicate AsksOnNews(revisions: seq<Revision>, stored: Option<Matter>, ms: seq<Matter>, id: string, j: int, r: nat) {
    && CitesNews(revisions, stored, ms, id, j, r) && ms[j].state == Open && ms[j].reopen
    && !FoundResolved(ms[j + 1..], id)
  }

  /**
   It stays resolved when all that people say in its mentions was said in what was cited before; it
   opens as soon as one thing was not, if that mention asks for it and none after finds it resolved.
   */
  lemma OpensOnNewsOnly(s: Store, issued: set<Snapshot>, jobs: Jobs.Table, job: Option<Jobs.Job>,
      snaps: seq<Snapshot>, os: seq<Observation>, ms: seq<Matter>, id: string, j: int, r: nat)
    requires Sound(s, issued) && forall snap :: snap in snaps ==> snap in issued
    requires Apply(s, jobs, job, snaps, os, ms).1.Applied? && Reported(ms)
    requires id in s.matters && s.matters[id].body.state == Resolved
    ensures var s', stored := Apply(s, jobs, job, snaps, os, ms).0, Stored(s.matters, id);
      && id in s'.matters
      && ((forall k, q :: !CitesNews(s.revisions, stored, ms, id, k, q)) ==> s'.matters[id].body.state == Resolved)
      && (AsksOnNews(s.revisions, stored, ms, id, j, r) ==> s'.matters[id].body.state == Open)
  {
    ReopenedIff(s, issued, jobs, job, snaps, os, ms, id);
    var stored := Stored(s.matters, id);
    if Reopened(s.revisions, stored, ms, id) {
      var k :| ReopenedBy(s.revisions, stored, ms, id, k);
      var q :| q in ms[k].evidence && q < |s.revisions| && !s.revisions[q].own && !s.revisions[q].bot
        && !SaidBefore(s.revisions, CitedBefore(stored, ms, id, k), q);
      assert CitesNews(s.revisions, stored, ms, id, k, q);
    }
    if AsksOnNews(s.revisions, stored, ms, id, j, r) {
      forall k | j < k < |ms| && ms[k].id == id ensures ms[k].state != Resolved {
        assert ms[j + 1..][k - j - 1] == ms[k];
      }
      assert ReopenedBy(s.revisions, stored, ms, id, j);
    }
  }
}
