/**
 The approval lifecycle of a stored trigger under the per-key lock: loading and saving are
 separate steps of a running call, other writers are not locked, and still a pending trigger is
 resolved at most once.
 */
module Triggers {
  import opened Common
  import Lock = KeyedLock

  datatype Status = Pending | Enabled | Paused

  datatype Trigger = Trigger(status: Status, approvedBy: Option<string>, content: string, updatedAt: Option<int>)

  /** What a locked call does; an edit may change any field, and at is when it does. */
  datatype Op = Enable(approver: string) | Withdraw | Update(edit: Trigger -> Trigger, at: int) | Delete

  datatype Outcome = DoneEnabled | DoneWithdrawn | DoneUpdated | DoneDeleted | Resolved(status: Status) | Gone

  /** Calls are aligned with those of the lock; loaded holds what a running call has read. */
  datatype World = World(
    lock: Lock.State, ops: seq<Op>, loaded: map<nat, Option<Trigger>>, outcomes: map<nat, Outcome>,
    store: map<string, Trigger>, known: set<string>)

  function Lookup(store: map<string, Trigger>, id: string): Option<Trigger> {
    if id in store then Some(store[id]) else None
  }

  // ---- The body of a locked call ------------------------------------------------

  /** What it answers, from what it has read. */
  function Answer(op: Op, read: Option<Trigger>): Outcome {
    if op.Delete? then DoneDeleted
    else if read.None? then Gone
    else if !read.value.status.Pending? then Resolved(read.value.status)
    else match op
      case Enable(_) => DoneEnabled
      case Withdraw => DoneWithdrawn
      case _ => DoneUpdated
  }

  /** What it leaves in the store, from what it has read. */
  function Written(op: Op, read: Option<Trigger>, id: string, store: map<string, Trigger>): map<string, Trigger> {
    match Answer(op, read)
    case DoneEnabled => store[id := read.value.(status := Enabled, approvedBy := Some(op.approver))]
    case DoneUpdated => store[id := op.edit(read.value).(updatedAt := Some(op.at))]
    case DoneWithdrawn => store - {id}
    case DoneDeleted => store - {id}
    case _ => store
  }

  predicate IsPending(t: Option<Trigger>) {
    t.Some? && t.value.status.Pending?
  }

  /** No trigger that was approved or withdrawn is pending. */
  ghost predicate Lasting(settled: set<string>, store: map<string, Trigger>) {
    forall id :: id in settled ==> !IsPending(Lookup(store, id))
  }

  ghost predicate Untouched(id: string, before: map<string, Trigger>, after: map<string, Trigger>) {
    forall other :: other != id ==> Lookup(after, other) == Lookup(before, other)
  }

  /** The records on disk, and the body of each locked call as it runs by itself. */
  class TriggerStore {
    var records: map<string, Trigger>
    /** The triggers approved or withdrawn so far. */
    ghost var settled: set<string>

    ghost predicate Valid()
      reads this
    {
      Lasting(settled, records)
    }

    constructor (initial: map<string, Trigger>)
      ensures Valid() && records == initial && settled == {}
    {
      records, settled := initial, {};
    }

    method EnableProposed(id: string, approver: string) returns (enabled: Option<Trigger>)
      modifies this
      ensures records == Written(Enable(approver), Lookup(old(records), id), id, old(records))
      ensures enabled ==
        if Answer(Enable(approver), Lookup(old(records), id)).DoneEnabled? then Lookup(records, id) else None
      ensures Untouched(id, old(records), records)
      ensures enabled.Some? <==> id in old(records) && old(records)[id].status == Pending
      ensures enabled.None? ==> records == old(records)
      ensures enabled.Some? ==>
        && enabled.value.status == Enabled && enabled.value.approvedBy == Some(approver)
        && enabled.value.content == old(records)[id].content && enabled.value.updatedAt == old(records)[id].updatedAt
        && records == old(records)[id := enabled.value]
      ensures settled == old(settled) + (if enabled.Some? then {id} else {})
      ensures old(Valid()) ==> Valid() && (enabled.Some? ==> id !in old(settled))
    {
      var t := Lookup(records, id);
      if t.None? || t.value.status != Pending { return None; }
      var trigger := t.value.(status := Enabled, approvedBy := Some(approver));
      records := records[id := trigger];
      settled := settled + {id};
      enabled := Some(trigger);
    }

    method WithdrawPending(id: string) returns (outcome: Outcome)
      modifies this
      ensures records == Written(Withdraw, Lookup(old(records), id), id, old(records))
      ensures outcome == Answer(Withdraw, Lookup(old(records), id))
      ensures outcome == if id !in old(records) then Gone
        else if old(records)[id].status == Pending then DoneWithdrawn else Resolved(old(records)[id].status)
      ensures records == if outcome == DoneWithdrawn then old(records) - {id} else old(records)
      ensures Untouched(id, old(records), records)
      ensures settled == old(settled) + (if outcome.DoneWithdrawn? then {id} else {})
      ensures old(Valid()) ==> Valid() && (outcome.DoneWithdrawn? ==> id !in old(settled))
    {
      var t := Lookup(records, id);
      if t.None? { return Gone; }
      if t.value.status != Pending { return Resolved(t.value.status); }
      records := records - {id};
      settled := settled + {id};
      outcome := DoneWithdrawn;
    }

    method UpdatePending(id: string, edit: Trigger -> Trigger, now: int) returns (outcome: Outcome)
      modifies this
      ensures records == Written(Update(edit, now), Lookup(old(records), id), id, old(records))
      ensures outcome == Answer(Update(edit, now), Lookup(old(records), id))
      ensures outcome == if id !in old(records) then Gone
        else if old(records)[id].status == Pending then DoneUpdated else Resolved(old(records)[id].status)
      ensures records == if outcome == DoneUpdated
        then old(records)[id := edit(old(records)[id]).(updatedAt := Some(now))] else old(records)
      ensures Untouched(id, old(records), records) && settled == old(settled)
      ensures old(Valid()) ==> Valid() && (outcome.DoneUpdated? ==> id !in settled)
    {
      var t := Lookup(records, id);
      if t.None? { return Gone; }
      if t.value.status != Pending { return Resolved(t.value.status); }
      records := records[id := edit(t.value).(updatedAt := Some(now))];
      outcome := DoneUpdated;
    }

    method DeleteTrigger(id: string)
      modifies this
      ensures records == Written(Delete, Lookup(old(records), id), id, old(records))
      ensures records == old(records) - {id}
      ensures Untouched(id, old(records), records) && settled == old(settled)
      ensures old(Valid()) ==> Valid()
    {
      records := records - {id};
    }
  }

  // ---- The steps -------------------------------------------------------------------

  /**
   Propose stores a new pending trigger under a fresh id. Fire is a write outside the lock: the
   scheduler's, or an edit of a live trigger; it neither touches a pending record nor makes one.
   Fail is a call that throws before it has written.
   */
  datatype Step =
    | Propose(id: string, trigger: Trigger)
    | Ask(id: string, op: Op)
    | Begin(i: nat)
    | Load(i: nat)
    | Save(i: nat)
    | Fail(i: nat)
    | Pass(i: nat)
    | Fire(id: string, live: Option<Trigger>)

  predicate Runs(w: World, i: nat) {
    i < |w.lock.calls| && i < |w.ops| && w.lock.calls[i].phase.Running?
  }

  predicate Can(w: World, step: Step) {
    match step
    case Propose(id, t) => id !in w.known && t.status.Pending?
    case Ask(id, _) => id in w.known
    case Begin(i) => Lock.Enabled(w.lock, Lock.Begin(i))
    case Load(i) => Runs(w, i) && i !in w.loaded
    case Save(i) => Runs(w, i) && i in w.loaded
    case Fail(i) => Runs(w, i)
    case Pass(i) => Lock.Enabled(w.lock, Lock.Resolve(i)) || Lock.Enabled(w.lock, Lock.Clean(i))
    case Fire(id, t) =>
      && (id in w.store ==> !w.store[id].status.Pending?)
      && (t.Some? ==> !t.value.status.Pending?)
      && id in w.known
  }

  function Do(w: World, step: Step): World
    requires Can(w, step)
  {
    match step
    case Propose(id, t) => w.(store := w.store[id := t], known := w.known + {id})
    case Ask(id, op) => w.(lock := Lock.Do(w.lock, Lock.Arrive(id)), ops := w.ops + [op])
    case Begin(i) => w.(lock := Lock.Do(w.lock, Lock.Begin(i)))
    case Load(i) => w.(loaded := w.loaded[i := Lookup(w.store, w.lock.calls[i].key)])
    case Save(i) =>
      var id, op, read := w.lock.calls[i].key, w.ops[i], w.loaded[i];
      w.(lock := Lock.Do(w.lock, Lock.Settle(i, true)),
         store := Written(op, read, id, w.store),
         outcomes := w.outcomes[i := Answer(op, read)])
    case Fail(i) => w.(lock := Lock.Do(w.lock, Lock.Settle(i, false)))
    case Pass(i) =>
      w.(lock := Lock.Do(w.lock, if w.lock.calls[i].phase.Settled? then Lock.Resolve(i) else Lock.Clean(i)))
    case Fire(id, t) => w.(store := if t.Some? then w.store[id := t.value] else w.store - {id})
  }

  function Empty(): World {
    World(Lock.Start(), [], map[], map[], map[], {})
  }

  // ---- What every step keeps -------------------------------------------------------

  predicate Resolving(o: Outcome) {
    o.DoneEnabled? || o.DoneWithdrawn?
  }

  /** A call that has read is running, or done with an outcome. */
  ghost predicate Tracked(w: World) {
    && |w.ops| == |w.lock.calls|
    && (forall i :: i in w.loaded ==> i < |w.lock.calls| && !w.lock.calls[i].phase.Waiting?)
    && (forall i :: 0 <= i < |w.lock.calls| && i in w.outcomes ==>
         !w.lock.calls[i].phase.Waiting? && !w.lock.calls[i].phase.Running?)
    && (forall i :: i in w.outcomes ==> i < |w.lock.calls|)
    && (forall id :: id in w.store ==> id in w.known)
    && (forall i :: 0 <= i < |w.lock.calls| ==> w.lock.calls[i].key in w.known)
  }

  /**
   A pending record that a running call has read is still what the store holds; one that was not
   pending still is not.
   */
  ghost predicate ReadsHold(w: World) {
    forall i :: i in w.loaded && i < |w.lock.calls| && w.lock.calls[i].phase.Running?
      ==> ReadHolds(w.loaded[i], Lookup(w.store, w.lock.calls[i].key))
  }

  predicate ReadHolds(read: Option<Trigger>, now: Option<Trigger>) {
    if IsPending(read) then now == read else !IsPending(now)
  }

  /** Once a call has resolved a trigger, the trigger is never pending again. */
  ghost predicate ResolvedStays(w: World) {
    forall i :: i in w.outcomes && i < |w.lock.calls| && Resolving(w.outcomes[i]) ==>
      && w.lock.calls[i].key in w.known
      && (w.lock.calls[i].key in w.store ==> !w.store[w.lock.calls[i].key].status.Pending?)
  }

  /** No two calls have resolved the same trigger. */
  ghost predicate ResolvedOnce(w: World) {
    forall i, j :: i in w.outcomes && j in w.outcomes && i < |w.lock.calls| && j < |w.lock.calls|
      && Resolving(w.outcomes[i]) && Resolving(w.outcomes[j]) && w.lock.calls[i].key == w.lock.calls[j].key
      ==> i == j
  }

  ghost predicate Good(w: World) {
    Lock.Good(w.lock) && Tracked(w) && ReadsHold(w) && ResolvedStays(w) && ResolvedOnce(w)
  }

  /** A running call is the only one of its key. */
  lemma Alone(w: World, i: nat, j: nat)
    requires Good(w) && Runs(w, i) && Runs(w, j) && w.lock.calls[i].key == w.lock.calls[j].key
    ensures i == j
  {
  }

  lemma ProposeGood(w: World, id: string, trigger: Trigger)
    requires Good(w) && Can(w, Propose(id, trigger))
    ensures Good(Do(w, Propose(id, trigger)))
  {
  }

  /** A write outside the lock leaves nothing pending under its id, where nothing was, and no other id changed. */
  lemma FireQuiet(w: World, id: string, live: Option<Trigger>)
    requires Can(w, Fire(id, live))
    ensures var t := Do(w, Fire(id, live));
      && !IsPending(Lookup(w.store, id)) && !IsPending(Lookup(t.store, id))
      && forall other :: other != id ==> Lookup(t.store, other) == Lookup(w.store, other)
  {
  }

  lemma FireTracked(w: World, id: string, live: Option<Trigger>)
    requires Tracked(w) && Can(w, Fire(id, live))
    ensures Tracked(Do(w, Fire(id, live)))
  {
  }

  lemma FireReads(w: World, id: string, live: Option<Trigger>)
    requires ReadsHold(w) && Can(w, Fire(id, live))
    ensures ReadsHold(Do(w, Fire(id, live)))
  {
    FireQuiet(w, id, live);
    var t := Do(w, Fire(id, live));
    forall i | i in t.loaded && i < |t.lock.calls| && t.lock.calls[i].phase.Running?
      ensures ReadHolds(t.loaded[i], Lookup(t.store, t.lock.calls[i].key))
    {
      assert ReadHolds(w.loaded[i], Lookup(w.store, w.lock.calls[i].key));
    }
  }

  lemma FireStays(w: World, id: string, live: Option<Trigger>)
    requires ResolvedStays(w) && Can(w, Fire(id, live))
    ensures ResolvedStays(Do(w, Fire(id, live)))
  {
    var t := Do(w, Fire(id, live));
    forall i | i in t.outcomes && i < |t.lock.calls| && Resolving(t.outcomes[i])
      ensures t.lock.calls[i].key in t.known
      ensures t.lock.calls[i].key in t.store ==> !t.store[t.lock.calls[i].key].status.Pending?
    {
      FireQuiet(w, id, live);
      assert t.lock.calls[i].key != id ==> Lookup(t.store, t.lock.calls[i].key) == Lookup(w.store, t.lock.calls[i].key);
    }
  }

  lemma FireGood(w: World, id: string, live: Option<Trigger>)
    requires Good(w) && Can(w, Fire(id, live))
    ensures Good(Do(w, Fire(id, live)))
  {
    FireTracked(w, id, live);
    FireReads(w, id, live);
    FireStays(w, id, live);
  }

  lemma LoadGood(w: World, i: nat)
    requires Good(w) && Can(w, Load(i))
    ensures Good(Do(w, Load(i)))
  {
  }

  /** The new call waits behind the others, which are as they were. */
  ghost predicate Joined(w: World, t: World) {
    && |t.lock.calls| == |w.lock.calls| + 1 == |t.ops| && |w.ops| == |w.lock.calls|
    && t.lock.calls[|w.lock.calls|].phase.Waiting? && t.lock.calls[|w.lock.calls|].key in t.known
    && (forall k :: 0 <= k < |w.lock.calls| ==> t.lock.calls[k] == w.lock.calls[k])
    && t.loaded == w.loaded && t.outcomes == w.outcomes && t.store == w.store && t.known == w.known
  }

  lemma JoinedKeeps(w: World, t: World)
    requires Tracked(w) && ReadsHold(w) && Joined(w, t)
    ensures Tracked(t) && ReadsHold(t)
  {
  }

  lemma JoinedResolved(w: World, t: World)
    requires Tracked(w) && ResolvedStays(w) && ResolvedOnce(w) && Joined(w, t)
    ensures ResolvedStays(t) && ResolvedOnce(t)
  {
    assert forall i :: i in t.outcomes ==> i < |w.lock.calls|;
  }

  lemma AskGood(w: World, id: string, op: Op)
    requires Good(w) && Can(w, Ask(id, op))
    ensures Good(Do(w, Ask(id, op)))
  {
    Lock.StepGood(w.lock, Lock.Arrive(id));
    var t := Do(w, Ask(id, op));
    assert Joined(w, t);
    JoinedKeeps(w, t);
    JoinedResolved(w, t);
  }

  predicate MovesOn(move: Lock.Step, i: nat) {
    move == Lock.Begin(i) || move == Lock.Settle(i, false) || move == Lock.Resolve(i) || move == Lock.Clean(i)
  }

  /** Only call i has moved, and not back to waiting. */
  ghost predicate Advanced(before: Lock.State, after: Lock.State, i: nat) {
    && i < |before.calls| == |after.calls| && !after.calls[i].phase.Waiting?
    && (after.calls[i].phase.Running? ==> before.calls[i].phase.Waiting?)
    && (forall k :: 0 <= k < |after.calls| ==> after.calls[k].key == before.calls[k].key)
    && (forall k :: 0 <= k < |after.calls| && k != i ==> after.calls[k].phase == before.calls[k].phase)
  }

  lemma AdvancedTracked(w: World, lock: Lock.State, i: nat)
    requires Tracked(w) && Advanced(w.lock, lock, i) && (lock.calls[i].phase.Running? ==> i !in w.outcomes)
    ensures Tracked(w.(lock := lock))
  {
  }

  lemma AdvancedResolved(w: World, lock: Lock.State, i: nat)
    requires ResolvedStays(w) && ResolvedOnce(w) && Advanced(w.lock, lock, i)
    ensures ResolvedStays(w.(lock := lock)) && ResolvedOnce(w.(lock := lock))
  {
  }

  lemma AdvancedReads(w: World, lock: Lock.State, i: nat)
    requires Tracked(w) && ReadsHold(w) && Advanced(w.lock, lock, i)
    ensures ReadsHold(w.(lock := lock))
  {
  }

  /** Moving a call on without touching the store keeps everything. */
  lemma MoveGood(w: World, i: nat, move: Lock.Step)
    requires Good(w) && MovesOn(move, i) && Lock.Enabled(w.lock, move)
    ensures Good(w.(lock := Lock.Do(w.lock, move)))
  {
    var lock := Lock.Do(w.lock, move);
    assert Lock.Good(lock) by { Lock.StepGood(w.lock, move); }
    assert Advanced(w.lock, lock, i);
    assert lock.calls[i].phase.Running? ==> i !in w.outcomes;
    AdvancedTracked(w, lock, i);
    AdvancedResolved(w, lock, i);
    AdvancedReads(w, lock, i);
  }

  /** What a call saves rests on what the store still holds. */
  lemma SaveIsCurrent(w: World, i: nat)
    requires Good(w) && Can(w, Save(i))
      && (Answer(w.ops[i], w.loaded[i]).DoneUpdated? || Resolving(Answer(w.ops[i], w.loaded[i])))
    ensures Lookup(w.store, w.lock.calls[i].key) == w.loaded[i] && w.loaded[i].value.status.Pending?
  {
  }

  lemma SavedElsewhere(w: World, i: nat)
    requires Can(w, Save(i))
    ensures forall id :: id != w.lock.calls[i].key ==> Lookup(Do(w, Save(i)).store, id) == Lookup(w.store, id)
    ensures var id, t := w.lock.calls[i].key, Do(w, Save(i));
      Resolving(t.outcomes[i]) && id in t.store ==> !t.store[id].status.Pending?
    ensures var id, t := w.lock.calls[i].key, Do(w, Save(i));
      (id in w.store ==> !w.store[id].status.Pending?) && (w.loaded[i].Some? ==> !w.loaded[i].value.status.Pending?)
      ==> (id in t.store ==> !t.store[id].status.Pending?)
    ensures var id, t := w.lock.calls[i].key, Do(w, Save(i)); id in t.store ==> id in w.store || w.loaded[i].Some?
  {
  }

  lemma SaveReads(w: World, i: nat)
    requires Good(w) && Can(w, Save(i))
    ensures ReadsHold(Do(w, Save(i)))
  {
    var t, id := Do(w, Save(i)), w.lock.calls[i].key;
    SavedElsewhere(w, i);
    forall j | j in t.loaded && j < |t.lock.calls| && t.lock.calls[j].phase.Running?
      ensures ReadHolds(t.loaded[j], Lookup(t.store, t.lock.calls[j].key))
    {
      if t.lock.calls[j].key == id { Alone(w, i, j); }
    }
  }

  lemma SaveKnown(w: World, i: nat)
    requires Good(w) && Can(w, Save(i))
    ensures forall id :: id in Do(w, Save(i)).store ==> id in w.known
  {
    var t := Do(w, Save(i));
    SavedElsewhere(w, i);
    forall id | id in t.store ensures id in w.known {
      assert id == w.lock.calls[i].key || Lookup(t.store, id) == Lookup(w.store, id);
    }
  }

  lemma SaveTracked(w: World, i: nat)
    requires Good(w) && Can(w, Save(i))
    ensures Tracked(Do(w, Save(i)))
  {
    var t := Do(w, Save(i));
    AdvancedTracked(w, t.lock, i);
    SaveKnown(w, i);
  }

  /** What a call that has resolved its trigger leaves is not pending. */
  lemma SaveStays(w: World, i: nat)
    requires Good(w) && Can(w, Save(i))
    ensures ResolvedStays(Do(w, Save(i)))
  {
    var t, id := Do(w, Save(i)), w.lock.calls[i].key;
    SavedElsewhere(w, i);
    assert ReadHolds(w.loaded[i], Lookup(w.store, id));
    forall j | j in t.outcomes && j < |t.lock.calls| && Resolving(t.outcomes[j])
      ensures t.lock.calls[j].key in t.known
      ensures t.lock.calls[j].key in t.store ==> !t.store[t.lock.calls[j].key].status.Pending?
    {
      var other := w.lock.calls[j].key;
      assert t.lock.calls[j].key == other;
      if other != id { assert Lookup(t.store, other) == Lookup(w.store, other); }
    }
  }

  /** A trigger already resolved is not pending, so the call that saves now did not find it so. */
  lemma NotYetResolved(w: World, i: nat)
    requires Good(w) && Can(w, Save(i)) && Resolving(Answer(w.ops[i], w.loaded[i]))
    ensures forall j :: j in w.outcomes && j < |w.lock.calls| && Resolving(w.outcomes[j]) ==>
      w.lock.calls[j].key != w.lock.calls[i].key
  {
    SaveIsCurrent(w, i);
  }

  /** One more outcome, of a trigger not resolved before if it resolves one. */
  lemma OnceMore(w: World, t: World, i: nat)
    requires ResolvedOnce(w) && i < |w.lock.calls| == |t.lock.calls|
    requires forall k :: 0 <= k < |t.lock.calls| ==> t.lock.calls[k].key == w.lock.calls[k].key
    requires i in t.outcomes && t.outcomes == w.outcomes[i := t.outcomes[i]]
    requires Resolving(t.outcomes[i]) ==>
      forall j :: j in w.outcomes && j < |w.lock.calls| && Resolving(w.outcomes[j]) ==>
      w.lock.calls[j].key != w.lock.calls[i].key
    ensures ResolvedOnce(t)
  {
  }

  lemma SaveOnce(w: World, i: nat)
    requires Good(w) && Can(w, Save(i))
    ensures ResolvedOnce(Do(w, Save(i)))
  {
    if Resolving(Answer(w.ops[i], w.loaded[i])) { NotYetResolved(w, i); }
    OnceMore(w, Do(w, Save(i)), i);
  }

  lemma SaveGood(w: World, i: nat)
    requires Good(w) && Can(w, Save(i))
    ensures Good(Do(w, Save(i)))
  {
    Lock.StepGood(w.lock, Lock.Settle(i, true));
    SaveReads(w, i);
    SaveTracked(w, i);
    SaveStays(w, i);
    SaveOnce(w, i);
  }

  lemma StepGood(w: World, step: Step)
    requires Good(w) && Can(w, step)
    ensures Good(Do(w, step))
  {
    match step
    case Save(i) => SaveGood(w, i);
    case Propose(id, trigger) => ProposeGood(w, id, trigger);
    case Fire(id, live) => FireGood(w, id, live);
    case Load(i) => LoadGood(w, i);
    case Ask(id, op) => AskGood(w, id, op);
    case Begin(i) => MoveGood(w, i, Lock.Begin(i));
    case Fail(i) => MoveGood(w, i, Lock.Settle(i, false));
    case Pass(i) => MoveGood(w, i, if w.lock.calls[i].phase.Settled? then Lock.Resolve(i) else Lock.Clean(i));
  }

  ghost predicate Reaches(w: World, steps: seq<Step>, t: World)
    decreases |steps|
  {
    if steps == [] then t == w else Can(w, steps[0]) && Reaches(Do(w, steps[0]), steps[1..], t)
  }

  lemma {:induction false} RunGood(w: World, steps: seq<Step>, t: World)
    requires Good(w) && Reaches(w, steps, t)
    ensures Good(t)
    decreases |steps|
  {
    if steps != [] {
      StepGood(w, steps[0]);
      RunGood(Do(w, steps[0]), steps[1..], t);
    }
  }

  /** A trigger is resolved by at most one of all the approvals and withdrawals ever asked for. */
  lemma AtMostOneResolution(steps: seq<Step>, t: World, i: nat, j: nat)
    requires Reaches(Empty(), steps, t)
    requires i in t.outcomes && j in t.outcomes && Resolving(t.outcomes[i]) && Resolving(t.outcomes[j])
    ensures i < |t.lock.calls| && j < |t.lock.calls|
    ensures t.lock.calls[i].key == t.lock.calls[j].key ==> i == j
  {
    RunGood(Empty(), steps, t);
  }

  /** The store after a whole locked body done at once. */
  function AtOnce(op: Op, id: string, store: map<string, Trigger>): map<string, Trigger> {
    Written(op, Lookup(store, id), id, store)
  }

  /** A read that still holds is written back as what is stored now would be. */
  lemma WrittenAtOnce(op: Op, read: Option<Trigger>, id: string, store: map<string, Trigger>)
    requires ReadHolds(read, Lookup(store, id))
    ensures Written(op, read, id, store) == AtOnce(op, id, store)
    ensures Answer(op, read).DoneUpdated? || Resolving(Answer(op, read)) ==> IsPending(Lookup(store, id))
  {
  }

  /**
   Loading and saving apart does to the store exactly what doing both at once at the moment of the
   save would, and an edit, approval or withdrawal that takes effect finds its trigger pending then.
   */
  lemma SaveIsAtomic(steps: seq<Step>, t: World, i: nat)
    requires Reaches(Empty(), steps, t) && Can(t, Save(i))
    ensures Do(t, Save(i)).store == AtOnce(t.ops[i], t.lock.calls[i].key, t.store)
    ensures var o := Answer(t.ops[i], t.loaded[i]);
      o.DoneUpdated? || Resolving(o) ==> IsPending(Lookup(t.store, t.lock.calls[i].key))
  {
    RunGood(Empty(), steps, t);
    WrittenAtOnce(t.ops[i], t.loaded[i], t.lock.calls[i].key, t.store);
  }

  // ---- What the steps do ------------------------------------------------------------

  /** A running call reads what is stored, and later writes and answers from what it has read. */
  lemma CallEffect(w: World, i: nat)
    ensures Can(w, Load(i)) ==> Do(w, Load(i)) == w.(loaded := w.loaded[i := Lookup(w.store, w.lock.calls[i].key)])
    ensures Can(w, Save(i)) ==>
      var t, op, read, id := Do(w, Save(i)), w.ops[i], w.loaded[i], w.lock.calls[i].key;
      && i in t.outcomes && t.outcomes == w.outcomes[i := t.outcomes[i]]
      && Untouched(id, w.store, t.store)
      && (t.outcomes[i] == DoneEnabled <==> op.Enable? && IsPending(read))
      && (t.outcomes[i] == DoneWithdrawn <==> op.Withdraw? && IsPending(read))
      && (t.outcomes[i] == DoneUpdated <==> op.Update? && IsPending(read))
      && (t.outcomes[i] == DoneDeleted <==> op.Delete?)
      && (t.outcomes[i] == Gone <==> !op.Delete? && read.None?)
      && (t.outcomes[i] == DoneEnabled ==>
           Lookup(t.store, id) == Some(read.value.(status := Enabled, approvedBy := Some(op.approver))))
      && (t.outcomes[i] == DoneUpdated ==> Lookup(t.store, id) == Some(op.edit(read.value).(updatedAt := Some(op.at))))
      && (t.outcomes[i] in {DoneWithdrawn, DoneDeleted} ==> Lookup(t.store, id) == None)
      && (t.outcomes[i] !in {DoneEnabled, DoneUpdated, DoneWithdrawn, DoneDeleted} ==> t.store == w.store)
  {
  }

  function Proposed(id: string, trigger: Trigger, approver: string): World {
    World(Lock.State([Lock.Call(id, None, Lock.Waiting)], map[id := 0]), [Enable(approver)], map[], map[],
          map[id := trigger], {id})
  }

  lemma Asked(id: string, trigger: Trigger, approver: string)
    requires trigger.status.Pending?
    ensures Can(Empty(), Propose(id, trigger)) && Can(Do(Empty(), Propose(id, trigger)), Ask(id, Enable(approver)))
    ensures Do(Do(Empty(), Propose(id, trigger)), Ask(id, Enable(approver))) == Proposed(id, trigger, approver)
  {
  }

  lemma Saved(id: string, trigger: Trigger, approver: string, t: World)
    requires trigger.status.Pending?
    requires t == Proposed(id, trigger, approver).(
      lock := Lock.State([Lock.Call(id, None, Lock.Settled(true))], map[id := 0]), loaded := map[0 := Some(trigger)],
      outcomes := map[0 := DoneEnabled],
      store := map[id := trigger.(status := Enabled, approvedBy := Some(approver))])
    ensures Reaches(Proposed(id, trigger, approver), [Begin(0), Load(0), Save(0)], t)
  {
    var w := Proposed(id, trigger, approver);
    var steps := [Begin(0), Load(0), Save(0)];
    assert steps[1..] == [Load(0), Save(0)] && steps[1..][1..] == [Save(0)] && steps[1..][1..][1..] == [];
    var w1 := w.(lock := Lock.State([Lock.Call(id, None, Lock.Running)], map[id := 0]));
    assert Can(w, Begin(0)) && Do(w, Begin(0)) == w1;
    var w2 := w1.(loaded := map[0 := Some(trigger)]);
    assert Can(w1, Load(0)) && Do(w1, Load(0)) == w2;
    assert Can(w2, Save(0)) && Do(w2, Save(0)) == t;
    assert Reaches(t, [], t) && Reaches(w2, [Save(0)], t) && Reaches(w1, [Load(0), Save(0)], t);
  }

  /** A trigger that is proposed and approved ends up enabled, with its approver. */
  lemma ApprovalGoesThrough(id: string, trigger: Trigger, approver: string) returns (t: World)
    requires trigger.status.Pending?
    ensures Reaches(Empty(), [Propose(id, trigger), Ask(id, Enable(approver)), Begin(0), Load(0), Save(0)], t)
    ensures t.store == map[id := trigger.(status := Enabled, approvedBy := Some(approver))]
    ensures t.outcomes == map[0 := DoneEnabled]
  {
    t := Proposed(id, trigger, approver).(
      lock := Lock.State([Lock.Call(id, None, Lock.Settled(true))], map[id := 0]), loaded := map[0 := Some(trigger)],
      outcomes := map[0 := DoneEnabled],
      store := map[id := trigger.(status := Enabled, approvedBy := Some(approver))]);
    Asked(id, trigger, approver);
    Saved(id, trigger, approver, t);
    var rest := [Begin(0), Load(0), Save(0)];
    var steps := [Propose(id, trigger), Ask(id, Enable(approver))] + rest;
    assert steps == [Propose(id, trigger), Ask(id, Enable(approver)), Begin(0), Load(0), Save(0)];
    assert steps[1..] == [Ask(id, Enable(approver))] + rest && steps[1..][1..] == rest;
    assert Reaches(Do(Empty(), Propose(id, trigger)), steps[1..], t);
  }
}
