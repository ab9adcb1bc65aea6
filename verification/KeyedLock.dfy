/**
 Per-key serialisation by promise chains, as the steps of the promises: a call chains itself
 behind the last one of its key, starts when that one is over, whatever its outcome, and a
 finished chain is dropped from the map unless it has been extended.
 */
module KeyedLock {
  import opened Common

  /**
   Waiting for the link before it, running, settled with its own outcome, its never-rejecting
   link resolved, and the clean-up behind that link done.
   */
  datatype Phase = Waiting | Running | Settled(ok: bool) | Resolved | Cleaned

  /** A call, and the call it is chained behind, if its key had a chain. */
  datatype Call = Call(key: string, prev: Option<nat>, phase: Phase)

  /** Calls in order of arrival; the chain of a key is its last call. */
  datatype State = State(calls: seq<Call>, chains: map<string, nat>)

  function Start(): State {
    State([], map[])
  }

  predicate Over(phase: Phase) {
    phase.Resolved? || phase.Cleaned?
  }

  // ---- The steps --------------------------------------------------------------

  datatype Step = Arrive(key: string) | Begin(i: nat) | Settle(i: nat, ok: bool) | Resolve(i: nat) | Clean(i: nat)

  predicate Enabled(s: State, step: Step) {
    match step
    case Arrive(_) => true
    case Begin(i) => i < |s.calls| && s.calls[i].phase.Waiting?
      && (s.calls[i].prev.Some? ==> s.calls[i].prev.value < |s.calls| && Over(s.calls[s.calls[i].prev.value].phase))
    case Settle(i, _) => i < |s.calls| && s.calls[i].phase.Running?
    case Resolve(i) => i < |s.calls| && s.calls[i].phase.Settled?
    case Clean(i) => i < |s.calls| && s.calls[i].phase.Resolved?
  }

  function Moved(s: State, i: nat, phase: Phase): State
    requires i < |s.calls|
  {
    s.(calls := s.calls[i := s.calls[i].(phase := phase)])
  }

  function Do(s: State, step: Step): State
    requires Enabled(s, step)
  {
    match step
    case Arrive(key) =>
      State(s.calls + [Call(key, if key in s.chains then Some(s.chains[key]) else None, Waiting)],
            s.chains[key := |s.calls|])
    case Begin(i) => Moved(s, i, Running)
    case Settle(i, ok) => Moved(s, i, Settled(ok))
    case Resolve(i) => Moved(s, i, Resolved)
    case Clean(i) =>
      var key := s.calls[i].key;
      var t := Moved(s, i, Cleaned);
      if key in s.chains && s.chains[key] == i then t.(chains := s.chains - {key}) else t
  }

  // ---- The lock as an object ----------------------------------------------------

  class Lock {
    var calls: seq<Call>
    var chains: map<string, nat>

    constructor ()
      ensures View() == Start()
    {
      calls, chains := [], map[];
    }

    ghost function View(): State
      reads this
    {
      State(calls, chains)
    }

    /** A call takes its place behind the chain of its key and becomes the chain. */
    method RunCall(key: string) returns (id: nat)
      modifies this
      ensures View() == Do(old(View()), Arrive(key)) && id == |old(calls)|
    {
      id := |calls|;
      var prev := if key in chains then Some(chains[key]) else None;
      calls := calls + [Call(key, prev, Waiting)];
      chains := chains[key := id];
    }

    method SetPhase(i: nat, phase: Phase)
      requires i < |calls|
      modifies this`calls
      ensures View() == Moved(old(View()), i, phase)
    {
      calls := calls[i := calls[i].(phase := phase)];
    }

    /** Behind a resolved link: the map entry goes only if it is still this link. */
    method CleanUp(i: nat)
      requires Enabled(View(), Clean(i))
      modifies this
      ensures View() == Do(old(View()), Clean(i))
    {
      var key := calls[i].key;
      SetPhase(i, Cleaned);
      if key in chains && chains[key] == i {
        chains := chains - {key};
      }
    }
  }

  // ---- What every step keeps ------------------------------------------------------

  /** Calls of a key begin in order of arrival, each only when all before it are over. */
  ghost predicate InOrder(s: State) {
    forall i, j :: 0 <= i < j < |s.calls| && s.calls[i].key == s.calls[j].key && !s.calls[j].phase.Waiting?
      ==> Over(s.calls[i].phase)
  }

  /** A call is chained behind the last earlier call of its key, or all of those are over. */
  ghost predicate Linked(s: State, j: nat)
    requires j < |s.calls|
  {
    match s.calls[j].prev
    case None => forall i :: 0 <= i < j && s.calls[i].key == s.calls[j].key ==> Over(s.calls[i].phase)
    case Some(p) =>
      && p < j && s.calls[p].key == s.calls[j].key
      && forall i :: p < i < j ==> s.calls[i].key != s.calls[j].key
  }

  /** The map holds the last call of a key that is not cleaned up yet, and nothing for a drained key. */
  ghost predicate Mapped(s: State) {
    && (forall key :: key in s.chains ==>
         s.chains[key] < |s.calls| && s.calls[s.chains[key]].key == key && !s.calls[s.chains[key]].phase.Cleaned?
         && forall i :: s.chains[key] < i < |s.calls| ==> s.calls[i].key != key)
    && (forall i :: 0 <= i < |s.calls| && s.calls[i].key !in s.chains ==> Over(s.calls[i].phase))
  }

  ghost predicate Good(s: State) {
    InOrder(s) && Mapped(s) && forall j :: 0 <= j < |s.calls| ==> Linked(s, j)
  }

  /** Phases only move forward. */
  predicate Later(a: Phase, b: Phase) {
    a == b || (a.Waiting? && b.Running?) || (a.Running? && b.Settled?) || (a.Settled? && b.Resolved?)
      || (a.Resolved? && b.Cleaned?)
  }

  lemma MovedLinked(s: State, i: nat, phase: Phase, j: nat)
    requires i < |s.calls| && j < |s.calls| && Later(s.calls[i].phase, phase) && Linked(s, j)
    ensures Linked(Moved(s, i, phase), j)
  {
  }

  lemma ArriveGood(s: State, key: string)
    requires Good(s)
    ensures Good(Do(s, Arrive(key)))
  {
    var t := Do(s, Arrive(key));
    forall j | 0 <= j < |t.calls| ensures Linked(t, j) {
      if j < |s.calls| { assert Linked(s, j); }
    }
  }

  /** What a beginning call may count on: all earlier calls of its key are over. */
  lemma EarlierAreOver(s: State, j: nat, i: nat)
    requires Good(s) && Enabled(s, Begin(j)) && i < j && s.calls[i].key == s.calls[j].key
    ensures Over(s.calls[i].phase)
  {
    assert Linked(s, j);
  }

  lemma BeginGood(s: State, j: nat)
    requires Good(s) && Enabled(s, Begin(j))
    ensures Good(Do(s, Begin(j)))
  {
    var t := Do(s, Begin(j));
    forall i | 0 <= i < j && s.calls[i].key == s.calls[j].key ensures Over(t.calls[i].phase) {
      EarlierAreOver(s, j, i);
    }
    forall i | 0 <= i < |t.calls| ensures Linked(t, i) {
      MovedLinked(s, j, Running, i);
    }
  }

  lemma MovedGood(s: State, i: nat, phase: Phase)
    requires Good(s) && i < |s.calls| && Later(s.calls[i].phase, phase) && phase != Running && phase != Cleaned
    ensures Good(Moved(s, i, phase))
  {
    forall j | 0 <= j < |s.calls| ensures Linked(Moved(s, i, phase), j) {
      MovedLinked(s, i, phase, j);
    }
  }

  lemma CleanMapped(s: State, i: nat)
    requires Good(s) && Enabled(s, Clean(i))
    ensures Mapped(Do(s, Clean(i)))
  {
    var t := Do(s, Clean(i));
    assert forall k :: 0 <= k < |s.calls| ==> t.calls[k].key == s.calls[k].key;
    assert forall k :: 0 <= k < |s.calls| && k != i ==> t.calls[k] == s.calls[k];
  }

  lemma CleanGood(s: State, i: nat)
    requires Good(s) && Enabled(s, Clean(i))
    ensures Good(Do(s, Clean(i)))
  {
    CleanMapped(s, i);
    forall j | 0 <= j < |s.calls| ensures Linked(Do(s, Clean(i)), j) {
      MovedLinked(s, i, Cleaned, j);
    }
  }

  lemma StepGood(s: State, step: Step)
    requires Good(s) && Enabled(s, step)
    ensures Good(Do(s, step))
  {
    match step
    case Arrive(key) => ArriveGood(s, key);
    case Begin(j) => BeginGood(s, j);
    case Settle(i, ok) => MovedGood(s, i, Settled(ok));
    case Resolve(i) => MovedGood(s, i, Resolved);
    case Clean(i) => CleanGood(s, i);
  }

  /** A run of enabled steps. */
  ghost predicate Runs(s: State, steps: seq<Step>, t: State)
    decreases |steps|
  {
    if steps == [] then t == s else Enabled(s, steps[0]) && Runs(Do(s, steps[0]), steps[1..], t)
  }

  lemma {:induction false} RunGood(s: State, steps: seq<Step>, t: State)
    requires Good(s) && Runs(s, steps, t)
    ensures Good(t)
    decreases |steps|
  {
    if steps != [] {
      StepGood(s, steps[0]);
      RunGood(Do(s, steps[0]), steps[1..], t);
    }
  }

  /** However the steps interleave, two calls of one key never run at once, and they run in order of arrival. */
  lemma OneAtATime(steps: seq<Step>, t: State, i: nat, j: nat)
    requires Runs(Start(), steps, t) && i < j < |t.calls| && t.calls[i].key == t.calls[j].key
    ensures !(t.calls[i].phase.Running? && t.calls[j].phase.Running?)
    ensures !t.calls[j].phase.Waiting? ==> Over(t.calls[i].phase)
  {
    RunGood(Start(), steps, t);
  }

  /** The map forgets a key only when every call of it is over, and has forgotten it when all are cleaned up. */
  lemma ChainsDrain(steps: seq<Step>, t: State, key: string)
    requires Runs(Start(), steps, t)
    ensures key !in t.chains ==> forall i :: 0 <= i < |t.calls| && t.calls[i].key == key ==> Over(t.calls[i].phase)
    ensures (forall i :: 0 <= i < |t.calls| && t.calls[i].key == key ==> t.calls[i].phase.Cleaned?) ==> key !in t.chains
  {
    RunGood(Start(), steps, t);
  }

  // ---- No call is stuck ----------------------------------------------------------

  /** The step a call takes next. */
  function NextStep(s: State, i: nat): Step
    requires i < |s.calls| && !s.calls[i].phase.Cleaned?
  {
    match s.calls[i].phase
    case Waiting => Begin(i)
    case Running => Settle(i, true)
    case Settled(_) => Resolve(i)
    case _ => Clean(i)
  }

  /** The first call of a key that is not over can always go on, whether earlier ones failed or not. */
  lemma NeverWedged(steps: seq<Step>, t: State, i: nat)
    requires Runs(Start(), steps, t) && i < |t.calls| && !Over(t.calls[i].phase)
    requires forall k :: 0 <= k < i && t.calls[k].key == t.calls[i].key ==> Over(t.calls[k].phase)
    ensures Enabled(t, NextStep(t, i))
  {
    RunGood(Start(), steps, t);
    assert Linked(t, i);
  }
}
