/**
 The inbound message queue of an agent and the recoverable input that replays what a failed
 attempt had consumed. The hand-over of a message to a parked reader is one step.
 */
module Queue {
  import opened Common

  /** A message text: notices glued to its front, then what was sent; a notice may stand alone. */
  datatype Content = Content(notices: seq<string>, body: Option<string>)

  /** What a reader has been given, under a fresh id. */
  datatype Input = Input(uuid: nat, content: Content)

  /** Waiters are the attempts whose readers are parked, in order. */
  datatype State = State(
    messages: seq<Content>, waiters: seq<nat>, stopped: bool, consumed: seq<Input>, issued: nat)

  function Empty(): State {
    State([], [], false, [], 0)
  }

  // ---- The steps -----------------------------------------------------------

  function Give(s: State, m: Content): State {
    s.(consumed := s.consumed + [Input(s.issued, m)], issued := s.issued + 1)
  }

  /** A message arrives: to the first parked reader, else to the end of the queue. */
  function Arrive(s: State, text: string): State {
    var m := Content([], Some(text));
    if s.stopped then s
    else if s.waiters != [] then Give(s.(waiters := s.waiters[1..]), m)
    else s.(messages := s.messages + [m])
  }

  /** An attempt's reader asks for the next message, and parks when there is none. */
  function Ask(s: State, attempt: nat): State {
    if s.stopped then s
    else if s.messages != [] then Give(s.(messages := s.messages[1..]), s.messages[0])
    else s.(waiters := s.waiters + [attempt])
  }

  function Detach(s: State): State {
    s.(waiters := [])
  }

  function Contents(inputs: seq<Input>): seq<Content> {
    if inputs == [] then [] else [inputs[0].content] + Contents(inputs[1..])
  }

  /** The inputs a reset replays: all of them, or those of the confirmed ids. */
  function Replayed(inputs: seq<Input>, only: Option<set<nat>>): seq<Input> {
    if inputs == [] then []
    else if only.None? || inputs[0].uuid in only.value then [inputs[0]] + Replayed(inputs[1..], only)
    else Replayed(inputs[1..], only)
  }

  function Glued(contents: seq<Content>, prefix: Option<string>): seq<Content> {
    if prefix.None? || prefix.value == [] then contents
    else if contents == [] then [Content([prefix.value], None)]
    else [contents[0].(notices := [prefix.value] + contents[0].notices)] + contents[1..]
  }

  /** Consumed messages go back to the front; on a stopped queue the first of them throws. */
  function Reset(s: State, prefix: Option<string>, only: Option<set<nat>>): State {
    var restored := Glued(Contents(Replayed(s.consumed, only)), prefix);
    s.(consumed := [], messages := if s.stopped then s.messages else restored + s.messages)
  }

  // ---- The queue and the recoverable input as objects ------------------------

  datatype Added = Refused | HandedTo(waiter: nat) | Queued

  datatype Taken = Closed | Got(message: Content) | Parked

  class MessageQueue {
    var messages: seq<Content>
    var waiters: seq<nat>
    var stopped: bool

    constructor ()
      ensures messages == [] && waiters == [] && !stopped
    {
      messages, waiters, stopped := [], [], false;
    }

    method AddMessage(m: Content) returns (r: Added)
      modifies this
      ensures stopped == old(stopped)
      ensures r == if old(stopped) then Refused else if old(waiters) != [] then HandedTo(old(waiters)[0]) else Queued
      ensures waiters == if r.HandedTo? then old(waiters)[1..] else old(waiters)
      ensures messages == if r.Queued? then old(messages) + [m] else old(messages)
    {
      if stopped { return Refused; }
      if |waiters| > 0 {
        r := HandedTo(waiters[0]);
        waiters := waiters[1..];
      } else {
        messages := messages + [m];
        r := Queued;
      }
    }

    /** The next message, or none and the reader parks; a stopped queue throws. */
    method NextMessage(reader: nat) returns (r: Taken)
      modifies this
      ensures stopped == old(stopped)
      ensures r == if old(stopped) then Closed else if old(messages) != [] then Got(old(messages)[0]) else Parked
      ensures messages == if r.Got? then old(messages)[1..] else old(messages)
      ensures waiters == if r.Parked? then old(waiters) + [reader] else old(waiters)
    {
      if stopped { return Closed; }
      if |messages| > 0 {
        r := Got(messages[0]);
        messages := messages[1..];
      } else {
        waiters := waiters + [reader];
        r := Parked;
      }
    }

    method StopAll()
      modifies this
      ensures stopped && waiters == [] && messages == []
    {
      stopped, waiters, messages := true, [], [];
    }

    method DetachWaiters()
      modifies this
      ensures waiters == [] && messages == old(messages) && stopped == old(stopped)
    {
      waiters := [];
    }

    method PrependMessage(m: Content) returns (ok: bool)
      modifies this
      ensures ok == !old(stopped) && stopped == old(stopped) && waiters == old(waiters)
      ensures messages == if ok then [m] + old(messages) else old(messages)
    {
      if stopped { return false; }
      messages := [m] + messages;
      ok := true;
    }
  }

  /** All that was consumed, in order, in front of what was queued. */
  predicate PutInFront(consumed: seq<Input>, queued: seq<Content>, messages: seq<Content>) {
    && |messages| == |consumed| + |queued| && messages[|consumed|..] == queued
    && forall i :: 0 <= i < |consumed| ==> messages[i] == consumed[i].content
  }

  lemma {:induction false} ContentsAt(inputs: seq<Input>)
    ensures |Contents(inputs)| == |inputs|
    ensures forall i :: 0 <= i < |inputs| ==> Contents(inputs)[i] == inputs[i].content
  {
    if inputs != [] { ContentsAt(inputs[1..]); }
  }

  lemma AllPutInFront(consumed: seq<Input>, queued: seq<Content>)
    ensures PutInFront(consumed, queued, Contents(Replayed(consumed, None)) + queued)
  {
    ReplayedAll(consumed);
    ContentsAt(consumed);
  }

  class RecoverableInput {
    const queue: MessageQueue
    var consumed: seq<Input>
    var issued: nat

    constructor (q: MessageQueue)
      ensures queue == q && consumed == [] && issued == 0
    {
      queue, consumed, issued := q, [], 0;
    }

    ghost function View(): State
      reads this, queue
    {
      State(queue.messages, queue.waiters, queue.stopped, consumed, issued)
    }

    /** The reader takes a message over: it is formatted under a fresh id and remembered. */
    method Take(m: Content)
      modifies this
      ensures View() == Give(old(View()), m)
    {
      consumed := consumed + [Input(issued, m)];
      issued := issued + 1;
    }

    method ReceiveMessage(text: string)
      modifies this, queue
      ensures View() == Arrive(old(View()), text)
      ensures queue.stopped == old(queue.stopped)
      ensures !queue.stopped && old(queue.waiters) != [] ==>
        && queue.messages == old(queue.messages) && queue.waiters == old(queue.waiters)[1..]
        && consumed == old(consumed) + [Input(old(issued), Content([], Some(text)))] && issued == old(issued) + 1
      ensures !queue.stopped && old(queue.waiters) == [] ==>
        && queue.messages == old(queue.messages) + [Content([], Some(text))] && queue.waiters == []
        && consumed == old(consumed) && issued == old(issued)
      ensures queue.stopped ==> View() == old(View())
    {
      var r := queue.AddMessage(Content([], Some(text)));
      if r.HandedTo? {
        Take(Content([], Some(text)));
      }
    }

    method Pull(attempt: nat)
      modifies this, queue
      ensures View() == Ask(old(View()), attempt)
      ensures queue.stopped == old(queue.stopped)
      ensures !queue.stopped && old(queue.messages) != [] ==>
        && queue.messages == old(queue.messages)[1..] && queue.waiters == old(queue.waiters)
        && consumed == old(consumed) + [Input(old(issued), old(queue.messages)[0])] && issued == old(issued) + 1
      ensures !queue.stopped && old(queue.messages) == [] ==>
        && queue.messages == [] && queue.waiters == old(queue.waiters) + [attempt]
        && consumed == old(consumed) && issued == old(issued)
      ensures queue.stopped ==> View() == old(View())
    {
      var r := queue.NextMessage(attempt);
      if r.Got? {
        Take(r.message);
      }
    }

    method Filtered(only: Option<set<nat>>) returns (restored: seq<Content>)
      ensures restored == Contents(Replayed(consumed, only))
    {
      restored := [];
      for i := 0 to |consumed|
        invariant restored == Contents(Replayed(consumed[..i], only))
      {
        ReplayedNext(consumed, i, only);
        if only.None? || consumed[i].uuid in only.value {
          restored := restored + [consumed[i].content];
        }
      }
      assert consumed[..|consumed|] == consumed;
    }

    /** From the last to the first, so that they end up in order; a stopped queue takes none. */
    method Restore(restored: seq<Content>)
      modifies queue
      ensures queue.stopped == old(queue.stopped) && queue.waiters == old(queue.waiters)
      ensures queue.messages == if queue.stopped then old(queue.messages) else restored + old(queue.messages)
    {
      var i := |restored|;
      while i > 0
        invariant 0 <= i <= |restored|
        invariant queue.stopped == old(queue.stopped) && queue.waiters == old(queue.waiters)
        invariant queue.stopped ==> queue.messages == old(queue.messages)
        invariant !queue.stopped ==> queue.messages == restored[i..] + old(queue.messages)
      {
        i := i - 1;
        var ok := queue.PrependMessage(restored[i]);
        if !ok { return; }
        assert [restored[i]] + restored[i + 1..] == restored[i..];
      }
    }

    method ResetInput(prefix: Option<string>, only: Option<set<nat>>)
      modifies this, queue
      ensures View() == Reset(old(View()), prefix, only)
      ensures consumed == [] && queue.waiters == old(queue.waiters) && queue.stopped == old(queue.stopped)
      ensures queue.stopped ==> queue.messages == old(queue.messages)
      ensures !queue.stopped && prefix.None? && only.None? ==>
        PutInFront(old(consumed), old(queue.messages), queue.messages)
    {
      var restored := Filtered(only);
      AllPutInFront(consumed, queue.messages);
      consumed := [];
      Restore(Glued(restored, prefix));
    }
  }

  lemma {:induction false} ReplayedConcat(a: seq<Input>, b: seq<Input>, only: Option<set<nat>>)
    ensures Replayed(a + b, only) == Replayed(a, only) + Replayed(b, only)
  {
    if a == [] {
      assert a + b == b;
    } else {
      assert (a + b)[1..] == a[1..] + b;
      ReplayedConcat(a[1..], b, only);
    }
  }

  lemma {:induction false} ContentsConcat(a: seq<Input>, b: seq<Input>)
    ensures Contents(a + b) == Contents(a) + Contents(b)
  {
    if a == [] {
      assert a + b == b;
    } else {
      assert (a + b)[1..] == a[1..] + b;
      ContentsConcat(a[1..], b);
    }
  }

  lemma ReplayedNext(inputs: seq<Input>, i: nat, only: Option<set<nat>>)
    requires i < |inputs|
    ensures Contents(Replayed(inputs[..i + 1], only))
         == Contents(Replayed(inputs[..i], only))
           + (if only.None? || inputs[i].uuid in only.value then [inputs[i].content] else [])
  {
    assert inputs[..i + 1] == inputs[..i] + [inputs[i]];
    ReplayedConcat(inputs[..i], [inputs[i]], only);
    ContentsConcat(Replayed(inputs[..i], only), Replayed([inputs[i]], only));
  }

  // ---- Nothing is lost, repeated or reordered --------------------------------

  function Bodies(contents: seq<Content>): seq<string> {
    if contents == [] then []
    else (if contents[0].body.Some? then [contents[0].body.value] else []) + Bodies(contents[1..])
  }

  lemma {:induction false} BodiesConcat(a: seq<Content>, b: seq<Content>)
    ensures Bodies(a + b) == Bodies(a) + Bodies(b)
  {
    if a == [] {
      assert a + b == b;
    } else {
      assert (a + b)[1..] == a[1..] + b;
      BodiesConcat(a[1..], b);
    }
  }

  /** What was sent and is still known: consumed first, then queued. */
  function Held(s: State): seq<string> {
    Bodies(Contents(s.consumed) + s.messages)
  }

  /** A parked reader and a queued message never wait for each other. */
  predicate NoStandoff(s: State) {
    s.waiters == [] || s.messages == []
  }

  datatype Step =
    | Arrives(text: string)
    | Asks(attempt: nat)
    | Detaches
    | Retries(prefix: Option<string>, only: Option<set<nat>>)

  /** A retry always detaches first. */
  function Do(s: State, step: Step): State {
    match step
    case Arrives(text) => Arrive(s, text)
    case Asks(attempt) => Ask(s, attempt)
    case Detaches => Detach(s)
    case Retries(prefix, only) => Reset(Detach(s), prefix, only)
  }

  function Run(s: State, steps: seq<Step>): State
    decreases |steps|
  {
    if steps == [] then s else Run(Do(s, steps[0]), steps[1..])
  }

  function Sent(steps: seq<Step>): seq<string> {
    if steps == [] then [] else (if steps[0].Arrives? then [steps[0].text] else []) + Sent(steps[1..])
  }

  /** Every retry replays everything. */
  predicate FullRetries(steps: seq<Step>) {
    forall i :: 0 <= i < |steps| && steps[i].Retries? ==> steps[i].only.None?
  }

  lemma {:induction false} ReplayedAll(inputs: seq<Input>)
    ensures Replayed(inputs, None) == inputs
  {
    if inputs != [] { ReplayedAll(inputs[1..]); }
  }

  lemma GluedBodies(contents: seq<Content>, prefix: Option<string>)
    ensures Bodies(Glued(contents, prefix)) == Bodies(contents)
  {
    if prefix.Some? && prefix.value != [] {
      if contents == [] {
        assert Glued(contents, prefix)[1..] == [];
      } else {
        assert Glued(contents, prefix)[1..] == contents[1..];
      }
    }
  }

  lemma GivenHeld(s: State, m: Content, rest: seq<Content>)
    ensures Contents(Give(s, m).consumed) + rest == Contents(s.consumed) + ([m] + rest)
  {
    ContentsConcat(s.consumed, [Input(s.issued, m)]);
    assert Contents([Input(s.issued, m)]) == [m] + Contents([]);
  }

  lemma ArriveHeld(s: State, text: string)
    requires !s.stopped && NoStandoff(s)
    ensures Held(Arrive(s, text)) == Held(s) + [text]
  {
    var m := Content([], Some(text));
    assert Bodies([m]) == [text] + Bodies([]);
    if s.waiters != [] {
      GivenHeld(s, m, []);
      assert Contents(Arrive(s, text).consumed) + Arrive(s, text).messages == (Contents(s.consumed) + s.messages) + [m];
    } else {
      assert Contents(s.consumed) + (s.messages + [m]) == (Contents(s.consumed) + s.messages) + [m];
    }
    BodiesConcat(Contents(s.consumed) + s.messages, [m]);
  }

  lemma AskHeld(s: State, attempt: nat)
    ensures Held(Ask(s, attempt)) == Held(s)
  {
    if !s.stopped && s.messages != [] {
      GivenHeld(s, s.messages[0], s.messages[1..]);
      assert [s.messages[0]] + s.messages[1..] == s.messages;
    }
  }

  lemma ResetHeld(s: State, prefix: Option<string>)
    requires !s.stopped
    ensures Held(Reset(s, prefix, None)) == Held(s)
  {
    ReplayedAll(s.consumed);
    var restored := Glued(Contents(s.consumed), prefix);
    assert Contents(Reset(s, prefix, None).consumed) + Reset(s, prefix, None).messages == restored + s.messages;
    BodiesConcat(restored, s.messages);
    BodiesConcat(Contents(s.consumed), s.messages);
    GluedBodies(Contents(s.consumed), prefix);
  }

  /** One step keeps what is held, up to the message that arrives, and never starts a standoff. */
  lemma StepHeld(s: State, step: Step)
    requires !s.stopped && NoStandoff(s) && (step.Retries? ==> step.only.None?)
    ensures !Do(s, step).stopped && NoStandoff(Do(s, step))
    ensures Held(Do(s, step)) == Held(s) + (if step.Arrives? then [step.text] else [])
  {
    match step
    case Arrives(text) => ArriveHeld(s, text);
    case Asks(attempt) => AskHeld(s, attempt);
    case Detaches =>
    case Retries(prefix, only) => ResetHeld(Detach(s), prefix);
  }

  lemma FullRetriesTail(steps: seq<Step>)
    requires FullRetries(steps) && steps != []
    ensures FullRetries(steps[1..]) && (steps[0].Retries? ==> steps[0].only.None?)
  {
  }

  lemma {:induction false} RunHeld(s: State, steps: seq<Step>)
    requires !s.stopped && NoStandoff(s) && FullRetries(steps)
    ensures NoStandoff(Run(s, steps)) && Held(Run(s, steps)) == Held(s) + Sent(steps)
    decreases |steps|
  {
    if steps == [] {
      assert Held(s) + [] == Held(s);
    } else {
      var step, rest := steps[0], steps[1..];
      FullRetriesTail(steps);
      StepHeld(s, step);
      RunHeld(Do(s, step), rest);
      var one := if step.Arrives? then [step.text] else [];
      assert (Held(s) + one) + Sent(rest) == Held(s) + (one + Sent(rest));
    }
  }

  /** After any run, everything sent is either consumed or queued, once and in order. */
  lemma NothingLost(steps: seq<Step>)
    requires FullRetries(steps)
    ensures Held(Run(Empty(), steps)) == Sent(steps) && NoStandoff(Run(Empty(), steps))
  {
    RunHeld(Empty(), steps);
    assert Held(Empty()) == [];
  }

  /** So what an attempt has read is a prefix of what was sent. */
  lemma AttemptReadsPrefix(steps: seq<Step>)
    requires FullRetries(steps)
    ensures Bodies(Contents(Run(Empty(), steps).consumed)) <= Sent(steps)
  {
    NothingLost(steps);
    BodiesConcat(Contents(Run(Empty(), steps).consumed), Run(Empty(), steps).messages);
  }

  // ---- Hand-over only to the live attempt ------------------------------------

  /** Readers are asked by the current attempt, which a retry replaces. */
  predicate Disciplined(steps: seq<Step>, attempt: nat)
    decreases |steps|
  {
    steps == [] || ((steps[0].Asks? ==> steps[0].attempt == attempt)
                    && Disciplined(steps[1..], if steps[0].Retries? then attempt + 1 else attempt))
  }

  function AttemptAfter(steps: seq<Step>, attempt: nat): nat
    decreases |steps|
  {
    if steps == [] then attempt else AttemptAfter(steps[1..], if steps[0].Retries? then attempt + 1 else attempt)
  }

  lemma StepLive(s: State, step: Step, attempt: nat)
    requires step.Asks? ==> step.attempt == attempt
    requires forall w :: w in s.waiters ==> w == attempt
    ensures forall w :: w in Do(s, step).waiters ==> w == if step.Retries? then attempt + 1 else attempt
  {
    match step
    case Arrives(text) =>
      if !s.stopped && s.waiters != [] {
        assert Do(s, step).waiters == s.waiters[1..];
        assert forall w :: w in s.waiters[1..] ==> w in s.waiters;
      } else {
        assert Do(s, step).waiters == s.waiters;
      }
    case Asks(_) =>
      if !s.stopped && s.messages == [] {
        assert Do(s, step).waiters == s.waiters + [attempt];
      } else {
        assert Do(s, step).waiters == s.waiters;
      }
    case _ => assert Do(s, step).waiters == [];
  }

  /** No message is handed to the reader of an attempt that is over. */
  lemma {:induction false} OnlyLiveReadersWait(s: State, steps: seq<Step>, attempt: nat)
    requires Disciplined(steps, attempt) && forall w :: w in s.waiters ==> w == attempt
    ensures forall w :: w in Run(s, steps).waiters ==> w == AttemptAfter(steps, attempt)
    decreases |steps|
  {
    if steps != [] {
      StepLive(s, steps[0], attempt);
      OnlyLiveReadersWait(Do(s, steps[0]), steps[1..], if steps[0].Retries? then attempt + 1 else attempt);
    }
  }

  // ---- Replay after a reset ---------------------------------------------------

  /** The notice is the first thing the next attempt reads, and is never dropped. */
  lemma NoticeComesFirst(s: State, prefix: string, only: Option<set<nat>>, attempt: nat)
    requires !s.stopped && prefix != []
    ensures var next := Ask(Reset(Detach(s), Some(prefix), only), attempt);
      |next.consumed| == 1 && next.consumed[0].content.notices != [] && next.consumed[0].content.notices[0] == prefix
    ensures var back := Contents(Replayed(s.consumed, only));
      Ask(Reset(Detach(s), Some(prefix), only), attempt).consumed[0].content ==
        if back == [] then Content([prefix], None) else back[0].(notices := [prefix] + back[0].notices)
  {
    var restored := Glued(Contents(Replayed(s.consumed, only)), Some(prefix));
    assert (restored + s.messages)[0] == restored[0];
  }

  /** The attempt after a filtered reset reads the confirmed messages in order, then what was queued. */
  lemma {:induction false} ReplayReads(s: State, n: nat, attempt: nat)
    requires !s.stopped && n <= |s.messages|
    ensures var t := AskTimes(s, n, attempt);
      Contents(t.consumed) == Contents(s.consumed) + s.messages[..n] && t.messages == s.messages[n..] && !t.stopped
    decreases n
  {
    if n > 0 {
      ReplayReads(s, n - 1, attempt);
      var t := AskTimes(s, n - 1, attempt);
      GivenHeld(t, t.messages[0], []);
      assert Contents(Give(t, t.messages[0]).consumed) + [] == Contents(Give(t, t.messages[0]).consumed);
      assert s.messages[..n] == s.messages[..n - 1] + [s.messages[n - 1]];
    }
  }

  function AskTimes(s: State, n: nat, attempt: nat): State {
    if n == 0 then s else Ask(AskTimes(s, n - 1, attempt), attempt)
  }

  /** Exactly the confirmed inputs, in the order they were consumed. */
  lemma FilteredReplay(s: State, confirmed: set<nat>, attempt: nat)
    requires !s.stopped
    ensures var back := Replayed(s.consumed, Some(confirmed));
      && Contents(AskTimes(Reset(Detach(s), None, Some(confirmed)), |Contents(back)|, attempt).consumed)
         == Contents(back)
      && forall x :: x in back <==> x in s.consumed && x.uuid in confirmed
  {
    var back := Replayed(s.consumed, Some(confirmed));
    var after := Reset(Detach(s), None, Some(confirmed));
    ReplayReads(after, |Contents(back)|, attempt);
    assert after.messages[..|Contents(back)|] == Contents(back);
    ReplayedMembers(s.consumed, confirmed);
  }

  lemma {:induction false} ReplayedMembers(inputs: seq<Input>, confirmed: set<nat>)
    ensures forall x :: x in Replayed(inputs, Some(confirmed)) <==> x in inputs && x.uuid in confirmed
  {
    if inputs != [] {
      ReplayedMembers(inputs[1..], confirmed);
      assert forall x :: x in inputs <==> x == inputs[0] || x in inputs[1..];
    }
  }

  // ---- Why a retry detaches first ---------------------------------------------

  /** What a reset puts back in front of the queue. */
  function PutBack(s: State, prefix: Option<string>, only: Option<set<nat>>): seq<Content> {
    Glued(Contents(Replayed(s.consumed, only)), prefix)
  }

  /** The message that arrives now is in a reader's hands while one put back before it still waits. */
  predicate Overtakes(s: State, back: seq<Content>, text: string) {
    var t := Arrive(s, text);
    && t.consumed != [] && t.consumed[|t.consumed| - 1].content == Content([], Some(text))
    && |t.consumed| > |s.consumed|
    && exists m :: m in back && m in t.messages
  }

  /**
   Whatever was put back under a parked reader, the next arrival overtakes it, and overtakes
   something exactly when something was put back.
   */
  lemma ResetOvertakenIff(s: State, prefix: Option<string>, only: Option<set<nat>>, text: string)
    requires !s.stopped && NoStandoff(s) && s.waiters != []
    ensures Overtakes(Reset(s, prefix, only), PutBack(s, prefix, only), text) <==> PutBack(s, prefix, only) != []
    ensures var t := Arrive(Reset(s, prefix, only), text);
      t.messages == PutBack(s, prefix, only) && Contents(t.consumed) == [Content([], Some(text))]
  {
    var back, m := PutBack(s, prefix, only), Content([], Some(text));
    var r := Reset(s, prefix, only);
    assert r.messages == back + [] == back;
    assert Arrive(r, text).consumed == [Input(s.issued, m)];
    assert Contents([Input(s.issued, m)]) == [m] + Contents([]);
    if back != [] { assert back[0] in back; }
  }

  predicate AllEqual(texts: seq<string>, x: string) {
    forall i :: 0 <= i < |texts| ==> texts[i] == x
  }

  lemma {:induction false} TurnedRoundIff(texts: seq<string>, x: string)
    ensures [x] + texts == texts + [x] <==> AllEqual(texts, x)
  {
    if texts != [] {
      var head, tail := texts[0], texts[1..];
      TurnedRoundIff(tail, x);
      assert texts == [head] + tail;
      if [x] + texts == texts + [x] {
        assert ([x] + texts)[0] == (texts + [x])[0];
        assert ([x] + texts)[1..] == texts && (texts + [x])[1..] == tail + [x];
        assert head == x;
      }
      if AllEqual(texts, x) {
        assert forall i :: 0 <= i < |tail| ==> tail[i] == texts[i + 1];
        assert texts + [x] == [head] + (tail + [x]);
      }
    }
  }

  /**
   So the order in which messages were sent is lost in every such state and by every such reset,
   except when all the messages put back have the very text that arrives.
   */
  lemma ResetLosesOrderIff(s: State, prefix: Option<string>, only: Option<set<nat>>, text: string)
    requires !s.stopped && NoStandoff(s) && s.waiters != []
    ensures var r := Reset(s, prefix, only);
      Held(Arrive(r, text)) == Held(r) + [text] <==> AllEqual(Bodies(PutBack(s, prefix, only)), text)
  {
    var r, back, m := Reset(s, prefix, only), PutBack(s, prefix, only), Content([], Some(text));
    ResetOvertakenIff(s, prefix, only, text);
    BodiesConcat([m], back);
    assert Bodies([m]) == [text] + Bodies([]);
    assert Contents(r.consumed) + r.messages == back;
    TurnedRoundIff(Bodies(back), text);
  }

  /** With the detach before it, no reset is overtaken and none loses the order. */
  lemma DetachKeepsOrder(s: State, prefix: Option<string>, only: Option<set<nat>>, text: string)
    requires !s.stopped
    ensures var r := Reset(Detach(s), prefix, only);
      && !Overtakes(r, PutBack(s, prefix, only), text)
      && Arrive(r, text).messages == PutBack(s, prefix, only) + s.messages + [Content([], Some(text))]
      && Held(Arrive(r, text)) == Held(r) + [text]
  {
    ArriveHeld(Reset(Detach(s), prefix, only), text);
  }

  /** What a reset without a detach leads to: the next message overtakes the one put back. */
  lemma ResetWithoutDetachReorders(a: string, b: string)
    ensures var parked := Run(Empty(), [Arrives(a), Asks(0), Asks(0)]);
      && Held(Reset(parked, None, None)) == [a]
      && Held(Arrive(Reset(parked, None, None), b)) == [b, a]
      && Held(Arrive(Reset(Detach(parked), None, None), b)) == [a, b]
  {
    var x, y := Content([], Some(a)), Content([], Some(b));
    var s1 := Arrive(Empty(), a);
    var s2 := Ask(s1, 0);
    var s3 := Ask(s2, 0);
    assert Run(Empty(), [Arrives(a), Asks(0), Asks(0)]) == s3 by {
      assert Run(s3, []) == s3;
      assert Run(s2, [Asks(0)]) == s3;
      assert Run(s1, [Asks(0), Asks(0)]) == s3;
    }
    assert s3 == State([], [0], false, [Input(0, x)], 1);
    ReplayedAll(s3.consumed);
    assert Contents(s3.consumed) == [x];
    var back := Reset(s3, None, None);
    assert back == State([x], [0], false, [], 1);
    assert Contents(back.consumed) + back.messages == [x];
    assert Bodies([x]) == [a];
    var wrong := Arrive(back, b);
    assert wrong == State([x], [], false, [Input(1, y)], 2);
    assert Contents(wrong.consumed) + wrong.messages == [y, x];
    assert Bodies([y, x]) == [b] + Bodies([x]);
    var right := Arrive(Reset(Detach(s3), None, None), b);
    assert Contents(right.consumed) + right.messages == [x, y];
    assert Bodies([x, y]) == [a] + Bodies([y]);
  }
}
