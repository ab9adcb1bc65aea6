/** Edits, deletions and redeliveries of one message may arrive in any order. */
module Convergence {
  import opened Evidence
  import F = Findings
  import R = EvidenceRuns

  datatype Key = Key(channel: string, ts: string)

  function KeyOf(m: Message): Key {
    Key(m.place.channel, m.ts)
  }

  predicate Familiar(s: Store, key: Key) {
    (key.channel, key.ts) in s.messages && s.messages[(key.channel, key.ts)] < |s.revisions|
  }

  /** The revision a message shows now. */
  function Shown(s: Store, key: Key): Revision
    requires Familiar(s, key)
  {
    s.revisions[s.messages[(key.channel, key.ts)]]
  }

  // ---- In every run --------------------------------------------------------

  /** From one state to the next a message is never forgotten, never goes back, and never comes back from deletion. */
  ghost predicate Forward(s: Store, s': Store, key: Key) {
    Familiar(s, key) ==>
      && Familiar(s', key)
      && Seconds(Shown(s, key).version) <= Seconds(Shown(s', key).version)
      && (Shown(s, key).deleted ==> Shown(s', key).deleted && Shown(s', key).version == Shown(s, key).version)
  }

  lemma RecordForward(s: Store, m: Message, now: int, key: Key)
    ensures Forward(s, Record(s, m, now).0, key)
  {
  }

  lemma StepForward(w: R.World, step: R.Step, key: Key)
    ensures Forward(w.store, R.Next(w, step).store, key)
  {
    match step
    case ReadStep(snap) =>
    case ChannelStep(id, allowed, shared, gapGiven) =>
    case RecordStep(m, now) => RecordForward(w.store, m, now, key);
    case ApplyStep(jobs, job, snaps, os, ms) => F.MarkKeepsTables(w.store, snaps);
    case ExpireStep(now) =>
    case FeedbackStep(id, action) =>
    case AdmitStep(id, today, cardCurrent) =>
    case DeskStep(desk) => R.DeskSameEvidence(w.store, desk);
  }

  /** Over every run the shown version of a message only grows, and a deletion is final. */
  lemma {:induction false} VersionsOnlyGrow(w: R.World, steps: seq<R.Step>, key: Key)
    ensures Forward(w.store, R.Run(w, steps).store, key)
    decreases |steps|
  {
    if steps != [] {
      StepForward(w, steps[0], key);
      VersionsOnlyGrow(R.Next(w, steps[0]), steps[1..], key);
    }
  }

  // ---- Arrival order -------------------------------------------------------

  datatype Arrival = Arrival(message: Message, now: int)

  function Arrive(s: Store, arrivals: seq<Arrival>): Store
    decreases |arrivals|
  {
    if arrivals == [] then s
    else
      var last := arrivals[|arrivals| - 1];
      Record(Arrive(s, arrivals[..|arrivals| - 1]), last.message, last.now).0
  }

  predicate Content(a: Message, b: Message) {
    a.version == b.version && HashOf(a) == HashOf(b)
  }

  /** The revision says what the message said. */
  predicate Says(r: Revision, m: Message) {
    r.version == m.version && r.hash == HashOf(m) && r.deleted == m.deleted && r.text == m.text
  }

  predicate About(a: Arrival, key: Key) {
    KeyOf(a.message) == key
  }

  /** Equal versions mean equal content, and a deletion is no older than the other. */
  predicate Distinct(a: Message, b: Message) {
    && (Seconds(a.version) == Seconds(b.version) ==> Content(a, b))
    && (a.deleted ==> Seconds(b.version) <= Seconds(a.version))
  }

  predicate SameEvent(a: Message, b: Message) {
    a.eventId != "" && a.eventId == b.eventId ==> KeyOf(a) == KeyOf(b) && Content(a, b)
  }

  /**
   What is assumed of the arrivals: those for `key` would be accepted, carry
   distinct versions unless they repeat each other, and a deletion carries the
   greatest; an event id that comes twice comes with the same message.
   */
  ghost predicate Orderly(s: Store, arrivals: seq<Arrival>, key: Key) {
    && (forall a :: a in arrivals && About(a, key) ==> !Refused(s, a.message))
    && (forall a, b :: a in arrivals && b in arrivals && About(a, key) && About(b, key) ==>
         Distinct(a.message, b.message))
    && (forall a, b :: a in arrivals && b in arrivals ==> SameEvent(a.message, b.message))
  }

  /** The store has not heard of the message, nor of any event in the arrivals. */
  ghost predicate Unheard(s: Store, arrivals: seq<Arrival>, key: Key) {
    && (key.channel, key.ts) !in s.messages
    && (forall i :: 0 <= i < |s.revisions| ==>
         !(s.revisions[i].place.channel == key.channel && s.revisions[i].ts == key.ts))
    && (forall a :: a in arrivals ==> a.message.eventId !in s.events)
  }

  ghost predicate Greatest(g: Arrival, arrivals: seq<Arrival>, key: Key) {
    g in arrivals && About(g, key)
    && forall a :: a in arrivals && About(a, key) ==> Seconds(a.message.version) <= Seconds(g.message.version)
  }

  /** The message shows what some greatest arrival said. */
  ghost predicate ShowsGreatest(s: Store, arrivals: seq<Arrival>, key: Key) {
    Familiar(s, key) && exists g :: Greatest(g, arrivals, key) && Says(Shown(s, key), g.message)
  }

  ghost predicate RowsSaid(s: Store, arrivals: seq<Arrival>, key: Key) {
    forall i :: 0 <= i < |s.revisions| && s.revisions[i].place.channel == key.channel && s.revisions[i].ts == key.ts ==>
      exists a :: a in arrivals && About(a, key) && Says(s.revisions[i], a.message)
  }

  ghost predicate Heard(arrivals: seq<Arrival>, key: Key) {
    exists a :: a in arrivals && About(a, key)
  }

  /** Every stored revision of the message was said by an arrival, and the shown one by the greatest. */
  ghost predicate Converged(s: Store, arrivals: seq<Arrival>, key: Key) {
    && (if Heard(arrivals, key) then ShowsGreatest(s, arrivals, key) else (key.channel, key.ts) !in s.messages)
    && RowsSaid(s, arrivals, key)
  }

  /** What recording never changes, and the events it may have noted. */
  ghost predicate SameDoor(s: Store, s': Store, arrivals: seq<Arrival>) {
    && s'.channels == s.channels && s'.settings == s.settings
    && forall e :: e in s'.events ==> e in s.events || exists a :: a in arrivals && a.message.eventId == e && e != ""
  }

  lemma RecordKeepsDoor(s: Store, m: Message, now: int)
    ensures var s' := Record(s, m, now).0;
      && s'.channels == s.channels && s'.settings == s.settings
      && forall e :: e in s'.events ==> e in s.events || (e == m.eventId && e != "")
  {
  }

  lemma {:induction false} ArrivalsConverge(s: Store, arrivals: seq<Arrival>, key: Key)
    requires Orderly(s, arrivals, key) && Unheard(s, arrivals, key)
    ensures Converged(Arrive(s, arrivals), arrivals, key) && SameDoor(s, Arrive(s, arrivals), arrivals)
    decreases |arrivals|
  {
    if arrivals != [] {
      var rest, last := arrivals[..|arrivals| - 1], arrivals[|arrivals| - 1];
      assert arrivals == rest + [last];
      ArrivalsConverge(s, rest, key);
      var s1 := Arrive(s, rest);
      RecordKeepsDoor(s1, last.message, last.now);
      if About(last, key) {
        OneMoreArrival(s, s1, rest, last, key);
      } else {
        OtherArrival(s1, rest, last, key);
      }
    }
  }

  /** An arrival about another message changes nothing here. */
  lemma OtherArrival(s1: Store, rest: seq<Arrival>, last: Arrival, key: Key)
    requires Converged(s1, rest, key) && !About(last, key)
    ensures Converged(Record(s1, last.message, last.now).0, rest + [last], key)
  {
    var arrivals, s' := rest + [last], Record(s1, last.message, last.now).0;
    assert forall a :: a in arrivals && About(a, key) <==> a in rest && About(a, key);
    if Heard(rest, key) {
      var g :| Greatest(g, rest, key) && Says(Shown(s1, key), g.message);
      assert Shown(s', key) == Shown(s1, key);
      assert Greatest(g, arrivals, key);
    }
    RowsStillSaid(s1, rest, last, key);
  }

  /** Rows of the message were said by an arrival; one that was just added was said by the last. */
  lemma RowsStillSaid(s1: Store, rest: seq<Arrival>, last: Arrival, key: Key)
    requires RowsSaid(s1, rest, key)
    ensures RowsSaid(Record(s1, last.message, last.now).0, rest + [last], key)
  {
    var s' := Record(s1, last.message, last.now).0;
    forall i | 0 <= i < |s'.revisions| && s'.revisions[i].place.channel == key.channel && s'.revisions[i].ts == key.ts
      ensures exists a :: a in rest + [last] && About(a, key) && Says(s'.revisions[i], a.message)
    {
      if i < |s1.revisions| {
        var a :| a in rest && About(a, key) && Says(s1.revisions[i], a.message);
        assert a in rest + [last];
      } else {
        assert last in rest + [last] && Says(s'.revisions[i], last.message);
      }
    }
  }

  lemma OneMoreArrival(s: Store, s1: Store, rest: seq<Arrival>, last: Arrival, key: Key)
    requires Orderly(s, rest + [last], key) && Unheard(s, rest + [last], key)
    requires Converged(s1, rest, key) && SameDoor(s, s1, rest) && About(last, key)
    ensures Converged(Record(s1, last.message, last.now).0, rest + [last], key)
  {
    var arrivals, m := rest + [last], last.message;
    assert last in arrivals;
    RowsStillSaid(s1, rest, last, key);
    if !Record(s1, m, last.now).1.Stored? {
      IgnoredArrival(s, s1, rest, last, key);
    } else {
      StoredIsGreatest(s1, rest, last, key);
      assert Says(Shown(Record(s1, m, last.now).0, key), m);
    }
  }

  /** An arrival that is stored is the greatest so far. */
  lemma StoredIsGreatest(s1: Store, rest: seq<Arrival>, last: Arrival, key: Key)
    requires Converged(s1, rest, key) && About(last, key) && Record(s1, last.message, last.now).1.Stored?
    ensures Greatest(last, rest + [last], key)
  {
    assert last in rest + [last];
    if Heard(rest, key) {
      var g :| Greatest(g, rest, key) && Says(Shown(s1, key), g.message);
      assert Seconds(g.message.version) <= Seconds(last.message.version);
    }
  }

  /** An arrival that is not stored finds the message known, and is no newer than what it shows. */
  lemma IgnoredArrival(s: Store, s1: Store, rest: seq<Arrival>, last: Arrival, key: Key)
    requires Orderly(s, rest + [last], key) && Unheard(s, rest + [last], key)
    requires Converged(s1, rest, key) && SameDoor(s, s1, rest) && About(last, key)
    requires !Record(s1, last.message, last.now).1.Stored?
    ensures ShowsGreatest(Record(s1, last.message, last.now).0, rest + [last], key)
  {
    var m := last.message;
    assert last in rest + [last];
    assert !Refused(s1, m);
    if Redelivered(s1, m) {
      RepeatedEvent(s, s1, rest, last, key);
    } else if Heard(rest, key) {
      if !Superseded(Shown(s1, key), m) {
        RepeatedRow(s, s1, rest, last, key);
      }
    } else {
      assert false;
    }
    var g :| Greatest(g, rest, key) && Says(Shown(s1, key), g.message);
    OldDeletionIsOlder(s, s1, rest, last, g, key);
    assert Shown(Record(s1, m, last.now).0, key) == Shown(s1, key);
    assert Greatest(g, rest + [last], key);
  }

  lemma RepeatedEvent(s: Store, s1: Store, rest: seq<Arrival>, last: Arrival, key: Key)
    requires Orderly(s, rest + [last], key) && Unheard(s, rest + [last], key)
    requires SameDoor(s, s1, rest) && About(last, key) && Redelivered(s1, last.message)
    ensures exists a :: a in rest && About(a, key) && Content(a.message, last.message)
  {
    assert last in rest + [last];
    var a :| a in rest && a.message.eventId == last.message.eventId;
    assert a in rest + [last];
    assert SameEvent(a.message, last.message);
  }

  lemma RepeatedRow(s: Store, s1: Store, rest: seq<Arrival>, last: Arrival, key: Key)
    requires RowsSaid(s1, rest, key) && About(last, key) && Repeats(s1, last.message)
    ensures exists a :: a in rest && About(a, key) && Content(a.message, last.message)
  {
    var m := last.message;
    var i :| 0 <= i < |s1.revisions| && s1.revisions[i].place.channel == m.place.channel && s1.revisions[i].ts == m.ts
             && s1.revisions[i].version == m.version && s1.revisions[i].hash == HashOf(m);
    var a :| a in rest && About(a, key) && Says(s1.revisions[i], a.message);
  }

  /** What was passed over is not newer than what is shown. */
  lemma OldDeletionIsOlder(s: Store, s1: Store, rest: seq<Arrival>, last: Arrival, g: Arrival, key: Key)
    requires Orderly(s, rest + [last], key) && About(last, key)
    requires Greatest(g, rest, key) && Familiar(s1, key) && Says(Shown(s1, key), g.message)
    requires Superseded(Shown(s1, key), last.message)
          || exists a :: a in rest && About(a, key) && Content(a.message, last.message)
    ensures Seconds(last.message.version) <= Seconds(g.message.version)
  {
    assert last in rest + [last] && g in rest + [last];
    assert Distinct(g.message, last.message);
  }

  /**
   Two arrival orders of the same edits and deletion, each with whatever redeliveries
   and other traffic in between, end with the same version, text and deletion.
   */
  lemma ArrivalOrderDoesNotMatter(s: Store, t: Store, xs: seq<Arrival>, ys: seq<Arrival>, key: Key)
    requires Orderly(s, xs, key) && Unheard(s, xs, key) && Orderly(t, ys, key) && Unheard(t, ys, key)
    requires SameMessages(xs, ys, key) && SameMessages(ys, xs, key) && Heard(xs, key) && Heard(ys, key)
    ensures var s', t' := Arrive(s, xs), Arrive(t, ys);
      && ShowsGreatest(s', xs, key) && ShowsGreatest(t', ys, key)
      && Shown(s', key).version == Shown(t', key).version && Shown(s', key).text == Shown(t', key).text
      && Shown(s', key).deleted == Shown(t', key).deleted
  {
    ArrivalsConverge(s, xs, key);
    ArrivalsConverge(t, ys, key);
    var s', t' := Arrive(s, xs), Arrive(t, ys);
    var g :| Greatest(g, xs, key) && Says(Shown(s', key), g.message);
    var h :| Greatest(h, ys, key) && Says(Shown(t', key), h.message);
    ShownAlike(s, Shown(s', key), Shown(t', key), xs, ys, g, h, key);
  }

  /** Two rows that show greatest arrivals of the same messages show the same. */
  lemma ShownAlike(s: Store, r: Revision, q: Revision, xs: seq<Arrival>, ys: seq<Arrival>, g: Arrival, h: Arrival,
      key: Key)
    requires Orderly(s, xs, key) && SameMessages(xs, ys, key) && SameMessages(ys, xs, key)
    requires Greatest(g, xs, key) && Greatest(h, ys, key) && Says(r, g.message) && Says(q, h.message)
    ensures r.version == q.version && r.text == q.text && r.deleted == q.deleted
  {
    GreatestAgree(s, xs, ys, g, h, key);
  }

  ghost predicate SameMessages(xs: seq<Arrival>, ys: seq<Arrival>, key: Key) {
    forall a :: a in xs && About(a, key) ==> exists b :: b in ys && b.message == a.message
  }

  lemma GreatestAgree(s: Store, xs: seq<Arrival>, ys: seq<Arrival>, g: Arrival, h: Arrival, key: Key)
    requires Orderly(s, xs, key) && SameMessages(xs, ys, key) && SameMessages(ys, xs, key)
    requires Greatest(g, xs, key) && Greatest(h, ys, key)
    ensures Content(g.message, h.message)
  {
    var g' :| g' in ys && g'.message == g.message;
    var h' :| h' in xs && h'.message == h.message;
    assert About(g', key) && About(h', key);
    assert Distinct(g.message, h'.message);
  }

  // ---- Contents under one version ------------------------------------------

  function RowKey(r: Revision): Key {
    Key(r.place.channel, r.ts)
  }

  /** No stored revision of a message is newer than the one it shows. */
  ghost predicate NoneNewer(s: Store) {
    forall i :: 0 <= i < |s.revisions| ==>
      var key := RowKey(s.revisions[i]);
      Familiar(s, key) && Seconds(s.revisions[i].version) <= Seconds(Shown(s, key).version)
  }

  /** Messages show revisions of their own. */
  ghost predicate ShowOwn(s: Store) {
    forall k :: k in s.messages ==> s.messages[k] < |s.revisions| && RowKey(s.revisions[s.messages[k]]) == Key(k.0, k.1)
  }

  lemma AppendedNoneNewer(s: Store, t: Store, r: Revision)
    requires NoneNewer(s) && ShowOwn(s)
    requires t.revisions == s.revisions + [r] && t.messages == s.messages[(r.place.channel, r.ts) := |s.revisions|]
    requires Familiar(s, RowKey(r)) ==> Seconds(Shown(s, RowKey(r)).version) <= Seconds(r.version)
    ensures NoneNewer(t) && ShowOwn(t)
  {
    forall i | 0 <= i < |t.revisions|
      ensures var key := RowKey(t.revisions[i]);
        Familiar(t, key) && Seconds(t.revisions[i].version) <= Seconds(Shown(t, key).version)
    {
      if i < |s.revisions| {
        var key := RowKey(s.revisions[i]);
        assert t.revisions[i] == s.revisions[i];
        assert Familiar(s, key) && Seconds(s.revisions[i].version) <= Seconds(Shown(s, key).version);
      }
    }
  }

  /** The same revisions of the same messages, whatever is left of their texts. */
  ghost predicate SameRows(s: Store, t: Store) {
    && t.messages == s.messages && |t.revisions| == |s.revisions|
    && forall i :: 0 <= i < |s.revisions| ==>
      && t.revisions[i].place == s.revisions[i].place && t.revisions[i].ts == s.revisions[i].ts
      && t.revisions[i].version == s.revisions[i].version
  }

  lemma SameRowsNoneNewer(s: Store, t: Store)
    requires NoneNewer(s) && ShowOwn(s) && SameRows(s, t)
    ensures NoneNewer(t) && ShowOwn(t)
  {
    forall i | 0 <= i < |t.revisions|
      ensures var key := RowKey(t.revisions[i]);
        Familiar(t, key) && Seconds(t.revisions[i].version) <= Seconds(Shown(t, key).version)
    {
      assert RowKey(t.revisions[i]) == RowKey(s.revisions[i]);
    }
  }

  lemma StoredIsNotOlder(s: Store, m: Message, now: int)
    requires Record(s, m, now).1.Stored?
    ensures Familiar(s, KeyOf(m)) ==> Seconds(Shown(s, KeyOf(m)).version) <= Seconds(m.version)
  {
  }

  lemma RecordNoneNewer(s: Store, m: Message, now: int)
    requires NoneNewer(s) && ShowOwn(s)
    ensures NoneNewer(Record(s, m, now).0) && ShowOwn(Record(s, m, now).0)
  {
    var t := Record(s, m, now).0;
    if Record(s, m, now).1.Stored? {
      StoredIsNotOlder(s, m, now);
      AppendedNoneNewer(s, t, RevisionOf(m, now));
    } else {
      SameRowsNoneNewer(s, t);
    }
  }

  lemma ExpireSameRows(s: Store, now: int)
    ensures SameRows(s, Expire(s, now))
  {
  }

  lemma StepSameRows(w: R.World, step: R.Step)
    requires !step.RecordStep?
    ensures SameRows(w.store, R.Next(w, step).store)
  {
    match step
    case ApplyStep(jobs, job, snaps, os, ms) => F.MarkKeepsTables(w.store, snaps);
    case DeskStep(desk) => R.DeskSameEvidence(w.store, desk);
    case ExpireStep(now) => ExpireSameRows(w.store, now);
    case _ =>
  }

  lemma StepNoneNewer(w: R.World, step: R.Step)
    requires NoneNewer(w.store) && ShowOwn(w.store)
    ensures NoneNewer(R.Next(w, step).store) && ShowOwn(R.Next(w, step).store)
  {
    if step.RecordStep? {
      RecordNoneNewer(w.store, step.message, step.now);
    } else {
      StepSameRows(w, step);
      SameRowsNoneNewer(w.store, R.Next(w, step).store);
    }
  }

  lemma {:induction false} RunNoneNewer(w: R.World, steps: seq<R.Step>)
    requires NoneNewer(w.store) && ShowOwn(w.store)
    ensures NoneNewer(R.Run(w, steps).store) && ShowOwn(R.Run(w, steps).store)
    decreases |steps|
  {
    if steps != [] {
      StepNoneNewer(w, steps[0]);
      RunNoneNewer(R.Next(w, steps[0]), steps[1..]);
    }
  }

  /**
   The report has been recorded before under its version, and the message now shows something else
   of an equal version.
   */
  ghost predicate Returns(s: Store, m: Message) {
    && Repeats(s, m) && Familiar(s, KeyOf(m))
    && !Shown(s, KeyOf(m)).deleted
    && Seconds(Shown(s, KeyOf(m)).version) == Seconds(m.version)
    && !(Shown(s, KeyOf(m)).version == m.version && Shown(s, KeyOf(m)).hash == HashOf(m))
  }

  lemma RepeatIsNotNewer(s: Store, m: Message)
    requires NoneNewer(s) && Repeats(s, m)
    ensures Familiar(s, KeyOf(m)) && Seconds(m.version) <= Seconds(Shown(s, KeyOf(m)).version)
  {
    var i :| 0 <= i < |s.revisions| && s.revisions[i].place.channel == m.place.channel && s.revisions[i].ts == m.ts
           && s.revisions[i].version == m.version && s.revisions[i].hash == HashOf(m);
    assert RowKey(s.revisions[i]) == KeyOf(m);
  }

  lemma FailsIff(s: Store, m: Message, now: int)
    requires Repeats(s, m) ==> Familiar(s, KeyOf(m)) && Seconds(m.version) <= Seconds(Shown(s, KeyOf(m)).version)
    ensures Record(s, m, now).1 == Duplicate <==> !Refused(s, m) && !Redelivered(s, m) && Returns(s, m)
  {
  }

  /**
   Convergence needs distinct versions: recording fails as a whole exactly when a report that is
   neither refused nor redelivered brings back earlier content under the version shown now.
   */
  lemma RecordFailsIff(settings: Settings, steps: seq<R.Step>, m: Message, now: int)
    ensures var s := R.Run(R.Fresh0(settings), steps).store;
      Record(s, m, now).1 == Duplicate <==> !Refused(s, m) && !Redelivered(s, m) && Returns(s, m)
  {
    RunNoneNewer(R.Fresh0(settings), steps);
    var s := R.Run(R.Fresh0(settings), steps).store;
    if Repeats(s, m) { RepeatIsNotNewer(s, m); }
    FailsIff(s, m, now);
  }

  /** So when a message changes without a new version and changes back, it keeps showing the second content. */
  lemma ReturningContentFails(s: Store, a: Message, b: Message, again: Message, now: int)
    requires Record(s, a, now).1.Stored? && Record(Record(s, a, now).0, b, now).1.Stored?
    requires KeyOf(a) == KeyOf(b) == KeyOf(again) && a.version == b.version == again.version && !b.deleted
    requires HashOf(again) == HashOf(a) && HashOf(b) != HashOf(a)
    requires var t := Record(Record(s, a, now).0, b, now).0; !Refused(t, again) && !Redelivered(t, again)
    ensures var t := Record(Record(s, a, now).0, b, now).0;
      Record(t, again, now) == (t, Duplicate) && Familiar(t, KeyOf(b)) && Says(Shown(t, KeyOf(b)), b)
  {
    var s1 := Record(s, a, now).0;
    var t := Record(s1, b, now).0;
    assert t.revisions[|s.revisions|] == RevisionOf(a, now);
    assert t.revisions[|s1.revisions|] == RevisionOf(b, now);
  }
}
