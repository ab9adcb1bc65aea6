/** Inputs the store accepts on which a dismissal is overridden, and on which recording a message fails. */
module StoreLimits {
  import opened Common
  import opened Evidence
  import opened Provenance
  import opened Findings
  import C = Convergence
  import L = ProvenanceLimits
  import O = OwnerDecisions

  // ---- A dismissed matter that opens --------------------------------------------

  const A := Revision(L.HERE, "1.0", "1.0", "a", "a", false, false, false, 0, Hash(false, false, "a"))
  const B := Revision(L.HERE, "2.0", "2.0", "b", "b", false, false, false, 0, Hash(false, false, "b"))

  /**
   A thread of two messages, changed since it was last processed, with a matter that cites the first
   and was dismissed.
   */
  function Talk(): Store {
    Store(map["C" := ChannelRow(true, false)], map[L.HERE := ThreadRow(3, 2, 0)], [A, B],
          map[("C", "1.0") := 0, ("C", "2.0") := 1], map[], map[],
          map["m" := MatterRow(L.HERE, Matter("m", L.HERE, "", [0], Dismissed, 5, false), false, 5)],
          map[], L.SETTINGS, None)
  }

  const SNAP := Snapshot(L.HERE, 3, [Citable(0, false, false), Citable(1, false, false)])
  const DONE := Matter("m", L.HERE, "", [0], Resolved, 7, false)
  const AGAIN := Matter("m", L.HERE, "", [1], Open, 9, true)

  lemma TalkIsRead()
    ensures SnapshotOf(Talk(), SNAP) && Sound(Talk(), {SNAP})
  {
    var s := Talk();
    assert "1.0"[0] != "2.0"[0];
    assert s.messages[("C", "1.0")] == 0 && s.messages[("C", "2.0")] == 1;
    assert s.revisions[0] == A && s.revisions[1] == B;
    assert Fresh(s, L.HERE, 0) && Fresh(s, L.HERE, 1) && FromHuman(s, 0);
    assert Shaped(s);
  }

  lemma TalkIsApplied()
    ensures Apply(Talk(), L.NO_JOBS, None, [SNAP], [], [DONE, AGAIN]).1.Applied?
  {
    var s, snaps := Talk(), [SNAP];
    var items := MatterItems([DONE, AGAIN]);
    assert items == [Item("m", L.HERE, [0]), Item("m", L.HERE, [1])];
    assert Find(snaps, L.HERE) == Some(SNAP);
    assert SNAP.evidence[1..] == [Citable(1, false, false)];
    assert FindCitable(SNAP.evidence, 0) == Some(Citable(0, false, false));
    assert FindCitable(SNAP.evidence[1..], 1) == Some(Citable(1, false, false));
    assert FindCitable(SNAP.evidence, 1) == Some(Citable(1, false, false));
    assert 0 in items[0].evidence && 1 in items[1].evidence;
    assert CheckItem(s, snaps, items[0]) == Applied && CheckItem(s, snaps, items[1]) == Applied;
    assert items[1..] == [items[1]] && items[1..][1..] == [];
    assert CheckItems(s, snaps, items[1..][1..]) == Applied;
    assert CheckItems(s, snaps, items[1..]) == Applied;
    assert ObservationItems([]) + items == items;
  }

  lemma TalkReopens()
    ensures O.Reopened(Talk().revisions, O.Stored(Talk().matters, "m"), [DONE, AGAIN], "m")
    ensures O.FoundResolved([DONE, AGAIN], "m")
  {
    var ms, stored := [DONE, AGAIN], O.Stored(Talk().matters, "m");
    assert "a"[0] != "b"[0];
    assert ms[..1] == [DONE] && [DONE][..0] == [];
    assert ms[..1][0].id == "m" && ms[..1][0].state == Resolved;
    assert O.LastMention([DONE], "m") == Some(0);
    assert O.CitedBefore(stored, ms, "m", 1) == [0];
    assert AGAIN.evidence[0] == 1 && !O.SaidBefore(Talk().revisions, [0], 1);
    assert O.ReopenedBy(Talk().revisions, stored, ms, "m", 1);
    assert ms[0].id == "m" && ms[0].state == Resolved;
  }

  lemma TalkRowIsValid()
    ensures var rows := PutMatters(Talk().matters, Talk().revisions, [SNAP], [DONE, AGAIN]);
      "m" in rows && rows["m"].valid
  {
    MatterRowAfter(Talk().matters, Talk().revisions, [SNAP], [DONE, AGAIN], "m");
    assert MatterItems([DONE, AGAIN])[..1] == [Item("m", L.HERE, [0])];
    assert First(MatterItems([DONE, AGAIN])[..1], "m").Some?;
  }

  /**
   An accepted batch that names the matter twice can open it: the first mention resolves what
   was dismissed, and the second, on evidence new to the first, opens it.
   */
  lemma TwoMentionsOverrideDismissal()
    ensures var s := Talk();
      var (t, outcome) := Apply(s, L.NO_JOBS, None, [SNAP], [], [DONE, AGAIN]);
      && Sound(s, {SNAP}) && SnapshotOf(s, SNAP) && s.matters["m"].body.state == Dismissed
      && outcome.Applied? && "m" in t.matters && t.matters["m"].valid && t.matters["m"].body.state == Open
  {
    TalkIsRead();
    TalkIsApplied();
    TalkReopens();
    O.DecisionSurvivesIff(Talk(), {SNAP}, L.NO_JOBS, None, [SNAP], [], [DONE, AGAIN], "m");
    TalkRowIsValid();
    MarkKeepsTables(Talk(), [SNAP]);
  }

  // ---- A resolved matter and what is new ----------------------------------------

  const ROBOT := Revision(L.HERE, "3.0", "3.0", "c", "c", false, false, true, 0, Hash(false, true, "c"))

  /** The first message, the second, and a bot's; the matter, resolved, cites the first. */
  function Over(): Store {
    Store(map["C" := ChannelRow(true, false)], map[L.HERE := ThreadRow(3, 2, 0)], [A, B, ROBOT],
          map[("C", "1.0") := 0, ("C", "2.0") := 1, ("C", "3.0") := 2], map[], map[],
          map["m" := MatterRow(L.HERE, Matter("m", L.HERE, "", [0], Resolved, 5, false), false, 5)],
          map[], L.SETTINGS, None)
  }

  const READ := Snapshot(L.HERE, 3, [Citable(0, false, false), Citable(1, false, false), Citable(2, false, true)])

  /** A report of the matter as open, asking to reopen it, that cites the first message and what else is given. */
  function Report(more: seq<nat>): Matter {
    Matter("m", L.HERE, "", [0] + more, Open, 9, true)
  }

  lemma OverFresh()
    ensures var s := Over();
      && Shaped(s) && FromHuman(s, 0)
      && s.revisions[0] == A && s.revisions[1] == B && s.revisions[2] == ROBOT
      && Fresh(s, L.HERE, 0) && Fresh(s, L.HERE, 1) && Fresh(s, L.HERE, 2)
  {
    var s := Over();
    assert "1.0"[0] != "2.0"[0] && "1.0"[0] != "3.0"[0] && "2.0"[0] != "3.0"[0];
    assert s.messages[("C", "1.0")] == 0 && s.messages[("C", "2.0")] == 1 && s.messages[("C", "3.0")] == 2;
    assert s.revisions[0] == A && s.revisions[1] == B && s.revisions[2] == ROBOT;
  }

  lemma OverIsRead()
    ensures SnapshotOf(Over(), READ) && Sound(Over(), {READ})
  {
    OverFresh();
    forall e | e in READ.evidence ensures Matches(Over(), READ, e) {
    }
  }

  lemma ReportIsApplied(more: seq<nat>)
    requires more == [] || more == [1] || more == [2]
    ensures Apply(Over(), L.NO_JOBS, None, [READ], [], [Report(more)]).1.Applied?
  {
    var s, snaps, items := Over(), [READ], MatterItems([Report(more)]);
    assert items == [Item("m", L.HERE, [0] + more)];
    assert Find(snaps, L.HERE) == Some(READ);
    assert READ.evidence[1..] == [Citable(1, false, false), Citable(2, false, true)];
    assert READ.evidence[1..][1..] == [Citable(2, false, true)];
    assert FindCitable(READ.evidence, 0) == Some(Citable(0, false, false));
    assert FindCitable(READ.evidence[1..], 1) == Some(Citable(1, false, false));
    assert FindCitable(READ.evidence[1..][1..], 2) == Some(Citable(2, false, true));
    assert FindCitable(READ.evidence[1..], 2) == Some(Citable(2, false, true));
    assert 0 in items[0].evidence && !Automated(READ, 0);
    assert CheckItem(s, snaps, items[0]) == Applied;
    assert items[1..] == [] && CheckItems(s, snaps, items[1..]) == Applied;
    assert ObservationItems([]) + items == items;
  }

  /** The matter's state after a batch of that one report. */
  function StateAfter(more: seq<nat>): Option<MatterState> {
    var t := Apply(Over(), L.NO_JOBS, None, [READ], [], [Report(more)]).0;
    if "m" in t.matters then Some(t.matters["m"].body.state) else None
  }

  lemma NewsOf(more: seq<nat>, k: int, r: nat)
    requires more == [] || more == [1] || more == [2]
    ensures O.CitesNews(Over().revisions, O.Stored(Over().matters, "m"), [Report(more)], "m", k, r) <==>
      k == 0 && r == 1 && more == [1]
  {
    assert "a"[0] != "b"[0];
    assert [Report(more)][..0] == [];
    assert Over().revisions[0] == A && Over().revisions[1] == B && Over().revisions[2] == ROBOT;
    assert 0 in [0] && O.CitedBefore(O.Stored(Over().matters, "m"), [Report(more)], "m", 0) == [0];
    assert r in [0] + more <==> r == 0 || r in more;
  }

  lemma ReportEnds(more: seq<nat>)
    requires more == [] || more == [1] || more == [2]
    ensures StateAfter(more) == Some(if more == [1] then Open else Resolved)
  {
    OverIsRead();
    ReportIsApplied(more);
    forall k, r
      ensures O.CitesNews(Over().revisions, O.Stored(Over().matters, "m"), [Report(more)], "m", k, r) <==>
        k == 0 && r == 1 && more == [1]
    {
      NewsOf(more, k, r);
    }
    assert [Report(more)][1..] == [];
    O.OpensOnNewsOnly(Over(), {READ}, L.NO_JOBS, None, [READ], [], [Report(more)], "m", 0, 1);
  }

  /**
   Reported open again on the message it already cites, or on that and a bot's new one, a resolved
   matter stays resolved; on another message of a person's it opens.
   */
  lemma OnlyNewsReopens()
    ensures SnapshotOf(Over(), READ) && Sound(Over(), {READ})
    ensures Apply(Over(), L.NO_JOBS, None, [READ], [], [Report([])]).1.Applied? && StateAfter([]) == Some(Resolved)
    ensures Apply(Over(), L.NO_JOBS, None, [READ], [], [Report([2])]).1.Applied? && StateAfter([2]) == Some(Resolved)
    ensures Apply(Over(), L.NO_JOBS, None, [READ], [], [Report([1])]).1.Applied? && StateAfter([1]) == Some(Open)
  {
    OverIsRead();
    ReportIsApplied([]);
    ReportIsApplied([1]);
    ReportIsApplied([2]);
    ReportEnds([]);
    ReportEnds([1]);
    ReportEnds([2]);
  }

  // ---- A message that changes back -------------------------------------------------

  /** One channel and nothing said in it. */
  function Silent(): Store {
    Store(map["C" := ChannelRow(true, false)], map[], [], map[], map[], map[], map[], map[], L.SETTINGS, None)
  }

  function Said(text: string): Message {
    Message(L.HERE, "1.0", "1.0", text, false, false, false, true, "")
  }

  lemma SaidIsAccepted(s: Store, text: string)
    requires "C" in s.channels && s.channels["C"].allowed && s.settings == L.SETTINGS
    ensures !Refused(s, Said(text)) && !Redelivered(s, Said(text))
  {
    L.StampsInOrder();
  }

  /** Three reports of one message under one version: a text, another, and the first again. */
  lemma ReturningContentHappens()
    ensures var s, a, b := Silent(), Said("a"), Said("b");
      && Record(s, a, 0).1.Stored? && Record(Record(s, a, 0).0, b, 0).1.Stored?
      && Record(Record(Record(s, a, 0).0, b, 0).0, a, 0).1 == Duplicate
  {
    var s, a, b := Silent(), Said("a"), Said("b");
    assert "a"[0] != "b"[0];
    assert HashOf(a) != HashOf(b);
    SaidIsAccepted(s, "a");
    var s1 := Record(s, a, 0).0;
    assert Record(s, a, 0).1.Stored?;
    assert s1.revisions == [RevisionOf(a, 0)];
    SaidIsAccepted(s1, "b");
    assert !Repeats(s1, b);
    assert Known(s1, b) == Some(0) && !Superseded(s1.revisions[0], b);
    assert Record(s1, b, 0).1.Stored?;
    SaidIsAccepted(Record(s1, b, 0).0, "a");
    C.ReturningContentFails(s, a, b, a, 0);
  }
}
