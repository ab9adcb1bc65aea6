/** Two inputs the store accepts that leave a valid observation without evidence of its own thread. */
module ProvenanceLimits {
  import opened Common
  import opened Evidence
  import opened Provenance
  import opened Findings
  import Jobs

  const HERE := Place("C", "1.0")
  const THERE := Place("C", "2.0")

  function Human(place: Place, ts: string): Revision {
    Revision(place, ts, ts, "text", "text", false, false, false, 0, Hash(false, false, "text"))
  }

  const SETTINGS := Settings(0.0, false, false, false, false, {})

  const PROCESSED := ThreadRow(2, 2, 0)
  const CHANGED := ThreadRow(3, 2, 0)

  /** One message in each of two threads, both threads processed, or changed since. */
  function Base(thread: ThreadRow, observations: map<string, ObservationRow>): Store {
    Store(map["C" := ChannelRow(true, false)],
          map[HERE := thread, THERE := thread],
          [Human(HERE, "1.0"), Human(THERE, "2.0")],
          map[("C", "1.0") := 0, ("C", "2.0") := 1],
          map[], observations, map[], map[], SETTINGS, None)
  }

  lemma BaseFresh(thread: ThreadRow, observations: map<string, ObservationRow>)
    ensures var s := Base(thread, observations);
      Fresh(s, HERE, 0) && Fresh(s, THERE, 1) && FromHuman(s, 0) && FromHuman(s, 1) && Shaped(s)
  {
    var s := Base(thread, observations);
    assert s.revisions[0] == Human(HERE, "1.0") && s.revisions[1] == Human(THERE, "2.0");
    assert "1.0"[0] != "2.0"[0];
    assert s.messages[("C", "1.0")] == 0 && s.messages[("C", "2.0")] == 1;
  }

  lemma StampsInOrder()
    ensures IsStamp("1.0") && IsStamp("3.0") && Seconds("1.0") == 1.0 && Seconds("3.0") == 3.0
  {
    assert "1.0"[..1] == "1" && "1.0"[2..] == "0" && "3.0"[..1] == "3" && "3.0"[2..] == "0";
    assert "1.0"[1] == '.' && "3.0"[1] == '.';
    assert Digits("1") && Digits("0") && Digits("3");
    assert "1.0"[1..] == ".0" && "3.0"[1..] == ".0";
    assert DigitsBefore(".0") == 0 && DigitsBefore("1.0") == 1 && DigitsBefore("3.0") == 1;
    assert Whole("") == 0 && "1"[..0] == "" && "3"[..0] == "";
    assert Whole("1") == 1 && Whole("3") == 3;
    assert Fraction("") == 0.0 && "0"[1..] == "";
    assert Fraction("0") == 0.0;
  }

  const MOVED := Message(THERE, "1.0", "3.0", "moved", false, false, false, true, "")

  lemma MovedIsNewer()
    ensures !Superseded(Human(HERE, "1.0"), MOVED)
    ensures MOVED.version != "1.0" && MOVED.version != "2.0"
  {
    StampsInOrder();
    assert "1.0"[0] != "3.0"[0] && "2.0"[0] != "3.0"[0];
  }

  lemma MovedIsKnown(s: Store)
    requires s == Base(PROCESSED, s.observations)
    ensures Known(s, MOVED) == Some(0) && |s.revisions| == 2 && s.revisions[0] == Human(HERE, "1.0")
  {
    assert "1.0"[0] != "2.0"[0];
  }

  lemma MovedIsNew(s: Store)
    requires s == Base(PROCESSED, s.observations)
    ensures !Repeats(s, MOVED)
  {
    assert s.revisions == [Human(HERE, "1.0"), Human(THERE, "2.0")];
    MovedIsNewer();
  }

  lemma MovedIsAccepted(s: Store)
    requires s == Base(PROCESSED, s.observations)
    ensures !Refused(s, MOVED) && !Redelivered(s, MOVED)
  {
    StampsInOrder();
  }

  lemma MovedIsStored(s: Store)
    requires s == Base(PROCESSED, s.observations)
    ensures Record(s, MOVED, 1).1.Stored? && Known(s, MOVED) == Some(0)
  {
    MovedIsKnown(s);
    MovedIsNewer();
    MovedIsNew(s);
    MovedIsAccepted(s);
  }

  /** An edit that names another thread replaces the revision and invalidates only the thread it names. */
  lemma ThreadChangeStrandsCitation()
    ensures var s := Base(PROCESSED, map["o" := ObservationRow(HERE, "found", [0], true)]);
      Sound(s, {}) && Record(s, MOVED, 1).1.Stored? && !KeepsThread(s, MOVED) && !AllBacked(Record(s, MOVED, 1).0)
  {
    var rows := map["o" := ObservationRow(HERE, "found", [0], true)];
    var s := Base(PROCESSED, rows);
    BaseFresh(PROCESSED, rows);
    assert 0 in s.observations["o"].evidence;
    assert Backed(s, HERE, [0]);
    MovedIsStored(s);
    assert s.revisions[0] == Human(HERE, "1.0");
    assert "1.0"[0] != "2.0"[0];
    assert HERE != THERE;
    assert !NotCitedElsewhere(s, MOVED);
    RecordExact(s, {}, MOVED, 1);
  }

  const SNAP_HERE := Snapshot(HERE, 3, [Citable(0, false, false)])
  const SNAP_THERE := Snapshot(THERE, 3, [Citable(1, false, false)])
  const SHARED := [Observation("o", HERE, "a", [0]), Observation("o", THERE, "b", [1])]
  const NO_JOBS := Jobs.Table(map[], 0)

  lemma SharedIsRead()
    ensures var s := Base(CHANGED, map[]);
      SnapshotOf(s, SNAP_HERE) && SnapshotOf(s, SNAP_THERE) && Sound(s, {SNAP_HERE, SNAP_THERE})
  {
    BaseFresh(CHANGED, map[]);
    assert "1.0"[0] != "2.0"[0];
  }

  lemma SharedIsApplied()
    ensures Apply(Base(CHANGED, map[]), NO_JOBS, None, [SNAP_HERE, SNAP_THERE], SHARED, []).1.Applied?
  {
    var s := Base(CHANGED, map[]);
    var items, snaps := ObservationItems(SHARED), [SNAP_HERE, SNAP_THERE];
    assert "1.0"[0] != "2.0"[0];
    assert HERE != THERE;
    assert items == [Item("o", HERE, [0]), Item("o", THERE, [1])];
    assert snaps[1..] == [SNAP_THERE];
    assert Find(snaps, HERE) == Some(SNAP_HERE) && Find([SNAP_THERE], THERE) == Some(SNAP_THERE);
    assert Find(snaps, THERE) == Some(SNAP_THERE);
    assert FindCitable(SNAP_HERE.evidence, 0) == Some(Citable(0, false, false));
    assert FindCitable(SNAP_THERE.evidence, 1) == Some(Citable(1, false, false));
    assert 0 in items[0].evidence && 1 in items[1].evidence;
    assert CheckItem(s, snaps, items[0]) == Applied && CheckItem(s, snaps, items[1]) == Applied;
    assert items[1..] == [items[1]] && items[1..][1..] == [];
    assert CheckItems(s, snaps, items[1..][1..]) == Applied;
    assert CheckItems(s, snaps, items[1..]) == Applied;
    assert items + MatterItems([]) == items;
  }

  lemma SharedIsNotAligned()
    ensures !Aligned(ObservationItems(SHARED)) && !Coherent(ObservationItems(SHARED))
  {
    var items := ObservationItems(SHARED);
    assert "1.0"[0] != "2.0"[0];
    assert items == [Item("o", HERE, [0]), Item("o", THERE, [1])];
    assert items[..1] == [items[0]] && items[..1][..0] == [];
    assert First(items[..1][..0], "o") == None && First(items[..1], "o") == Some(items[0]);
    assert !AlignedAt(items, "o");
    assert items[0] in items && items[1] in items;
  }

  /** One id for two threads in one batch: the row keeps the first thread and takes the second's evidence. */
  lemma SharedIdMixesThreads()
    ensures var s, snaps := Base(CHANGED, map[]), [SNAP_HERE, SNAP_THERE];
      var (s', outcome) := Apply(s, NO_JOBS, None, snaps, SHARED, []);
      && Sound(s, {SNAP_HERE, SNAP_THERE}) && outcome.Applied?
      && !Coherent(ObservationItems(SHARED)) && !AllBacked(s')
  {
    SharedIsRead();
    SharedIsApplied();
    SharedIsNotAligned();
    ApplyExact(Base(CHANGED, map[]), {SNAP_HERE, SNAP_THERE}, NO_JOBS, None, [SNAP_HERE, SNAP_THERE], SHARED, []);
  }
}
