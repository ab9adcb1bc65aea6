/**
 Collecting a channel page by page: the end of the window is pinned while a cursor is pending,
 and the checkpoint moves there only after the last page was recorded, also when a run is cut
 off between any two of its steps. Slack's paging is an assumption, stated as Serves.
 */
module Collection {
  import opened Common

  datatype Message = Message(ts: int, id: string)

  /** A page of messages and the cursor of the next, if there is one. */
  datatype Page = Page(messages: seq<Message>, cursor: Option<int>)

  /** The source: what it holds, its pages, and for each cursor what is still to come behind it. */
  datatype Source = Source(
    history: set<Message>,
    page: (int, int, Option<int>) -> Page,
    ahead: (int, int, Option<int>) -> set<Message>)

  function Window(history: set<Message>, oldest: int, latest: int): set<Message> {
    set m | m in history && oldest <= m.ts <= latest
  }

  /** Following cursors from the first page to the last delivers the whole window. */
  ghost predicate Serves(src: Source) {
    && (forall lo, hi :: src.ahead(lo, hi, None) == Window(src.history, lo, hi))
    && forall lo, hi, c, m :: m in src.ahead(lo, hi, c) ==>
         var p := src.page(lo, hi, c);
         m in p.messages || (p.cursor.Some? && m in src.ahead(lo, hi, p.cursor))
  }

  /** What is stored for a channel; pinned is the end of a scan under way. */
  datatype Progress = Progress(checkpoint: int, cursor: Option<int>, pinned: Option<int>, recorded: set<Message>)

  /** What a run has in hand; a crash loses it. */
  datatype Work =
    | Idle
    | Pinned(checkpoint: int, cursor: Option<int>, latest: int)
    | Recording(checkpoint: int, latest: int, fetched: Page, done: nat)

  datatype State = State(stored: Progress, work: Work)

  function Fresh(watermark: int): State {
    State(Progress(watermark, None, None, {}), Idle)
  }

  // ---- The steps ---------------------------------------------------------------

  datatype Step = Begin(now: int) | Fetch | Record | Advance | CutOff | Capture(m: Message)

  predicate Can(s: State, step: Step) {
    match step
    case Begin(_) => s.work.Idle?
    case Fetch => s.work.Pinned?
    case Record => s.work.Recording? && s.work.done < |s.work.fetched.messages|
    case Advance => s.work.Recording? && s.work.done == |s.work.fetched.messages|
    case _ => true
  }

  /** CutOff is a crash, an abort, an error of the source or lost access; Capture is a message seen live. */
  function Do(src: Source, s: State, step: Step): State
    requires Can(s, step)
  {
    match step
    case Begin(now) =>
      var latest := if s.stored.pinned.Some? then s.stored.pinned.value else now;
      State(s.stored.(pinned := Some(latest)), Pinned(s.stored.checkpoint, s.stored.cursor, latest))
    case Fetch =>
      s.(work := Recording(s.work.checkpoint, s.work.latest,
                           src.page(s.work.checkpoint, s.work.latest, s.work.cursor), 0))
    case Record =>
      State(s.stored.(recorded := s.stored.recorded + {s.work.fetched.messages[s.work.done]}),
            s.work.(done := s.work.done + 1))
    case Advance =>
      State(Advanced(s.stored, s.work.checkpoint, s.work.latest, s.work.fetched.cursor), Idle)
    case CutOff => s.(work := Idle)
    case Capture(m) => s.(stored := s.stored.(recorded := s.stored.recorded + {m}))
  }

  function Advanced(p: Progress, checkpoint: int, latest: int, cursor: Option<int>): Progress {
    p.(cursor := cursor,
       checkpoint := if cursor.Some? then checkpoint else latest,
       pinned := if cursor.Some? then p.pinned else None)
  }

  // ---- One uninterrupted run, as the source's loop --------------------------------

  class ChannelScan {
    var stored: Progress

    constructor (watermark: int)
      ensures stored == Fresh(watermark).stored
    {
      stored := Progress(watermark, None, None, {});
    }

    /** One page: pinned, fetched, recorded message by message, and then accounted for. */
    method Collect(src: Source, access: bool, still: bool, now: int)
      modifies this
      ensures !access ==> stored == old(stored)
      ensures access && !still ==> stored == Do(src, State(old(stored), Idle), Begin(now)).stored
      ensures access && still ==> stored == Collected(src, old(stored), now)
      ensures var end := if old(stored).pinned.Some? then old(stored).pinned.value else now;
        var page := src.page(old(stored).checkpoint, end, old(stored).cursor);
        && (access && !still ==> stored == old(stored).(pinned := Some(end)))
        && (access && still && page.cursor.Some? ==>
             stored == Progress(old(stored).checkpoint, page.cursor, Some(end),
                                old(stored).recorded + Elements(page.messages)))
        && (access && still && page.cursor.None? ==>
             stored == Progress(end, None, None, old(stored).recorded + Elements(page.messages)))
    {
      if !access { return; }
      var latest := if stored.pinned.Some? then stored.pinned.value else now;
      stored := stored.(pinned := Some(latest));
      var checkpoint, cursor := stored.checkpoint, stored.cursor;
      var page := src.page(checkpoint, latest, cursor);
      if !still { return; }
      for i := 0 to |page.messages|
        invariant stored == old(stored).(pinned := Some(latest),
          recorded := old(stored).recorded + Elements(page.messages[..i]))
      {
        assert page.messages[..i + 1] == page.messages[..i] + [page.messages[i]];
        stored := stored.(recorded := stored.recorded + {page.messages[i]});
        assert old(stored).recorded + Elements(page.messages[..i + 1])
            == old(stored).recorded + Elements(page.messages[..i]) + {page.messages[i]};
      }
      assert page.messages[..|page.messages|] == page.messages;
      stored := Advanced(stored, checkpoint, latest, page.cursor);
    }
  }

  function Elements(messages: seq<Message>): set<Message> {
    set m | m in messages
  }

  /** The stored progress after a run of one page. */
  function Collected(src: Source, p: Progress, now: int): Progress {
    var latest := if p.pinned.Some? then p.pinned.value else now;
    var page := src.page(p.checkpoint, latest, p.cursor);
    Advanced(p.(pinned := Some(latest), recorded := p.recorded + Elements(page.messages)),
             p.checkpoint, latest, page.cursor)
  }

  // ---- What every step keeps --------------------------------------------------------

  /** Everything behind the checkpoint is recorded. */
  ghost predicate Covered(src: Source, p: Progress, watermark: int) {
    forall m :: m in src.history && watermark < m.ts <= p.checkpoint ==> m in p.recorded
  }

  /** The window of a scan under way is recorded or still ahead of its cursor. */
  ghost predicate ScanHolds(src: Source, p: Progress) {
    && (p.cursor.Some? ==> p.pinned.Some?)
    && (p.pinned.Some? ==>
         forall m :: m in Window(src.history, p.checkpoint, p.pinned.value) ==>
           m in p.recorded || m in src.ahead(p.checkpoint, p.pinned.value, p.cursor))
  }

  /** What a run has in hand is about the stored scan, and what it has recorded is stored. */
  ghost predicate WorkHolds(src: Source, s: State) {
    match s.work
    case Idle => true
    case Pinned(checkpoint, cursor, latest) =>
      checkpoint == s.stored.checkpoint && cursor == s.stored.cursor && s.stored.pinned == Some(latest)
    case Recording(checkpoint, latest, fetched, done) =>
      && checkpoint == s.stored.checkpoint && s.stored.pinned == Some(latest)
      && fetched == src.page(checkpoint, latest, s.stored.cursor)
      && done <= |fetched.messages|
      && forall i :: 0 <= i < done ==> fetched.messages[i] in s.stored.recorded
  }

  ghost predicate Good(src: Source, s: State, watermark: int) {
    Covered(src, s.stored, watermark) && ScanHolds(src, s.stored) && WorkHolds(src, s)
  }

  /** Accounting for a page keeps the scan, and at its last page covers the whole window. */
  lemma AdvanceGood(src: Source, s: State, watermark: int)
    requires Serves(src) && Good(src, s, watermark) && Can(s, Advance)
    ensures Good(src, Do(src, s, Advance), watermark)
  {
    var p, t := s.stored, Do(src, s, Advance).stored;
    var page := s.work.fetched;
    forall m | m in Window(src.history, p.checkpoint, p.pinned.value)
      ensures m in p.recorded || (page.cursor.Some? && m in src.ahead(p.checkpoint, p.pinned.value, page.cursor))
    {
      if m !in p.recorded { assert m in src.ahead(p.checkpoint, p.pinned.value, p.cursor); }
    }
    if page.cursor.None? {
      forall m | m in src.history && watermark < m.ts <= t.checkpoint ensures m in t.recorded {
        if m.ts >= p.checkpoint { assert m in Window(src.history, p.checkpoint, p.pinned.value); }
      }
    }
  }

  lemma StepGood(src: Source, s: State, step: Step, watermark: int)
    requires Serves(src) && Good(src, s, watermark) && Can(s, step)
    ensures Good(src, Do(src, s, step), watermark)
  {
    if step.Advance? { AdvanceGood(src, s, watermark); }
  }

  ghost predicate Runs(src: Source, s: State, steps: seq<Step>, t: State)
    decreases |steps|
  {
    if steps == [] then t == s else Can(s, steps[0]) && Runs(src, Do(src, s, steps[0]), steps[1..], t)
  }

  lemma {:induction false} RunGood(src: Source, s: State, steps: seq<Step>, t: State, watermark: int)
    requires Serves(src) && Good(src, s, watermark) && Runs(src, s, steps, t)
    ensures Good(src, t, watermark)
    decreases |steps|
  {
    if steps != [] {
      StepGood(src, s, steps[0], watermark);
      RunGood(src, Do(src, s, steps[0]), steps[1..], t, watermark);
    }
  }

  /** Wherever runs are cut off, no message up to the checkpoint has been skipped. */
  lemma NothingSkipped(src: Source, watermark: int, steps: seq<Step>, t: State, m: Message)
    requires Serves(src) && Runs(src, Fresh(watermark), steps, t)
    requires m in src.history && watermark < m.ts <= t.stored.checkpoint
    ensures m in t.stored.recorded
  {
    RunGood(src, Fresh(watermark), steps, t, watermark);
  }

  /** The end of a scan stays where it is until the last page has been accounted for. */
  lemma PinStays(src: Source, watermark: int, steps: seq<Step>, s: State, step: Step)
    requires Serves(src) && Runs(src, Fresh(watermark), steps, s) && Can(s, step) && s.stored.cursor.Some?
    ensures s.stored.pinned.Some?
    ensures var t := Do(src, s, step).stored;
      if t.cursor.Some? then t.pinned == s.stored.pinned && t.checkpoint == s.stored.checkpoint
      else t.pinned == None && t.checkpoint == s.stored.pinned.value
  {
    RunGood(src, Fresh(watermark), steps, s, watermark);
  }

  /**
   A scan that begins is pinned at the present, one that goes on stays pinned where it was; nothing
   else is stored.
   */
  lemma BeginPins(src: Source, p: Progress, now: int)
    ensures var t, end := Do(src, State(p, Idle), Begin(now)), if p.pinned.Some? then p.pinned.value else now;
      && t.stored.pinned == Some(end) && t.work == Pinned(p.checkpoint, p.cursor, end)
      && t.stored.checkpoint == p.checkpoint && t.stored.cursor == p.cursor && t.stored.recorded == p.recorded
  {
  }

  /**
   From every state a run can come to: accounting for the last page puts the checkpoint at the end of
   the scan, up to which everything is recorded, and ends the scan; another page only moves the cursor.
   */
  lemma LastPageCompletes(src: Source, watermark: int, steps: seq<Step>, s: State)
    requires Serves(src) && Runs(src, Fresh(watermark), steps, s) && Can(s, Advance)
    ensures s.stored.pinned.Some?
    ensures var t, next, end := Do(src, s, Advance).stored, s.work.fetched.cursor, s.stored.pinned.value;
      && t.recorded == s.stored.recorded
      && (next.Some? ==> t == s.stored.(cursor := next))
      && (next.None? ==>
           && t.checkpoint == end && t.cursor.None? && t.pinned.None?
           && forall m :: m in src.history && watermark < m.ts <= end ==> m in t.recorded)
  {
    RunGood(src, Fresh(watermark), steps, s, watermark);
    AdvanceGood(src, s, watermark);
  }

  // ---- A scan from beginning to end -----------------------------------------------------

  /** Behind this cursor the last page is the n-th after the next. */
  ghost predicate EndsAfter(src: Source, lo: int, hi: int, cursor: Option<int>, n: nat)
    decreases n
  {
    var next := src.page(lo, hi, cursor).cursor;
    if n == 0 then next.None? else next.Some? && EndsAfter(src, lo, hi, next, n - 1)
  }

  /** The stored progress after a run at each of these times. */
  function CollectedAt(src: Source, p: Progress, times: seq<int>): Progress
    decreases |times|
  {
    if times == [] then p else CollectedAt(src, Collected(src, p, times[0]), times[1..])
  }

  /**
   However many pages it has, a scan that is begun reaches its end with as many runs: the checkpoint
   is then where the scan was pinned, at the latest when the first of them began.
   */
  lemma {:induction false} ScanReachesItsEnd(src: Source, p: Progress, times: seq<int>)
    requires times != [] && (p.cursor.Some? ==> p.pinned.Some?)
    requires EndsAfter(src, p.checkpoint, if p.pinned.Some? then p.pinned.value else times[0], p.cursor, |times| - 1)
    ensures var t := CollectedAt(src, p, times);
      t.cursor.None? && t.pinned.None? && t.checkpoint == if p.pinned.Some? then p.pinned.value else times[0]
    decreases |times|
  {
    if |times| > 1 {
      ScanReachesItsEnd(src, Collected(src, p, times[0]), times[1..]);
    } else {
      assert CollectedAt(src, Collected(src, p, times[0]), times[1..]) == Collected(src, p, times[0]);
    }
  }

  lemma CollectedHolds(src: Source, p: Progress, now: int, watermark: int)
    requires Serves(src) && Covered(src, p, watermark) && ScanHolds(src, p)
    ensures var t := Collected(src, p, now); Covered(src, t, watermark) && ScanHolds(src, t)
  {
    CollectedIsSteps(src, p, now);
    var begun := Do(src, State(p, Idle), Begin(now));
    assert Good(src, begun, watermark);
    var fetched := Do(src, begun, Fetch);
    RecordedGood(src, fetched, |fetched.work.fetched.messages|, watermark);
    AdvanceGood(src, Recorded(fetched, |fetched.work.fetched.messages|, src), watermark);
  }

  lemma {:induction false} RecordedGood(src: Source, s: State, n: nat, watermark: int)
    requires Serves(src) && Good(src, s, watermark)
    requires s.work.Recording? && s.work.done + n <= |s.work.fetched.messages|
    ensures Good(src, Recorded(s, n, src), watermark)
  {
    if n > 0 {
      RecordedGood(src, s, n - 1, watermark);
      StepGood(src, Recorded(s, n - 1, src), Record, watermark);
    }
  }

  lemma {:induction false} CollectedAtHolds(src: Source, p: Progress, times: seq<int>, watermark: int)
    requires Serves(src) && Covered(src, p, watermark) && ScanHolds(src, p)
    ensures Covered(src, CollectedAt(src, p, times), watermark)
    decreases |times|
  {
    if times != [] {
      CollectedHolds(src, p, times[0], watermark);
      CollectedAtHolds(src, Collected(src, p, times[0]), times[1..], watermark);
    }
  }

  /**
   So a channel collected for the first time, in as many runs as its window has pages, has its
   checkpoint at the time of the first of them, and every message up to then recorded.
   */
  lemma FirstScanCollectsAll(src: Source, watermark: int, times: seq<int>, m: Message)
    requires Serves(src) && times != [] && EndsAfter(src, watermark, times[0], None, |times| - 1)
    requires m in src.history && watermark < m.ts <= times[0]
    ensures var t := CollectedAt(src, Fresh(watermark).stored, times);
      t.checkpoint == times[0] && t.cursor.None? && t.pinned.None? && m in t.recorded
  {
    ScanReachesItsEnd(src, Fresh(watermark).stored, times);
    CollectedAtHolds(src, Fresh(watermark).stored, times, watermark);
  }

  // ---- The run as steps ---------------------------------------------------------------

  function Recorded(s: State, n: nat, src: Source): State
    requires s.work.Recording? && s.work.done + n <= |s.work.fetched.messages|
    ensures Recorded(s, n, src).work == s.work.(done := s.work.done + n)
  {
    if n == 0 then s else Do(src, Recorded(s, n - 1, src), Record)
  }

  lemma {:induction false} RecordedElements(s: State, n: nat, src: Source)
    requires s.work.Recording? && s.work.done == 0 && n <= |s.work.fetched.messages|
    ensures Recorded(s, n, src).stored
         == s.stored.(recorded := s.stored.recorded + Elements(s.work.fetched.messages[..n]))
  {
    var ms := s.work.fetched.messages;
    if n == 0 {
      assert s.stored.recorded + Elements(ms[..0]) == s.stored.recorded;
    } else {
      RecordedElements(s, n - 1, src);
      assert ms[..n] == ms[..n - 1] + [ms[n - 1]];
      assert s.stored.recorded + Elements(ms[..n - 1]) + {ms[n - 1]} == s.stored.recorded + Elements(ms[..n]);
    }
  }

  /** An uninterrupted run is the steps of it in order. */
  lemma CollectedIsSteps(src: Source, p: Progress, now: int)
    ensures var fetched := Do(src, Do(src, State(p, Idle), Begin(now)), Fetch);
      State(Collected(src, p, now), Idle)
      == Do(src, Recorded(fetched, |fetched.work.fetched.messages|, src), Advance)
  {
    var fetched := Do(src, Do(src, State(p, Idle), Begin(now)), Fetch);
    var ms := fetched.work.fetched.messages;
    RecordedElements(fetched, |ms|, src);
    assert ms[..|ms|] == ms;
  }
}
