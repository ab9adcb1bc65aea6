/**
 Consuming extraction batches from what is left, and the loop that repeats batching and
 consuming until nothing is left: no text is lost, repeated or reordered.
 */
module ExtractionRun {
  import opened Common
  import opened Extraction

  // ---- What is left after k units ------------------------------------------

  /** What is left of a list of items after n of its pieces. */
  function Dropped(evidence: seq<Evidence>, n: nat): seq<Evidence>
    requires n <= |Pieces(evidence)|
    decreases n
  {
    if n == 0 then evidence
    else if |evidence[0].text| <= PIECE then Dropped(evidence[1..], n - 1)
    else Dropped([evidence[0].(text := evidence[0].text[PIECE..])] + evidence[1..], n - 1)
  }

  /** What is left of the threads after k units: threads that are done are gone. */
  function Rest(threads: seq<Thread>, k: nat): seq<Thread>
    requires k <= Total(ChopAll(threads))
  {
    if k == 0 then threads
    else
      var u := Size(Chop(threads[0]));
      if k < u then [threads[0].(evidence := Dropped(threads[0].evidence, k))] + threads[1..]
      else Rest(threads[1..], k - u)
  }

  lemma {:induction false} DroppedPieces(evidence: seq<Evidence>, n: nat)
    requires n <= |Pieces(evidence)|
    ensures Pieces(Dropped(evidence, n)) == Pieces(evidence)[n..]
    decreases n
  {
    if n > 0 {
      if |evidence[0].text| <= PIECE {
        assert Pieces(evidence) == [evidence[0]] + Pieces(evidence[1..]);
        DroppedPieces(evidence[1..], n - 1);
      } else {
        var shorter := evidence[0].(text := evidence[0].text[PIECE..]);
        assert ([shorter] + evidence[1..])[1..] == evidence[1..];
        assert Pieces(evidence) == [evidence[0].(text := evidence[0].text[..PIECE])]
          + Pieces([shorter] + evidence[1..]);
        DroppedPieces([shorter] + evidence[1..], n - 1);
      }
    }
  }

  lemma PartRest(t: Thread, n: nat)
    requires 0 < n < |Pieces(t.evidence)|
    ensures PartUnits(Chop(t.(evidence := Dropped(t.evidence, n)))) == PartUnits(Chop(t))[n..]
  {
    DroppedPieces(t.evidence, n);
  }

  lemma StreamHead(threads: seq<Thread>)
    requires threads != []
    ensures Stream(threads) == PartUnits(Chop(threads[0])) + Stream(threads[1..])
    ensures Total(ChopAll(threads)) == Size(Chop(threads[0])) + Total(ChopAll(threads[1..]))
  {
    assert ChopAll(threads)[1..] == ChopAll(threads[1..]);
  }

  /** The rest still holds all the other units, cut at the same places. */
  lemma {:induction false} RestStream(threads: seq<Thread>, k: nat)
    requires k <= Total(ChopAll(threads))
    ensures Stream(Rest(threads, k)) == Stream(threads)[k..]
    decreases threads
  {
    if k > 0 {
      StreamHead(threads);
      if k < Size(Chop(threads[0])) {
        PartRest(threads[0], k);
        StreamHead(Rest(threads, k));
        assert Rest(threads, k)[1..] == threads[1..];
      } else {
        RestStream(threads[1..], k - Size(Chop(threads[0])));
      }
    }
  }

  ghost predicate FreshPlaces(place: Place, threads: seq<Thread>) {
    forall i :: 0 <= i < |threads| ==> threads[i].place != place
  }

  lemma DistinctHead(threads: seq<Thread>)
    requires threads != []
    ensures Distinct(threads) <==> FreshPlaces(threads[0].place, threads[1..]) && Distinct(threads[1..])
  {
  }

  lemma {:induction false} RestDistinct(threads: seq<Thread>, k: nat)
    requires k <= Total(ChopAll(threads)) && Distinct(threads)
    ensures Distinct(Rest(threads, k))
    decreases threads
  {
    if k > 0 {
      StreamHead(threads);
      DistinctHead(threads);
      if k >= Size(Chop(threads[0])) {
        RestDistinct(threads[1..], k - Size(Chop(threads[0])));
      } else {
        DistinctHead(Rest(threads, k));
        assert Rest(threads, k)[1..] == threads[1..];
      }
    }
  }

  // ---- Consuming one piece -------------------------------------------------

  lemma {:induction false} DroppedNext(evidence: seq<Evidence>, n: nat)
    requires n < |Pieces(evidence)|
    ensures Dropped(evidence, n) != []
    ensures var first := Dropped(evidence, n)[0];
      Dropped(evidence, n + 1) ==
      if |first.text| <= PIECE then Dropped(evidence, n)[1..]
      else [first.(text := first.text[PIECE..])] + Dropped(evidence, n)[1..]
    decreases n
  {
    DroppedPieces(evidence, n);
    if n > 0 {
      if |evidence[0].text| <= PIECE {
        DroppedNext(evidence[1..], n - 1);
      } else {
        var shorter := evidence[0].(text := evidence[0].text[PIECE..]);
        assert ([shorter] + evidence[1..])[1..] == evidence[1..];
        DroppedNext([shorter] + evidence[1..], n - 1);
      }
    }
  }

  /** What one step of the consuming loop makes of the pending items. */
  function Shortened(pending: seq<Evidence>, length: nat): seq<Evidence>
    requires pending != [] && length <= |pending[0].text|
  {
    var first := pending[0].(text := pending[0].text[length..]);
    if |first.text| == 0 then pending[1..] else [first] + pending[1..]
  }

  /** Cutting off the piece handed over is exactly dropping one piece. */
  lemma ShortenedIsDropped(evidence: seq<Evidence>, n: nat)
    requires n < |Pieces(evidence)|
    ensures Dropped(evidence, n) != []
    ensures |Pieces(evidence)[n].text| <= |Dropped(evidence, n)[0].text|
    ensures Shortened(Dropped(evidence, n), |Pieces(evidence)[n].text|) == Dropped(evidence, n + 1)
  {
    DroppedPieces(evidence, n);
    DroppedNext(evidence, n);
    assert Pieces(evidence)[n] == Pieces(Dropped(evidence, n))[0] == Cut(Dropped(evidence, n)[0])[0];
  }

  // ---- Consuming a batch ---------------------------------------------------

  /** The same parts up to their gap notes. */
  ghost predicate SameParts(batch: seq<Thread>, parts: seq<Thread>) {
    && |batch| == |parts|
    && forall i :: 0 <= i < |batch| ==> batch[i].place == parts[i].place && batch[i].evidence == parts[i].evidence
  }

  lemma {:induction false} RegapKeepsParts(batch: seq<Thread>, threads: seq<Thread>)
    ensures SameParts(Regap(batch, threads), batch)
    ensures BatchUnits(Regap(batch, threads)) == BatchUnits(batch)
  {
    if batch != [] {
      RegapKeepsParts(batch[1..], threads);
      var r := Regap(batch, threads);
      assert r[1..] == Regap(batch[1..], threads);
      assert PartUnits(r[0]) == PartUnits(batch[0]);
    }
  }

  /** How many pieces the first part of a batch of k units holds. */
  ghost function HeadPieces(threads: seq<Thread>, k: nat): nat
    requires threads != []
  {
    if k < Size(Chop(threads[0])) then k else |Pieces(threads[0].evidence)|
  }

  ghost function LaterUnits(threads: seq<Thread>, k: nat): nat
    requires threads != []
  {
    if k < Size(Chop(threads[0])) then 0 else k - Size(Chop(threads[0]))
  }

  /** What is left once the first part has been consumed: the thread itself, shortened, or nothing of it. */
  ghost function AfterHead(threads: seq<Thread>, n: nat): seq<Thread>
    requires threads != [] && n <= |Pieces(threads[0].evidence)|
  {
    var items := Dropped(threads[0].evidence, n);
    if items == [] then threads[1..] else [threads[0].(evidence := items)] + threads[1..]
  }

  /** The first part of the batch is the beginning of the first thread. */
  lemma HeadPart(threads: seq<Thread>, k: nat, parts: seq<Thread>)
    requires k <= Total(ChopAll(threads)) && SameParts(parts, Taken(ChopAll(threads), k)) && parts != []
    ensures threads != [] && parts[0].place == threads[0].place
    ensures parts[0].evidence == Pieces(threads[0].evidence)[..HeadPieces(threads, k)]
  {
    assert Pieces(threads[0].evidence)[..|Pieces(threads[0].evidence)|] == Pieces(threads[0].evidence);
  }

  /** Consuming it leaves the later parts to be consumed from what is then left. */
  lemma AfterHeadStep(threads: seq<Thread>, k: nat, parts: seq<Thread>)
    requires k <= Total(ChopAll(threads)) && SameParts(parts, Taken(ChopAll(threads), k)) && parts != []
    ensures var after := AfterHead(threads, HeadPieces(threads, k));
      && LaterUnits(threads, k) <= Total(ChopAll(after))
      && SameParts(parts[1..], Taken(ChopAll(after), LaterUnits(threads, k)))
      && Rest(after, LaterUnits(threads, k)) == Rest(threads, k)
  {
    var n := HeadPieces(threads, k);
    DroppedPieces(threads[0].evidence, n);
    assert ChopAll(threads)[1..] == ChopAll(threads[1..]);
    if k < Size(Chop(threads[0])) {
      assert Taken(ChopAll(threads), k) == [Part(Chop(threads[0]), k)];
      assert Dropped(threads[0].evidence, n) != [];
    } else {
      assert AfterHead(threads, n) == threads[1..];
      assert Taken(ChopAll(threads), k)[1..] == Taken(ChopAll(threads[1..]), LaterUnits(threads, k));
    }
  }

  /** The first thread of that place; the source relies on there being one. */
  function IndexOf(threads: seq<Thread>, place: Place): (i: nat)
    requires exists j :: 0 <= j < |threads| && threads[j].place == place
    ensures i < |threads| && threads[i].place == place
    ensures forall j :: 0 <= j < i ==> threads[j].place != place
  {
    if threads[0].place == place then 0 else 1 + IndexOf(threads[1..], place)
  }

  class Extractor {
    var remaining: seq<Thread>

    constructor (snapshots: seq<Thread>)
      ensures remaining == snapshots
    {
      remaining := snapshots;
    }

    /** Cuts the pieces of one part off its thread, and the thread from the list when nothing is left of it. */
    method ConsumePart(part: Thread, ghost n: nat)
      requires remaining != [] && part.place == remaining[0].place
      requires n <= |Pieces(remaining[0].evidence)| && part.evidence == Pieces(remaining[0].evidence)[..n]
      modifies this
      ensures remaining == AfterHead(old(remaining), n)
    {
      ghost var was := remaining;
      var at := IndexOf(remaining, part.place);
      for p := 0 to |part.evidence|
        invariant at == 0 && remaining == was[0 := was[0].(evidence := Dropped(was[0].evidence, p))]
      {
        ShortenedIsDropped(was[0].evidence, p);
        var pending := remaining[at];
        pending := pending.(evidence := Shortened(pending.evidence, |part.evidence[p].text|));
        remaining := remaining[at := pending];
      }
      if |remaining[at].evidence| == 0 {
        remaining := remaining[..at] + remaining[at + 1..];
      }
    }

    /** Consuming a batch of the first k units leaves exactly the rest. */
    method Consume(batch: seq<Thread>, ghost k: nat)
      requires k <= Total(ChopAll(remaining)) && SameParts(batch, Taken(ChopAll(remaining), k))
      modifies this
      ensures remaining == Rest(old(remaining), k)
    {
      ghost var left: nat := k;
      for b := 0 to |batch|
        invariant left <= Total(ChopAll(remaining))
        invariant SameParts(batch[b..], Taken(ChopAll(remaining), left))
        invariant Rest(remaining, left) == Rest(old(remaining), k)
      {
        HeadPart(remaining, left, batch[b..]);
        AfterHeadStep(remaining, left, batch[b..]);
        assert batch[b..][1..] == batch[b + 1..];
        ghost var later := LaterUnits(remaining, left);
        ConsumePart(batch[b], HeadPieces(remaining, left));
        left := later;
      }
      assert Rest(remaining, left) == remaining;
    }

    /**
     The loop: batch, ask for leave to go on, consume. A round may be stopped by its callers
     (no authority any more, an abort, a failed request); a fragment that fits nowhere
     refuses the whole extraction.
     */
    method ExtractAll(fits: (nat, seq<Thread>) -> bool, goesOn: nat -> bool)
      returns (outcome: Outcome, batches: seq<seq<Thread>>, ghost accepted: seq<seq<Thread>>)
      requires Distinct(remaining)
      modifies this
      ensures HandedOver(batches) + Stream(remaining) == Stream(old(remaining))
      ensures outcome.Completed? ==> remaining == [] && HandedOver(batches) == Stream(old(remaining))
      ensures AllAccepted(batches, accepted, fits)
      ensures outcome.Refused? ==>
        remaining != [] && !Accepted(Taken(ChopAll(remaining), 1), RoundFits(fits, |batches|))
    {
      batches, accepted := [], [];
      while remaining != []
        invariant Distinct(remaining)
        invariant HandedOver(batches) + Stream(remaining) == Stream(old(remaining))
        invariant AllAccepted(batches, accepted, fits)
        decreases Total(ChopAll(remaining))
      {
        ghost var was := remaining;
        var r := ExtractionBatch(remaining, RoundFits(fits, |batches|));
        ghost var k := Longest(ChopAll(was), RoundFits(fits, |batches|), 0);
        LongestIsGreedy(ChopAll(was), RoundFits(fits, |batches|), 0);
        StreamHead(was);
        if r.Oversized? {
          return Refused, batches, accepted;
        }
        if !goesOn(|batches|) {
          return Stopped, batches, accepted;
        }
        RoundHolds(was, k, batches, r.parts, fits);
        Consume(r.parts, k);
        OneMoreAccepted(batches, accepted, fits, r.parts, Taken(ChopAll(was), k));
        batches := batches + [r.parts];
        accepted := accepted + [Taken(ChopAll(was), k)];
      }
      NothingLeft(batches);
      outcome := Completed;
    }
  }

  // ---- What has been handed over -------------------------------------------

  datatype Outcome = Completed | Stopped | Refused

  function HandedOver(batches: seq<seq<Thread>>): seq<Unit> {
    if batches == [] then [] else HandedOver(batches[..|batches| - 1]) + BatchUnits(batches[|batches| - 1])
  }

  /** A request covers one channel, and is within the bound in force in its round. */
  function RoundFits(fits: (nat, seq<Thread>) -> bool, round: nat): seq<Thread> -> bool {
    (batch: seq<Thread>) => OneChannel(batch) && fits(round, batch)
  }

  predicate OneChannel(batch: seq<Thread>) {
    batch != [] && forall i :: 0 <= i < |batch| ==> batch[i].place.channel == batch[0].place.channel
  }

  ghost predicate BatchWasAccepted(batch: seq<Thread>, candidate: seq<Thread>,
      fits: (nat, seq<Thread>) -> bool, round: nat) {
    && SameParts(batch, candidate)
    && 0 < |candidate| <= 16 && !OfTwoChannels(candidate) && fits(round, candidate)
  }

  predicate OfTwoChannels(batch: seq<Thread>) {
    exists i, j :: 0 <= i < |batch| && 0 <= j < |batch| && batch[i].place.channel != batch[j].place.channel
  }

  lemma OneChannelIff(batch: seq<Thread>)
    requires batch != []
    ensures OneChannel(batch) <==> !OfTwoChannels(batch)
  {
    if !OneChannel(batch) {
      var i :| 0 <= i < |batch| && batch[i].place.channel != batch[0].place.channel;
    }
  }

  lemma RoundAccepts(candidate: seq<Thread>, fits: (nat, seq<Thread>) -> bool, round: nat)
    requires candidate != []
    ensures Accepted(candidate, RoundFits(fits, round)) <==>
      |candidate| <= 16 && !OfTwoChannels(candidate) && fits(round, candidate)
  {
    OneChannelIff(candidate);
  }

  /** A round's batch ends only where one piece more would make a seventeenth part, another channel or too much. */
  lemma RoundStopsWhen(threads: seq<Thread>, fits: (nat, seq<Thread>) -> bool, round: nat)
    ensures var cut := ChopAll(threads);
      var k := Longest(cut, RoundFits(fits, round), 0);
      && (forall n: nat :: 0 < n <= k ==>
           |Taken(cut, n)| <= 16 && !OfTwoChannels(Taken(cut, n)) && fits(round, Taken(cut, n)))
      && (k < Total(cut) ==>
           |Taken(cut, k + 1)| > 16 || OfTwoChannels(Taken(cut, k + 1)) || !fits(round, Taken(cut, k + 1)))
  {
    var cut, bound := ChopAll(threads), RoundFits(fits, round);
    var k := Longest(cut, bound, 0);
    LongestIsGreedy(cut, bound, 0);
    forall n: nat | 0 < n <= k
      ensures |Taken(cut, n)| <= 16 && !OfTwoChannels(Taken(cut, n)) && fits(round, Taken(cut, n))
    {
      AcceptedBefore(cut, bound, k, n);
      if Taken(cut, n) == [] { TakenEmpty(cut, n); }
      RoundAccepts(Taken(cut, n), fits, round);
    }
    if k < Total(cut) {
      if Taken(cut, k + 1) == [] { TakenEmpty(cut, k + 1); }
      RoundAccepts(Taken(cut, k + 1), fits, round);
    }
  }

  ghost predicate AllAccepted(batches: seq<seq<Thread>>, candidates: seq<seq<Thread>>,
      fits: (nat, seq<Thread>) -> bool) {
    && |batches| == |candidates|
    && forall r :: 0 <= r < |batches| ==> BatchWasAccepted(batches[r], candidates[r], fits, r)
  }

  lemma OneMoreAccepted(batches: seq<seq<Thread>>, candidates: seq<seq<Thread>>, fits: (nat, seq<Thread>) -> bool,
                        batch: seq<Thread>, candidate: seq<Thread>)
    requires AllAccepted(batches, candidates, fits) && BatchWasAccepted(batch, candidate, fits, |batches|)
    ensures AllAccepted(batches + [batch], candidates + [candidate], fits)
  {
  }

  lemma NothingLeft(batches: seq<seq<Thread>>)
    ensures HandedOver(batches) + Stream([]) == HandedOver(batches)
  {
  }

  lemma RoundKeepsStream(threads: seq<Thread>, k: nat, batches: seq<seq<Thread>>, parts: seq<Thread>)
    requires k <= Total(ChopAll(threads)) && parts == Regap(Taken(ChopAll(threads), k), threads)
    ensures HandedOver(batches + [parts]) + Stream(Rest(threads, k)) == HandedOver(batches) + Stream(threads)
    ensures Total(ChopAll(Rest(threads, k))) == Total(ChopAll(threads)) - k
  {
    RegapKeepsParts(Taken(ChopAll(threads), k), threads);
    TakenUnits(ChopAll(threads), k);
    RestStream(threads, k);
    assert (batches + [parts])[..|batches|] == batches;
    assert |Stream(Rest(threads, k))| == Total(ChopAll(Rest(threads, k)));
  }

  /** One round: the batch was accepted, and the units move from what is left to what is handed over. */
  lemma RoundHolds(threads: seq<Thread>, k: nat, batches: seq<seq<Thread>>, parts: seq<Thread>,
                   fits: (nat, seq<Thread>) -> bool)
    requires Distinct(threads) && Greedy(ChopAll(threads), RoundFits(fits, |batches|), k) && k > 0
    requires parts == Regap(Taken(ChopAll(threads), k), threads)
    ensures HandedOver(batches + [parts]) + Stream(Rest(threads, k)) == HandedOver(batches) + Stream(threads)
    ensures Total(ChopAll(Rest(threads, k))) < Total(ChopAll(threads))
    ensures Distinct(Rest(threads, k))
    ensures SameParts(parts, Taken(ChopAll(threads), k))
    ensures BatchWasAccepted(parts, Taken(ChopAll(threads), k), fits, |batches|)
  {
    RoundKeepsStream(threads, k, batches, parts);
    RestDistinct(threads, k);
    RegapKeepsParts(Taken(ChopAll(threads), k), threads);
    RoundAccepts(Taken(ChopAll(threads), k), fits, |batches|);
  }

  // ---- The text of each item -----------------------------------------------

  predicate Of(unit: Unit, place: Place, id: int) {
    unit.place == place && unit.piece.Some? && unit.piece.value.id == id
  }

  /** Everything handed over under one item's id, joined in order. */
  function Joined(units: seq<Unit>, place: Place, id: int): string {
    if units == [] then ""
    else (if Of(units[0], place, id) then units[0].piece.value.text else "") + Joined(units[1..], place, id)
  }

  lemma {:induction false} JoinedConcat(a: seq<Unit>, b: seq<Unit>, place: Place, id: int)
    ensures Joined(a + b, place, id) == Joined(a, place, id) + Joined(b, place, id)
  {
    if a == [] {
      assert a + b == b;
    } else {
      assert (a + b)[1..] == a[1..] + b;
      JoinedConcat(a[1..], b, place, id);
    }
  }

  lemma {:induction false} JoinedCut(home: Place, e: Evidence, place: Place, id: int)
    ensures Joined(PieceUnits(home, Cut(e)), place, id) == if home == place && e.id == id then e.text else ""
    decreases |e.text|
  {
    var units := PieceUnits(home, Cut(e));
    if |e.text| <= PIECE {
      assert units[1..] == [];
    } else {
      var later := e.(text := e.text[PIECE..]);
      assert units[1..] == PieceUnits(home, Cut(later));
      JoinedCut(home, later, place, id);
      assert e.text == e.text[..PIECE] + e.text[PIECE..];
    }
  }

  function TextIn(evidence: seq<Evidence>, id: int): string {
    if evidence == [] then "" else (if evidence[0].id == id then evidence[0].text else "") + TextIn(evidence[1..], id)
  }

  lemma {:induction false} JoinedPieces(home: Place, evidence: seq<Evidence>, place: Place, id: int)
    ensures Joined(PieceUnits(home, Pieces(evidence)), place, id) == if home == place then TextIn(evidence, id) else ""
  {
    if evidence != [] {
      var a, b := PieceUnits(home, Cut(evidence[0])), PieceUnits(home, Pieces(evidence[1..]));
      assert PieceUnits(home, Pieces(evidence)) == a + b;
      JoinedConcat(a, b, place, id);
      JoinedCut(home, evidence[0], place, id);
      JoinedPieces(home, evidence[1..], place, id);
    }
  }

  lemma {:induction false} TextOfItem(evidence: seq<Evidence>, j: nat)
    requires j < |evidence| && UniqueIds(evidence)
    ensures TextIn(evidence, evidence[j].id) == evidence[j].text
  {
    if j == 0 {
      NoTextElsewhere(evidence[1..], evidence[0].id);
    } else {
      TextOfItem(evidence[1..], j - 1);
    }
  }

  predicate UniqueIds(evidence: seq<Evidence>) {
    forall i, j :: 0 <= i < j < |evidence| ==> evidence[i].id != evidence[j].id
  }

  lemma {:induction false} NoTextElsewhere(evidence: seq<Evidence>, id: int)
    requires forall i :: 0 <= i < |evidence| ==> evidence[i].id != id
    ensures TextIn(evidence, id) == ""
  {
    if evidence != [] { NoTextElsewhere(evidence[1..], id); }
  }

  lemma JoinedThread(t: Thread, place: Place, id: int)
    ensures Joined(PartUnits(Chop(t)), place, id) == if t.place == place then TextIn(t.evidence, id) else ""
  {
    if t.evidence == [] {
      assert PartUnits(Chop(t))[1..] == [];
    } else {
      JoinedPieces(t.place, t.evidence, place, id);
    }
  }

  lemma JoinedHead(threads: seq<Thread>, place: Place, id: int)
    requires threads != []
    ensures Joined(Stream(threads), place, id)
         == (if threads[0].place == place then TextIn(threads[0].evidence, id) else "")
           + Joined(Stream(threads[1..]), place, id)
  {
    StreamHead(threads);
    JoinedConcat(PartUnits(Chop(threads[0])), Stream(threads[1..]), place, id);
    JoinedThread(threads[0], place, id);
  }

  lemma {:induction false} JoinedElsewhere(threads: seq<Thread>, place: Place, id: int)
    requires FreshPlaces(place, threads)
    ensures Joined(Stream(threads), place, id) == ""
  {
    if threads != [] {
      JoinedHead(threads, place, id);
      JoinedElsewhere(threads[1..], place, id);
    }
  }

  lemma {:induction false} JoinedStream(threads: seq<Thread>, i: nat, place: Place, id: int)
    requires Distinct(threads) && i < |threads| && threads[i].place == place
    ensures Joined(Stream(threads), place, id) == TextIn(threads[i].evidence, id)
  {
    JoinedHead(threads, place, id);
    DistinctHead(threads);
    if i == 0 {
      JoinedElsewhere(threads[1..], place, id);
    } else {
      var tail := threads[1..];
      assert tail[i - 1] == threads[i];
      JoinedStream(tail, i - 1, place, id);
    }
  }

  /** A completed extraction has handed over the whole text of every item, in order, once. */
  lemma EveryTextHandedOverOnce(threads: seq<Thread>, batches: seq<seq<Thread>>, i: nat, j: nat)
    requires HandedOver(batches) == Stream(threads)
    requires Distinct(threads) && i < |threads| && j < |threads[i].evidence| && UniqueIds(threads[i].evidence)
    ensures Joined(HandedOver(batches), threads[i].place, threads[i].evidence[j].id) == threads[i].evidence[j].text
  {
    JoinedStream(threads, i, threads[i].place, threads[i].evidence[j].id);
    TextOfItem(threads[i].evidence, j);
  }

  lemma {:induction false} PiecesAreBounded(evidence: seq<Evidence>, i: nat)
    requires i < |Pieces(evidence)|
    ensures |Pieces(evidence)[i].text| <= 1000
  {
    var first := Cut(evidence[0]);
    if i < |first| {
      CutsAreFull(evidence[0], i);
    } else {
      PiecesAreBounded(evidence[1..], i - |first|);
    }
  }

  /** Every cut of an item is of a thousand characters, but for the last, which has what is left. */
  lemma {:induction false} CutsAreFull(e: Evidence, i: nat)
    requires i < |Cut(e)|
    ensures Cut(e)[i].id == e.id
    ensures |Cut(e)[i].text| == if i < |Cut(e)| - 1 then 1000 else |e.text| - 1000 * i
    ensures 0 < |Cut(e)[i].text| <= 1000 || e.text == []
    decreases i
  {
    if |e.text| > PIECE && i > 0 {
      CutsAreFull(e.(text := e.text[PIECE..]), i - 1);
    } else if |e.text| > PIECE {
      assert Cut(e)[0] == e.(text := e.text[..PIECE]);
    }
  }
}
