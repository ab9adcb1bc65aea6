/**
 Splitting the text of changed threads into bounded extraction requests: the greedy
 batcher, the consumption of a batch from what is left, and the loop over both.
 A char stands for one UTF-16 code unit.
 */
module Extraction {
  import opened Common

  const PIECE := 1000
  const MAX_THREADS := 16

  datatype Place = Place(channel: string, thread: string)

  datatype Evidence = Evidence(id: int, text: string)

  /** The notes on what a reader does not see; the gap text is these joined with "; ". */
  datatype Note = Coverage(text: string) | Partition

  datatype Thread = Thread(place: Place, gap: seq<Note>, evidence: seq<Evidence>)

  predicate Distinct(threads: seq<Thread>) {
    forall i, j :: 0 <= i < j < |threads| ==> threads[i].place != threads[j].place
  }

  // ---- Cutting texts -------------------------------------------------------

  /** One item in cuts of at most PIECE characters; an empty item is one empty piece. */
  function Cut(e: Evidence): (pieces: seq<Evidence>)
    ensures |pieces| > 0
    decreases |e.text|
  {
    if |e.text| <= PIECE then [e] else [e.(text := e.text[..PIECE])] + Cut(e.(text := e.text[PIECE..]))
  }

  function Pieces(evidence: seq<Evidence>): (pieces: seq<Evidence>)
    ensures pieces == [] <==> evidence == []
  {
    if evidence == [] then [] else Cut(evidence[0]) + Pieces(evidence[1..])
  }

  /** A thread with its evidence already cut up. */
  function Chop(t: Thread): Thread {
    t.(evidence := Pieces(t.evidence))
  }

  function ChopAll(threads: seq<Thread>): (r: seq<Thread>)
    ensures |r| == |threads|
    ensures forall i :: 0 <= i < |r| ==> r[i] == Chop(threads[i])
  {
    if threads == [] then [] else [Chop(threads[0])] + ChopAll(threads[1..])
  }

  // ---- The stream of pieces ------------------------------------------------

  /** What is handed over one at a time: a piece of a thread, or the bare thread when it has no evidence. */
  datatype Unit = Unit(place: Place, piece: Option<Evidence>)

  function Size(part: Thread): nat {
    if |part.evidence| == 0 then 1 else |part.evidence|
  }

  function PieceUnits(place: Place, pieces: seq<Evidence>): (units: seq<Unit>)
    ensures |units| == |pieces|
  {
    seq(|pieces|, i requires 0 <= i < |pieces| => Unit(place, Some(pieces[i])))
  }

  function PartUnits(part: Thread): (units: seq<Unit>)
    ensures |units| == Size(part)
  {
    if |part.evidence| == 0 then [Unit(part.place, None)] else PieceUnits(part.place, part.evidence)
  }

  function Total(batch: seq<Thread>): nat {
    if batch == [] then 0 else Size(batch[0]) + Total(batch[1..])
  }

  /** What a batch hands over, in order. */
  function BatchUnits(batch: seq<Thread>): (units: seq<Unit>)
    ensures |units| == Total(batch)
  {
    if batch == [] then [] else PartUnits(batch[0]) + BatchUnits(batch[1..])
  }

  /** All there is to hand over of these threads, in order. */
  function Stream(threads: seq<Thread>): seq<Unit> {
    BatchUnits(ChopAll(threads))
  }

  // ---- Taking a prefix of the stream ---------------------------------------

  /** The part of a cut thread that holds its first n pieces. */
  function Part(t: Thread, n: nat): Thread
    requires n <= |t.evidence|
  {
    Thread(t.place, t.gap + [Partition], t.evidence[..n])
  }

  /** The parts of the cut threads that hold their first k units. */
  function Taken(cut: seq<Thread>, k: nat): seq<Thread>
    requires k <= Total(cut)
  {
    if k == 0 then []
    else if k < Size(cut[0]) then [Part(cut[0], k)]
    else [Part(cut[0], |cut[0].evidence|)] + Taken(cut[1..], k - Size(cut[0]))
  }

  lemma PartHolds(t: Thread, n: nat)
    requires n <= |t.evidence| && (n == 0 ==> t.evidence == [])
    ensures PartUnits(Part(t, n)) == PartUnits(t)[..if n == 0 then 1 else n]
  {
  }

  /** A batch of the first k units hands over exactly these. */
  lemma {:induction false} TakenUnits(cut: seq<Thread>, k: nat)
    requires k <= Total(cut)
    ensures BatchUnits(Taken(cut, k)) == BatchUnits(cut)[..k]
  {
    if k > 0 {
      if k < Size(cut[0]) {
        PartHolds(cut[0], k);
        assert Taken(cut, k)[1..] == [];
      } else {
        PartHolds(cut[0], |cut[0].evidence|);
        TakenUnits(cut[1..], k - Size(cut[0]));
        assert Taken(cut, k)[1..] == Taken(cut[1..], k - Size(cut[0]));
      }
    }
  }

  // ---- The batcher ---------------------------------------------------------

  /** Appending one unit to the candidate: to its last part when that is of the same thread, else as a new part. */
  function Add(current: seq<Thread>, t: Thread, piece: Option<Evidence>): seq<Thread> {
    var more := if piece.Some? then [piece.value] else [];
    if current != [] && current[|current| - 1].place == t.place then
      current[..|current| - 1] + [current[|current| - 1].(evidence := current[|current| - 1].evidence + more)]
    else current + [Thread(t.place, t.gap + [Partition], more)]
  }

  predicate Accepted(candidate: seq<Thread>, fits: seq<Thread> -> bool) {
    |candidate| <= MAX_THREADS && fits(candidate)
  }

  /** Every batch on the way to the first k units was accepted. */
  ghost predicate AcceptedUpTo(cut: seq<Thread>, fits: seq<Thread> -> bool, k: nat)
    requires k <= Total(cut)
  {
    k == 0 || (AcceptedUpTo(cut, fits, k - 1) && Accepted(Taken(cut, k), fits))
  }

  /** The first point, from k on, at which the next unit is not accepted. */
  ghost function Longest(cut: seq<Thread>, fits: seq<Thread> -> bool, k: nat): (n: nat)
    requires k <= Total(cut)
    ensures k <= n <= Total(cut)
    decreases Total(cut) - k
  {
    if k < Total(cut) && Accepted(Taken(cut, k + 1), fits) then Longest(cut, fits, k + 1) else k
  }

  /** The batch cannot be extended by one more unit, and every batch on the way was accepted. */
  ghost predicate Greedy(cut: seq<Thread>, fits: seq<Thread> -> bool, k: nat) {
    && k <= Total(cut)
    && AcceptedUpTo(cut, fits, k)
    && (k < Total(cut) ==> !Accepted(Taken(cut, k + 1), fits))
  }

  /** The longest prefix is the only one that is accepted all the way and no further. */
  lemma {:induction false} LongestIsGreedy(cut: seq<Thread>, fits: seq<Thread> -> bool, k: nat)
    requires k <= Total(cut) && AcceptedUpTo(cut, fits, k)
    ensures Greedy(cut, fits, Longest(cut, fits, k))
    ensures forall n: nat :: n >= k && Greedy(cut, fits, n) ==> n == Longest(cut, fits, k)
    decreases Total(cut) - k
  {
    forall n: nat | n >= k && Greedy(cut, fits, n) ensures n > k ==> Accepted(Taken(cut, k + 1), fits) {
      if n > k { AcceptedBefore(cut, fits, n, k + 1); }
    }
    if k < Total(cut) && Accepted(Taken(cut, k + 1), fits) {
      LongestIsGreedy(cut, fits, k + 1);
    }
  }

  lemma {:induction false} AcceptedBefore(cut: seq<Thread>, fits: seq<Thread> -> bool, n: nat, k: nat)
    requires 0 < k <= n <= Total(cut) && AcceptedUpTo(cut, fits, n)
    ensures Accepted(Taken(cut, k), fits)
  {
    if k < n { AcceptedBefore(cut, fits, n - 1, k); }
  }

  /** A part that turned out whole gets its thread's own gap back. */
  function Regapped(part: Thread, original: Thread): Thread {
    if part.evidence == original.evidence then part.(gap := original.gap) else part
  }

  function FindThread(threads: seq<Thread>, place: Place): Option<Thread> {
    if threads == [] then None
    else if threads[0].place == place then Some(threads[0]) else FindThread(threads[1..], place)
  }

  function Regap(batch: seq<Thread>, threads: seq<Thread>): seq<Thread> {
    if batch == [] then []
    else
      var original := FindThread(threads, batch[0].place);
      [if original.Some? then Regapped(batch[0], original.value) else batch[0]] + Regap(batch[1..], threads)
  }

  datatype Batching = Batch(parts: seq<Thread>) | Oversized

  /** How many units come before thread i. */
  ghost function Offset(cut: seq<Thread>, i: nat): nat
    requires i <= |cut|
  {
    if i == 0 then 0 else Size(cut[0]) + Offset(cut[1..], i - 1)
  }

  lemma {:induction false} OffsetNext(cut: seq<Thread>, i: nat)
    requires i < |cut|
    ensures Offset(cut, i + 1) == Offset(cut, i) + Size(cut[i]) <= Total(cut)
  {
    if i > 0 { OffsetNext(cut[1..], i - 1); }
  }

  lemma {:induction false} OffsetAll(cut: seq<Thread>)
    ensures Offset(cut, |cut|) == Total(cut)
  {
    if cut != [] { OffsetAll(cut[1..]); }
  }

  function MaybePiece(t: Thread, p: nat): Option<Evidence>
    requires p < Size(t)
  {
    if |t.evidence| == 0 then None else Some(t.evidence[p])
  }

  lemma TakenEmpty(cut: seq<Thread>, k: nat)
    requires k <= Total(cut) && Taken(cut, k) == []
    ensures k == 0
  {
  }

  lemma TakenWithin(cut: seq<Thread>, p: nat)
    requires cut != [] && p < Size(cut[0])
    ensures Taken(cut, p + 1) == Add(Taken(cut, p), cut[0], MaybePiece(cut[0], p))
  {
    var t := cut[0];
    assert Taken(cut, p + 1) == [Part(t, if t.evidence == [] then 0 else p + 1)];
    if t.evidence == [] {
      assert t.evidence[..0] == [];
    } else if p == 0 {
      assert t.evidence[..1] == [t.evidence[0]];
    } else {
      assert t.evidence[..p + 1] == t.evidence[..p] + [t.evidence[p]];
      assert Taken(cut, p) == [Part(t, p)];
    }
  }

  lemma AddBehind(head: Thread, rest: seq<Thread>, t: Thread, piece: Option<Evidence>)
    requires rest == [] ==> head.place != t.place
    ensures Add([head] + rest, t, piece) == [head] + Add(rest, t, piece)
  {
  }

  lemma TakenBehind(cut: seq<Thread>, k: nat)
    requires cut != [] && Size(cut[0]) <= k <= Total(cut)
    ensures Taken(cut, k) == [Part(cut[0], |cut[0].evidence|)] + Taken(cut[1..], k - Size(cut[0]))
  {
  }

  lemma OffsetEmpty(cut: seq<Thread>, i: nat)
    requires i <= |cut| && Offset(cut, i) == 0
    ensures i == 0
  {
  }

  /** Extending the taken prefix of the tail extends that of the whole. */
  lemma TakenGrowsBehind(cut: seq<Thread>, k: nat, t: Thread, piece: Option<Evidence>)
    requires cut != [] && Size(cut[0]) <= k < Total(cut)
    requires Taken(cut[1..], k + 1 - Size(cut[0])) == Add(Taken(cut[1..], k - Size(cut[0])), t, piece)
    requires k == Size(cut[0]) ==> cut[0].place != t.place
    ensures Taken(cut, k + 1) == Add(Taken(cut, k), t, piece)
  {
    TakenBehind(cut, k);
    TakenBehind(cut, k + 1);
    if Taken(cut[1..], k - Size(cut[0])) == [] {
      TakenEmpty(cut[1..], k - Size(cut[0]));
    }
    AddBehind(Part(cut[0], |cut[0].evidence|), Taken(cut[1..], k - Size(cut[0])), t, piece);
  }

  /** One more unit of thread i extends the taken prefix as the batcher does. */
  lemma {:induction false} TakenGrows(cut: seq<Thread>, i: nat, p: nat, k: nat)
    requires i < |cut| && (i > 0 ==> cut[i - 1].place != cut[i].place)
    requires p < Size(cut[i]) && k == Offset(cut, i) + p < Total(cut)
    ensures Taken(cut, k + 1) == Add(Taken(cut, k), cut[i], MaybePiece(cut[i], p))
    decreases i
  {
    if i == 0 {
      TakenWithin(cut, p);
    } else {
      TakenGrows(cut[1..], i - 1, p, k - Size(cut[0]));
      if k == Size(cut[0]) {
        OffsetEmpty(cut[1..], i - 1);
      }
      TakenGrowsBehind(cut, k, cut[i], MaybePiece(cut[i], p));
    }
  }

  /** The candidate the batcher tries next. */
  method Candidate(threads: seq<Thread>, i: nat, pieces: seq<Evidence>, p: nat, current: seq<Thread>, ghost k: nat)
    returns (candidate: seq<Thread>)
    requires Distinct(threads) && i < |threads| && pieces == Pieces(threads[i].evidence)
    requires p < Size(ChopAll(threads)[i]) && k == Offset(ChopAll(threads), i) + p < Total(ChopAll(threads))
    requires current == Taken(ChopAll(threads), k)
    ensures candidate == Taken(ChopAll(threads), k + 1)
  {
    candidate := Add(current, threads[i], if |pieces| == 0 then None else Some(pieces[p]));
    TakenGrows(ChopAll(threads), i, p, k);
  }

  /** The pieces of one thread go into the batch until one of them does not. */
  method TakeThread(threads: seq<Thread>, i: nat, fits: seq<Thread> -> bool, current: seq<Thread>, ghost k: nat)
    returns (grown: seq<Thread>, stopped: bool, ghost n: nat)
    requires Distinct(threads) && i < |threads| && k == Offset(ChopAll(threads), i) <= Total(ChopAll(threads))
    requires current == Taken(ChopAll(threads), k) && AcceptedUpTo(ChopAll(threads), fits, k)
    ensures k <= n <= Total(ChopAll(threads))
    ensures grown == Taken(ChopAll(threads), n) && AcceptedUpTo(ChopAll(threads), fits, n)
    ensures stopped ==> n < Total(ChopAll(threads)) && !Accepted(Taken(ChopAll(threads), n + 1), fits)
    ensures !stopped ==> n == Offset(ChopAll(threads), i + 1) > k
  {
    OffsetNext(ChopAll(threads), i);
    grown, stopped, n := current, false, k;
    var pieces := Pieces(threads[i].evidence);
    var count := if |pieces| == 0 then 1 else |pieces|;
    for p := 0 to count
      invariant n == k + p
      invariant grown == Taken(ChopAll(threads), n)
      invariant AcceptedUpTo(ChopAll(threads), fits, n)
    {
      var candidate := Candidate(threads, i, pieces, p, grown, n);
      if |candidate| > MAX_THREADS || !fits(candidate) {
        return grown, true, n;
      }
      grown, n := candidate, n + 1;
    }
  }

  /**
   The batch: the longest prefix of the pieces that is accepted all the way, with whole parts given
   back their gap.
   */
  ghost function Batched(threads: seq<Thread>, fits: seq<Thread> -> bool): Batching {
    var k := Longest(ChopAll(threads), fits, 0);
    if k == 0 && threads != [] then Oversized else Batch(Regap(Taken(ChopAll(threads), k), threads))
  }

  method ExtractionBatch(threads: seq<Thread>, fits: seq<Thread> -> bool) returns (r: Batching)
    requires Distinct(threads)
    ensures r == Batched(threads, fits)
  {
    var current: seq<Thread> := [];
    ghost var k: nat := 0;
    ghost var cut := ChopAll(threads);
    LongestIsGreedy(cut, fits, 0);
    for i := 0 to |threads|
      invariant k == Offset(cut, i) <= Total(cut)
      invariant current == Taken(cut, k)
      invariant AcceptedUpTo(cut, fits, k)
      invariant i > 0 ==> k > 0
    {
      var stopped: bool;
      current, stopped, k := TakeThread(threads, i, fits, current, k);
      if stopped {
        assert Greedy(cut, fits, k);
        if |current| == 0 {
          TakenEmpty(cut, k);
          return Oversized;
        }
        return Batch(Regap(current, threads));
      }
    }
    OffsetAll(cut);
    assert Greedy(cut, fits, k);
    r := Batch(Regap(current, threads));
  }
}
