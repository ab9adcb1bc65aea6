/**
 The note that other context may appear in another part: which parts of a batch carry it, for
 every batch the batcher can return, and which part of a divided thread goes out without it.
 */
module PartitionNotes {
  import opened Common
  import opened Extraction
  import opened ExtractionRun

  // ---- Items that were not cut ---------------------------------------------

  predicate Uncut(evidence: seq<Evidence>) {
    forall i :: 0 <= i < |evidence| ==> |evidence[i].text| <= PIECE
  }

  lemma UncutHead(evidence: seq<Evidence>)
    requires evidence != []
    ensures Uncut(evidence) <==> |evidence[0].text| <= PIECE && Uncut(evidence[1..])
  {
  }

  /** The first n pieces are the items themselves exactly when they are all the pieces and none was cut. */
  lemma {:induction false} PrefixIsWhole(evidence: seq<Evidence>, n: nat)
    requires n <= |Pieces(evidence)|
    ensures Pieces(evidence)[..n] == evidence <==> n == |Pieces(evidence)| && Uncut(evidence)
    decreases |evidence|
  {
    if evidence != [] {
      var tail := evidence[1..];
      UncutHead(evidence);
      if |evidence[0].text| > PIECE {
        assert Pieces(evidence)[0].text == evidence[0].text[..PIECE];
        assert n > 0 ==> Pieces(evidence)[..n][0] != evidence[0];
      } else {
        assert Pieces(evidence) == [evidence[0]] + Pieces(tail);
        if n > 0 {
          PrefixIsWhole(tail, n - 1);
          assert Pieces(evidence)[..n] == [evidence[0]] + Pieces(tail)[..n - 1];
          assert evidence == [evidence[0]] + tail;
          assert Pieces(evidence)[..n][1..] == Pieces(tail)[..n - 1];
        }
      }
    }
  }

  // ---- The parts of a batch --------------------------------------------------

  /** How many pieces of thread i are among the first k units. */
  ghost function PiecesOf(cut: seq<Thread>, k: nat, i: nat): nat
    requires i < |cut| && Offset(cut, i) <= k
  {
    if Offset(cut, i) + Size(cut[i]) <= k then |cut[i].evidence| else k - Offset(cut, i)
  }

  lemma {:induction false} TakenAt(cut: seq<Thread>, k: nat, i: nat)
    requires k <= Total(cut) && i < |Taken(cut, k)|
    ensures i < |cut| && Offset(cut, i) < k && PiecesOf(cut, k, i) <= |cut[i].evidence|
    ensures Taken(cut, k)[i] == Part(cut[i], PiecesOf(cut, k, i))
    decreases i
  {
    if i > 0 { TakenAt(cut[1..], k - Size(cut[0]), i - 1); }
  }

  lemma {:induction false} FoundThread(threads: seq<Thread>, i: nat)
    requires Distinct(threads) && i < |threads|
    ensures FindThread(threads, threads[i].place) == Some(threads[i])
  {
    if i > 0 {
      DistinctHead(threads);
      assert threads[1..][i - 1] == threads[i];
      FoundThread(threads[1..], i - 1);
    }
  }

  lemma {:induction false} RegapAt(batch: seq<Thread>, threads: seq<Thread>, i: nat)
    requires i < |batch|
    ensures |Regap(batch, threads)| == |batch|
    ensures Regap(batch, threads)[i] ==
      var original := FindThread(threads, batch[i].place);
      if original.Some? then Regapped(batch[i], original.value) else batch[i]
    decreases i
  {
    RegapKeepsParts(batch, threads);
    if i > 0 { RegapAt(batch[1..], threads, i - 1); }
  }

  /** The batch takes all that is left of thread i. */
  ghost predicate TakesAllOf(threads: seq<Thread>, fits: seq<Thread> -> bool, i: nat)
    requires i < |threads|
  {
    Offset(ChopAll(threads), i + 1) <= Longest(ChopAll(threads), fits, 0)
  }

  /**
   In every batch, part i is of the i-th thread left, and goes out without the note exactly when
   the batch takes all that is left of that thread and none of its items had to be cut for it.
   */
  lemma PartitionNoteIff(threads: seq<Thread>, fits: seq<Thread> -> bool, i: nat)
    requires Distinct(threads) && Batched(threads, fits).Batch? && i < |Batched(threads, fits).parts|
    ensures i < |threads| && Batched(threads, fits).parts[i].place == threads[i].place
    ensures Batched(threads, fits).parts[i].gap ==
      if TakesAllOf(threads, fits, i) && Uncut(threads[i].evidence) then threads[i].gap
        else threads[i].gap + [Partition]
  {
    var cut := ChopAll(threads);
    var k := Longest(cut, fits, 0);
    var batch := Taken(cut, k);
    RegapKeepsParts(batch, threads);
    TakenAt(cut, k, i);
    OffsetNext(cut, i);
    FoundThread(threads, i);
    RegapAt(batch, threads, i);
    PrefixIsWhole(threads[i].evidence, PiecesOf(cut, k, i));
  }

  /**
   Of a thread divided over several batches, a later part goes out without the note exactly when
   it is the last one and the items left by then are short enough not to be cut: the comparison
   is with what is left of the thread, not with the thread.
   */
  lemma DividedNoteIff(t: Thread, n: nat, threads: seq<Thread>, fits: seq<Thread> -> bool, i: nat)
    requires 0 < n < |Pieces(t.evidence)| && i < |threads| && threads[i] == t.(evidence := Dropped(t.evidence, n))
    requires Distinct(threads) && Batched(threads, fits).Batch? && i < |Batched(threads, fits).parts|
    ensures Batched(threads, fits).parts[i].gap == t.gap
       <==> TakesAllOf(threads, fits, i) && Uncut(Dropped(t.evidence, n))
  {
    PartitionNoteIff(threads, fits, i);
  }

  // ---- A thread whose last part is unmarked --------------------------------------

  function Xs(n: nat): (s: string)
    ensures |s| == n
  {
    seq(n, (i: int) => 'x')
  }

  function LongThread(place: Place): Thread {
    Thread(place, [], [Evidence(0, Xs(PIECE + 1))])
  }

  predicate OnePiece(batch: seq<Thread>) {
    |batch| == 1 && |batch[0].evidence| <= 1
  }

  lemma LongPieces()
    ensures Pieces([Evidence(0, Xs(PIECE + 1))]) == [Evidence(0, Xs(PIECE)), Evidence(0, Xs(1))]
    ensures Dropped([Evidence(0, Xs(PIECE + 1))], 1) == [Evidence(0, Xs(1))]
  {
    var e := Evidence(0, Xs(PIECE + 1));
    assert e.text[..PIECE] == Xs(PIECE) && e.text[PIECE..] == Xs(1);
    assert [e][1..] == [];
    assert Cut(e) == [Evidence(0, Xs(PIECE))] + Cut(Evidence(0, Xs(1)));
  }

  /** Room for one piece at a time: one thread, one item, a character too long for one piece. */
  lemma LastPartIsUnmarked(place: Place)
    ensures var t, rest := LongThread(place), Thread(place, [], [Evidence(0, Xs(1))]);
      && Batched([t], OnePiece) == Batch([Thread(place, [Partition], [Evidence(0, Xs(PIECE))])])
      && Total(ChopAll([t])) == 2 && Rest([t], 1) == [rest]
      && Batched([rest], OnePiece) == Batch([rest])
  {
    LongPieces();
    var t, rest := LongThread(place), Thread(place, [], [Evidence(0, Xs(1))]);
    var cut := ChopAll([t]);
    assert cut == [Thread(place, [], [Evidence(0, Xs(PIECE)), Evidence(0, Xs(1))])];
    assert cut[1..] == [];
    var two := cut[0].evidence;
    assert two[..1] == [two[0]] && two[..2] == two;
    assert Part(cut[0], 1) == Thread(place, [Partition], [two[0]])
      && Part(cut[0], 2) == Thread(place, [Partition], two);
    assert Taken(cut, 1) == [Thread(place, [Partition], [Evidence(0, Xs(PIECE))])];
    assert Taken(cut, 2) == [Thread(place, [Partition], two)];
    assert Longest(cut, OnePiece, 1) == 1 && Longest(cut, OnePiece, 0) == 1;
    var whole := ChopAll([rest]);
    assert whole == [rest] by { assert [Evidence(0, Xs(1))][1..] == []; }
    assert whole[1..] == [];
    assert Taken(whole, 1) == [Thread(place, [Partition], [Evidence(0, Xs(1))])];
    assert Longest(whole, OnePiece, 1) == 1 && Longest(whole, OnePiece, 0) == 1;
    assert Regap(Taken(whole, 1), [rest]) == [rest] by { assert Taken(whole, 1)[1..] == []; }
    assert Regap(Taken(cut, 1), [t]) == Taken(cut, 1) by { assert Taken(cut, 1)[1..] == []; }
    assert Rest([t], 1) == [rest] by { assert [t][1..] == []; }
  }
}
