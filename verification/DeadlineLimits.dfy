/** Exactly when three probes answer as searching every instant would, and zones in which they do not. */
module DeadlineLimits {
  import opened Common
  import opened Deadline

  // ---- Exactly when the answer is right ----------------------------------------

  /** What searching every instant would answer: the only one of that wall time, if there is an only one. */
  ghost predicate Right(off: int -> int, wall: int) {
    forall t :: DeadlineAt(Some(wall), Some(off)) == Some(t) <==> NamesOnly(off, wall, t)
  }

  /** Offset o is in force at the instant the wall time would be under it. */
  predicate Fits(off: int -> int, wall: int, o: int) {
    -DAY < o < DAY && off(wall - o) == o
  }

  predicate Probed(off: int -> int, wall: int, o: int) {
    o == off(wall - DAY) || o == off(wall) || o == off(wall + DAY)
  }

  /** The offsets that fit tell the instants of the wall time, and the probed ones the matches. */
  lemma FittingOffsets(off: int -> int, wall: int, t: int)
    requires Bounded(off)
    ensures Renders(off, t, wall) <==> Fits(off, wall, wall - t)
    ensures t in Matches(off, wall) <==> Fits(off, wall, wall - t) && Probed(off, wall, wall - t)
  {
    assert -DAY < off(t) < DAY;
    assert wall - (wall - t) == t;
  }

  ghost predicate FitsAlone(off: int -> int, wall: int, o: int) {
    Fits(off, wall, o) && forall p :: Fits(off, wall, p) ==> p == o
  }

  ghost predicate OneFits(off: int -> int, wall: int) {
    exists o :: FitsAlone(off, wall, o)
  }

  /** Among the fitting offsets that are probed there is just one. */
  ghost predicate OneProbedFits(off: int -> int, wall: int) {
    exists o ::
      Fits(off, wall, o) && Probed(off, wall, o) && forall p :: Fits(off, wall, p) && Probed(off, wall, p) ==> p == o
  }

  lemma AnswersIffOneProbed(off: int -> int, wall: int)
    requires Bounded(off)
    ensures DeadlineAt(Some(wall), Some(off)).Some? <==> OneProbedFits(off, wall)
  {
    var matches := Matches(off, wall);
    if |matches| == 1 {
      var t := Only(matches);
      FittingOffsets(off, wall, t);
      forall p | Fits(off, wall, p) && Probed(off, wall, p) ensures p == wall - t {
        FittingOffsets(off, wall, wall - p);
        assert wall - p in matches;
      }
    }
    if OneProbedFits(off, wall) {
      var o :|
        Fits(off, wall, o) && Probed(off, wall, o) && forall p :: Fits(off, wall, p) && Probed(off, wall, p) ==> p == o;
      forall t ensures t in matches <==> t == wall - o { FittingOffsets(off, wall, t); }
      assert matches == {wall - o};
    }
  }

  lemma OnlyIsAlone(off: int -> int, wall: int, t: int)
    requires Bounded(off)
    ensures NamesOnly(off, wall, t) <==> FitsAlone(off, wall, wall - t)
  {
    FittingOffsets(off, wall, t);
    if NamesOnly(off, wall, t) {
      forall p | Fits(off, wall, p) ensures p == wall - t { FittingOffsets(off, wall, wall - p); }
    }
    if FitsAlone(off, wall, wall - t) {
      forall u | Renders(off, u, wall) ensures u == t { FittingOffsets(off, wall, u); }
    }
  }

  lemma NamesOnlyIffOneFits(off: int -> int, wall: int)
    requires Bounded(off)
    ensures (exists t :: NamesOnly(off, wall, t)) <==> OneFits(off, wall)
  {
    if t :| NamesOnly(off, wall, t) {
      OnlyIsAlone(off, wall, t);
    }
    if o :| FitsAlone(off, wall, o) {
      OnlyIsAlone(off, wall, wall - o);
      assert wall - (wall - o) == o;
    }
  }

  /** An answer is given although another instant, under an offset no probe sees, has the same wall time. */
  ghost predicate AnswersAmbiguous(off: int -> int, wall: int) {
    OneProbedFits(off, wall) && exists o :: Fits(off, wall, o) && !Probed(off, wall, o)
  }

  /** None is given although just one instant has the wall time, because no probe sees its offset. */
  ghost predicate MissesOnly(off: int -> int, wall: int) {
    OneFits(off, wall) && forall o :: Fits(off, wall, o) ==> !Probed(off, wall, o)
  }

  /** In every zone: the answer is what exhaustive search gives, but for exactly these two failures. */
  lemma RightIff(off: int -> int, wall: int)
    requires Bounded(off)
    ensures Right(off, wall) <==> !AnswersAmbiguous(off, wall) && !MissesOnly(off, wall)
  {
    AnswersIffOneProbed(off, wall);
    NamesOnlyIffOneFits(off, wall);
    if OneProbedFits(off, wall) {
      var o :|
        Fits(off, wall, o) && Probed(off, wall, o) && forall p :: Fits(off, wall, p) && Probed(off, wall, p) ==> p == o;
      FittingOffsets(off, wall, wall - o);
      var t := DeadlineAt(Some(wall), Some(off)).value;
      AnswerRenders(off, wall);
      assert t in Matches(off, wall);
      FittingOffsets(off, wall, t);
      assert t == wall - o;
      if AnswersAmbiguous(off, wall) {
        var p :| Fits(off, wall, p) && !Probed(off, wall, p);
        FittingOffsets(off, wall, wall - p);
        assert !NamesOnly(off, wall, t);
      } else {
        forall u | Renders(off, u, wall) ensures u == t { FittingOffsets(off, wall, u); }
        assert NamesOnly(off, wall, t);
      }
    } else if u :| NamesOnly(off, wall, u) {
      UnprobedOnly(off, wall);
      assert DeadlineAt(Some(wall), Some(off)) != Some(u);
    }
  }

  /** An only instant that is not answered has an offset no probe sees. */
  lemma UnprobedOnly(off: int -> int, wall: int)
    requires OneFits(off, wall) && !OneProbedFits(off, wall)
    ensures MissesOnly(off, wall)
  {
  }

  // ---- Zones with two transitions ------------------------------------------------

  /** The offset is a until first, then b until second, then c, over the two days around the wall time. */
  ghost predicate TwoTransitions(off: int -> int, wall: int, first: int, second: int, a: int, b: int, c: int) {
    && wall - DAY < first < second <= wall + DAY
    && forall t :: wall - DAY <= t <= wall + DAY ==> off(t) == if t < first then a else if t < second then b else c
  }

  lemma ThreeOffsets(off: int -> int, wall: int, first: int, second: int, a: int, b: int, c: int, o: int)
    requires Bounded(off) && TwoTransitions(off, wall, first, second, a, b, c)
    ensures Fits(off, wall, o) <==>
      (o == a && wall - a < first) || (o == b && first <= wall - b < second) || (o == c && second <= wall - c)
    ensures Probed(off, wall, o) <==> o == a || o == c || (o == b && first <= wall < second)
  {
    assert off(wall - DAY) == a && off(wall + DAY) == c && off(first) == b;
    assert -DAY < off(wall - DAY) < DAY && -DAY < off(wall + DAY) < DAY && -DAY < off(first) < DAY;
  }

  /**
   With two transitions the answer is wrong exactly when the wall time, read as universal time, is
   not between them, the offset between them is unlike both others, an instant between them has
   that wall time, and not both of the outer offsets give further instants.
   */
  lemma WrongBetweenTransitionsIff(off: int -> int, wall: int, first: int, second: int, a: int, b: int, c: int)
    requires Bounded(off) && TwoTransitions(off, wall, first, second, a, b, c)
    ensures !Right(off, wall) <==>
      && !(first <= wall < second) && b != a && b != c
      && first <= wall - b < second
      && !(a != c && wall - a < first && second <= wall - c)
  {
    RightIff(off, wall);
    forall o
      ensures Fits(off, wall, o) <==>
        (o == a && wall - a < first) || (o == b && first <= wall - b < second) || (o == c && second <= wall - c)
      ensures Probed(off, wall, o) <==> o == a || o == c || (o == b && first <= wall < second)
    {
      ThreeOffsets(off, wall, first, second, a, b, c, o);
    }
    var hidden := !(first <= wall < second) && b != a && b != c && first <= wall - b < second;
    assert hidden <==> exists o :: Fits(off, wall, o) && !Probed(off, wall, o) by {
      if hidden { assert Fits(off, wall, b) && !Probed(off, wall, b); }
    }
    if hidden {
      assert Fits(off, wall, b) && !Probed(off, wall, b);
      if wall - a < first { assert Fits(off, wall, a) && Probed(off, wall, a); }
      if second <= wall - c { assert Fits(off, wall, c) && Probed(off, wall, c); }
      if !(wall - a < first) && !(second <= wall - c) { assert FitsAlone(off, wall, b); }
    }
  }

  /** An hour ahead, for an hour and a half, and back again. */
  function Flicker(t: int): int {
    if -7200 <= t < -1800 then 3600 else 0
  }

  /** Two transitions within a day escape the probes: a wall time shown twice is answered as if shown once. */
  lemma TwoTransitionsEscape()
    ensures Bounded(Flicker)
    ensures DeadlineAt(Some(0), Some(Flicker)) == Some(0)
    ensures Renders(Flicker, -3600, 0) && !NamesOnly(Flicker, 0, 0) && AnswersAmbiguous(Flicker, 0)
  {
    assert Candidates(Flicker, 0) == {0};
    assert Matches(Flicker, 0) == {0};
    assert Renders(Flicker, -3600, 0);
    assert Fits(Flicker, 0, 0) && Probed(Flicker, 0, 0);
    assert Fits(Flicker, 0, 3600) && !Probed(Flicker, 0, 3600);
  }

  /** Two hours behind, then one hour behind for a while, then two hours ahead. */
  function Leap(t: int): int {
    if t < 1000 then -7200 else if t < 5000 then -3600 else 7200
  }

  lemma LeapFits(o: int)
    ensures Fits(Leap, 0, o) <==> o == -3600
    ensures Probed(Leap, 0, o) <==> o == -7200 || o == 7200
  {
    var t := 0 - o;
    assert Leap(t) == if t < 1000 then -7200 else if t < 5000 then -3600 else 7200;
  }

  /** Or a wall time shown just once is not answered. */
  lemma OnlyInstantMissed()
    ensures Bounded(Leap)
    ensures DeadlineAt(Some(0), Some(Leap)) == None
    ensures NamesOnly(Leap, 0, 3600) && MissesOnly(Leap, 0)
  {
    forall o
      ensures Fits(Leap, 0, o) <==> o == -3600
      ensures Probed(Leap, 0, o) <==> o == -7200 || o == 7200
    {
      LeapFits(o);
    }
    assert FitsAlone(Leap, 0, -3600);
    OnlyIsAlone(Leap, 0, 3600);
    AnswersIffOneProbed(Leap, 0);
  }
}
