/**
 From a local wall-clock time to the one instant it names. Times are whole seconds; a zone is the
 offset of its local time from universal time at each instant, so an instant renders as itself
 plus its offset. How a calendar date is read and written is not part of this model.
 */
module Deadline {
  import opened Common

  const DAY := 86400

  /** An offset is always less than a day. */
  ghost predicate Bounded(off: int -> int) {
    forall t :: -86_400 < off(t) < 86_400
  }

  /** Instant t renders as this wall time. */
  predicate Renders(off: int -> int, t: int, wall: int) {
    t + off(t) == wall
  }

  /** The instants the wall time would be under the offsets in force a day before, at, and a day after it. */
  function Candidates(off: int -> int, wall: int): set<int> {
    {wall - off(wall - DAY), wall - off(wall), wall - off(wall + DAY)}
  }

  function Matches(off: int -> int, wall: int): set<int> {
    set t | t in Candidates(off, wall) && Renders(off, t, wall)
  }

  /**
   The source's answer. No wall time stands for a date or time that does not exist, no zone for
   a zone name that is not known.
   */
  function DeadlineAt(wall: Option<int>, zone: Option<int -> int>): Option<int> {
    if wall.None? || zone.None? then None
    else
      var matches := Matches(zone.value, wall.value);
      if |matches| == 1 then Some(Only(matches)) else None
  }

  function Only(s: set<int>): (x: int)
    requires |s| == 1
    ensures s == {x}
  {
    OneElement(s);
    var x :| s == {x};
    x
  }

  lemma SomeElement(s: set<int>)
    ensures s == {} || exists x :: x in s
  {
    if forall x :: x !in s { assert s == {}; }
  }

  lemma OneElement(s: set<int>)
    requires |s| == 1
    ensures exists x :: s == {x}
  {
    SomeElement(s);
    var x :| x in s;
    assert |s - {x}| == 0;
    assert s == {x};
  }

  // ---- Three probes and exhaustive search ----------------------------------

  /** Every instant that renders as the wall time has an offset that one of the probes sees. */
  ghost predicate ProbesSee(off: int -> int, wall: int) {
    forall t :: Renders(off, t, wall) ==> off(t) in {off(wall - 86_400), off(wall), off(wall + 86_400)}
  }

  /** The matches are all the instants of that wall time exactly when the probes see all their offsets. */
  lemma MatchesAreAll(off: int -> int, wall: int)
    ensures (forall t :: t in Matches(off, wall) <==> Renders(off, t, wall)) <==> ProbesSee(off, wall)
  {
    if ProbesSee(off, wall) {
      forall t ensures t in Matches(off, wall) <==> Renders(off, t, wall) {
        if Renders(off, t, wall) { assert t == wall - off(t); }
      }
    }
    if forall t :: t in Matches(off, wall) <==> Renders(off, t, wall) {
      forall t | Renders(off, t, wall) ensures off(t) in {off(wall - DAY), off(wall), off(wall + DAY)} {
        assert t in Candidates(off, wall);
      }
    }
  }

  ghost predicate NamesOnly(off: int -> int, wall: int, t: int) {
    Renders(off, t, wall) && forall u :: Renders(off, u, wall) ==> u == t
  }

  ghost predicate NamesNothing(off: int -> int, wall: int) {
    forall t :: !Renders(off, t, wall)
  }

  ghost predicate NamesSeveral(off: int -> int, wall: int) {
    exists t, u :: t != u && Renders(off, t, wall) && Renders(off, u, wall)
  }

  /** Whatever the zone does, an instant that is returned renders as the wall time. */
  lemma AnswerRenders(off: int -> int, wall: int)
    ensures DeadlineAt(Some(wall), Some(off)).Some? ==> Renders(off, DeadlineAt(Some(wall), Some(off)).value, wall)
  {
    if DeadlineAt(Some(wall), Some(off)).Some? {
      assert DeadlineAt(Some(wall), Some(off)).value in Matches(off, wall);
    }
  }

  /**
   Where the probes see enough, the answer is the only instant of that wall time, or none when there
   is no only one.
   */
  lemma ProbesDecide(off: int -> int, wall: int)
    requires ProbesSee(off, wall)
    ensures forall t :: DeadlineAt(Some(wall), Some(off)) == Some(t) <==> NamesOnly(off, wall, t)
    ensures DeadlineAt(Some(wall), Some(off)) == None <==> NamesNothing(off, wall) || NamesSeveral(off, wall)
  {
    MatchesAreAll(off, wall);
    var matches := Matches(off, wall);
    forall t ensures DeadlineAt(Some(wall), Some(off)) == Some(t) <==> NamesOnly(off, wall, t) {
      if NamesOnly(off, wall, t) {
        assert matches == {t};
      }
      if DeadlineAt(Some(wall), Some(off)) == Some(t) {
        assert matches == {t};
        forall u | Renders(off, u, wall) ensures u == t { assert u in matches; }
      }
    }
    if |matches| == 1 {
      var t := Only(matches);
      assert DeadlineAt(Some(wall), Some(off)) == Some(t);
    } else {
      if matches != {} {
        var t :| t in matches;
        var others := matches - {t};
        assert matches == others + {t};
        var u :| u in others;
        assert Renders(off, t, wall) && Renders(off, u, wall);
      } else {
        forall t ensures !Renders(off, t, wall) { assert t !in matches; }
      }
    }
  }

  // ---- Zones with one transition around the wall time ----------------------

  /** In the two days around the wall time the offset changes at most once, at instant at. */
  ghost predicate OneTransition(off: int -> int, wall: int, at: int, before: int, after: int) {
    forall t :: wall - DAY <= t <= wall + DAY ==> off(t) == if t < at then before else after
  }

  lemma RendersNearby(off: int -> int, wall: int, t: int)
    requires Bounded(off) && Renders(off, t, wall)
    ensures wall - DAY < t < wall + DAY
  {
    assert -DAY < off(t) < DAY;
  }

  lemma OneTransitionIsSeen(off: int -> int, wall: int, at: int, before: int, after: int)
    requires Bounded(off) && OneTransition(off, wall, at, before, after)
    ensures ProbesSee(off, wall)
  {
    forall t | Renders(off, t, wall) ensures off(t) in {off(wall - DAY), off(wall), off(wall + DAY)} {
      RendersNearby(off, wall, t);
      if t < at {
        assert off(wall - DAY) == before == off(t);
      } else {
        assert off(wall + DAY) == after == off(t);
      }
    }
  }

  /** With at most one transition about, three probes do what searching every instant would. */
  lemma ThreeProbesSuffice(off: int -> int, wall: int, at: int, before: int, after: int)
    requires Bounded(off) && OneTransition(off, wall, at, before, after)
    ensures forall t :: DeadlineAt(Some(wall), Some(off)) == Some(t) <==> NamesOnly(off, wall, t)
    ensures DeadlineAt(Some(wall), Some(off)) == None <==> NamesNothing(off, wall) || NamesSeveral(off, wall)
  {
    OneTransitionIsSeen(off, wall, at, before, after);
    ProbesDecide(off, wall);
  }

  lemma InstantsAround(off: int -> int, wall: int, at: int, before: int, after: int, t: int)
    requires Bounded(off) && OneTransition(off, wall, at, before, after)
    requires wall - DAY < at <= wall + DAY
    ensures Renders(off, t, wall) <==> (t == wall - before && t < at) || (t == wall - after && t >= at)
  {
    assert -DAY < off(wall - DAY) < DAY && -DAY < off(wall + DAY) < DAY;
    assert off(wall - DAY) == before && off(wall + DAY) == after;
    if Renders(off, t, wall) { RendersNearby(off, wall, t); }
  }

  /** Wall times skipped by the clock are refused, wall times shown twice are refused, and all others are found. */
  lemma GapAndFoldAreRefused(off: int -> int, wall: int, at: int, before: int, after: int)
    requires Bounded(off) && OneTransition(off, wall, at, before, after)
    requires wall - DAY < at <= wall + DAY
    ensures DeadlineAt(Some(wall), Some(off)) ==
      if at + before <= wall < at + after then None
      else if at + after <= wall < at + before then None
      else if wall < at + before then Some(wall - before)
      else Some(wall - after)
  {
    ThreeProbesSuffice(off, wall, at, before, after);
    forall t ensures Renders(off, t, wall) <==> (t == wall - before && t < at) || (t == wall - after && t >= at) {
      InstantsAround(off, wall, at, before, after, t);
    }
    if at + after <= wall < at + before {
      assert Renders(off, wall - before, wall) && Renders(off, wall - after, wall);
      assert NamesSeveral(off, wall);
    } else if !(at + before <= wall < at + after) {
      assert NamesOnly(off, wall, if wall < at + before then wall - before else wall - after);
    }
  }
}
