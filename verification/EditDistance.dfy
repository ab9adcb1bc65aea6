/**
 The trace-back check of memory housekeeping: a two-row edit distance over arrays, proved to be
 the least number of single-character edits, and the filter that keeps only bullets close to
 some input. A char stands for one UTF-16 code unit.
 */
module EditDistance {

  function Min(x: nat, y: nat): nat {
    if x < y then x else y
  }

  function Cost(a: char, b: char): nat {
    if a == b then 0 else 1
  }

  /** The recurrence on the last characters. */
  function Distance(a: string, b: string): nat
    decreases |a| + |b|
  {
    if a == [] then |b|
    else if b == [] then |a|
    else
      var a', b' := a[..|a| - 1], b[..|b| - 1];
      Min(Min(Distance(a, b') + 1, Distance(a', b) + 1), Distance(a', b') + Cost(a[|a| - 1], b[|b| - 1]))
  }

  // ---- The two-row computation ---------------------------------------------

  /** The same recurrence by lengths of prefixes. */
  function Table(a: string, b: string, i: nat, j: nat): nat
    requires i <= |a| && j <= |b|
    decreases i + j
  {
    if i == 0 then j
    else if j == 0 then i
    else Min(Min(Table(a, b, i, j - 1) + 1, Table(a, b, i - 1, j) + 1),
             Table(a, b, i - 1, j - 1) + Cost(a[i - 1], b[j - 1]))
  }

  /** One cell of the recurrence, for texts that end in these characters. */
  lemma DistanceOfEnds(p: string, x: char, q: string, y: char)
    ensures Distance(p + [x], q + [y])
         == Min(Min(Distance(p + [x], q) + 1, Distance(p, q + [y]) + 1), Distance(p, q) + Cost(x, y))
  {
    var a, b := p + [x], q + [y];
    assert a[..|a| - 1] == p && b[..|b| - 1] == q;
    assert a[|a| - 1] == x && b[|b| - 1] == y;
  }

  lemma PrefixEnds(a: string, i: nat)
    requires 0 < i <= |a|
    ensures a[..i] == a[..i - 1] + [a[i - 1]]
  {
  }

  /** Every cell of the table is the distance of the two prefixes. */
  lemma {:induction false} TableIsDistance(a: string, b: string, i: nat, j: nat)
    requires i <= |a| && j <= |b|
    ensures Table(a, b, i, j) == Distance(a[..i], b[..j])
    decreases i + j
  {
    if i > 0 && j > 0 {
      TableIsDistance(a, b, i, j - 1);
      TableIsDistance(a, b, i - 1, j);
      TableIsDistance(a, b, i - 1, j - 1);
      PrefixEnds(a, i);
      PrefixEnds(b, j);
      DistanceOfEnds(a[..i - 1], a[i - 1], b[..j - 1], b[j - 1]);
    }
  }

  ghost predicate RowIs(row: array<nat>, a: string, b: string, i: nat, n: int)
    reads row
    requires i <= |a| && n <= row.Length == |b| + 1
  {
    forall j {:trigger row[j]} :: 0 <= j < n ==> row[j] == Table(a, b, i, j)
  }

  /** One row from the row above it. */
  method FillRow(a: string, b: string, i: nat, prev: array<nat>, curr: array<nat>)
    requires 0 < i <= |a| && prev != curr && prev.Length == curr.Length == |b| + 1
    requires RowIs(prev, a, b, i - 1, |b| + 1)
    modifies curr
    ensures RowIs(curr, a, b, i, |b| + 1)
  {
    curr[0] := i;
    for j := 1 to |b| + 1
      invariant RowIs(curr, a, b, i, j)
    {
      var cost := if a[i - 1] == b[j - 1] then 0 else 1;
      curr[j] := Min(Min(curr[j - 1] + 1, prev[j] + 1), prev[j - 1] + cost);
    }
  }

  /** The row computed becomes the row above the next. */
  method CopyRow(ghost a: string, ghost b: string, ghost i: nat, curr: array<nat>, prev: array<nat>)
    requires i <= |a| && prev != curr && prev.Length == curr.Length == |b| + 1
    requires RowIs(curr, a, b, i, |b| + 1)
    modifies prev
    ensures RowIs(prev, a, b, i, |b| + 1)
  {
    for j := 0 to prev.Length
      invariant RowIs(curr, a, b, i, |b| + 1)
      invariant RowIs(prev, a, b, i, j)
    {
      prev[j] := curr[j];
    }
  }

  method Levenshtein(a: string, b: string) returns (d: nat)
    ensures d == Distance(a, b)
  {
    if a == b {
      EqualIsZero(a);
      return 0;
    }
    if |a| == 0 { return |b|; }
    if |b| == 0 { return |a|; }
    var prev := new nat[|b| + 1];
    var curr := new nat[|b| + 1];
    for j := 0 to |b| + 1
      invariant RowIs(prev, a, b, 0, j)
    {
      prev[j] := j;
    }
    for i := 1 to |a| + 1
      invariant RowIs(prev, a, b, i - 1, |b| + 1)
    {
      FillRow(a, b, i, prev, curr);
      CopyRow(a, b, i, curr, prev);
    }
    TableIsDistance(a, b, |a|, |b|);
    assert a[..|a|] == a && b[..|b|] == b;
    d := prev[|b|];
  }

  // ---- The distance is a metric --------------------------------------------

  lemma {:induction false} EqualIsZero(a: string)
    ensures Distance(a, a) == 0
  {
    if a != [] { EqualIsZero(a[..|a| - 1]); }
  }

  lemma {:induction false} ZeroIsEqual(a: string, b: string)
    requires Distance(a, b) == 0
    ensures a == b
  {
    if a != [] && b != [] {
      ZeroIsEqual(a[..|a| - 1], b[..|b| - 1]);
      assert a == a[..|a| - 1] + [a[|a| - 1]] && b == b[..|b| - 1] + [b[|b| - 1]];
    }
  }

  lemma {:induction false} Symmetric(a: string, b: string)
    ensures Distance(a, b) == Distance(b, a)
    decreases |a| + |b|
  {
    if a != [] && b != [] {
      var a', b' := a[..|a| - 1], b[..|b| - 1];
      Symmetric(a, b');
      Symmetric(a', b);
      Symmetric(a', b');
    }
  }

  /** At least the difference in length, at most the longer length. */
  lemma {:induction false} LengthBounds(a: string, b: string)
    ensures |a| - |b| <= Distance(a, b) && |b| - |a| <= Distance(a, b)
    ensures Distance(a, b) <= |a| || Distance(a, b) <= |b|
    decreases |a| + |b|
  {
    if a != [] && b != [] {
      var a', b' := a[..|a| - 1], b[..|b| - 1];
      LengthBounds(a, b');
      LengthBounds(a', b);
      LengthBounds(a', b');
    }
  }

  lemma {:induction false} Triangle(a: string, b: string, c: string)
    ensures Distance(a, c) <= Distance(a, b) + Distance(b, c)
    decreases |a| + |b| + |c|
  {
    if a == [] || c == [] {
      LengthBounds(a, b);
      LengthBounds(b, c);
    } else if b == [] {
      LengthBounds(a, c);
    } else {
      var a', b', c' := a[..|a| - 1], b[..|b| - 1], c[..|c| - 1];
      Triangle(a', b, c);
      Triangle(a, b, c');
      Triangle(a, b', c);
      Triangle(a, b', c');
      Triangle(a', b', c);
      Triangle(a', b', c');
    }
  }

  // ---- The distance is the least number of edits ---------------------------

  /** One character inserted, deleted or replaced at position i. */
  predicate EditAt(s: string, t: string, i: int) {
    0 <= i &&
    ((i < |t| && |t| == |s| + 1 && s == t[..i] + t[i + 1..])
     || (i < |s| && |s| == |t| + 1 && t == s[..i] + s[i + 1..])
     || (i < |s| && |s| == |t| && s[..i] == t[..i] && s[i + 1..] == t[i + 1..]))
  }

  ghost predicate OneEdit(s: string, t: string) {
    exists i :: EditAt(s, t, i)
  }

  /** A run of strings in which each comes from the one before by one edit. */
  ghost predicate EditPath(path: seq<string>, a: string, b: string) {
    && path != [] && path[0] == a && path[|path| - 1] == b
    && forall i :: 0 <= i < |path| - 1 ==> OneEdit(path[i], path[i + 1])
  }

  lemma {:induction false} SharedSuffix(a: string, b: string, z: string)
    ensures Distance(a + z, b + z) <= Distance(a, b)
  {
    if z == [] {
      assert a + z == a && b + z == b;
    } else {
      var z' := z[..|z| - 1];
      SharedSuffix(a, b, z');
      assert (a + z)[..|a + z| - 1] == a + z' && (b + z)[..|b + z| - 1] == b + z';
    }
  }

  lemma InsertCosts(p: string, c: char, z: string)
    ensures Distance(p + z, p + [c] + z) <= 1 && Distance(p + [c] + z, p + z) <= 1
  {
    EqualIsZero(p);
    assert (p + [c])[..|p|] == p;
    SharedSuffix(p, p + [c], z);
    SharedSuffix(p + [c], p, z);
  }

  lemma ReplaceCosts(p: string, c: char, d: char, z: string)
    ensures Distance(p + [c] + z, p + [d] + z) <= 1
  {
    EqualIsZero(p);
    assert (p + [c])[..|p|] == p && (p + [d])[..|p|] == p;
    SharedSuffix(p + [c], p + [d], z);
  }

  lemma SplitAt(s: string, i: nat)
    requires i < |s|
    ensures s == s[..i] + [s[i]] + s[i + 1..]
  {
  }

  lemma OneEditCosts(s: string, t: string)
    requires OneEdit(s, t)
    ensures Distance(s, t) <= 1
  {
    var i :| EditAt(s, t, i);
    if |t| == |s| + 1 {
      SplitAt(t, i);
      InsertCosts(t[..i], t[i], t[i + 1..]);
    } else {
      SplitAt(s, i);
      if |s| == |t| + 1 {
        InsertCosts(s[..i], s[i], s[i + 1..]);
      } else {
        SplitAt(t, i);
        ReplaceCosts(s[..i], s[i], t[i], s[i + 1..]);
      }
    }
  }

  /** No run of edits is shorter than the distance. */
  lemma {:induction false} PathIsNoShorter(path: seq<string>, a: string, b: string)
    requires EditPath(path, a, b)
    ensures Distance(a, b) <= |path| - 1
    decreases |path|
  {
    if |path| == 1 {
      EqualIsZero(a);
    } else {
      var tail := path[1..];
      forall i | 0 <= i < |tail| - 1 ensures OneEdit(tail[i], tail[i + 1]) {
        assert OneEdit(path[i + 1], path[i + 2]);
      }
      assert OneEdit(path[0], path[1]);
      PathIsNoShorter(tail, path[1], b);
      OneEditCosts(a, path[1]);
      Triangle(a, path[1], b);
    }
  }

  lemma Extend(path: seq<string>, a: string, b: string, next: string)
    requires EditPath(path, a, b) && OneEdit(b, next)
    ensures EditPath(path + [next], a, next)
  {
  }

  lemma Prepend(path: seq<string>, a: string, b: string, before: string)
    requires EditPath(path, a, b) && OneEdit(before, a)
    ensures EditPath([before] + path, before, b)
  {
  }

  /** The same run with a character appended to every string. */
  function Appended(path: seq<string>, c: char): (r: seq<string>)
    ensures |r| == |path|
    ensures forall i :: 0 <= i < |path| ==> r[i] == path[i] + [c]
  {
    if path == [] then [] else [path[0] + [c]] + Appended(path[1..], c)
  }

  lemma AppendedEdit(s: string, t: string, c: char)
    requires OneEdit(s, t)
    ensures OneEdit(s + [c], t + [c])
  {
    var i :| EditAt(s, t, i);
    var s', t' := s + [c], t + [c];
    if |t| == |s| + 1 {
      assert t'[..i] == t[..i] && t'[i + 1..] == t[i + 1..] + [c];
    } else if |s| == |t| + 1 {
      assert s'[..i] == s[..i] && s'[i + 1..] == s[i + 1..] + [c];
    } else {
      assert s'[..i] == s[..i] && s'[i + 1..] == s[i + 1..] + [c];
      assert t'[..i] == t[..i] && t'[i + 1..] == t[i + 1..] + [c];
    }
    assert EditAt(s', t', i);
  }

  lemma AppendedPath(path: seq<string>, a: string, b: string, c: char)
    requires EditPath(path, a, b)
    ensures EditPath(Appended(path, c), a + [c], b + [c])
  {
    var r := Appended(path, c);
    forall i | 0 <= i < |r| - 1 ensures OneEdit(r[i], r[i + 1]) {
      AppendedEdit(path[i], path[i + 1], c);
    }
  }

  lemma DeleteLast(a: string)
    requires a != []
    ensures OneEdit(a, a[..|a| - 1]) && OneEdit(a[..|a| - 1], a)
  {
    assert EditAt(a, a[..|a| - 1], |a| - 1) && EditAt(a[..|a| - 1], a, |a| - 1);
  }

  /**
   A run between two beginnings becomes one between the whole strings, with one more edit if their
   last characters differ.
   */
  lemma WithLast(short: seq<string>, a: string, b: string, x: char, y: char) returns (path: seq<string>)
    requires EditPath(short, a, b)
    ensures EditPath(path, a + [x], b + [y]) && |path| == |short| + Cost(x, y)
  {
    AppendedPath(short, a, b, x);
    path := Appended(short, x);
    if x != y {
      assert EditAt(b + [x], b + [y], |b|);
      Extend(path, a + [x], b + [x], b + [y]);
      path := path + [b + [y]];
    }
  }

  /** And some run of edits is exactly that long. */
  lemma {:induction false} ShortestPath(a: string, b: string) returns (path: seq<string>)
    ensures EditPath(path, a, b) && |path| == Distance(a, b) + 1
    decreases |a| + |b|
  {
    if a == [] && b == [] {
      path := [a];
    } else if b != [] && Distance(a, b) == Distance(a, b[..|b| - 1]) + 1 {
      path := ShortestPath(a, b[..|b| - 1]);
      DeleteLast(b);
      Extend(path, a, b[..|b| - 1], b);
      path := path + [b];
    } else if a != [] && Distance(a, b) == Distance(a[..|a| - 1], b) + 1 {
      path := ShortestPath(a[..|a| - 1], b);
      DeleteLast(a);
      Prepend(path, a[..|a| - 1], b, a);
      path := [a] + path;
    } else {
      var short := ShortestPath(a[..|a| - 1], b[..|b| - 1]);
      path := WithLast(short, a[..|a| - 1], b[..|b| - 1], a[|a| - 1], b[|b| - 1]);
      assert a == a[..|a| - 1] + [a[|a| - 1]] && b == b[..|b| - 1] + [b[|b| - 1]];
    }
  }

  // ---- The trace-back filter -----------------------------------------------

  function Longer(a: string, b: string): nat {
    if |a| < |b| then |b| else |a|
  }

  /** Distance over the longer length, at most the threshold 0.4. */
  predicate Near(a: string, b: string) {
    5 * Distance(a, b) <= 2 * Longer(a, b)
  }

  ghost predicate Traced(inputs: seq<string>, bullet: string, normal: string -> string) {
    exists i :: 0 <= i < |inputs| && Near(normal(inputs[i]), normal(bullet))
  }

  /** The source compares normalised texts; the normaliser is whatever function it is. */
  method TraceBack(inputs: seq<string>, bullet: string, normal: string -> string) returns (traced: bool)
    ensures traced <==> Traced(inputs, bullet, normal)
  {
    for i := 0 to |inputs|
      invariant forall k :: 0 <= k < i ==> !Near(normal(inputs[k]), normal(bullet))
    {
      var known := normal(inputs[i]);
      if known == normal(bullet) {
        EqualIsZero(known);
        return true;
      }
      var longer := Longer(known, normal(bullet));
      var d := Levenshtein(known, normal(bullet));
      if longer == 0 || 5 * d <= 2 * longer {
        return true;
      }
    }
    traced := false;
  }

  ghost function Kept(inputs: seq<string>, outputs: seq<string>, normal: string -> string, traced: bool): seq<string> {
    if outputs == [] then []
    else
      var rest := Kept(inputs, outputs[..|outputs| - 1], normal, traced);
      if Traced(inputs, outputs[|outputs| - 1], normal) == traced then rest + [outputs[|outputs| - 1]] else rest
  }

  method ValidateTraceBack(inputs: seq<string>, outputs: seq<string>, normal: string -> string)
    returns (accepted: seq<string>, rejected: seq<string>)
    ensures accepted == Kept(inputs, outputs, normal, true) && rejected == Kept(inputs, outputs, normal, false)
  {
    accepted, rejected := [], [];
    for i := 0 to |outputs|
      invariant accepted == Kept(inputs, outputs[..i], normal, true)
      invariant rejected == Kept(inputs, outputs[..i], normal, false)
    {
      assert outputs[..i + 1][..i] == outputs[..i];
      var traced := TraceBack(inputs, outputs[i], normal);
      if traced {
        accepted := accepted + [outputs[i]];
      } else {
        rejected := rejected + [outputs[i]];
      }
    }
    assert outputs[..|outputs|] == outputs;
  }

  /** Each output goes to exactly one side, as often as it was given. */
  lemma {:induction false} NothingLostOrInvented(inputs: seq<string>, outputs: seq<string>, normal: string -> string)
    ensures multiset(outputs) == multiset(Kept(inputs, outputs, normal, true))
      + multiset(Kept(inputs, outputs, normal, false))
    ensures forall x :: x in Kept(inputs, outputs, normal, true) ==> Traced(inputs, x, normal)
    ensures forall x :: x in Kept(inputs, outputs, normal, false) ==> !Traced(inputs, x, normal)
  {
    if outputs != [] {
      NothingLostOrInvented(inputs, outputs[..|outputs| - 1], normal);
      assert outputs == outputs[..|outputs| - 1] + [outputs[|outputs| - 1]];
    }
  }

  /** In the order in which they were given. */
  lemma {:induction false} KeptInOrder(inputs: seq<string>, first: seq<string>, later: seq<string>,
      normal: string -> string, traced: bool)
    ensures Kept(inputs, first + later, normal, traced)
         == Kept(inputs, first, normal, traced) + Kept(inputs, later, normal, traced)
    decreases |later|
  {
    if later == [] {
      assert first + later == first;
    } else {
      var rest, last := later[..|later| - 1], later[|later| - 1];
      KeptInOrder(inputs, first, rest, normal, traced);
      assert (first + later)[..|first + later| - 1] == first + rest && (first + later)[|first + later| - 1] == last;
    }
  }

  /** A run of few edits leads from an input to the bullet. */
  ghost predicate FewEdits(input: string, bullet: string, path: seq<string>) {
    EditPath(path, input, bullet) && 5 * (|path| - 1) <= 2 * Longer(input, bullet)
  }

  /** An accepted bullet can be reached from some input by few edits; a rejected one from none. */
  lemma TracedByEdits(inputs: seq<string>, bullet: string, normal: string -> string)
    ensures Traced(inputs, bullet, normal)
       <==> exists i, path :: 0 <= i < |inputs| && FewEdits(normal(inputs[i]), normal(bullet), path)
  {
    if Traced(inputs, bullet, normal) {
      var i :| 0 <= i < |inputs| && Near(normal(inputs[i]), normal(bullet));
      var path := ShortestPath(normal(inputs[i]), normal(bullet));
      assert FewEdits(normal(inputs[i]), normal(bullet), path);
    }
    if i, path :| 0 <= i < |inputs| && FewEdits(normal(inputs[i]), normal(bullet), path) {
      PathIsNoShorter(path, normal(inputs[i]), normal(bullet));
      assert Near(normal(inputs[i]), normal(bullet));
    }
  }
}
