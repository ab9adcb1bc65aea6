/**
 The canonical text of a tool call's arguments, over which an approval's digest is taken:
 keys sorted at every depth, so that exactly the calls that mean the same print alike.
 */
module Canonical {
  import opened JsonText

  const COMMA: Unit := 44
  const COLON: Unit := 58
  const OPEN_LIST: Unit := 91
  const CLOSE_LIST: Unit := 93
  const OPEN_OBJECT: Unit := 123
  const CLOSE_OBJECT: Unit := 125

  const NULL_TEXT: Text := [110, 117, 108, 108]
  const TRUE_TEXT: Text := [116, 114, 117, 101]
  const FALSE_TEXT: Text := [102, 97, 108, 115, 101]

  predicate NumberUnit(c: Unit) {
    48 <= c <= 57 || c == 43 || c == 45 || c == 46 || c == 101
  }

  predicate NumberText(t: Text) {
    t != [] && (48 <= t[0] <= 57 || t[0] == 45) && forall i :: 0 <= i < |t| ==> NumberUnit(t[i])
  }

  /** A finite number, told by the text JavaScript prints for it. */
  type Number = t: Text | NumberText(t) witness [48]

  /** Unprintable: a number that is not finite, a function or a symbol. */
  datatype Value =
    | Null
    | Undefined
    | Unprintable
    | Bool(truth: bool)
    | Num(number: Number)
    | Str(text: Text)
    | Arr(items: seq<Value>)
    | Obj(entries: seq<Entry>)

  /** An own property; entries are in insertion order. */
  datatype Entry = Entry(key: Text, value: Value)

  /** An object holds each key once. */
  predicate WellFormed(v: Value) {
    match v
    case Arr(items) => forall i :: 0 <= i < |items| ==> WellFormed(items[i])
    case Obj(entries) =>
      && (forall i, j :: 0 <= i < j < |entries| ==> entries[i].key != entries[j].key)
      && forall i :: 0 <= i < |entries| ==> WellFormed(entries[i].value)
    case _ => true
  }

  // ---- Printing ------------------------------------------------------------

  /** A printed property. */
  datatype Member = Member(key: Text, text: Text)

  /** The order of JavaScript's < on strings. */
  predicate Less(a: Text, b: Text) {
    b != [] && (a == [] || a[0] < b[0] || (a[0] == b[0] && Less(a[1..], b[1..])))
  }

  function Insert(m: Member, sorted: seq<Member>): seq<Member> {
    if sorted == [] || !Less(sorted[0].key, m.key) then [m] + sorted else [sorted[0]] + Insert(m, sorted[1..])
  }

  function Sort(members: seq<Member>): seq<Member> {
    if members == [] then [] else Insert(members[0], Sort(members[1..]))
  }

  function Joined(texts: seq<Text>): Text {
    if texts == [] then [] else if |texts| == 1 then texts[0] else texts[0] + [COMMA] + Joined(texts[1..])
  }

  function Rendered(m: Member): Text {
    Quote(m.key) + [COLON] + m.text
  }

  function RenderAll(members: seq<Member>): (texts: seq<Text>)
    ensures |texts| == |members|
    ensures forall i :: 0 <= i < |members| ==> texts[i] == Rendered(members[i])
  {
    if members == [] then [] else [Rendered(members[0])] + RenderAll(members[1..])
  }

  function Canonicalize(v: Value): Text {
    match v
    case Null => NULL_TEXT
    case Undefined => NULL_TEXT
    case Unprintable => NULL_TEXT
    case Bool(truth) => if truth then TRUE_TEXT else FALSE_TEXT
    case Num(number) => number
    case Str(text) => Quote(text)
    case Arr(items) => [OPEN_LIST] + Joined(Texts(items)) + [CLOSE_LIST]
    case Obj(entries) => [OPEN_OBJECT] + Joined(RenderAll(Sort(Members(entries)))) + [CLOSE_OBJECT]
  }

  function Texts(items: seq<Value>): (texts: seq<Text>)
    ensures |texts| == |items|
  {
    if items == [] then [] else [Canonicalize(items[0])] + Texts(items[1..])
  }

  /** The printed properties; one that is undefined is left out. */
  function Members(entries: seq<Entry>): seq<Member> {
    if entries == [] then []
    else (if entries[0].value.Undefined? then [] else [Member(entries[0].key, Canonicalize(entries[0].value))])
         + Members(entries[1..])
  }

  const LETTER_A: Text := [97]
  const LETTER_B: Text := [98]
  const ONE: Number := [49]

  /** What is not an object, as it is printed. */
  lemma PrintedPlain()
    ensures Canonicalize(Null) == Canonicalize(Undefined) == Canonicalize(Unprintable) == [110, 117, 108, 108]
    ensures Canonicalize(Bool(true)) == [116, 114, 117, 101] && Canonicalize(Bool(false)) == [102, 97, 108, 115, 101]
    ensures Canonicalize(Num(ONE)) == [49] && Canonicalize(Str(LETTER_A)) == [34, 97, 34]
    ensures Canonicalize(Arr([])) == [91, 93] && Canonicalize(Obj([])) == [123, 125]
    ensures Canonicalize(Arr([Num(ONE), Num(ONE)])) == [91, 49, 44, 49, 93]
  {
    assert Texts([Num(ONE), Num(ONE)][1..]) == [[49]];
    assert Texts([Num(ONE), Num(ONE)]) == [[49], [49]] && Joined([[49]]) == [49];
    assert Sort(Members([])) == [] && RenderAll([]) == [];
    assert LETTER_A[1..] == [] && Escaped(LETTER_A) == LETTER_A;
  }

  const MEMBER_A := Member(LETTER_A, TRUE_TEXT)
  const MEMBER_B := Member(LETTER_B, [49])

  function Mixed(c: Text): seq<Entry> {
    [Entry(LETTER_B, Num(ONE)), Entry(c, Undefined), Entry(LETTER_A, Bool(true))]
  }

  lemma MixedSorted(c: Text)
    ensures Sort(Members(Mixed(c))) == [MEMBER_A, MEMBER_B]
  {
    var a := Entry(LETTER_A, Bool(true));
    assert Mixed(c)[1..] == [Entry(c, Undefined), a] && [Entry(c, Undefined), a][1..] == [a] && [a][1..] == [];
    assert Members([a]) == [MEMBER_A] && Members([Entry(c, Undefined), a]) == [MEMBER_A];
    assert Members(Mixed(c)) == [MEMBER_B, MEMBER_A];
    assert [MEMBER_B, MEMBER_A][1..] == [MEMBER_A] && [MEMBER_A][1..] == [] && Sort([MEMBER_A]) == [MEMBER_A];
    assert Less(LETTER_A, LETTER_B);
    assert Insert(MEMBER_B, [MEMBER_A]) == [MEMBER_A, MEMBER_B];
  }

  lemma MixedRendered()
    ensures Rendered(MEMBER_A) == [34, 97, 34, 58, 116, 114, 117, 101] && Rendered(MEMBER_B) == [34, 98, 34, 58, 49]
  {
    assert LETTER_A[1..] == [] && LETTER_B[1..] == [];
    assert Escaped(LETTER_A) == LETTER_A && Escaped(LETTER_B) == LETTER_B;
  }

  lemma TwoJoined(m: Member, n: Member)
    ensures Joined(RenderAll([m, n])) == Rendered(m) + [COMMA] + Rendered(n)
  {
    assert [m, n][1..] == [n] && [n][1..] == [] && RenderAll([n]) == [Rendered(n)];
    assert RenderAll([m, n]) == [Rendered(m), Rendered(n)] && [Rendered(m), Rendered(n)][1..] == [Rendered(n)];
  }

  /** An object's properties are printed by key, whatever order they came in, without those undefined. */
  lemma PrintedByKey(c: Text)
    ensures Canonicalize(Obj([Entry(LETTER_B, Num(ONE)), Entry(c, Undefined), Entry(LETTER_A, Bool(true))]))
         == [123, 34, 97, 34, 58, 116, 114, 117, 101, 44, 34, 98, 34, 58, 49, 125]
  {
    MixedSorted(c);
    MixedRendered();
    TwoJoined(MEMBER_A, MEMBER_B);
    assert Canonicalize(Obj(Mixed(c))) == [OPEN_OBJECT] + (Rendered(MEMBER_A) + [COMMA] + Rendered(MEMBER_B))
      + [CLOSE_OBJECT];
  }

  // ---- Meaning the same ----------------------------------------------------

  predicate Nothing(v: Value) {
    v.Null? || v.Undefined? || v.Unprintable?
  }

  /** Entry i of an object is one of its keys. */
  predicate Has(entries: seq<Entry>, key: Text) {
    exists i :: 0 <= i < |entries| && entries[i].key == key && !entries[i].value.Undefined?
  }

  /** Equal as nested maps and sequences, null standing for what JSON cannot say. */
  ghost predicate Same(a: Value, b: Value)
    decreases a
  {
    match a
    case Bool(_) => a == b
    case Num(_) => a == b
    case Str(_) => a == b
    case Arr(items) => b.Arr? && |items| == |b.items| && forall i :: 0 <= i < |items| ==> Same(items[i], b.items[i])
    case Obj(entries) =>
      && b.Obj?
      && (forall key :: Has(entries, key) <==> Has(b.entries, key))
      && (forall i, j :: 0 <= i < |entries| && 0 <= j < |b.entries| && entries[i].key == b.entries[j].key
           && Has(entries, entries[i].key)
           ==> Same(entries[i].value, b.entries[j].value))
    case _ => Nothing(b)
  }

  // ---- The order of keys ---------------------------------------------------

  lemma {:induction false} LessIrreflexive(a: Text)
    ensures !Less(a, a)
  {
    if a != [] { LessIrreflexive(a[1..]); }
  }

  lemma {:induction false} LessTransitive(a: Text, b: Text, c: Text)
    requires Less(a, b) && Less(b, c)
    ensures Less(a, c)
  {
    if a != [] && a[0] == b[0] == c[0] { LessTransitive(a[1..], b[1..], c[1..]); }
  }

  lemma {:induction false} LessTotal(a: Text, b: Text)
    requires !Less(a, b) && !Less(b, a)
    ensures a == b
  {
    if a != [] && b != [] {
      LessTotal(a[1..], b[1..]);
      assert a == [a[0]] + a[1..] && b == [b[0]] + b[1..];
    }
  }

  ghost predicate Ordered(members: seq<Member>) {
    forall i, j :: 0 <= i < j < |members| ==> Less(members[i].key, members[j].key)
  }

  ghost predicate DistinctKeys(members: seq<Member>) {
    forall i, j :: 0 <= i < j < |members| ==> members[i].key != members[j].key
  }

  ghost predicate SameMembers(a: seq<Member>, b: seq<Member>) {
    forall m :: m in a <==> m in b
  }

  lemma {:induction false} InsertMembers(m: Member, sorted: seq<Member>)
    ensures forall x :: x in Insert(m, sorted) <==> x == m || x in sorted
  {
    if sorted != [] && Less(sorted[0].key, m.key) { InsertMembers(m, sorted[1..]); }
  }

  lemma {:induction false} SortMembers(members: seq<Member>)
    ensures SameMembers(Sort(members), members)
  {
    if members != [] {
      SortMembers(members[1..]);
      InsertMembers(members[0], Sort(members[1..]));
    }
  }

  lemma {:induction false} InsertOrdered(m: Member, sorted: seq<Member>)
    requires Ordered(sorted) && forall i :: 0 <= i < |sorted| ==> sorted[i].key != m.key
    ensures Ordered(Insert(m, sorted))
  {
    if sorted == [] {
    } else if Less(sorted[0].key, m.key) {
      InsertOrdered(m, sorted[1..]);
      InsertMembers(m, sorted[1..]);
      var r := Insert(m, sorted[1..]);
      forall j | 0 <= j < |r| ensures Less(sorted[0].key, r[j].key) {
        assert r[j] in r;
      }
    } else {
      if !Less(m.key, sorted[0].key) { LessTotal(m.key, sorted[0].key); }
      forall j | 0 < j < |sorted| ensures Less(m.key, sorted[j].key) {
        LessTransitive(m.key, sorted[0].key, sorted[j].key);
      }
    }
  }

  lemma {:induction false} SortOrdered(members: seq<Member>)
    requires DistinctKeys(members)
    ensures Ordered(Sort(members))
  {
    if members != [] {
      SortOrdered(members[1..]);
      SortMembers(members[1..]);
      var sorted := Sort(members[1..]);
      forall i | 0 <= i < |sorted| ensures sorted[i].key != members[0].key {
        assert sorted[i] in members[1..];
      }
      InsertOrdered(members[0], sorted);
    }
  }

  lemma OrderedHead(a: seq<Member>, b: seq<Member>)
    requires Ordered(a) && Ordered(b) && SameMembers(a, b) && a != [] && b != []
    ensures a[0] == b[0]
  {
    assert a[0] in b && b[0] in a;
    var i :| 0 <= i < |b| && b[i] == a[0];
    var j :| 0 <= j < |a| && a[j] == b[0];
    if i > 0 && j > 0 {
      LessTransitive(a[0].key, b[0].key, a[0].key);
      LessIrreflexive(a[0].key);
    }
  }

  lemma NoMembers(a: seq<Member>)
    ensures (forall m :: m !in a) ==> a == []
  {
    if a != [] { assert a[0] in a; }
  }

  /** There is only one way to order the same members. */
  lemma {:induction false} OrderedOnce(a: seq<Member>, b: seq<Member>)
    requires Ordered(a) && Ordered(b) && SameMembers(a, b)
    ensures a == b
  {
    if a == [] {
      NoMembers(b);
    } else {
      assert a[0] in b;
      OrderedHead(a, b);
      forall m ensures m in a[1..] <==> m in b[1..] {
        TailMembers(a, m);
        TailMembers(b, m);
      }
      OrderedOnce(a[1..], b[1..]);
    }
  }

  lemma TailMembers(a: seq<Member>, m: Member)
    requires Ordered(a) && a != []
    ensures m in a[1..] <==> m in a && m != a[0]
  {
    if m in a[1..] { LessIrreflexive(m.key); }
  }

  // ---- Reading is unambiguous ----------------------------------------------

  /** What may follow a value: nothing, or a comma or a closing bracket. */
  predicate Delimited(rest: Text) {
    rest == [] || rest[0] == COMMA || rest[0] == CLOSE_LIST || rest[0] == CLOSE_OBJECT
  }

  /** Where the two texts start the same longer text, they are the same. */
  ghost predicate Apart(x: Text, y: Text) {
    forall s, t :: Delimited(s) && Delimited(t) && x + s == y + t ==> x == y && s == t
  }

  lemma Cancel(x: Text, s: Text, t: Text)
    requires x + s == x + t
    ensures s == t
  {
    assert (x + s)[|x|..] == s && (x + t)[|x|..] == t;
  }

  lemma NextUnit(x: Text, y: Text, s: Text, t: Text)
    requires x + s == y + t && |x| < |y|
    ensures s != [] && s[0] == y[|x|]
  {
    assert (x + s)[|x|] == (y + t)[|x|];
    assert |x + s| == |y + t|;
  }

  lemma NumbersApart(x: Number, y: Number, s: Text, t: Text)
    requires Delimited(s) && Delimited(t) && x + s == y + t && |x| <= |y|
    ensures x == y && s == t
  {
    if |x| < |y| { NextUnit(x, y, s, t); }
    assert x == (x + s)[..|x|] == (y + t)[..|x|] == y;
    Cancel(x, s, t);
  }

  /** A text begins like a value, so with nothing that may follow one. */
  predicate Begins(x: Text) {
    x != [] && x[0] != COMMA && x[0] != CLOSE_LIST && x[0] != CLOSE_OBJECT
  }

  ghost predicate ListsApart(xs: seq<Text>, ys: seq<Text>) {
    && (forall i :: 0 <= i < |xs| ==> Begins(xs[i]))
    && (forall j :: 0 <= j < |ys| ==> Begins(ys[j]))
    && forall i, j :: 0 <= i < |xs| && 0 <= j < |ys| ==> Apart(xs[i], ys[j])
  }

  /** What comes after the first of a closed list. */
  function AfterFirst(xs: seq<Text>, closed: Text): Text
    requires xs != []
  {
    if |xs| == 1 then closed else [COMMA] + (Joined(xs[1..]) + closed)
  }

  lemma AfterFirstBegins(xs: seq<Text>, closed: Text)
    requires xs != [] && closed != []
    ensures AfterFirst(xs, closed) != []
    ensures AfterFirst(xs, closed)[0] == if |xs| == 1 then closed[0] else COMMA
  {
  }

  lemma JoinedFirst(xs: seq<Text>, closed: Text)
    requires xs != []
    ensures Joined(xs) + closed == xs[0] + AfterFirst(xs, closed)
  {
  }

  lemma JoinedBegins(xs: seq<Text>, closed: Text)
    requires xs != [] && Begins(xs[0])
    ensures Joined(xs) + closed != [] && (Joined(xs) + closed)[0] == xs[0][0]
  {
    JoinedFirst(xs, closed);
  }

  /** Closed lists of texts that are pairwise apart agree element by element. */
  lemma {:induction false} ListUnambiguous(xs: seq<Text>, ys: seq<Text>, close: Unit, s: Text, t: Text)
    requires ListsApart(xs, ys) && (close == CLOSE_LIST || close == CLOSE_OBJECT)
    requires Joined(xs) + ([close] + s) == Joined(ys) + ([close] + t)
    ensures xs == ys && s == t
  {
    if xs == [] && ys == [] {
      assert Joined(xs) + ([close] + s) == [close] + s && Joined(ys) + ([close] + t) == [close] + t;
      Cancel([close], s, t);
    } else if xs == [] {
      JoinedBegins(ys, [close] + t);
    } else if ys == [] {
      JoinedBegins(xs, [close] + s);
    } else {
      JoinedFirst(xs, [close] + s);
      JoinedFirst(ys, [close] + t);
      assert Apart(xs[0], ys[0]);
      assert xs[0] == ys[0] && AfterFirst(xs, [close] + s) == AfterFirst(ys, [close] + t);
      AfterFirstBegins(xs, [close] + s);
      AfterFirstBegins(ys, [close] + t);
      if |xs| == 1 {
        Cancel([close], s, t);
      } else {
        Cancel([COMMA], Joined(xs[1..]) + ([close] + s), Joined(ys[1..]) + ([close] + t));
        ListUnambiguous(xs[1..], ys[1..], close, s, t);
        assert xs == [xs[0]] + xs[1..] && ys == [ys[0]] + ys[1..];
      }
    }
  }

  lemma RenderedTail(m: Member, s: Text)
    ensures Rendered(m) + s == Quote(m.key) + ([COLON] + (m.text + s))
  {
    var key := Quote(m.key);
    assert key + [COLON] + m.text + s == key + ([COLON] + (m.text + s));
  }

  lemma RenderedStep(m: Member, n: Member, s: Text, t: Text)
    requires Apart(m.text, n.text) && Delimited(s) && Delimited(t) && Rendered(m) + s == Rendered(n) + t
    ensures m == n && s == t
  {
    RenderedTail(m, s);
    RenderedTail(n, t);
    QuoteUnambiguous(m.key, n.key, [COLON] + (m.text + s), [COLON] + (n.text + t));
    Cancel([COLON], m.text + s, n.text + t);
  }

  lemma RenderedApart(m: Member, n: Member)
    requires Apart(m.text, n.text)
    ensures Apart(Rendered(m), Rendered(n)) && (Rendered(m) == Rendered(n) ==> m == n)
  {
    forall s, t | Delimited(s) && Delimited(t) && Rendered(m) + s == Rendered(n) + t ensures m == n && s == t {
      RenderedStep(m, n, s, t);
    }
    if Rendered(m) == Rendered(n) { RenderedStep(m, n, [], []); }
  }

  // ---- The properties of an object -----------------------------------------

  lemma {:induction false} TextsAt(items: seq<Value>, i: nat)
    requires i < |items|
    ensures Texts(items)[i] == Canonicalize(items[i])
  {
    if i > 0 { TextsAt(items[1..], i - 1); }
  }

  /** Entry i prints as this member. */
  predicate Prints(entries: seq<Entry>, i: int, m: Member) {
    && 0 <= i < |entries|
    && !entries[i].value.Undefined?
    && m == Member(entries[i].key, Canonicalize(entries[i].value))
  }

  lemma {:induction false} MemberSource(entries: seq<Entry>, m: Member) returns (i: nat)
    requires m in Members(entries)
    ensures Prints(entries, i, m)
  {
    if Prints(entries, 0, m) {
      i := 0;
    } else {
      var j := MemberSource(entries[1..], m);
      i := j + 1;
    }
  }

  lemma {:induction false} EntryPrinted(entries: seq<Entry>, i: nat, m: Member)
    requires Prints(entries, i, m)
    ensures m in Members(entries)
  {
    if i > 0 { EntryPrinted(entries[1..], i - 1, m); }
  }

  ghost predicate DistinctEntries(entries: seq<Entry>) {
    forall i, j :: 0 <= i < j < |entries| ==> entries[i].key != entries[j].key
  }

  lemma {:induction false} MembersDistinct(entries: seq<Entry>)
    requires DistinctEntries(entries)
    ensures DistinctKeys(Members(entries))
  {
    if entries != [] {
      MembersDistinct(entries[1..]);
      forall j | 0 <= j < |Members(entries[1..])| ensures Members(entries[1..])[j].key != entries[0].key {
        var i := MemberSource(entries[1..], Members(entries[1..])[j]);
      }
    }
  }

  // ---- Canonical texts are unambiguous -------------------------------------

  lemma ValueBegins(v: Value)
    ensures Begins(Canonicalize(v))
  {
  }

  function MemberTexts(entries: seq<Entry>): seq<Text> {
    RenderAll(Sort(Members(entries)))
  }

  predicate Plain(v: Value) {
    Nothing(v) || v.Bool?
  }

  /** The first unit tells the kind of value, and for a plain one the whole text. */
  lemma SameKind(a: Value, b: Value)
    requires Canonicalize(a)[..1] == Canonicalize(b)[..1]
    ensures a.Num? == b.Num? && a.Str? == b.Str? && a.Arr? == b.Arr? && a.Obj? == b.Obj?
    ensures Plain(a) ==> Canonicalize(a) == Canonicalize(b) && Nothing(a) == Nothing(b) && (a.Bool? ==> a == b)
  {
    ValueBegins(a);
    ValueBegins(b);
    assert Canonicalize(a)[0] == Canonicalize(a)[..1][0] == Canonicalize(b)[..1][0] == Canonicalize(b)[0];
  }

  lemma SameBeginning(a: Value, b: Value, s: Text, t: Text)
    requires Canonicalize(a) + s == Canonicalize(b) + t
    ensures Canonicalize(a)[..1] == Canonicalize(b)[..1]
  {
    ValueBegins(a);
    ValueBegins(b);
    assert Canonicalize(a)[..1] == (Canonicalize(a) + s)[..1] == (Canonicalize(b) + t)[..1] == Canonicalize(b)[..1];
  }

  lemma BracketStep(open: Unit, close: Unit, xs: seq<Text>, ys: seq<Text>, s: Text, t: Text)
    requires ListsApart(xs, ys) && (close == CLOSE_LIST || close == CLOSE_OBJECT)
    requires [open] + Joined(xs) + [close] + s == [open] + Joined(ys) + [close] + t
    ensures xs == ys && s == t
  {
    assert [open] + Joined(xs) + [close] + s == [open] + (Joined(xs) + ([close] + s));
    assert [open] + Joined(ys) + [close] + t == [open] + (Joined(ys) + ([close] + t));
    Cancel([open], Joined(xs) + ([close] + s), Joined(ys) + ([close] + t));
    ListUnambiguous(xs, ys, close, s, t);
  }

  /** Whatever may follow them, two values with the same beginning have the same text. */
  lemma {:induction false} ValueStep(a: Value, b: Value, s: Text, t: Text)
    requires Delimited(s) && Delimited(t) && Canonicalize(a) + s == Canonicalize(b) + t
    ensures Canonicalize(a) == Canonicalize(b) && s == t
    decreases a, 0
  {
    SameBeginning(a, b, s, t);
    SameKind(a, b);
    match a {
      case Num(x) =>
        if |x| <= |b.number| { NumbersApart(x, b.number, s, t); } else { NumbersApart(b.number, x, t, s); }
      case Str(x) => QuoteUnambiguous(x, b.text, s, t);
      case Arr(items) =>
        ArraysApart(items, b.items, a);
        BracketStep(OPEN_LIST, CLOSE_LIST, Texts(items), Texts(b.items), s, t);
      case Obj(entries) =>
        ObjectsApart(entries, b.entries, a);
        BracketStep(OPEN_OBJECT, CLOSE_OBJECT, MemberTexts(entries), MemberTexts(b.entries), s, t);
      case _ => Cancel(Canonicalize(a), s, t);
    }
  }

  lemma {:induction false} ValuesApart(a: Value, b: Value)
    ensures Apart(Canonicalize(a), Canonicalize(b))
    decreases a, 1
  {
    forall s, t | Delimited(s) && Delimited(t) && Canonicalize(a) + s == Canonicalize(b) + t
      ensures Canonicalize(a) == Canonicalize(b) && s == t
    {
      ValueStep(a, b, s, t);
    }
  }

  lemma {:induction false} ArraysApart(items: seq<Value>, others: seq<Value>, a: Value)
    requires a == Arr(items)
    ensures ListsApart(Texts(items), Texts(others))
    decreases a, 0, 0
  {
    forall i | 0 <= i < |items| ensures Begins(Texts(items)[i]) {
      TextsAt(items, i);
    }
    forall j | 0 <= j < |others| ensures Begins(Texts(others)[j]) {
      TextsAt(others, j);
    }
    forall i, j | 0 <= i < |items| && 0 <= j < |others| ensures Apart(Texts(items)[i], Texts(others)[j]) {
      TextsAt(items, i);
      TextsAt(others, j);
      ValuesApart(items[i], others[j]);
    }
  }

  lemma {:induction false} ObjectsApart(entries: seq<Entry>, others: seq<Entry>, a: Value)
    requires a == Obj(entries)
    ensures ListsApart(MemberTexts(entries), MemberTexts(others))
    ensures forall m, n :: m in Sort(Members(entries)) && n in Sort(Members(others)) ==>
      (Rendered(m) == Rendered(n) ==> m == n)
    decreases a, 0, 0
  {
    SortMembers(Members(entries));
    SortMembers(Members(others));
    forall m, n | m in Sort(Members(entries)) && n in Sort(Members(others))
      ensures Apart(Rendered(m), Rendered(n)) && (Rendered(m) == Rendered(n) ==> m == n)
    {
      var i := MemberSource(entries, m);
      var j := MemberSource(others, n);
      ValuesApart(entries[i].value, others[j].value);
      RenderedApart(m, n);
    }
  }

  // ---- Canonical texts say exactly what the values mean --------------------

  lemma RenderedEqual(ms: seq<Member>, ns: seq<Member>)
    requires RenderAll(ms) == RenderAll(ns)
    requires forall m, n :: m in ms && n in ns ==> (Rendered(m) == Rendered(n) ==> m == n)
    ensures ms == ns
  {
    assert |ms| == |RenderAll(ms)| == |RenderAll(ns)| == |ns|;
    forall i | 0 <= i < |ms| ensures ms[i] == ns[i] {
      assert RenderAll(ms)[i] == Rendered(ms[i]) && RenderAll(ns)[i] == Rendered(ns[i]);
      assert ms[i] in ms && ns[i] in ns;
    }
  }

  /** Objects with the same text print the same properties. */
  lemma ObjectMembers(a: Value, b: Value)
    requires a.Obj? && b.Obj? && Canonicalize(a) == Canonicalize(b)
    ensures SameMembers(Members(a.entries), Members(b.entries))
  {
    ObjectsApart(a.entries, b.entries, a);
    BracketStep(OPEN_OBJECT, CLOSE_OBJECT, MemberTexts(a.entries), MemberTexts(b.entries), [], []);
    RenderedEqual(Sort(Members(a.entries)), Sort(Members(b.entries)));
    SortMembers(Members(a.entries));
    SortMembers(Members(b.entries));
  }

  lemma HasMember(entries: seq<Entry>, key: Text)
    ensures Has(entries, key) <==> exists m :: m in Members(entries) && m.key == key
  {
    if Has(entries, key) {
      var i :| 0 <= i < |entries| && entries[i].key == key && !entries[i].value.Undefined?;
      EntryPrinted(entries, i, Member(key, Canonicalize(entries[i].value)));
    }
    if m :| m in Members(entries) && m.key == key {
      var i := MemberSource(entries, m);
    }
  }

  /** The property under a key is the only one that prints under it. */
  lemma KeyPrintsOnce(entries: seq<Entry>, j: nat, m: Member)
    requires DistinctEntries(entries) && j < |entries| && m in Members(entries) && m.key == entries[j].key
    ensures Prints(entries, j, m)
  {
    var i := MemberSource(entries, m);
    assert entries[i].key == entries[j].key;
    assert i == j;
  }

  lemma {:induction false} SameTextSameMeaning(a: Value, b: Value)
    requires WellFormed(a) && WellFormed(b) && Canonicalize(a) == Canonicalize(b)
    ensures Same(a, b)
    decreases a
  {
    SameKind(a, b);
    match a {
      case Str(x) =>
        assert Quote(x) + [] == Quote(b.text) + [];
        QuoteUnambiguous(x, b.text, [], []);
      case Arr(items) =>
        ArraysApart(items, b.items, a);
        BracketStep(OPEN_LIST, CLOSE_LIST, Texts(items), Texts(b.items), [], []);
        assert |items| == |Texts(items)| == |Texts(b.items)| == |b.items|;
        forall i | 0 <= i < |items| ensures Same(items[i], b.items[i]) {
          TextsAt(items, i);
          TextsAt(b.items, i);
          SameTextSameMeaning(items[i], b.items[i]);
        }
      case Obj(entries) =>
        ObjectMembers(a, b);
        forall key ensures Has(entries, key) <==> Has(b.entries, key) {
          HasMember(entries, key);
          HasMember(b.entries, key);
        }
        forall i, j | 0 <= i < |entries| && 0 <= j < |b.entries| && entries[i].key == b.entries[j].key
            && Has(entries, entries[i].key)
          ensures Same(entries[i].value, b.entries[j].value)
        {
          HasMember(entries, entries[i].key);
          var m :| m in Members(entries) && m.key == entries[i].key;
          KeyPrintsOnce(entries, i, m);
          KeyPrintsOnce(b.entries, j, m);
          SameTextSameMeaning(entries[i].value, b.entries[j].value);
        }
      case _ =>
    }
  }

  lemma {:induction false} SameMeaningSameText(a: Value, b: Value)
    requires WellFormed(a) && WellFormed(b) && Same(a, b)
    ensures Canonicalize(a) == Canonicalize(b)
    decreases a
  {
    match a {
      case Arr(items) =>
        forall i | 0 <= i < |items| ensures Texts(items)[i] == Texts(b.items)[i] {
          TextsAt(items, i);
          TextsAt(b.items, i);
          SameMeaningSameText(items[i], b.items[i]);
        }
        assert Texts(items) == Texts(b.items);
      case Obj(entries) =>
        forall m ensures m in Members(entries) <==> m in Members(b.entries) {
          SameMember(a, b, m);
        }
        MembersDistinct(entries);
        MembersDistinct(b.entries);
        SortHolds(Members(entries), Members(b.entries));
      case _ =>
    }
  }

  lemma {:induction false} SameMember(a: Value, b: Value, m: Member)
    requires a.Obj? && b.Obj? && WellFormed(a) && WellFormed(b) && Same(a, b)
    ensures m in Members(a.entries) <==> m in Members(b.entries)
    decreases a, 0
  {
    if m in Members(a.entries) {
      var i := MemberSource(a.entries, m);
      assert Has(a.entries, m.key);
      var j :| 0 <= j < |b.entries| && b.entries[j].key == m.key && !b.entries[j].value.Undefined?;
      SameMeaningSameText(a.entries[i].value, b.entries[j].value);
      EntryPrinted(b.entries, j, m);
    }
    if m in Members(b.entries) {
      var j := MemberSource(b.entries, m);
      assert Has(b.entries, m.key);
      var i :| 0 <= i < |a.entries| && a.entries[i].key == m.key && !a.entries[i].value.Undefined?;
      SameMeaningSameText(a.entries[i].value, b.entries[j].value);
      EntryPrinted(a.entries, i, m);
    }
  }

  lemma SortHolds(ms: seq<Member>, ns: seq<Member>)
    requires DistinctKeys(ms) && DistinctKeys(ns) && SameMembers(ms, ns)
    ensures Sort(ms) == Sort(ns)
  {
    SortOrdered(ms);
    SortOrdered(ns);
    SortMembers(ms);
    SortMembers(ns);
    OrderedOnce(Sort(ms), Sort(ns));
  }

  /** Two argument values print alike exactly when they are equal as nested maps and sequences. */
  lemma CanonicalIffSame(a: Value, b: Value)
    requires WellFormed(a) && WellFormed(b)
    ensures Canonicalize(a) == Canonicalize(b) <==> Same(a, b)
  {
    if Canonicalize(a) == Canonicalize(b) { SameTextSameMeaning(a, b); }
    if Same(a, b) { SameMeaningSameText(a, b); }
  }

  // ---- The identity of a call ----------------------------------------------

  function Defaulted(input: Value): Value {
    if input.Null? || input.Undefined? then Obj([]) else input
  }

  /** What is hashed: a JSON array of three strings, for which canonical and ordinary JSON text agree. */
  function CallPreimage(server: Text, tool: Text, input: Value): Text {
    Canonicalize(Arr([Str(server), Str(tool), Str(Canonicalize(Defaulted(input)))]))
  }

  /** No arguments, undefined or null, are the same as an empty object of them, and as nothing else. */
  lemma NoArguments(server: Text, tool: Text, v: Value)
    requires WellFormed(v)
    ensures CallPreimage(server, tool, Undefined) == CallPreimage(server, tool, Null)
         == CallPreimage(server, tool, Obj([]))
    ensures CallPreimage(server, tool, v) == CallPreimage(server, tool, Obj([])) <==>
      v.Undefined? || v.Null? || (v.Obj? && forall i :: 0 <= i < |v.entries| ==> v.entries[i].value.Undefined?)
  {
    PreimageIffSameCall(server, tool, v, server, tool, Obj([]));
    if v.Obj? {
      forall i | 0 <= i < |v.entries| && !v.entries[i].value.Undefined? ensures Has(v.entries, v.entries[i].key) {
      }
    }
  }

  lemma StringsSame(xs: seq<Value>, ys: seq<Value>)
    requires |xs| == |ys| == 3 && forall i :: 0 <= i < 3 ==> xs[i].Str? && ys[i].Str?
    ensures Same(Arr(xs), Arr(ys)) <==> xs[0] == ys[0] && xs[1] == ys[1] && xs[2] == ys[2]
  {
    assert Same(Arr(xs), Arr(ys)) <==> forall i :: 0 <= i < 3 ==> Same(xs[i], ys[i]);
  }

  /** An approval is for exactly one server, tool and meaning of the arguments. */
  lemma PreimageIffSameCall(s1: Text, t1: Text, v1: Value, s2: Text, t2: Text, v2: Value)
    requires WellFormed(v1) && WellFormed(v2)
    ensures CallPreimage(s1, t1, v1) == CallPreimage(s2, t2, v2)
       <==> s1 == s2 && t1 == t2 && Same(Defaulted(v1), Defaulted(v2))
  {
    var c1, c2 := Canonicalize(Defaulted(v1)), Canonicalize(Defaulted(v2));
    assert c1 == c2 <==> Same(Defaulted(v1), Defaulted(v2)) by {
      CanonicalIffSame(Defaulted(v1), Defaulted(v2));
    }
    var xs, ys := [Str(s1), Str(t1), Str(c1)], [Str(s2), Str(t2), Str(c2)];
    CanonicalIffSame(Arr(xs), Arr(ys));
    StringsSame(xs, ys);
  }
}
