/**
 The text of a JSON string literal as JSON.stringify writes it, over UTF-16 code units
 (section 7 of RFC 8259; lone surrogates are escaped), with a reader that inverts it.
 */
module JsonText {
  import opened Common

  /** One UTF-16 code unit. */
  type Unit = n: int | 0 <= n < 0x10000

  /** A JavaScript string. */
  type Text = seq<Unit>

  const QUOTE: Unit := 34
  const BACKSLASH: Unit := 92
  const LETTER_U: Unit := 117

  predicate Leading(c: Unit) { 0xD800 <= c < 0xDC00 }

  predicate Trailing(c: Unit) { 0xDC00 <= c < 0xE000 }

  predicate Surrogate(c: Unit) { Leading(c) || Trailing(c) }

  // ---- Writing -------------------------------------------------------------

  function HexDigit(d: int): Unit
    requires 0 <= d < 16
  {
    if d < 10 then 48 + d else 87 + d
  }

  /** The letter of a two-character escape, if the unit has one. */
  function ShortEscape(c: Unit): Option<Unit> {
    if c == QUOTE || c == BACKSLASH then Some(c)
    else if c == 8 then Some(98)
    else if c == 9 then Some(116)
    else if c == 10 then Some(110)
    else if c == 12 then Some(102)
    else if c == 13 then Some(114)
    else None
  }

  function HexEscape(c: Unit): Text {
    [BACKSLASH, LETTER_U, HexDigit(c / 4096), HexDigit(c / 256 % 16), HexDigit(c / 16 % 16), HexDigit(c % 16)]
  }

  /** One unit that is not half of a surrogate pair. */
  function EscapeUnit(c: Unit): Text {
    if ShortEscape(c).Some? then [BACKSLASH, ShortEscape(c).value]
    else if c < 32 || Surrogate(c) then HexEscape(c)
    else [c]
  }

  function Escaped(s: Text): Text {
    if s == [] then []
    else if |s| >= 2 && Leading(s[0]) && Trailing(s[1]) then s[..2] + Escaped(s[2..])
    else EscapeUnit(s[0]) + Escaped(s[1..])
  }

  /** JSON.stringify on a string. */
  function Quote(s: Text): Text {
    [QUOTE] + Escaped(s) + [QUOTE]
  }

  /**
   The literals as section 7 of RFC 8259 has them: the five control characters with a letter of
   their own, quote and backslash by a backslash, other control characters and lone surrogates by
   four lower-case digits, and all else, pairs of surrogates included, as it is.
   */
  lemma Literals(c: Unit, a: Unit, b: Unit)
    ensures EscapeUnit(8) == [92, 98] && EscapeUnit(9) == [92, 116] && EscapeUnit(10) == [92, 110]
    ensures EscapeUnit(12) == [92, 102] && EscapeUnit(13) == [92, 114]
    ensures EscapeUnit(34) == [92, 34] && EscapeUnit(92) == [92, 92]
    ensures EscapeUnit(31) == [92, 117, 48, 48, 49, 102] && EscapeUnit(0xDABC) == [92, 117, 100, 97, 98, 99]
    ensures 32 <= c && c != 34 && c != 92 && !(0xD800 <= c < 0xE000) ==> EscapeUnit(c) == [c]
    ensures c < 32 || 0xD800 <= c < 0xE000 ==> EscapeUnit(c) != [c] && EscapeUnit(c)[0] == 92
    ensures 0xD800 <= a < 0xDC00 <= b < 0xE000 ==> Escaped([a, b]) == [a, b]
    ensures Quote([c]) == [34] + EscapeUnit(c) + [34]
  {
    assert [c][1..] == [] && Escaped([c]) == EscapeUnit(c);
    assert [a, b][2..] == [];
  }

  // ---- Reading -------------------------------------------------------------

  function HexValue(c: Unit): Option<int> {
    if 48 <= c <= 57 then Some(c - 48) else if 97 <= c <= 102 then Some(c - 87) else None
  }

  function ShortValue(c: Unit): Option<Unit> {
    if c == QUOTE || c == BACKSLASH then Some(c)
    else if c == 98 then Some(8)
    else if c == 116 then Some(9)
    else if c == 110 then Some(10)
    else if c == 102 then Some(12)
    else if c == 114 then Some(13)
    else None
  }

  /** The unit an escape stands for, and how many units of text it takes. */
  function ReadEscape(text: Text): Option<(Unit, nat)>
    requires text != [] && text[0] == BACKSLASH
  {
    if |text| < 2 then None
    else if text[1] != LETTER_U then
      var v := ShortValue(text[1]);
      if v.Some? then Some((v.value, 2)) else None
    else if |text| < 6 then None
    else
      var a, b, c, d := HexValue(text[2]), HexValue(text[3]), HexValue(text[4]), HexValue(text[5]);
      if a.Some? && b.Some? && c.Some? && d.Some? then
        var n := 4096 * a.value + 256 * b.value + 16 * c.value + d.value;
        if 0 <= n < 0x10000 then Some((n, 6)) else None
      else None
  }

  /** The string up to the closing quote, and the text behind it. */
  function ReadString(text: Text): Option<(Text, Text)> {
    if text == [] then None
    else if text[0] == QUOTE then Some(([], text[1..]))
    else if text[0] == BACKSLASH then
      var e := ReadEscape(text);
      if e.None? || e.value.1 > |text| || e.value.1 == 0 then None
      else Prefixed(e.value.0, ReadString(text[e.value.1..]))
    else Prefixed(text[0], ReadString(text[1..]))
  }

  function Prefixed(c: Unit, r: Option<(Text, Text)>): Option<(Text, Text)> {
    if r.None? then None else Some(([c] + r.value.0, r.value.1))
  }

  lemma NibbleRoundTrip(x: int)
    requires 0 <= x < 16
    ensures HexValue(HexDigit(x)) == Some(x)
  {
  }

  /** A unit is its four nibbles. */
  lemma Nibbles(c: Unit)
    ensures 0 <= c / 4096 < 16
    ensures c == 4096 * (c / 4096) + 256 * (c / 256 % 16) + 16 * (c / 16 % 16) + c % 16
  {
    var high, low := c / 256, c % 256;
    assert c == 256 * high + low;
    assert high / 16 == c / 4096 && high == 16 * (c / 4096) + high % 16;
    assert low / 16 == c / 16 % 16 && low == 16 * (low / 16) + c % 16;
  }

  /** Reading four digits that stand for these nibbles. */
  lemma DigitsRead(text: Text, a: int, b: int, d: int, e: int)
    requires |text| >= 6 && text[0] == BACKSLASH && text[1] == LETTER_U
    requires HexValue(text[2]) == Some(a) && HexValue(text[3]) == Some(b)
    requires HexValue(text[4]) == Some(d) && HexValue(text[5]) == Some(e)
    requires 0 <= 4096 * a + 256 * b + 16 * d + e < 0x10000
    ensures ReadEscape(text) == Some((4096 * a + 256 * b + 16 * d + e, 6))
  {
  }

  lemma HexRoundTrip(c: Unit, rest: Text)
    ensures ReadEscape(HexEscape(c) + rest) == Some((c, 6))
  {
    Nibbles(c);
    var a, b, d, e := c / 4096, c / 256 % 16, c / 16 % 16, c % 16;
    NibbleRoundTrip(a);
    NibbleRoundTrip(b);
    NibbleRoundTrip(d);
    NibbleRoundTrip(e);
    DigitsRead(HexEscape(c) + rest, a, b, d, e);
  }

  lemma UnitRoundTrip(c: Unit, rest: Text)
    ensures ReadString(EscapeUnit(c) + rest) == Prefixed(c, ReadString(rest))
  {
    var text := EscapeUnit(c) + rest;
    if ShortEscape(c).Some? {
      assert text[0] == BACKSLASH && text[1] == ShortEscape(c).value && text[2..] == rest;
    } else if c < 32 || Surrogate(c) {
      HexRoundTrip(c, rest);
      assert text[6..] == rest;
    } else {
      assert text[1..] == rest;
    }
  }

  lemma PairRoundTrip(a: Unit, b: Unit, rest: Text)
    requires Leading(a) && Trailing(b)
    ensures ReadString([a, b] + rest) == Prefixed(a, Prefixed(b, ReadString(rest)))
  {
    assert ([a, b] + rest)[1..] == [b] + rest;
    assert ([b] + rest)[1..] == rest;
  }

  lemma Regrouped(a: Text, b: Text, c: Text, d: Text)
    ensures a + b + c + d == a + (b + c + d)
  {
  }

  lemma EscapedTail(s: Text, n: nat, head: Text, rest: Text)
    requires n <= |s| && Escaped(s) == head + Escaped(s[n..])
    ensures Escaped(s) + [QUOTE] + rest == head + (Escaped(s[n..]) + [QUOTE] + rest)
  {
    Regrouped(head, Escaped(s[n..]), [QUOTE], rest);
  }

  /** One step of reading back: a head that reads as its units, before a tail that reads back. */
  lemma ReadBackStep(s: Text, n: nat, head: Text, rest: Text)
    requires 0 < n <= |s| && n <= 2 && Escaped(s) == head + Escaped(s[n..])
    requires ReadString(Escaped(s[n..]) + [QUOTE] + rest) == Some((s[n..], rest))
    requires var later := Escaped(s[n..]) + [QUOTE] + rest;
      ReadString(head + later) ==
      if n == 1 then Prefixed(s[0], ReadString(later)) else Prefixed(s[0], Prefixed(s[1], ReadString(later)))
    ensures ReadString(Escaped(s) + [QUOTE] + rest) == Some((s, rest))
  {
    EscapedTail(s, n, head, rest);
    if n == 1 {
      assert [s[0]] + s[1..] == s;
    } else {
      assert [s[0]] + ([s[1]] + s[2..]) == s;
    }
  }

  /** Reading what was written gives back the string and the untouched rest. */
  lemma {:induction false} ReadBack(s: Text, rest: Text)
    ensures ReadString(Escaped(s) + [QUOTE] + rest) == Some((s, rest))
  {
    if s == [] {
      assert Escaped(s) + [QUOTE] + rest == [QUOTE] + rest;
    } else if |s| >= 2 && Leading(s[0]) && Trailing(s[1]) {
      ReadBack(s[2..], rest);
      PairRoundTrip(s[0], s[1], Escaped(s[2..]) + [QUOTE] + rest);
      assert s[..2] == [s[0], s[1]];
      ReadBackStep(s, 2, s[..2], rest);
    } else {
      ReadBack(s[1..], rest);
      UnitRoundTrip(s[0], Escaped(s[1..]) + [QUOTE] + rest);
      ReadBackStep(s, 1, EscapeUnit(s[0]), rest);
    }
  }

  /** A literal is unambiguous whatever follows it. */
  lemma QuoteUnambiguous(a: Text, b: Text, s: Text, t: Text)
    requires Quote(a) + s == Quote(b) + t
    ensures a == b && s == t
  {
    assert (Quote(a) + s)[1..] == Escaped(a) + [QUOTE] + s;
    assert (Quote(b) + t)[1..] == Escaped(b) + [QUOTE] + t;
    ReadBack(a, s);
    ReadBack(b, t);
  }
}
