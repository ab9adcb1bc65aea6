/** What Slack's timestamps are and which numbers they stand for. */
module Stamps {
  import opened Evidence

  const DOT := '.'

  predicate IsDigit(c: char) {
    '0' <= c <= '9'
  }

  /** All digits but for one dot inside. */
  predicate DottedAt(s: string, i: int) {
    0 < i < |s| - 1 && s[i] == DOT && forall k :: 0 <= k < |s| && k != i ==> IsDigit(s[k])
  }

  /** A timestamp is digits, a dot and digits, and nothing else is one. */
  lemma StampIff(s: string)
    ensures IsStamp(s) <==> exists i :: DottedAt(s, i)
  {
    if IsStamp(s) {
      var i :| 0 <= i < |s| && s[i] == '.' && Digits(s[..i]) && Digits(s[i + 1..]);
      forall k | 0 <= k < |s| && k != i ensures IsDigit(s[k]) {
        if k < i { assert s[k] == s[..i][k]; } else { assert s[k] == s[i + 1..][k - i - 1]; }
      }
      assert DottedAt(s, i);
    }
    if i :| DottedAt(s, i) {
      assert Digits(s[..i]) && Digits(s[i + 1..]);
    }
  }

  lemma {:induction false} DigitsThenDot(a: string, b: string)
    requires forall k :: 0 <= k < |a| ==> IsDigit(a[k])
    ensures DigitsBefore(a + [DOT] + b) == |a|
  {
    var s := a + [DOT] + b;
    if a == [] {
      assert s[0] == DOT;
    } else {
      assert s[1..] == a[1..] + [DOT] + b;
      DigitsThenDot(a[1..], b);
    }
  }

  /** A timestamp stands for the number before the dot and the decimal fraction behind it. */
  lemma SecondsOf(a: string, b: string)
    requires Digits(a)
    ensures Seconds(a + [DOT] + b) == Whole(a) as real + Fraction(b)
  {
    var s := a + [DOT] + b;
    DigitsThenDot(a, b);
    assert s[..|a|] == a && s[|a| + 1..] == b;
  }

  function Value(c: char): nat
    requires IsDigit(c)
  {
    (c - '0') as nat
  }

  /** Before the dot every digit behind makes ten times as much of what is in front of it. */
  lemma WholeGrows(a: string, c: char)
    requires IsDigit(c)
    ensures Whole(a + [c]) == 10 * Whole(a) + Value(c) && Whole([]) == 0
  {
    assert (a + [c])[..|a|] == a;
  }

  /** Behind the dot every digit in front makes a tenth of what is behind it; a fraction stays below one. */
  lemma {:induction false} FractionShrinks(c: char, b: string)
    requires IsDigit(c) && forall k :: 0 <= k < |b| ==> IsDigit(b[k])
    ensures Fraction([c] + b) == (Value(c) as real + Fraction(b)) / 10.0 && Fraction([]) == 0.0
    ensures 0.0 <= Fraction([c] + b) < 1.0
    decreases |b|
  {
    assert ([c] + b)[1..] == b;
    if b != [] {
      assert b == [b[0]] + b[1..];
      assert forall k :: 0 <= k < |b[1..]| ==> b[1..][k] == b[k + 1];
      FractionShrinks(b[0], b[1..]);
    }
  }

  lemma Ten()
    ensures Whole(['1', '0']) == 10
  {
    WholeGrows([], '1');
    WholeGrows(['1'], '0');
    assert [] + ['1'] == ['1'] && ['1'] + ['0'] == ['1', '0'];
  }

  lemma Tenths(c: char)
    requires IsDigit(c)
    ensures Fraction([c]) == Value(c) as real / 10.0
  {
    FractionShrinks(c, []);
    assert [c] + [] == [c];
  }

  lemma Hundredths(c: char, d: char)
    requires IsDigit(c) && IsDigit(d)
    ensures Fraction([c, d]) == Value(c) as real / 10.0 + Value(d) as real / 100.0
  {
    Tenths(d);
    FractionShrinks(c, [d]);
    assert [c] + [d] == [c, d];
  }

  lemma TenPoint(b: string)
    ensures Seconds(['1', '0', DOT] + b) == 10.0 + Fraction(b)
  {
    Ten();
    SecondsOf(['1', '0'], b);
    assert ['1', '0', DOT] + b == ['1', '0'] + [DOT] + b;
  }

  /**
   By number and not by text: ten and five hundredths come before ten and a half, and a nought at
   the end says nothing.
   */
  lemma NumbersNotTexts()
    ensures Seconds(['1', '0', DOT] + ['0', '5']) == 10.05 && Seconds(['1', '0', DOT] + ['5']) == 10.5
    ensures Seconds(['1', '0', DOT] + ['5', '0']) == 10.5
  {
    TenPoint(['0', '5']);
    TenPoint(['5']);
    TenPoint(['5', '0']);
    Hundredths('0', '5');
    Hundredths('5', '0');
    Tenths('5');
  }
}
