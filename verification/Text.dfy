/** The string operations of Go's standard library that money text goes through. A string is a
    sequence of Unicode characters. */
module Text {

  /** Unicode white space, as strings.TrimSpace sees it. */
  predicate IsSpace(c: char) {
    || c == ' ' || '\t' <= c <= '\r' || c == '\U{0085}' || c == '\U{00A0}' || c == '\U{1680}'
    || '\U{2000}' <= c <= '\U{200A}' || c == '\U{2028}' || c == '\U{2029}' || c == '\U{202F}'
    || c == '\U{205F}' || c == '\U{3000}'
  }

  /** The code points of Unicode's White_Space property. */
  lemma WhiteSpace(c: char)
    ensures IsSpace(c) <==>
              || c as int in {9, 10, 11, 12, 13, 32, 133, 160, 5760, 8232, 8233, 8239, 8287, 12288}
              || 8192 <= c as int <= 8202
  {
  }

  predicate IsQuote(c: char) { c == '"' }

  function TrimLeft(s: string, drop: char -> bool): string {
    if s != "" && drop(s[0]) then TrimLeft(s[1..], drop) else s
  }

  function TrimRight(s: string, drop: char -> bool): string {
    if s != "" && drop(s[|s| - 1]) then TrimRight(s[..|s| - 1], drop) else s
  }

  function TrimBoth(s: string, drop: char -> bool): string {
    TrimRight(TrimLeft(s, drop), drop)
  }

  function TrimSpace(s: string): string { TrimBoth(s, IsSpace) }

  function TrimQuotes(s: string): string { TrimBoth(s, IsQuote) }

  /** What is left neither starts nor ends with a dropped character. */
  lemma TrimmedEnds(s: string, drop: char -> bool)
    ensures var t := TrimBoth(s, drop);
            t != "" ==> !drop(t[0]) && !drop(t[|t| - 1])
  {
    var l := TrimLeft(s, drop);
    TrimLeftEnd(s, drop);
    TrimRightIsPrefix(l, drop);
  }

  /** What is taken away are dropped characters, at the two ends. */
  lemma TrimmedSides(s: string, drop: char -> bool) returns (before: string, after: string)
    ensures s == before + TrimBoth(s, drop) + after
    ensures forall c | c in before || c in after :: drop(c)
  {
    before := TrimmedLeft(s, drop);
    after := TrimmedRight(TrimLeft(s, drop), drop);
  }

  lemma {:induction false} TrimmedLeft(s: string, drop: char -> bool) returns (before: string)
    ensures s == before + TrimLeft(s, drop)
    ensures forall c | c in before :: drop(c)
  {
    before := "";
    if s != "" && drop(s[0]) {
      before := TrimmedLeft(s[1..], drop);
      before := [s[0]] + before;
    }
  }

  lemma {:induction false} TrimmedRight(s: string, drop: char -> bool) returns (after: string)
    ensures s == TrimRight(s, drop) + after
    ensures forall c | c in after :: drop(c)
  {
    after := "";
    if s != "" && drop(s[|s| - 1]) {
      after := TrimmedRight(s[..|s| - 1], drop);
      after := after + [s[|s| - 1]];
    }
  }

  lemma NothingToTrim(s: string, drop: char -> bool)
    requires s != "" ==> !drop(s[0]) && !drop(s[|s| - 1])
    ensures TrimBoth(s, drop) == s
  {
  }

  lemma TrimLeftEnd(s: string, drop: char -> bool)
    ensures var t := TrimLeft(s, drop); t != "" ==> !drop(t[0])
  {
  }

  lemma TrimRightIsPrefix(s: string, drop: char -> bool)
    ensures var t := TrimRight(s, drop);
            t <= s && (t != "" ==> !drop(t[|t| - 1]))
  {
  }

  function TrimPrefix(s: string, c: char): string {
    if s != "" && s[0] == c then s[1..] else s
  }

  /** The position of the first `c`, or the length of `s` when there is none. */
  function IndexOf(s: string, c: char): (i: nat)
    ensures i <= |s|
    ensures i < |s| ==> s[i] == c
    ensures c !in s[..i]
  {
    if s == "" || s[0] == c then 0
    else
      var i := 1 + IndexOf(s[1..], c);
      assert s[..i] == [s[0]] + s[1..][..i - 1];
      i
  }

  /** strings.Cut at the first point: the text before it and the text after it. */
  function CutAtPoint(s: string): (string, string) {
    var i := IndexOf(s, '.');
    (s[..i], if i < |s| then s[i + 1..] else "")
  }

  lemma CutFindsThePoint(before: string, after: string)
    requires '.' !in before
    ensures CutAtPoint(before + "." + after) == (before, after)
    ensures CutAtPoint(before) == (before, "")
  {
    var s := before + "." + after;
    IndexOfFirst(before, "");
    IndexOfFirst(before, "." + after);
    assert before + ("." + after) == s && before + "" == before;
    assert s[..|before|] == before && s[|before| + 1..] == after;
    assert before[..|before|] == before;
  }

  lemma {:induction false} IndexOfFirst(before: string, rest: string)
    requires '.' !in before
    requires rest == "" || rest[0] == '.'
    ensures IndexOf(before + rest, '.') == |before|
  {
    if before == "" {
      assert before + rest == rest;
    } else {
      IndexOfFirst(before[1..], rest);
      assert (before + rest)[1..] == before[1..] + rest;
    }
  }

  // ----- decimal digits

  predicate IsDigit(c: char) { '0' <= c <= '9' }

  predicate AllDigits(s: string) {
    forall i | 0 <= i < |s| :: IsDigit(s[i])
  }

  function Digit(d: nat): char
    requires d < 10
  {
    '0' + d as char
  }

  function DigitValue(c: char): nat
    requires IsDigit(c)
  {
    c as int - '0' as int
  }

  /** The number that a run of digits denotes; the empty run denotes zero. */
  function Value(s: string): nat
    requires AllDigits(s)
  {
    if s == "" then 0 else 10 * Value(s[..|s| - 1]) + DigitValue(s[|s| - 1])
  }

  /** Decimal notation: the digits of `a` count 10^k times as much in front of a run of k digits. */
  lemma {:induction false} ValueIsPositional(a: string, b: string)
    requires AllDigits(a) && AllDigits(b)
    ensures AllDigits(a + b)
    ensures Value(a + b) == Value(a) * Pow10(|b|) + Value(b)
  {
    if b == "" {
      assert a + b == a;
    } else {
      var front := b[..|b| - 1];
      ValueIsPositional(a, front);
      assert (a + b)[..|a + b| - 1] == a + front;
      assert Value(a) * Pow10(|b|) == 10 * (Value(a) * Pow10(|front|));
    }
  }

  lemma ValueOfOne(s: string)
    requires |s| == 1 && AllDigits(s)
    ensures Value(s) == DigitValue(s[0])
  {
    assert s[..0] == "";
  }

  lemma ValueOfTwo(s: string)
    requires |s| == 2 && AllDigits(s)
    ensures Value(s) == 10 * DigitValue(s[0]) + DigitValue(s[1])
  {
    assert s[..1] == [s[0]];
    ValueOfOne(s[..1]);
  }

  /** Go's %d for a number that is not negative. */
  function Digits(n: nat): (s: string)
    ensures s != ""
  {
    if n < 10 then [Digit(n)] else Digits(n / 10) + [Digit(n % 10)]
  }

  function Pow10(k: nat): (p: nat)
    ensures p > 0
  {
    if k == 0 then 1 else 10 * Pow10(k - 1)
  }

  lemma {:induction false} ValueBound(s: string)
    requires AllDigits(s)
    ensures Value(s) < Pow10(|s|)
  {
    if s != "" { ValueBound(s[..|s| - 1]); }
  }

  /** The digits of `n` denote `n`, and only zero starts with a '0'. */
  lemma {:induction false} DigitsDenote(n: nat)
    ensures AllDigits(Digits(n))
    ensures Value(Digits(n)) == n
    ensures n > 0 ==> Digits(n)[0] != '0'
  {
    if n < 10 {
      assert Digits(n)[..0] == "";
    } else {
      DigitsDenote(n / 10);
      assert Digits(n)[..|Digits(n)| - 1] == Digits(n / 10);
    }
  }

  /** A number has at most `k` digits exactly when it is below 10^k. */
  lemma {:induction false} DigitsLength(n: nat, k: nat)
    requires k >= 1
    ensures |Digits(n)| <= k <==> n < Pow10(k)
  {
    assert Pow10(1) == 10;
    if k == 1 {
    } else if n < 10 {
      Pow10Grows(1, k);
    } else {
      DigitsLength(n / 10, k - 1);
    }
  }

  lemma Pow10Grows(j: nat, k: nat)
    requires j <= k
    ensures Pow10(j) <= Pow10(k)
  {
  }

  /** A run of digits without a leading zero is the only such run with its value. */
  lemma {:induction false} DigitsAreUnique(s: string)
    requires s != "" && AllDigits(s)
    requires s[0] != '0' || |s| == 1
    ensures Digits(Value(s)) == s
  {
    var front, last := s[..|s| - 1], s[|s| - 1];
    assert Digit(DigitValue(last)) == last;
    if |s| == 1 {
      assert s == [last];
    } else {
      DigitsAreUnique(front);
      assert Value(front) > 0;
      assert Value(s) / 10 == Value(front) && Value(s) % 10 == DigitValue(last);
      assert s == front + [last];
    }
  }
}
