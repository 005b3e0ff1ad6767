/** Exact money: int64 counts of cents, and the decimal text they are read from and written to. */
module Money {
  import opened Results
  import opened GoInt
  import opened Text

  type Money = int64

  const MINOR_UNITS: int64 := 100
  const MAX_MAJOR_DIGITS := 15

  /** The largest amount whose text the parser still accepts: fifteen nines and two nines. */
  const PARSE_LIMIT: int := 99_999_999_999_999_999

  // ----- reading

  /** The hundredths denoted by a fraction of at most two digits. */
  function Cents(minor: string): nat
    requires AllDigits(minor) && |minor| <= 2
  {
    if |minor| == 1 then 10 * Value(minor) else Value(minor)
  }

  /** Two runs of digits that are short enough for an int64 count of cents. */
  predicate ShortDigits(major: string, minor: string) {
    && AllDigits(major) && |major| <= MAX_MAJOR_DIGITS
    && AllDigits(minor) && |minor| <= 2
  }

  function Magnitude(major: string, minor: string): nat
    requires ShortDigits(major, minor)
  {
    100 * Value(major) + Cents(minor)
  }

  lemma FifteenDigits()
    ensures Pow10(15) == 1_000_000_000_000_000
  {
    assert Pow10(5) == 100_000 && Pow10(10) == 10_000_000_000;
  }

  lemma MagnitudeFits(major: string, minor: string)
    requires ShortDigits(major, minor)
    ensures Magnitude(major, minor) <= PARSE_LIMIT
  {
    ValueBound(major);
    ValueBound(minor);
    Pow10Grows(|major|, 15);
    FifteenDigits();
    assert Pow10(2) == 100 && Pow10(1) == 10;
  }

  /** The amount in cents is the whole run of digits, with the point moved to the second place. */
  lemma MagnitudeIsExact(major: string, minor: string)
    requires ShortDigits(major, minor)
    ensures AllDigits(major + minor)
    ensures Magnitude(major, minor) * Pow10(|minor|) == 100 * Value(major + minor)
  {
    ValueIsPositional(major, minor);
    assert Pow10(0) == 1 && Pow10(1) == 10 && Pow10(2) == 100;
    if |minor| == 0 {
      assert minor == "";
    }
  }

  function StripSigns(raw: string): string {
    TrimPrefix(TrimPrefix(raw, '+'), '-')
  }

  function Assemble(negative: bool, major: string, minor: string): Result<Money> {
    if ShortDigits(major, minor) then
      MagnitudeFits(major, minor);
      var magnitude := Magnitude(major, minor) as int64;
      Ok(if negative then -magnitude else magnitude)
    else
      Err(InvalidMoney)
  }

  function ParseTrimmed(raw: string): Result<Money> {
    if raw == "" then Err(InvalidMoney)
    else
      var (major, minor) := CutAtPoint(StripSigns(raw));
      Assemble(raw[0] == '-', major, minor)
  }

  /** What ParseMoney computes. */
  function Parse(s: string): Result<Money> {
    ParseTrimmed(TrimSpace(s))
  }

  /** strconv.ParseInt(s, 10, 64). */
  function ParseInt(s: string): Option<int64> {
    var negative := s != "" && s[0] == '-';
    var digits := if s != "" && (s[0] == '-' || s[0] == '+') then s[1..] else s;
    if digits == "" || !AllDigits(digits) then None
    else
      var value: int := (if negative then -1 else 1) * Value(digits);
      if -TWO_63 <= value < TWO_63 then Some(value as int64) else None
  }

  lemma ParseIntReadsShortDigits(s: string)
    requires s != "" && AllDigits(s) && |s| <= MAX_MAJOR_DIGITS
    ensures Value(s) < 1_000_000_000_000_000
    ensures ParseInt(s) == Some(Value(s) as int64)
  {
    ValueBound(s);
    Pow10Grows(|s|, 15);
    FifteenDigits();
  }

  /** A sign and digits of any length: their value if it is an int64, otherwise a range error. */
  lemma ParseIntReadsSignedDigits(sign: string, s: string)
    requires sign == "" || sign == "+" || sign == "-"
    requires s != "" && AllDigits(s)
    ensures var value: int := (if sign == "-" then -1 else 1) * Value(s);
            ParseInt(sign + s)
            == if -0x8000_0000_0000_0000 <= value <= 0x7fff_ffff_ffff_ffff then Some(value as int64) else None
  {
    if sign == "" {
      assert sign + s == s;
      assert IsDigit(s[0]);
    } else {
      assert (sign + s)[1..] == s;
    }
  }

  method IsDigits(s: string) returns (ok: bool)
    ensures ok <==> s != "" && AllDigits(s)
  {
    if s == "" { return false; }
    for i := 0 to |s|
      invariant AllDigits(s[..i])
    {
      if s[i] < '0' || s[i] > '9' {
        assert !IsDigit(s[i]);
        return false;
      }
      assert s[..i + 1] == s[..i] + [s[i]];
    }
    assert s[..|s|] == s;
    return true;
  }

  /** A fraction padded with zeros to two digits. */
  function PadFraction(minor: string): string
    decreases 2 - |minor|
  {
    if |minor| < 2 then PadFraction(minor + "0") else minor
  }

  lemma PaddedFraction(minor: string)
    requires |minor| <= 2
    ensures var padded := PadFraction(minor);
            && |padded| == 2
            && (AllDigits(padded) <==> AllDigits(minor))
            && (AllDigits(minor) ==> Value(padded) == Cents(minor))
  {
    if |minor| == 0 {
      assert PadFraction("0" + "0") == "00";
      assert PadFraction("" + "0") == "00";
      ValueOfTwo("00");
    } else if |minor| == 1 {
      assert PadFraction(minor) == minor + "0" == [minor[0], '0'];
      if AllDigits(minor) {
        ValueOfOne(minor);
        ValueOfTwo([minor[0], '0']);
      } else {
        assert !IsDigit((minor + "0")[0]);
      }
    }
  }

  /** ParseMoney. Amounts are int64 here, so no step of it can overflow, and neither call of
      strconv.ParseInt can fail. */
  method ParseMoney(s: string) returns (r: Result<Money>)
    ensures r == Parse(s)
    ensures IsReading(TrimSpace(s), r)
  {
    ParseReadsEveryText(s);
    hide IsReading, Digits, TrimBoth, IndexOf, CutAtPoint, Pow10;
    var raw := TrimSpace(s);
    if raw == "" { return Err(InvalidMoney); }

    var negative := raw[0] == '-';
    raw := TrimPrefix(TrimPrefix(raw, '+'), '-');

    var parts := CutAtPoint(raw);
    var majorPart, minorPart := parts.0, parts.1;
    if majorPart == "" { majorPart := "0"; }
    assert AllDigits(majorPart) == AllDigits(parts.0);
    if |majorPart| > MAX_MAJOR_DIGITS { return Err(InvalidMoney); }
    if |minorPart| > 2 { return Err(InvalidMoney); }
    while |minorPart| < 2
      invariant |minorPart| <= 2 && PadFraction(minorPart) == PadFraction(parts.1)
      decreases 2 - |minorPart|
    {
      minorPart := minorPart + "0";
    }
    PaddedFraction(parts.1);
    var majorOk := IsDigits(majorPart);
    var minorOk := IsDigits(minorPart);
    if !majorOk || !minorOk { return Err(InvalidMoney); }

    ParseIntReadsShortDigits(majorPart);
    ParseIntReadsShortDigits(minorPart);
    var major := ParseInt(majorPart);
    if major.None? { assert false; }
    var minor := ParseInt(minorPart);
    if minor.None? { assert false; }

    MagnitudeFits(parts.0, parts.1);
    ValueOfOne("0");
    var total := major.value * MINOR_UNITS + minor.value;
    if negative { total := -total; }
    return Ok(total);
  }

  // ----- the accepted grammar

  /** Text of the grammar [+][-]digits[.digits]. Every part may be missing, but not all at once. */
  datatype Numeral = Numeral(plus: bool, minus: bool, major: string, point: bool, minor: string) {
    function Body(): string { major + (if point then "." + minor else "") }

    function Spell(): string { Signs(plus, minus) + Body() }

    predicate WellFormed() {
      && Spell() != ""
      && AllDigits(major) && |major| <= 15
      && AllDigits(minor) && |minor| <= 2
      && (!point ==> minor == "")
    }

    /** `cents` is exactly what the text denotes: without its point, the text reads as 10^k times as
        many units, where k is the number of decimals. A minus sign counts only when it is the first
        character. */
    predicate Denotes(cents: int)
      requires WellFormed()
    {
      && Abs(cents) * Pow10(|minor|) == 100 * Value(major + minor)
      && (cents < 0 ==> minus && !plus) && (cents > 0 ==> plus || !minus)
    }
  }

  /** Every text of the grammar is accepted, with exactly its amount. */
  lemma ParseAcceptsTheGrammar(s: string, n: Numeral)
    requires n.WellFormed() && TrimSpace(s) == n.Spell()
    ensures Parse(s).Ok? && n.Denotes(Parse(s).value as int)
  {
    TrimmedGrammar(n.Spell(), n);
  }

  lemma TrimmedGrammar(raw: string, n: Numeral)
    requires n.WellFormed() && raw == n.Spell()
    ensures ParseTrimmed(raw).Ok? && n.Denotes(ParseTrimmed(raw).value as int)
  {
    BodyFallsApart(n);
    StripSignsOf(n.plus, n.minus, n.Body());
    AssembledAmount(n.minus && !n.plus, n.major, n.minor);
    assert ParseTrimmed(raw) == Assemble(n.minus && !n.plus, n.major, n.minor);
  }

  lemma AssembleIsExact(negative: bool, major: string, minor: string)
    requires ShortDigits(major, minor)
    ensures var r := Assemble(negative, major, minor);
            r.Ok? && r.value as int == (if negative then -1 else 1) * Magnitude(major, minor)
  {
  }

  lemma AssembledAmount(negative: bool, major: string, minor: string)
    requires ShortDigits(major, minor)
    ensures AllDigits(major + minor) && Assemble(negative, major, minor).Ok?
    ensures var cents := Assemble(negative, major, minor).value as int;
            && Abs(cents) * Pow10(|minor|) == 100 * Value(major + minor)
            && (cents < 0 ==> negative) && (cents > 0 ==> !negative)
  {
    AssembleIsExact(negative, major, minor);
    MagnitudeIsExact(major, minor);
  }

  lemma BodyFallsApart(n: Numeral)
    requires AllDigits(n.major) && (!n.point ==> n.minor == "")
    ensures CutAtPoint(n.Body()) == (n.major, n.minor)
    ensures n.Body() == "" || (n.Body()[0] != '+' && n.Body()[0] != '-')
  {
    CutFindsThePoint(n.major, n.minor);
    if n.point {
      assert n.Body() == n.major + "." + n.minor;
    } else {
      assert n.Body() == n.major;
    }
  }

  function Signs(plus: bool, minus: bool): string {
    (if plus then "+" else "") + (if minus then "-" else "")
  }

  lemma StripSignsOf(plus: bool, minus: bool, body: string)
    requires body == "" || (body[0] != '+' && body[0] != '-')
    ensures var raw := Signs(plus, minus) + body;
            StripSigns(raw) == body && (raw != "" ==> (raw[0] == '-' <==> minus && !plus))
  {
  }

  lemma SignsOf(raw: string) returns (plus: bool, minus: bool)
    ensures raw == Signs(plus, minus) + StripSigns(raw)
  {
    plus := raw != "" && raw[0] == '+';
    var rest := TrimPrefix(raw, '+');
    minus := rest != "" && rest[0] == '-';
  }

  /** Nothing else is accepted, and whatever is refused carries ErrInvalidMoney. */
  lemma ParseRefusesTheRest(s: string)
    ensures Parse(s) == Err(InvalidMoney)
            || exists n: Numeral :: n.WellFormed() && TrimSpace(s) == n.Spell()
  {
    var raw := TrimSpace(s);
    if ParseTrimmed(raw).Ok? {
      var n := NumeralOf(raw);
    }
  }

  lemma DenotedAmount(n: Numeral, cents: int)
    requires n.WellFormed() && n.Denotes(cents)
    requires !IsSpace(n.Spell()[0]) && !IsSpace(n.Spell()[|n.Spell()| - 1])
    ensures -TWO_63 <= cents < TWO_63 && Parse(n.Spell()) == Ok(cents as int64)
  {
    hide Numeral.WellFormed, Numeral.Spell, Value, TrimBoth, CutAtPoint, StripSigns, Assemble;
    NothingToTrim(n.Spell(), IsSpace);
    ParseAcceptsTheGrammar(n.Spell(), n);
    SameQuotient(Abs(cents), Abs(Parse(n.Spell()).value as int), Pow10(|n.minor|));
  }

  lemma SameQuotient(a: nat, b: nat, p: nat)
    requires p > 0 && a * p == b * p
    ensures a == b
  {
    assert (a - b) * p == 0;
  }

  lemma DocumentedForm(n: Numeral, text: string, digits: string, cents: int)
    requires n.WellFormed() && n.Spell() == text && n.major + n.minor == digits
    requires text != "" && IsDigit(text[0]) && IsDigit(text[|text| - 1])
    requires Abs(cents) * Pow10(|n.minor|) == 100 * Value(digits)
    requires cents >= 0 && !n.minus
    ensures -TWO_63 <= cents < TWO_63 && Parse(text) == Ok(cents as int64)
  {
    DenotedAmount(n, cents);
  }

  /** The forms that the documentation of ParseMoney names. */
  lemma DocumentedForms()
    ensures Parse("10") == Ok(1000) && Parse("10.5") == Ok(1050) && Parse("10.50") == Ok(1050)
  {
    hide Parse, Value;
    ValuesOfThese();
    assert Pow10(0) == 1 && Pow10(1) == 10 && Pow10(2) == 100;
    DocumentedForm(Numeral(false, false, "10", false, ""), "10", "10", 1000);
    DocumentedForm(Numeral(false, false, "10", true, "5"), "10.5", "105", 1050);
    DocumentedForm(Numeral(false, false, "10", true, "50"), "10.50", "1050", 1050);
  }

  lemma ValuesOfThese()
    ensures Value("10") == 10 && Value("105") == 105 && Value("1050") == 1050
  {
    assert "10"[..1] == "1" && "105"[..2] == "10" && "1050"[..3] == "105";
    ValueOfOne("1");
  }

  /** `r` is the right answer for `text`: the amount that it denotes if it is in the grammar, and
      ErrInvalidMoney otherwise. */
  ghost predicate IsReading(text: string, r: Result<Money>) {
    && (forall n: Numeral | n.WellFormed() && text == n.Spell() :: r.Ok? && n.Denotes(r.value as int))
    && ((forall n: Numeral | n.WellFormed() :: text != n.Spell()) ==> r == Err(InvalidMoney))
  }

  /** Every text gets its right answer. */
  lemma ParseReadsEveryText(s: string)
    ensures IsReading(TrimSpace(s), Parse(s))
    ensures Parse(s).Err? ==> Parse(s).error == InvalidMoney
  {
    forall n: Numeral | n.WellFormed() && TrimSpace(s) == n.Spell()
      ensures Parse(s).Ok? && n.Denotes(Parse(s).value as int)
    {
      ParseAcceptsTheGrammar(s, n);
    }
    ParseRefusesTheRest(s);
  }

  lemma NumeralOf(raw: string) returns (n: Numeral)
    requires ParseTrimmed(raw).Ok?
    ensures n.WellFormed() && raw == n.Spell()
  {
    var plus, minus := SignsOf(raw);
    n := Recut(plus, minus, StripSigns(raw));
  }

  lemma Recut(plus: bool, minus: bool, body: string) returns (n: Numeral)
    ensures n.plus == plus && n.minus == minus && n.Body() == body
    ensures (n.major, n.minor) == CutAtPoint(body)
    ensures !n.point ==> n.minor == ""
  {
    var i := IndexOf(body, '.');
    n := Numeral(plus, minus, body[..i], i < |body|, if i < |body| then body[i + 1..] else "");
  }

  // ----- writing

  function TwoDigits(k: nat): string
    requires k < 100
  {
    [Digit(k / 10), Digit(k % 10)]
  }

  function Abs(n: int): nat { if n < 0 then -n else n }

  /** The two-decimal text of `n` hundredths, for an integer of any size. */
  function Canonical(n: int): string {
    (if n < 0 then "-" else "") + Digits(Abs(n) / 100) + "." + TwoDigits(Abs(n) % 100)
  }

  /** Go's %02d for a number that is not negative. */
  function PadTwo(n: nat): string {
    if n < 10 then "0" + Digits(n) else Digits(n)
  }

  lemma PadTwoIsTwoDigits(n: nat)
    requires n < 100
    ensures PadTwo(n) == TwoDigits(n)
  {
    assert Digit(0) == '0';
    assert Digits(n / 10) == [Digit(n / 10)];
  }

  /** Money.String. Only the smallest int64 has no positive counterpart; it has its own text. */
  method String(m: Money) returns (text: string)
    ensures text == Canonical(m as int)
  {
    var value := m;
    var sign := "";
    if value < 0 {
      sign := "-";
      if value == MIN_INT64 {
        MinimumText(m as int);
        return "-92233720368547758.08";
      }
      value := -value;
    }
    PadTwoIsTwoDigits((value % MINOR_UNITS) as int);
    text := sign + Digits((value / MINOR_UNITS) as int) + "." + PadTwo((value % MINOR_UNITS) as int);
  }

  lemma FourMoreDigits(n: nat, a: nat, b: nat, c: nat, d: nat)
    requires n > 0 && a < 10 && b < 10 && c < 10 && d < 10
    ensures Digits(10000 * n + 1000 * a + 100 * b + 10 * c + d) == Digits(n) + [Digit(a), Digit(b), Digit(c), Digit(d)]
  {
    var na := 10 * n + a;
    var nb := 10 * na + b;
    var nc := 10 * nb + c;
    assert Digits(na) == Digits(n) + [Digit(a)];
    assert Digits(nb) == Digits(na) + [Digit(b)];
    assert Digits(nc) == Digits(nb) + [Digit(c)];
    assert Digits(10 * nc + d) == Digits(nc) + [Digit(d)];
  }

  lemma MinimumText(n: int)
    requires n == MIN_INT64 as int
    ensures Canonical(n) == "-92233720368547758.08"
  {
    var p1: nat := 9;
    FourMoreDigits(p1, 2, 2, 3, 3);
    var p2 := 10000 * p1 + 2233;
    assert Digits(p2) == "92233";
    FourMoreDigits(p2, 7, 2, 0, 3);
    var p3 := 10000 * p2 + 7203;
    assert Digits(p3) == "922337203";
    FourMoreDigits(p3, 6, 8, 5, 4);
    var p4 := 10000 * p3 + 6854;
    assert Digits(p4) == "9223372036854";
    FourMoreDigits(p4, 7, 7, 5, 8);
    assert Abs(n) / 100 == 10000 * p4 + 7758 && Abs(n) % 100 == 8;
    assert Digits(Abs(n) / 100) == "92233720368547758";
    MinimumIsAssembled(Digits(Abs(n) / 100), TwoDigits(Abs(n) % 100));
  }

  lemma MinimumIsAssembled(major: string, minor: string)
    requires major == "92233720368547758" && minor == "08"
    ensures "-" + major + "." + minor == "-92233720368547758.08"
  {
  }

  /** How the canonical text falls apart again. */
  lemma CanonicalParts(n: int)
    ensures var t, major, minor := Canonical(n), Digits(Abs(n) / 100), TwoDigits(Abs(n) % 100);
            && TrimSpace(t) == t
            && (t[0] == '-' <==> n < 0)
            && StripSigns(t) == TrimPrefix(t, '-') == major + "." + minor
            && CutAtPoint(major + "." + minor) == (major, minor)
            && AllDigits(major) && AllDigits(minor)
            && 100 * Value(major) + Value(minor) == Abs(n)
  {
    var major, minor := Digits(Abs(n) / 100), TwoDigits(Abs(n) % 100);
    DigitsDenote(Abs(n) / 100);
    ValueOfTwo(minor);
    assert Value(minor) == Abs(n) % 100;
    SignedParts(n < 0, major, minor);
  }

  lemma SignedParts(negative: bool, major: string, minor: string)
    requires major != "" && AllDigits(major) && |minor| == 2 && AllDigits(minor)
    ensures var t := (if negative then "-" else "") + major + "." + minor;
            && TrimSpace(t) == t
            && (t[0] == '-' <==> negative)
            && StripSigns(t) == TrimPrefix(t, '-') == major + "." + minor
            && CutAtPoint(major + "." + minor) == (major, minor)
  {
    hide CutAtPoint;
    var body := major + "." + minor;
    var t := Signs(false, negative) + body;
    assert t == (if negative then "-" else "") + major + "." + minor;
    assert IsDigit(body[0]);
    StripSignsOf(false, negative, body);
    CutFindsThePoint(major, minor);
    assert t[|t| - 1] == minor[1] && (t[0] == '-' || t[0] == major[0]);
    NothingToTrim(t, IsSpace);
  }

  /** The printer and the parser undo each other exactly up to fifteen integer digits; every
      larger amount prints a text that the parser refuses. */
  lemma ParseOfString(n: int)
    ensures Parse(Canonical(n)) ==
            if -99_999_999_999_999_999 <= n <= 99_999_999_999_999_999 then Ok(n as Money) else Err(InvalidMoney)
  {
    var major, minor := Digits(Abs(n) / 100), TwoDigits(Abs(n) % 100);
    assert Parse(Canonical(n)) == Assemble(n < 0, major, minor) by { CanonicalParts(n); }
    assert ShortDigits(major, minor) <==> Abs(n) <= PARSE_LIMIT by { PartsAreShort(n); }
    if ShortDigits(major, minor) {
      assert Magnitude(major, minor) == Abs(n) by { CanonicalParts(n); }
      AssembleIsExact(n < 0, major, minor);
    }
  }

  lemma PartsAreShort(n: int)
    ensures ShortDigits(Digits(Abs(n) / 100), TwoDigits(Abs(n) % 100)) <==> Abs(n) <= PARSE_LIMIT
  {
    DigitsDenote(Abs(n) / 100);
    DigitsLength(Abs(n) / 100, 15);
    FifteenDigits();
  }

  /** What makes a text the canonical one of an amount: no sign but a minus, no leading zero,
      exactly two decimals, and no minus in front of zero. */
  datatype DecimalText = DecimalText(negative: bool, major: string, minor: string) {
    function Spell(): string { (if negative then "-" else "") + major + "." + minor }

    predicate Canonical() {
      && major != "" && AllDigits(major) && (major[0] != '0' || |major| == 1)
      && AllDigits(minor) && |minor| == 2
      && (negative ==> 100 * Value(major) + Value(minor) != 0)
    }

    function Amount(): int
      requires Canonical()
    {
      var magnitude := 100 * Value(major) + Value(minor);
      if negative then -magnitude else magnitude
    }
  }

  /** The printed text is in canonical form and denotes the amount ... */
  lemma StringIsCanonical(n: int)
    ensures exists d: DecimalText :: d.Canonical() && d.Spell() == Canonical(n) && d.Amount() == n
  {
    hide TrimBoth, StripSigns, CutAtPoint, Value;
    var d := DecimalText(n < 0, Digits(Abs(n) / 100), TwoDigits(Abs(n) % 100));
    CanonicalParts(n);
    DigitsDenote(Abs(n) / 100);
    assert d.Canonical();
    assert d.Spell() == Canonical(n) && d.Amount() == n;
  }

  /** ... and it is the only such text. */
  lemma CanonicalTextIsUnique(d: DecimalText)
    requires d.Canonical()
    ensures d.Spell() == Canonical(d.Amount())
  {
    DigitsAreUnique(d.major);
    ValueOfTwo(d.minor);
    assert TwoDigits(Value(d.minor)) == d.minor;
    assert Abs(d.Amount()) / 100 == Value(d.major) && Abs(d.Amount()) % 100 == Value(d.minor);
  }

  lemma DistinctAmountsHaveDistinctTexts(a: int, b: int)
    requires Canonical(a) == Canonical(b)
    ensures a == b
  {
    CanonicalParts(a);
    CanonicalParts(b);
  }

  /** An int64 that the parser produced is always one it can read back. */
  lemma ParsedIsPrintable(s: string)
    requires Parse(s).Ok?
    ensures Parse(Canonical(Parse(s).value as int)) == Parse(s)
  {
    var (major, minor) := CutAtPoint(StripSigns(TrimSpace(s)));
    MagnitudeFits(major, minor);
    ParseOfString(Parse(s).value as int);
  }
}
