/** The JSON forms of money: written as a quoted string, read from a string or from a number. */
module MoneyJson {
  import opened Results
  import opened Text
  import opened Money

  predicate IsPlain(c: char) { IsDigit(c) || c == '-' || c == '.' }

  /** Text that json.Marshal puts between quotes without escaping anything. */
  function JsonString(text: string): string
    requires forall i | 0 <= i < |text| :: IsPlain(text[i])
  {
    "\"" + text + "\""
  }

  lemma MoneyTextIsPlain(n: int)
    ensures forall i | 0 <= i < |Canonical(n)| :: IsPlain(Canonical(n)[i])
    ensures IsPlain(Canonical(n)[0])
  {
    DigitsDenote(Abs(n) / 100);
  }

  function MarshalJSON(m: Money): string {
    MoneyTextIsPlain(m as int);
    JsonString(Canonical(m as int))
  }

  /** What UnmarshalJSON stores, or the error it returns. */
  function Unmarshal(data: string): Result<Money> {
    var text := TrimQuotes(TrimSpace(data));
    if text == "null" then Err(InvalidMoney) else Parse(text)
  }

  /** What is left of the data without the spaces and quotes around it, and without spaces inside the
      quotes. */
  function Core(data: string): string {
    TrimSpace(TrimQuotes(TrimSpace(data)))
  }

  lemma NumeralsStartPlainly(n: Numeral)
    requires n.WellFormed()
    ensures n.Spell() != "" && n.Spell()[0] in "+-.0123456789"
  {
    if n.plus || n.minus || n.major == "" {
    } else {
      assert n.Spell()[0] == n.major[0];
      assert IsDigit(n.major[0]);
      DigitsAreTen(n.major[0]);
    }
  }

  lemma NullIsNotRead()
    ensures forall r :: IsReading("null", r) <==> r == Err(InvalidMoney)
  {
    forall n: Numeral | n.WellFormed() ensures n.Spell() != "null" { NumeralsStartPlainly(n); }
  }

  lemma DigitsAreTen(c: char)
    requires IsDigit(c)
    ensures c in "0123456789"
  {
    assert "0123456789"[DigitValue(c)] == c;
  }

  /** Every text, bare or quoted, gets its right answer, and `null` is no numeral. */
  lemma UnmarshalReadsEveryText(data: string)
    ensures IsReading(Core(data), Unmarshal(data))
    ensures Core(data) == "null" ==> Unmarshal(data) == Err(InvalidMoney)
    ensures Unmarshal(data).Err? ==> Unmarshal(data).error == InvalidMoney
  {
    hide Parse, TrimBoth;
    var text := TrimQuotes(TrimSpace(data));
    NothingToTrim("null", IsSpace);
    if Core(data) == "null" || text == "null" { NullIsNotRead(); }
    ParseReadsEveryText(text);
  }

  /** A Money variable that is decoded in place. */
  class MoneyVar {
    var amount: Money

    constructor (amount: Money)
      ensures this.amount == amount
    {
      this.amount := amount;
    }

    /** Stores the decoded amount, which is the one that the text denotes; whatever is not a numeral,
        `null` included, is an error, and then the variable keeps what it had. */
    method UnmarshalJSON(data: string) returns (err: Option<Error>)
      modifies this
      ensures match Unmarshal(data)
              case Ok(m) => err == None && amount == m
              case Err(e) => err == Some(e) && amount == old(amount)
      ensures IsReading(Core(data), if err == None then Ok(amount) else Err(err.value))
      ensures err != None ==> amount == old(amount)
    {
      UnmarshalReadsEveryText(data);
      hide IsReading;
      var text := TrimQuotes(TrimSpace(data));
      if text == "null" { return Some(InvalidMoney); }
      var parsed := ParseMoney(text);
      if parsed.Err? { return Some(parsed.error); }
      amount := parsed.value;
      return None;
    }
  }

  /** Text that trimming spaces and quotes leaves alone, and that quoting does not change either. */
  predicate Solid(text: string) {
    text != "" && IsPlain(text[0]) && !IsSpace(text[|text| - 1]) && !IsQuote(text[|text| - 1])
  }

  lemma SolidTextDecodes(text: string)
    requires Solid(text)
    ensures Unmarshal(text) == ParseTrimmed(text)
    ensures Unmarshal("\"" + text + "\"") == ParseTrimmed(text)
  {
    NothingToTrim(text, IsSpace);
    NothingToTrim(text, IsQuote);
    var quoted := "\"" + text + "\"";
    NothingToTrim(quoted, IsSpace);
    assert quoted[1..] == text + "\"" && (text + "\"")[0] == text[0];
    assert TrimLeft(quoted, IsQuote) == text + "\"";
    assert (text + "\"")[..|text|] == text;
    assert TrimQuotes(quoted) == text;
  }

  /** An amount is encoded as a JSON string, never as a number: its canonical text between quotes. */
  lemma MarshalIsAQuotedDecimal(m: Money)
    ensures exists d: DecimalText ::
              d.Canonical() && d.Amount() == m as int && MarshalJSON(m) == "\"" + d.Spell() + "\""
  {
    StringIsCanonical(m as int);
    var d: DecimalText :| d.Canonical() && d.Spell() == Canonical(m as int) && d.Amount() == m as int;
  }

  /** Decoding an encoded amount gives the amount back exactly within the parser's limit. */
  lemma UnmarshalOfMarshal(m: Money)
    ensures Unmarshal(MarshalJSON(m)) ==
            if -99_999_999_999_999_999 <= m <= 99_999_999_999_999_999 then Ok(m) else Err(InvalidMoney)
  {
    var text := Canonical(m as int);
    MoneyTextIsPlain(m as int);
    CanonicalParts(m as int);
    assert text[|text| - 1] == TwoDigits(Abs(m as int) % 100)[1];
    SolidTextDecodes(text);
    ParseOfString(m as int);
  }

  /** Whatever was decoded, encoding it and decoding again changes nothing. */
  lemma ReencodingIsAFixedPoint(data: string)
    requires Unmarshal(data).Ok?
    ensures Unmarshal(MarshalJSON(Unmarshal(data).value)) == Unmarshal(data)
  {
    var m := Unmarshal(data).value;
    ParsedIsPrintable(TrimQuotes(TrimSpace(data)));
    ParseOfString(m as int);
    UnmarshalOfMarshal(m);
  }

  /** A JSON number, following the grammar of section 6 of RFC 8259. */
  datatype JsonNumber = JsonNumber(minus: bool, whole: string, frac: Option<string>, exp: Option<string>) {
    predicate WellFormed() {
      && whole != "" && AllDigits(whole) && (whole[0] != '0' || |whole| == 1)
      && (frac.Some? ==> frac.value != "" && AllDigits(frac.value))
      && (exp.Some? ==> IsExponent(exp.value))
    }

    function Fraction(): string { if frac.Some? then frac.value else "" }

    function Body(): string {
      whole + (if frac.Some? then "." + frac.value else "") + (if exp.Some? then exp.value else "")
    }

    function Spell(): string { (if minus then "-" else "") + Body() }

    /** The numbers whose text is a short enough count of hundredths. */
    predicate Representable() {
      exp.None? && |whole| <= 15 && |Fraction()| <= 2
    }
  }

  predicate IsExponent(e: string) {
    && |e| >= 2 && (e[0] == 'e' || e[0] == 'E')
    && var digits := if e[1] == '+' || e[1] == '-' then e[2..] else e[1..];
       digits != "" && AllDigits(digits)
  }

  /** The integer part and the rest after the point, with an exponent left where it was written. */
  lemma NumberFallsApart(j: JsonNumber)
    requires j.WellFormed()
    ensures j.exp.None? ==> CutAtPoint(j.Body()) == (j.whole, j.Fraction())
    ensures j.exp.Some? ==> var (major, minor) := CutAtPoint(j.Body());
                            !AllDigits(major) || !AllDigits(minor)
  {
    hide CutAtPoint;
    if j.exp.None? {
      CutFindsThePoint(j.whole, j.Fraction());
      if j.frac.Some? {
        assert j.Body() == j.whole + "." + j.Fraction();
      } else {
        assert j.Body() == j.whole;
      }
    } else {
      ExponentStaysVisible(j);
    }
  }

  lemma ExponentStaysVisible(j: JsonNumber)
    requires j.WellFormed() && j.exp.Some?
    ensures var (major, minor) := CutAtPoint(j.Body());
            !AllDigits(major) || !AllDigits(minor)
  {
    hide CutAtPoint;
    var e := j.exp.value;
    assert !IsDigit(e[0]);
    if j.frac.Some? {
      CutFindsThePoint(j.whole, j.frac.value + e);
      assert j.Body() == j.whole + "." + (j.frac.value + e);
      assert (j.frac.value + e)[|j.frac.value|] == e[0];
    } else {
      ExponentHasNoPoint(e);
      CutFindsThePoint(j.whole + e, "");
      assert j.Body() == j.whole + e;
      assert (j.whole + e)[|j.whole|] == e[0];
    }
  }

  lemma ExponentHasNoPoint(e: string)
    requires IsExponent(e)
    ensures '.' !in e
    ensures IsDigit(e[|e| - 1])
  {
  }

  lemma NumberEndsWithADigit(j: JsonNumber)
    requires j.WellFormed()
    ensures IsDigit(j.Body()[|j.Body()| - 1])
  {
    var front := j.whole + (if j.frac.Some? then "." + j.frac.value else "");
    if j.exp.Some? {
      ExponentHasNoPoint(j.exp.value);
      assert j.Body() == front + j.exp.value;
    } else {
      assert j.Body() == front;
    }
  }

  lemma NumberIsSolid(j: JsonNumber)
    requires j.WellFormed()
    ensures Solid(j.Spell())
    ensures StripSigns(j.Spell()) == j.Body()
    ensures j.Spell()[0] == '-' <==> j.minus
  {
    var body := j.Body();
    assert body[0] == j.whole[0];
    SignedTextIsSolid(j.minus, body) by { NumberEndsWithADigit(j); }
    assert j.Spell() == Signs(false, j.minus) + body;
  }

  lemma SignedTextIsSolid(minus: bool, body: string)
    requires body != "" && IsDigit(body[0]) && IsDigit(body[|body| - 1])
    ensures var text := Signs(false, minus) + body;
            Solid(text) && StripSigns(text) == body && (text[0] == '-' <==> minus)
  {
    StripSignsOf(false, minus, body);
    var text := Signs(false, minus) + body;
    assert text[|text| - 1] == body[|body| - 1];
  }

  /** A JSON number without an exponent, with at most fifteen integer and two fraction digits,
      is decoded exactly. Every other JSON number is refused. Quoting makes no difference. */
  lemma NumbersDecodeExactly(j: JsonNumber)
    requires j.WellFormed()
    ensures Unmarshal("\"" + j.Spell() + "\"") == Unmarshal(j.Spell())
    ensures !j.Representable() ==> Unmarshal(j.Spell()) == Err(InvalidMoney)
    ensures j.Representable() ==>
              var r := Unmarshal(j.Spell());
              && r.Ok? && Abs(r.value as int) * Pow10(|j.Fraction()|) == 100 * Value(j.whole + j.Fraction())
              && (r.value < 0 ==> j.minus) && (r.value > 0 ==> !j.minus)
  {
    hide TrimBoth, Value, Pow10, CutAtPoint, StripSigns, IsExponent, Solid;
    NumberIsSolid(j);
    SolidTextDecodes(j.Spell());
    NumberFallsApart(j);
    if j.Representable() { AssembledAmount(j.minus, j.whole, j.Fraction()); }
  }
}
