/** Price levels: validatePriceLevel / validate_price_level turn user input into a level
    0..4 or "no filter"; the display rule turns a numeric level into currency symbols. */
module PriceLevel {
  import opened Basics

  function DigitValue(c: char): (v: nat)
    requires IsDigit(c)
    ensures v <= 9
  {
    (c as int) - ('0' as int)
  }

  function DigitChar(d: nat): (c: char)
    requires d <= 9
    ensures IsDigit(c) && DigitValue(c) == d
  {
    ('0' as int + d) as char
  }

  /** The value of a run of decimal digits, most significant digit first. */
  function DigitsValue(ds: string): nat
    requires AllDigits(ds)
  {
    if ds == [] then 0 else DigitsValue(ds[..|ds| - 1]) * 10 + DigitValue(ds[|ds| - 1])
  }

  /** The decimal text of a natural number, without leading zeros. */
  function NatText(n: nat): (r: string)
    ensures r != [] && AllDigits(r)
  {
    if n < 10 then [DigitChar(n)] else NatText(n / 10) + [DigitChar(n % 10)]
  }

  /** How a JavaScript template literal or a Python f-string renders an integer. */
  function DecimalText(n: int): (r: string)
    ensures r != [] && (r[0] == '-' || IsDigit(r[0])) && IsDigit(r[|r| - 1])
  {
    if n < 0 then "-" + NatText(-n) else NatText(n)
  }

  lemma {:induction false} NatTextValue(n: nat)
    ensures DigitsValue(NatText(n)) == n
  {
    if n >= 10 {
      NatTextValue(n / 10);
      var t := NatText(n);
      assert t[..|t| - 1] == NatText(n / 10);
    }
  }

  /** The longest prefix of s made of decimal digits. */
  function LeadingDigits(s: string): (r: string)
    ensures AllDigits(r) && StartsWith(s, r)
    ensures |r| < |s| ==> !IsDigit(s[|r|])
  {
    if s != [] && IsDigit(s[0]) then [s[0]] + LeadingDigits(s[1..]) else []
  }

  /** The sign factor of an optional leading '+' or '-', and the text after it. */
  function SplitSign(s: string): (int, string)
  {
    if s != [] && s[0] == '-' then (-1, s[1..])
    else if s != [] && s[0] == '+' then (1, s[1..])
    else (1, s)
  }

  /** JavaScript parseInt(s, 10): leading white space is skipped, then an optional sign and
      as many decimal digits as follow; whatever comes after them is ignored; no digit at all
      gives NaN, here None. A result of -0 is the integer 0. */
  function ParseIntJs(s: string): Option<int>
  {
    var (sign, rest) := SplitSign(TrimStart(s));
    var ds := LeadingDigits(rest);
    if ds == [] then None else Some(sign * DigitsValue(ds))
  }

  predicate DigitOrUnderscore(c: char) {
    IsDigit(c) || c == '_'
  }

  /** Digits with single underscores between them: the body Python's int() accepts. */
  predicate PyDigitBody(b: string) {
    && b != []
    && IsDigit(b[0])
    && IsDigit(b[|b| - 1])
    && (forall i :: 0 <= i < |b| ==> DigitOrUnderscore(b[i]))
    && (forall i :: 0 <= i < |b| - 1 && b[i] == '_' ==> IsDigit(b[i + 1]))
  }

  function WithoutUnderscores(b: string): (r: string)
    ensures (forall i :: 0 <= i < |b| ==> DigitOrUnderscore(b[i])) ==> AllDigits(r)
    ensures AllDigits(b) ==> r == b
  {
    if b == [] then [] else (if b[0] == '_' then [] else [b[0]]) + WithoutUnderscores(b[1..])
  }

  /** Python int(s) on a string: the whole text, white space stripped, must be an optional
      sign and a digit body; anything else raises ValueError, here None. */
  function ParseIntPy(s: string): Option<int>
  {
    var (sign, body) := SplitSign(Trim(s));
    if PyDigitBody(body) then Some(sign * DigitsValue(WithoutUnderscores(body))) else None
  }

  lemma LeadingDigitsOfDigits(ds: string)
    requires AllDigits(ds)
    ensures LeadingDigits(ds) == ds
  {
  }

  /** The decimal text of an integer: its sign, then the digits of its magnitude. */
  lemma SplitDecimal(n: int)
    ensures var m := if n < 0 then -n else n;
      SplitSign(DecimalText(n)) == (if n < 0 then -1 else 1, NatText(m))
  {
    var m := if n < 0 then -n else n;
    var ds := NatText(m);
    if n < 0 {
      var t := DecimalText(n);
      assert t == "-" + ds;
      assert t[1..] == ds;
    } else {
      assert IsDigit(ds[0]);
    }
  }

  /** A decimal text carries no surrounding white space. */
  lemma DecimalUnspaced(n: int)
    ensures TrimStart(DecimalText(n)) == DecimalText(n)
    ensures Trim(DecimalText(n)) == DecimalText(n)
  {
    var t := DecimalText(n);
    assert !IsSpace(t[0]) && !IsSpace(t[|t| - 1]);
  }

  /** A non-empty run of digits is a digit body of int() with nothing to drop. */
  lemma DigitsArePyBody(ds: string)
    requires ds != [] && AllDigits(ds)
    ensures PyDigitBody(ds) && WithoutUnderscores(ds) == ds
  {
  }

  lemma ParseIntJsDecimal(n: int)
    ensures ParseIntJs(DecimalText(n)) == Some(n)
  {
    var m := if n < 0 then -n else n;
    DecimalUnspaced(n);
    SplitDecimal(n);
    LeadingDigitsOfDigits(NatText(m));
    NatTextValue(m);
  }

  lemma ParseIntPyDecimal(n: int)
    ensures ParseIntPy(DecimalText(n)) == Some(n)
  {
    var m := if n < 0 then -n else n;
    DecimalUnspaced(n);
    SplitDecimal(n);
    DigitsArePyBody(NatText(m));
    NatTextValue(m);
  }

  /** What validatePriceLevel / validate_price_level receive: undefined or None, a number,
      NaN, or a string. */
  datatype PriceInput = NoInput | Number(x: real) | NotANumber | Text(s: string)

  /** Conversion of a number to an integer towards zero, as parseInt(x, 10) and int(x) do. */
  function Truncate(x: real): (r: int)
    ensures x >= 0.0 ==> 0 <= r && r as real <= x < r as real + 1.0
    ensures x < 0.0 ==> r <= 0 && r as real - 1.0 < x <= r as real
  {
    if x >= 0.0 then x.Floor else -((-x).Floor)
  }

  function InRange(level: Option<int>): Option<int> {
    if level.Some? && 0 <= level.value <= 4 then level else None
  }

  /** The integer conversion each script uses: parseInt(t, 10) or int(t). */
  function ParseInt(d: Dialect, t: string): Option<int> {
    if d == Js then ParseIntJs(t) else ParseIntPy(t)
  }

  /** The validated price level (0..4), or None for "show all price levels". */
  function ValidatePriceLevel(d: Dialect, input: PriceInput): (r: Option<int>)
    ensures r.Some? ==> 0 <= r.value <= 4
    ensures input.NoInput? || input.NotANumber? ==> r == None
    ensures input.Number? ==> (r.Some? <==> -1.0 < input.x < 5.0)
    ensures input.Number? && r.Some? ==> r.value == Truncate(input.x)
    ensures input.Text? && Trim(input.s) != [] && AllDollars(input.s) ==>
              r == if |input.s| <= 5 then Some(|input.s| - 1) else None
  {
    match input
    case NoInput => None
    case NotANumber => None
    case Number(x) => InRange(Some(Truncate(x)))
    case Text(s) =>
      if Trim(s) != [] && AllDollars(s) then
        (if 1 <= |s| <= 5 then Some(|s| - 1) else None)
      else
        var t := if Trim(s) != [] then Trim(s) else s;
        InRange(ParseInt(d, t))
  }

  const PriceNotAvailable: string := "Price not available"

  /** The price_level text of a result record: levels 0..3 give one to four currency
      symbols, any other number gives four, no level gives "Price not available". */
  function PriceDisplay(level: Option<int>): (r: string)
    ensures level.None? <==> r == PriceNotAvailable
    ensures level.Some? ==> AllDollars(r) && |r| == if 0 <= level.value <= 3 then level.value + 1 else 4
  {
    match level
    case None => PriceNotAvailable
    case Some(n) => if 0 <= n <= 3 then Dollars(n + 1) else Dollars(4)
  }

  /** A decimal integer is accepted exactly when it lies in 0..4, in both scripts. */
  lemma ValidateDecimal(d: Dialect, n: int)
    ensures ValidatePriceLevel(d, Text(DecimalText(n))) == if 0 <= n <= 4 then Some(n) else None
  {
    var t := DecimalText(n);
    assert !AllDollars(t) by { assert t[|t| - 1] != '$'; }
    DecimalUnspaced(n);
    assert ParseInt(d, t) == Some(n) by {
      ParseIntJsDecimal(n);
      ParseIntPyDecimal(n);
    }
    assert ValidatePriceLevel(d, Text(t)) == InRange(ParseInt(d, t));
  }

  /** parseInt finds no digit in a text that opens with anything but white space, a sign
      or a digit. */
  lemma NoDigitPrefix(s: string)
    requires s != [] && !IsSpace(s[0]) && s[0] != '-' && s[0] != '+' && !IsDigit(s[0])
    ensures ParseIntJs(s) == None
  {
    assert TrimStart(s) == s;
    assert SplitSign(s) == (1, s);
    assert LeadingDigits(s) == [];
  }

  /** A non-empty run of currency symbols is read by counting. */
  lemma DollarText(d: Dialect, s: string)
    requires s != [] && AllDollars(s)
    ensures ValidatePriceLevel(d, Text(s)) == if |s| <= 5 then Some(|s| - 1) else None
  {
    assert !IsSpace(s[0]);
  }

  /** The empty text is no level in either script. */
  lemma EmptyText(d: Dialect)
    ensures ValidatePriceLevel(d, Text([])) == None
  {
    assert Trim([]) == [];
    assert ParseIntJs([]) == None by { assert TrimStart([]) == []; }
    assert ParseIntPy([]) == None;
  }

  /** A text that opens with a character neither white space, a sign, a digit nor a
      currency symbol, and does not end in white space, is no level in either script. */
  lemma WordText(d: Dialect, s: string)
    requires s != [] && !IsSpace(s[0]) && s[0] != '-' && s[0] != '+' && !IsDigit(s[0]) && s[0] != '$'
    requires !IsSpace(s[|s| - 1])
    ensures ValidatePriceLevel(d, Text(s)) == None
  {
    assert !AllDollars(s);
    assert Trim(s) == s;
    NoDigitPrefix(s);
    assert SplitSign(s) == (1, s);
    assert !PyDigitBody(s);
  }

  /** A run of currency symbols of length n means level n - 1 when 1 <= n <= 5. */
  lemma DollarRuns(d: Dialect, n: nat)
    ensures ValidatePriceLevel(d, Text(Dollars(n))) == if 1 <= n <= 5 then Some(n - 1) else None
  {
    if n > 0 {
      DollarText(d, Dollars(n));
    } else {
      assert Dollars(n) == [];
      EmptyText(d);
    }
  }

  /** Reading a displayed price back through validation recovers the level, except that
      the display saturates at four symbols. */
  lemma DisplayThenValidate(d: Dialect, level: Option<int>)
    ensures ValidatePriceLevel(d, Text(PriceDisplay(level))) ==
              match level
              case None => None
              case Some(n) => Some(if 0 <= n <= 3 then n else 3)
  {
    var s := PriceDisplay(level);
    if level.None? {
      assert s[0] == 'P' && s[|s| - 1] == 'e';
      WordText(d, s);
    } else {
      DollarText(d, s);
    }
  }

  /** The scripts disagree on trailing garbage: parseInt("3abc", 10) is 3, int("3abc") raises. */
  lemma TrailingTextDivergence()
    ensures ValidatePriceLevel(Js, Text("3abc")) == Some(3)
    ensures ValidatePriceLevel(Py, Text("3abc")) == None
  {
    var s := "3abc";
    assert !AllDollars(s) by { assert s[0] != '$'; }
    assert Trim(s) == s by { assert !IsSpace(s[0]) && !IsSpace(s[3]); }
    assert ParseIntJs(s) == Some(3) by {
      assert TrimStart(s) == s;
      assert SplitSign(s) == (1, s);
      assert LeadingDigits(s) == "3" by {
        assert LeadingDigits(s[1..]) == [] by { assert !IsDigit(s[1]); }
      }
      assert DigitsValue("3") == 3 by { assert "3"[..0] == []; }
    }
    assert ParseIntPy(s) == None by {
      assert SplitSign(s) == (1, s);
      assert !PyDigitBody(s) by { assert !DigitOrUnderscore(s[1]); }
    }
  }
}
