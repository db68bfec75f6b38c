/** The Node script's command line: parseArgs tokenises argv into an args object
    (--key=value and --key value forms), converts radius and price-level to numbers, and
    the script refuses to start without a zip code, a radius and an API key. */
module Cli {
  import opened Basics
  import opened PriceLevel
  import opened Places

  /** A value of the args object: a string, `true` for a bare --key, or the number (or
      NaN) that the numeric conversion made of it. */
  datatype ArgValue = Str(s: string) | Flag | Num(x: real) | NaN

  type Args = map<string, ArgValue>

  /** How JavaScript's `if (v)` judges an argument value. */
  predicate ArgTruthy(v: ArgValue) {
    match v
    case Str(s) => s != ""
    case Flag => true
    case Num(x) => x != 0.0
    case NaN => false
  }

  predicate Given(args: Args, key: string) {
    key in args && ArgTruthy(args[key])
  }

  /** key.replace(/^--/, ''): one leading "--" removed. */
  function StripDashes(s: string): (r: string)
    ensures StartsWith(s, "--") ==> s == "--" + r
    ensures !StartsWith(s, "--") ==> r == s
  {
    if StartsWith(s, "--") then s[2..] else s
  }

  /** token.split('=')[1]: the text between the first '=' and the next one. */
  function SecondPart(t: string): (r: string)
    requires '=' in t
    ensures '=' !in r
  {
    UpTo(After(t, '='), '=')
  }

  /** `--k=v` gives v, and `--k=v=w` gives v as well: only parts[1] is kept. */
  lemma SecondPartIsValue(k: string, v: string, w: string)
    requires '=' !in k && '=' !in v
    ensures SecondPart(k + "=" + v) == v
    ensures SecondPart(k + "=" + v + "=" + w) == v
  {
    AfterSplit(k, v, '=');
    UpToAbsent(v, '=');
    var t := k + "=" + v + "=" + w;
    assert t == k + ['='] + (v + "=" + w);
    AfterSplit(k, v + "=" + w, '=');
    assert v + "=" + w == v + ("=" + w);
    UpToSplit(v, "=" + w, '=');
  }

  /** A token the --key form may take as its value: present, non-empty, and not itself
      an option. */
  predicate TakesValue(argv: seq<string>) {
    |argv| > 1 && argv[1] != "" && !StartsWith(argv[1], "--")
  }

  /** The tokenising loop of parseArgs from the current token on, with the object built so
      far: a token with '=' sets its key to the second '='-separated part, a token
      starting with "--" takes the next token as its value when it can and `true`
      otherwise, and any other token is skipped. */
  function Tokenise(argv: seq<string>, acc: Args): Args
    decreases |argv|
  {
    if argv == [] then acc
    else
      var t := argv[0];
      if '=' in t then Tokenise(argv[1..], acc[StripDashes(UpTo(t, '=')) := Str(SecondPart(t))])
      else if StartsWith(t, "--") then
        if TakesValue(argv) then Tokenise(argv[2..], acc[StripDashes(t) := Str(argv[1])])
        else Tokenise(argv[1..], acc[StripDashes(t) := Flag])
      else Tokenise(argv[1..], acc)
  }

  /** Every value the tokeniser stores is a string or `true`. */
  predicate Raw(args: Args) {
    forall k :: k in args ==> args[k].Str? || args[k].Flag?
  }

  lemma {:induction false} TokeniseRaw(argv: seq<string>, acc: Args)
    requires Raw(acc)
    ensures Raw(Tokenise(argv, acc))
    decreases |argv|
  {
    if argv != [] {
      var t := argv[0];
      if '=' in t {
        TokeniseRaw(argv[1..], acc[StripDashes(UpTo(t, '=')) := Str(SecondPart(t))]);
      } else if StartsWith(t, "--") {
        if TakesValue(argv) {
          TokeniseRaw(argv[2..], acc[StripDashes(t) := Str(argv[1])]);
        } else {
          TokeniseRaw(argv[1..], acc[StripDashes(t) := Flag]);
        }
      } else {
        TokeniseRaw(argv[1..], acc);
      }
    }
  }

  /** Tokenising can be split at a token that starts with "--": such a token is never
      taken as the value of the token before it. */
  lemma {:induction false} TokeniseSplit(a: seq<string>, b: seq<string>, acc: Args)
    requires b == [] || StartsWith(b[0], "--")
    ensures Tokenise(a + b, acc) == Tokenise(b, Tokenise(a, acc))
    decreases |a|
  {
    if a == [] {
      assert a + b == b;
    } else {
      var t := a[0];
      var ab := a + b;
      assert ab[0] == t && ab[1..] == a[1..] + b;
      if '=' in t {
        TokeniseSplit(a[1..], b, acc[StripDashes(UpTo(t, '=')) := Str(SecondPart(t))]);
      } else if StartsWith(t, "--") {
        if TakesValue(a) {
          assert TakesValue(ab) && ab[1] == a[1];
          assert ab[2..] == a[2..] + b;
          TokeniseSplit(a[2..], b, acc[StripDashes(t) := Str(a[1])]);
        } else {
          assert !TakesValue(ab) by {
            if |a| > 1 {
              assert ab[1] == a[1];
            } else if |ab| > 1 {
              assert ab[1] == b[0];
            }
          }
          TokeniseSplit(a[1..], b, acc[StripDashes(t) := Flag]);
        }
      } else {
        TokeniseSplit(a[1..], b, acc);
      }
    }
  }

  /** parseFloat's number syntax without exponents or Infinity: leading white space, an
      optional sign, digits with an optional fraction; whatever follows is ignored (so an
      exponent is not read), and no digit at all gives NaN, here None. */
  function ParseFloatJs(s: string): Option<real> {
    var (sign, rest) := SplitSign(TrimStart(s));
    var whole := LeadingDigits(rest);
    var after := rest[|whole|..];
    var frac := if after != [] && after[0] == '.' then LeadingDigits(after[1..]) else [];
    if whole == [] && frac == [] then None
    else Some(sign as real * (DigitsValue(whole) as real + DigitsValue(frac) as real / Pow10(|frac|) as real))
  }

  function Pow10(n: nat): (p: nat)
    ensures p >= 1
  {
    if n == 0 then 1 else 10 * Pow10(n - 1)
  }

  /** A whole number written in decimal reads back as itself. */
  lemma ParseFloatNat(n: nat)
    ensures ParseFloatJs(NatText(n)) == Some(n as real)
  {
    var t := NatText(n);
    assert TrimStart(t) == t;
    assert SplitSign(t) == (1, t);
    LeadingDigitsOfDigits(t);
    NatTextValue(n);
    assert t[|t|..] == [];
  }

  /** parseFloat(v): the Number made of a string, NaN for `true`. */
  function ToFloat(v: ArgValue): ArgValue {
    match v
    case Str(s) => (match ParseFloatJs(s) case Some(x) => Num(x) case None => NaN)
    case Flag => NaN
    case _ => v
  }

  /** parseInt(v, 10): the integer made of a string, NaN for `true`. */
  function ToInt(v: ArgValue): ArgValue {
    match v
    case Str(s) => (match ParseIntJs(s) case Some(n) => Num(n as real) case None => NaN)
    case Flag => NaN
    case Num(x) => Num(Truncate(x) as real)
    case NaN => NaN
  }

  /** What the numeric conversion leaves behind: radius and price-level are numbers, NaN
      or the empty string, every other key a string or `true`. */
  predicate Converted(args: Args) {
    forall k :: k in args ==>
      if k == "radius" || k == "price-level" then !args[k].Flag? && (args[k].Str? ==> args[k].s == "")
      else args[k].Str? || args[k].Flag?
  }

  /** `if (args.radius) args.radius = parseFloat(args.radius)` and the same with parseInt
      for price-level. */
  function ConvertNumeric(args: Args): (r: Args)
    ensures r.Keys == args.Keys
    ensures forall k :: k in args && k != "radius" && k != "price-level" ==> r[k] == args[k]
    ensures Raw(args) ==> Converted(r)
  {
    var a := if Given(args, "radius") then args["radius" := ToFloat(args["radius"])] else args;
    if Given(a, "price-level") then a["price-level" := ToInt(a["price-level"])] else a
  }

  /** parseArgs over process.argv.slice(2). */
  method ParseArgs(argv: seq<string>) returns (args: Args)
    ensures args == ConvertNumeric(Tokenise(argv, map[]))
    ensures Converted(args)
  {
    args := map[];
    var i := 0;
    while i < |argv|
      invariant 0 <= i <= |argv|
      invariant Tokenise(argv[i..], args) == Tokenise(argv, map[])
    {
      if '=' in argv[i] {
        args := args[StripDashes(UpTo(argv[i], '=')) := Str(SecondPart(argv[i]))];
        assert argv[i..][1..] == argv[i + 1..];
        i := i + 1;
        continue;
      }
      if StartsWith(argv[i], "--") {
        var key := StripDashes(argv[i]);
        var value := if i + 1 < |argv| && argv[i + 1] != "" && !StartsWith(argv[i + 1], "--") then Str(argv[i + 1]) else Flag;
        args := args[key := value];
        if value != Flag {
          assert argv[i..][2..] == argv[i + 2..];
          i := i + 1;
        } else {
          assert argv[i..][1..] == argv[i + 1..];
        }
      } else {
        assert argv[i..][1..] == argv[i + 1..];
      }
      i := i + 1;
    }
    TokeniseRaw(argv, map[]);
    if Given(args, "radius") {
      args := args["radius" := ToFloat(args["radius"])];
    }
    if Given(args, "price-level") {
      args := args["price-level" := ToInt(args["price-level"])];
    }
  }

  /** A later --key=value overrides whatever the tokens before it set for that key, and
      leaves every other key alone. */
  lemma LastOccurrenceWins(a: seq<string>, k: string, v: string, acc: Args)
    requires '=' !in k && '=' !in v
    ensures Tokenise(a + ["--" + k + "=" + v], acc) == Tokenise(a, acc)[k := Str(v)]
  {
    var t := "--" + k + "=" + v;
    TokeniseSplit(a, [t], acc);
    assert t == ("--" + k) + ("=" + v);
    UpToSplit("--" + k, "=" + v, '=');
    AfterSplit("--" + k, v, '=');
    assert t == ("--" + k) + ['='] + v;
    UpToAbsent(v, '=');
    assert StripDashes("--" + k) == k;
    assert [t][1..] == [];
  }

  /** A token the --key form takes as its value. */
  predicate ValueToken(v: string) {
    v != "" && !StartsWith(v, "--")
  }

  lemma NotOption(s: string)
    requires s != [] && s[0] != '-'
    ensures !StartsWith(s, "--")
  {
    if |s| >= 2 {
      assert s[..2][0] == s[0];
    }
  }

  /** One step of the loop on `--key value`. */
  lemma ValueStep(k: string, v: string, b: seq<string>, acc: Args)
    requires '=' !in k && ValueToken(v)
    ensures Tokenise(["--" + k, v] + b, acc) == Tokenise(b, acc[k := Str(v)])
  {
    var argv := ["--" + k, v] + b;
    assert argv[0] == "--" + k && argv[1] == v && argv[2..] == b;
    assert '=' !in argv[0];
    assert StripDashes(argv[0]) == k;
  }

  /** One step of the loop at position i on a token that is neither an option nor has
      '=': it is skipped. */
  lemma SkipStepAt(argv: seq<string>, i: nat, acc: Args)
    requires i < |argv| && '=' !in argv[i] && !StartsWith(argv[i], "--")
    ensures Tokenise(argv[i..], acc) == Tokenise(argv[i + 1..], acc)
  {
    assert argv[i..][1..] == argv[i + 1..];
  }

  /** `--key value`: the value is taken and skipped, and tokenising goes on after it. */
  lemma SeparateValueForm(a: seq<string>, k: string, v: string, b: seq<string>, acc: Args)
    requires '=' !in k && ValueToken(v)
    ensures Tokenise(a + ["--" + k, v] + b, acc) == Tokenise(b, Tokenise(a, acc)[k := Str(v)])
  {
    var t := "--" + k;
    assert a + [t, v] + b == a + ([t, v] + b);
    TokeniseSplit(a, [t, v] + b, acc);
    ValueStep(k, v, b, Tokenise(a, acc));
  }

  /** `--key` followed by nothing, an empty token or another option maps the key to
      `true` and skips nothing. */
  lemma FlagForm(a: seq<string>, k: string, b: seq<string>, acc: Args)
    requires '=' !in k
    requires b == [] || b[0] == "" || StartsWith(b[0], "--")
    ensures Tokenise(a + ["--" + k] + b, acc) == Tokenise(b, Tokenise(a, acc)[k := Flag])
  {
    var t := "--" + k;
    assert a + [t] + b == a + ([t] + b);
    TokeniseSplit(a, [t] + b, acc);
    var rest := [t] + b;
    assert rest[0] == t && rest[1..] == b;
    assert '=' !in t;
    assert StripDashes(t) == k;
    assert !TakesValue(rest);
  }

  /** The price-level argument as validatePriceLevel receives it. */
  function PriceArg(args: Args): PriceInput {
    if "price-level" !in args then NoInput
    else
      match args["price-level"]
      case Num(x) => Number(x)
      case NaN => NotANumber
      case Flag => NotANumber
      case Str(s) => Text(s)
  }

  /** Because parseArgs already runs parseInt on price-level, validatePriceLevel never sees
      a non-blank string from the command line: its "$$" branch is unreachable there. */
  lemma DollarFormUnreachable(argv: seq<string>)
    ensures var p := PriceArg(ConvertNumeric(Tokenise(argv, map[])));
      !(p.Text? && p.s != "")
  {
    TokeniseRaw(argv, map[]);
  }

  /** "--price-level $$" therefore means "no filter" from the Node command line, although
      validatePriceLevel maps "$$" itself to level 1. */
  lemma DollarArgumentIgnored()
    ensures ValidatePriceLevel(Js, PriceArg(ConvertNumeric(Tokenise(["--price-level", "$$"], map[])))) == None
    ensures ValidatePriceLevel(Js, Text("$$")) == Some(1)
  {
    DollarArgumentTokens();
    NonNumericLevel(map["price-level" := Str("$$")]);
    assert Dollars(2) == "$$" by {
      assert |Dollars(2)| == 2;
    }
    DollarRuns(Js, 2);
  }

  lemma DollarArgumentTokens()
    ensures Tokenise(["--price-level", "$$"], map[]) == map["price-level" := Str("$$")]
  {
    var argv := ["--price-level", "$$"];
    assert !StartsWith(argv[1], "--") by { assert argv[1][0] != '-'; }
    assert '=' !in argv[0] && StartsWith(argv[0], "--") && TakesValue(argv);
    assert StripDashes(argv[0]) == "price-level";
    assert argv[2..] == [];
  }

  /** A truthy radius argument is replaced by its parseFloat; a falsy one is kept. */
  lemma RadiusConversion(args: Args)
    requires "radius" in args
    ensures ConvertNumeric(args)["radius"] ==
              if Given(args, "radius") then ToFloat(args["radius"]) else args["radius"]
  {
    var a := if Given(args, "radius") then args["radius" := ToFloat(args["radius"])] else args;
    assert ConvertNumeric(args)["radius"] == a["radius"];
  }

  /** A truthy price-level argument is replaced by its parseInt, whatever the radius. */
  lemma LevelConversion(args: Args)
    requires Given(args, "price-level")
    ensures PriceArg(ConvertNumeric(args)) ==
              match ToInt(args["price-level"])
              case Num(x) => Number(x)
              case _ => NotANumber
  {
    var a := if Given(args, "radius") then args["radius" := ToFloat(args["radius"])] else args;
    assert a["price-level"] == args["price-level"];
  }

  /** A price-level string that parseInt cannot read becomes NaN. */
  lemma NonNumericLevel(args: Args)
    requires "price-level" in args && args["price-level"].Str?
    requires var s := args["price-level"].s;
      s != [] && !IsSpace(s[0]) && s[0] != '-' && s[0] != '+' && !IsDigit(s[0])
    ensures PriceArg(ConvertNumeric(args)) == NotANumber
  {
    NoDigitPrefix(args["price-level"].s);
    LevelConversion(args);
  }

  /** Why the script refuses to run: exit status 1 with one of these messages. */
  datatype ExitReason = MissingZipcode | MissingRadius | MissingApiKey

  /** What the script goes on with: the zip code to geocode and the search request. */
  datatype Setup = Setup(zipcode: string, request: SearchRequest)

  /** The text a string-or-`true` argument stands for in a template literal. */
  function ArgText(v: ArgValue): string
    requires v.Str? || v.Flag?
  {
    if v.Str? then v.s else "true"
  }

  /** `argv.search || null`. */
  function SearchOf(args: Args): (r: Option<string>)
    requires Converted(args)
    ensures r.None? <==> !Given(args, "search")
    ensures r.Some? ==> r.value == ArgText(args["search"])
    ensures "search" in args && args["search"] == Flag ==> r == Some("true")
  {
    if Given(args, "search") then Some(ArgText(args["search"])) else None
  }

  /** The checks before any request (zip code, then radius, then the API key from the
      environment) and the request built from the arguments that pass them. */
  function Configure(args: Args, apiKey: Option<string>): (r: Result<Setup, ExitReason>)
    requires Converted(args)
    ensures r == Err(MissingZipcode) <==> !Given(args, "zipcode")
    ensures r == Err(MissingRadius) <==> Given(args, "zipcode") && !Given(args, "radius")
    ensures r == Err(MissingApiKey) <==> Given(args, "zipcode") && Given(args, "radius") && !Truthy(apiKey)
    ensures r.Ok? ==> && r.value.zipcode == ArgText(args["zipcode"])
                      && args["radius"] == Num(r.value.request.radiusMiles)
                      && r.value.request.radiusMiles != 0.0
                      && Some(r.value.request.key) == apiKey
                      && r.value.request.searchTerm == SearchOf(args)
                      && r.value.request.priceLevel == ValidatePriceLevel(Js, PriceArg(args))
  {
    if !Given(args, "zipcode") then Err(MissingZipcode)
    else if !Given(args, "radius") then Err(MissingRadius)
    else if !Truthy(apiKey) then Err(MissingApiKey)
    else
      Ok(Setup(ArgText(args["zipcode"]),
               SearchRequest(apiKey.value, args["radius"].x, SearchOf(args), ValidatePriceLevel(Js, PriceArg(args)))))
  }

  /** A radius whose text parses to 0 or to NaN counts as missing. */
  lemma RadiusZeroOrNaNIsMissing(argv: seq<string>, s: string, apiKey: Option<string>)
    requires var args := Tokenise(argv, map[]);
      "radius" in args && args["radius"] == Str(s) && Given(args, "zipcode")
    requires ParseFloatJs(s) == None || ParseFloatJs(s) == Some(0.0)
    ensures Raw(Tokenise(argv, map[]))
    ensures Configure(ConvertNumeric(Tokenise(argv, map[])), apiKey) == Err(MissingRadius)
  {
    TokeniseRaw(argv, map[]);
    FalsyRadiusStops(Tokenise(argv, map[]), apiKey);
  }

  /** The same on the object the tokeniser built. */
  lemma FalsyRadiusStops(args: Args, apiKey: Option<string>)
    requires Raw(args) && Given(args, "zipcode") && "radius" in args && args["radius"].Str?
    requires ParseFloatJs(args["radius"].s) == None || ParseFloatJs(args["radius"].s) == Some(0.0)
    ensures Configure(ConvertNumeric(args), apiKey) == Err(MissingRadius)
  {
    var c := ConvertNumeric(args);
    assert !Given(c, "radius") by {
      RadiusConversion(args);
    }
    assert Given(c, "zipcode") by {
      assert |"zipcode"| != |"radius"| && |"zipcode"| != |"price-level"|;
      assert c["zipcode"] == args["zipcode"];
    }
  }
}
