/** The restaurants API route: the fallback catalogue and its filter (getMockRestaurants),
    the shift from the interface's 1..4 price scale to the places service's 0..3, the
    command line handed to the Node script, and the mapping of its results. */
module Route {
  import opened Basics
  import opened PriceLevel
  import opened Places
  import opened Sorting
  import opened Search
  import Cli

  /** A value of the posted JSON body as JavaScript sees it after request.json(). */
  datatype JsonValue = Undefined | Null | Bool(b: bool) | Num(x: real) | Str(s: string)

  /** JavaScript truthiness of a JSON value (JSON carries no NaN). */
  predicate JsTruthy(v: JsonValue) {
    match v
    case Undefined => false
    case Null => false
    case Bool(b) => b
    case Num(x) => x != 0.0
    case Str(s) => s != ""
  }

  datatype MockRestaurant = MockRestaurant(
    id: string,
    name: string,
    category: string,
    mealTypes: seq<string>,
    priceRange: string,
    priceLevelNumeric: int,
    address: string,
    isOpen: bool,
    distance: real,
    rating: real)

  /** Entry k (1..18) of the fixed fallback table; only the addresses depend on the zip
      code. Every entry is open, and its price range is as many currency symbols as its
      numeric level, which lies in 1..4. */
  function Entry(k: nat, zip: string): (m: MockRestaurant)
    requires 1 <= k <= 18
    ensures m.id == MockId(k) && m.isOpen
    ensures 1 <= m.priceLevelNumeric <= 4 && m.priceRange == Dollars(m.priceLevelNumeric)
  {
    DollarTexts();
    match k
    case 1 => MockRestaurant(MockId(1), "Joe's Diner", "Diner", ["breakfast", "lunch"], "$$", 2, "123 Main St, " + zip, true, 1.5, 4.2)
    case 2 => MockRestaurant(MockId(2), "Pancake Palace", "Pancakes", ["breakfast"], "$$", 2, "456 Maple Ave, " + zip, true, 2.3, 4.5)
    case 3 => MockRestaurant(MockId(3), "Taco Town", "Tacos", ["lunch", "dinner"], "$", 1, "789 Oak St, " + zip, true, 0.8, 4.7)
    case 4 => MockRestaurant(MockId(4), "Pizza Planet", "Pizza", ["lunch", "dinner"], "$$", 2, "101 Pine Rd, " + zip, true, 3.1, 4.0)
    case 5 => MockRestaurant(MockId(5), "Thai Delight", "Thai", ["dinner"], "$$$", 3, "202 Cedar Blvd, " + zip, true, 4.2, 4.8)
    case 6 => MockRestaurant(MockId(6), "Morning Eggs", "Eggs", ["breakfast"], "$", 1, "303 Breakfast Ave, " + zip, true, 1.2, 4.3)
    case 7 => MockRestaurant(MockId(7), "Bagel Bros", "Bagels", ["breakfast"], "$", 1, "404 Morning St, " + zip, true, 0.9, 4.1)
    case 8 => MockRestaurant(MockId(8), "Coffee Corner", "Coffee Shop", ["breakfast"], "$", 1, "505 Bean Blvd, " + zip, true, 1.7, 4.4)
    case 9 => MockRestaurant(MockId(9), "Sandwich Spot", "Sandwiches", ["lunch"], "$$", 2, "606 Lunch Lane, " + zip, true, 2.1, 4.0)
    case 10 => MockRestaurant(MockId(10), "Salad Station", "Salads", ["lunch"], "$$", 2, "707 Healthy Rd, " + zip, true, 1.8, 4.2)
    case 11 => MockRestaurant(MockId(11), "Burger Barn", "Fast Food", ["lunch", "dinner"], "$", 1, "808 Quick St, " + zip, true, 1.3, 3.9)
    case 12 => MockRestaurant(MockId(12), "Pasta Place", "Italian", ["dinner"], "$$$", 3, "909 Italy Ave, " + zip, true, 3.4, 4.6)
    case 13 => MockRestaurant(MockId(13), "Taqueria Delicious", "Mexican", ["dinner"], "$$", 2, "1010 Mexico Blvd, " + zip, true, 2.9, 4.3)
    case 14 => MockRestaurant(MockId(14), "Wok & Roll", "Chinese", ["dinner"], "$$", 2, "1111 China St, " + zip, true, 3.7, 4.4)
    case 15 => MockRestaurant(MockId(15), "All-American Grill", "American", ["lunch", "dinner"], "$$$", 3, "1212 USA Ave, " + zip, true, 2.4, 4.1)
    case 16 => MockRestaurant(MockId(16), "Sushi Supreme", "Japanese", ["dinner"], "$$$", 3, "1313 Japan Blvd, " + zip, true, 4.1, 4.7)
    case 17 => MockRestaurant(MockId(17), "Curry Kitchen", "Indian", ["dinner"], "$$", 2, "1414 India St, " + zip, true, 3.8, 4.5)
    case _ => MockRestaurant(MockId(18), "Luxury Dining", "American", ["dinner"], "$$$$", 4, "1515 Expensive Ave, " + zip, true, 5.2, 4.9)
  }

  /** The table in order. */
  function Catalogue(zip: string): (c: seq<MockRestaurant>)
    ensures |c| == 18
    ensures forall i :: 0 <= i < |c| ==> c[i] == Entry(i + 1, zip)
    ensures forall i :: 0 <= i < |c| ==>
              && c[i].id == MockId(i + 1) && c[i].isOpen
              && 1 <= c[i].priceLevelNumeric <= 4 && c[i].priceRange == Dollars(c[i].priceLevelNumeric)
  {
    seq(18, i requires 0 <= i < 18 => Entry(i + 1, zip))
  }

  /** The id of the k-th entry: "mock-" and k in decimal. */
  function MockId(k: nat): string {
    "mock-" + NatText(k)
  }

  /** No two catalogue entries share an id. */
  lemma CatalogueIdsUnique(zip: string)
    ensures forall i, j :: 0 <= i < j < 18 ==> Catalogue(zip)[i].id != Catalogue(zip)[j].id
  {
    forall i, j | 0 <= i < j < 18 ensures Catalogue(zip)[i].id != Catalogue(zip)[j].id {
      var a, b := NatText(i + 1), NatText(j + 1);
      NatTextValue(i + 1);
      NatTextValue(j + 1);
      assert MockId(i + 1)[5..] == a && MockId(j + 1)[5..] == b;
    }
  }

  lemma DollarTexts()
    ensures Dollars(1) == "$" && Dollars(2) == "$$" && Dollars(3) == "$$$" && Dollars(4) == "$$$$"
  {
    assert |Dollars(1)| == 1 && |Dollars(2)| == 2 && |Dollars(3)| == 3 && |Dollars(4)| == 4;
  }

  /** The three conditions of the filter callback. */
  predicate Matches(m: MockRestaurant, mealType: JsonValue, category: JsonValue, priceLevel: JsonValue) {
    && mealType.Str? && mealType.s in m.mealTypes
    && category.Str? && category.s == m.category
    && (JsTruthy(priceLevel) ==> priceLevel == Num(m.priceLevelNumeric as real))
  }

  /** getMockRestaurants: the catalogue entries that match, in catalogue order. */
  function GetMockRestaurants(mealType: JsonValue, category: JsonValue, zip: string, priceLevel: JsonValue)
    : (r: seq<MockRestaurant>)
    ensures IsSubsequence(r, Catalogue(zip))
    ensures forall m :: m in r ==> m in Catalogue(zip) && Matches(m, mealType, category, priceLevel)
    ensures forall m :: m in Catalogue(zip) && Matches(m, mealType, category, priceLevel) ==> m in r
  {
    Filter(Catalogue(zip), m => Matches(m, mealType, category, priceLevel))
  }

  lemma {:induction false} FilterAgrees<T>(s: seq<T>, p: T -> bool, q: T -> bool)
    requires forall x :: x in s ==> p(x) == q(x)
    ensures Filter(s, p) == Filter(s, q)
  {
    if s != [] {
      assert forall x :: x in s[1..] ==> x in s;
      FilterAgrees(s[1..], p, q);
    }
  }

  /** A falsy price level (0, null, false, "", or none at all) switches the price
      condition off: the result is that of no price level. */
  lemma FalsyLevelIgnored(mealType: JsonValue, category: JsonValue, zip: string, priceLevel: JsonValue)
    requires !JsTruthy(priceLevel)
    ensures GetMockRestaurants(mealType, category, zip, priceLevel) == GetMockRestaurants(mealType, category, zip, Undefined)
  {
    FilterAgrees(Catalogue(zip),
      m => Matches(m, mealType, category, priceLevel),
      m => Matches(m, mealType, category, Undefined));
  }

  /** A price level that arrives as a non-empty string never equals a numeric level
      (the comparison is ===), so nothing is returned. */
  lemma TextLevelMatchesNothing(mealType: JsonValue, category: JsonValue, zip: string, level: string)
    requires level != ""
    ensures GetMockRestaurants(mealType, category, zip, Str(level)) == []
  {
    var p := m => Matches(m, mealType, category, Str(level));
    assert forall m :: !p(m);
    FilterNone(Catalogue(zip), p);
  }

  lemma {:induction false} FilterNone<T>(s: seq<T>, p: T -> bool)
    requires forall x :: x in s ==> !p(x)
    ensures Filter(s, p) == []
  {
    if s != [] {
      assert forall x :: x in s[1..] ==> x in s;
      FilterNone(s[1..], p);
    }
  }

  /** `priceLevel - 1`: the interface's 1..4 scale becomes the service's 0..3. */
  function GooglePriceLevel(uiLevel: int): int {
    uiLevel - 1
  }

  /** The route's command line split into words the way the shell does at spaces: each
      interpolated value becomes as many tokens as it has words. */
  function Words(s: string): (ws: seq<string>)
    ensures forall w :: w in ws ==> w != "" && ' ' !in w
    decreases |s|
  {
    if s == [] then []
    else if s[0] == ' ' then Words(s[1..])
    else
      var w := UpTo(s, ' ');
      [w] + Words(s[|w|..])
  }

  /** category.toLowerCase() on ASCII letters. */
  function Lower(s: string): (r: string)
    ensures |r| == |s|
  {
    seq(|s|, i requires 0 <= i < |s| => if 'A' <= s[i] <= 'Z' then (s[i] as int + 32) as char else s[i])
  }

  /** `--key ${value}` unquoted: the value arrives as as many tokens as it has words. */
  function Unquoted(key: string, value: string): seq<string> {
    ["--" + key] + Words(value)
  }

  /** `--key value` with the value passed as one token. */
  function Quoted(key: string, value: string): seq<string> {
    ["--" + key, value]
  }

  /** The arguments the Node script receives from the route's command as written. */
  function CommandArgv(zip: string, radius: string, category: string, uiLevel: int): seq<string> {
    Unquoted("zipcode", zip) + Unquoted("radius", radius) + Unquoted("search", Lower(category))
      + Unquoted("price-level", DecimalText(GooglePriceLevel(uiLevel)))
  }

  /** The arguments with every value passed as a single token, as the command intends. */
  function QuotedCommandArgv(zip: string, radius: string, category: string, uiLevel: int): seq<string> {
    Quoted("zipcode", zip) + Quoted("radius", radius) + Quoted("search", Lower(category))
      + Quoted("price-level", DecimalText(GooglePriceLevel(uiLevel)))
  }

  lemma {:induction false} WordsOfWord(w: string)
    requires w != [] && ' ' !in w
    ensures Words(w) == [w]
  {
    UpToAbsent(w, ' ');
    assert w[|w|..] == [];
  }

  lemma WordsOfTwo(a: string, b: string)
    requires a != [] && ' ' !in a && b != [] && ' ' !in b
    ensures Words(a + " " + b) == [a, b]
  {
    var s := a + " " + b;
    assert s == a + (" " + b);
    UpToSplit(a, " " + b, ' ');
    assert s[|a|..] == " " + b;
    assert Words(" " + b) == Words(b) by { assert (" " + b)[1..] == b; }
    WordsOfWord(b);
  }

  /** A word the Node parser takes whole as the value of the option before it. */
  predicate PlainValue(w: string) {
    Cli.ValueToken(w) && ' ' !in w
  }

  /** The price-level token always carries a value: a decimal integer is a plain word. */
  lemma DecimalIsPlain(n: int)
    ensures PlainValue(DecimalText(n))
  {
    var t := DecimalText(n);
    if n < 0 {
      assert t == "-" + NatText(-n);
      assert IsDigit(t[1]);
      assert t[..2] != "--";
    } else {
      assert IsDigit(t[0]);
    }
  }

  /** The level the Node script ends up filtering by, for each interface level: levels
      1..5 arrive as 0..4 and any other number as no filter. */
  lemma LevelArrives(u: int)
    ensures Cli.ToInt(Cli.Str(DecimalText(GooglePriceLevel(u)))) == Cli.Num((u - 1) as real)
    ensures ValidatePriceLevel(Js, Number((u - 1) as real)) == if 1 <= u <= 5 then Some(u - 1) else None
  {
    ParseIntJsDecimal(u - 1);
    assert Truncate((u - 1) as real) == u - 1;
  }

  /** The arguments object the script builds from the route's values. */
  function ExpectedArgs(zip: string, radius: string, search: string, u: int): Cli.Args {
    map["zipcode" := Cli.Str(zip), "radius" := Cli.Str(radius), "search" := Cli.Str(search),
        "price-level" := Cli.Str(DecimalText(GooglePriceLevel(u)))]
  }

  /** The option words of the command. */
  lemma OptionWords()
    ensures '=' !in "zipcode" && '=' !in "radius" && '=' !in "search" && '=' !in "price-level"
    ensures StartsWith("--" + "radius", "--") && StartsWith("--" + "search", "--")
    ensures StartsWith("--" + "price-level", "--")
  {
    assert ("--" + "radius")[..2] == "--";
    assert ("--" + "search")[..2] == "--";
    assert ("--" + "price-level")[..2] == "--";
  }

  /** One option with its value as one token sets the key to the value. */
  lemma QuotedStep(key: string, value: string, acc: Cli.Args)
    requires '=' !in key && Cli.ValueToken(value)
    ensures Cli.Tokenise(Quoted(key, value), acc) == acc[key := Cli.Str(value)]
  {
    Cli.ValueStep(key, value, [], acc);
    assert Quoted(key, value) == ["--" + key, value] + [];
  }

  /** An option with a value of two words: the first is the value, the second is skipped. */
  lemma TwoWordStep(key: string, w1: string, w2: string, acc: Cli.Args)
    requires '=' !in key && Cli.ValueToken(w1) && '=' !in w2 && !StartsWith(w2, "--")
    ensures Cli.Tokenise(Quoted(key, w1) + [w2], acc) == acc[key := Cli.Str(w1)]
  {
    Cli.ValueStep(key, w1, [w2], acc);
    Cli.SkipStepAt([w2], 0, acc[key := Cli.Str(w1)]);
    assert [w2][0..] == [w2] && [w2][1..] == [];
  }

  /** Four groups of tokens, each after the first opening with an option, are read one
      group after the other. */
  lemma FourGroups(g1: seq<string>, g2: seq<string>, g3: seq<string>, g4: seq<string>, acc: Cli.Args)
    requires g2 != [] && StartsWith(g2[0], "--")
    requires g3 != [] && StartsWith(g3[0], "--")
    requires g4 != [] && StartsWith(g4[0], "--")
    ensures Cli.Tokenise(g1 + g2 + g3 + g4, acc) ==
              Cli.Tokenise(g4, Cli.Tokenise(g3, Cli.Tokenise(g2, Cli.Tokenise(g1, acc))))
  {
    Cli.TokeniseSplit(g1 + g2 + g3, g4, acc);
    Cli.TokeniseSplit(g1 + g2, g3, acc);
    Cli.TokeniseSplit(g1, g2, acc);
  }

  /** With each value passed as one token, every value reaches the script whole. */
  lemma QuotedCommandReachesScript(zip: string, radius: string, category: string, u: int)
    requires Cli.ValueToken(zip) && Cli.ValueToken(radius) && Cli.ValueToken(Lower(category))
    ensures Cli.Tokenise(QuotedCommandArgv(zip, radius, category, u), map[]) ==
              ExpectedArgs(zip, radius, Lower(category), u)
  {
    var p := DecimalText(GooglePriceLevel(u));
    DecimalIsPlain(u - 1);
    OptionWords();
    FourGroups(Quoted("zipcode", zip), Quoted("radius", radius), Quoted("search", Lower(category)),
               Quoted("price-level", p), map[]);
    var m1: Cli.Args := map["zipcode" := Cli.Str(zip)];
    var m2 := m1["radius" := Cli.Str(radius)];
    var m3 := m2["search" := Cli.Str(Lower(category))];
    QuotedStep("zipcode", zip, map[]);
    QuotedStep("radius", radius, m1);
    QuotedStep("search", Lower(category), m2);
    QuotedStep("price-level", p, m3);
  }

  /** For one-word values the command as written is the command as intended. */
  lemma PlainCommandAsQuoted(zip: string, radius: string, category: string, u: int)
    requires PlainValue(zip) && PlainValue(radius) && PlainValue(Lower(category))
    ensures CommandArgv(zip, radius, category, u) == QuotedCommandArgv(zip, radius, category, u)
  {
    var p := DecimalText(GooglePriceLevel(u));
    DecimalIsPlain(u - 1);
    WordsOfWord(zip);
    WordsOfWord(radius);
    WordsOfWord(Lower(category));
    WordsOfWord(p);
    assert Unquoted("zipcode", zip) == Quoted("zipcode", zip);
    assert Unquoted("radius", radius) == Quoted("radius", radius);
    assert Unquoted("search", Lower(category)) == Quoted("search", Lower(category));
    assert Unquoted("price-level", p) == Quoted("price-level", p);
  }

  /** The interface's level 1..4 arrives at the search as 0..3 through the command
      route.js builds, and the results display it with as many currency symbols as the
      interface showed. */
  lemma UiLevelReachesScript(zip: string, radius: string, category: string, u: int)
    requires PlainValue(zip) && PlainValue(radius) && PlainValue(Lower(category))
    ensures var args := Cli.ConvertNumeric(Cli.Tokenise(CommandArgv(zip, radius, category, u), map[]));
      ValidatePriceLevel(Js, Cli.PriceArg(args)) == if 1 <= u <= 5 then Some(u - 1) else None
    ensures 1 <= u <= 4 ==> PriceDisplay(Some(GooglePriceLevel(u))) == Dollars(u)
  {
    PlainCommandAsQuoted(zip, radius, category, u);
    QuotedCommandReachesScript(zip, radius, category, u);
    LevelOfArgs(CommandArgv(zip, radius, category, u), zip, radius, Lower(category), u);
    LevelDisplayed(u);
  }

  /** Interface level u in 1..4 is displayed with u currency symbols after the shift. */
  lemma LevelDisplayed(u: int)
    ensures 1 <= u <= 4 ==> PriceDisplay(Some(GooglePriceLevel(u))) == Dollars(u)
  {
    if 1 <= u <= 4 {
      assert PriceDisplay(Some(u - 1)) == Dollars(u - 1 + 1);
    }
  }

  /** Whatever the command, once the script reads the route's four values from it, the
      level it filters by is the shifted interface level. */
  lemma LevelOfArgs(argv: seq<string>, zip: string, radius: string, search: string, u: int)
    requires Cli.Tokenise(argv, map[]) == ExpectedArgs(zip, radius, search, u)
    ensures var args := Cli.ConvertNumeric(Cli.Tokenise(argv, map[]));
      ValidatePriceLevel(Js, Cli.PriceArg(args)) == if 1 <= u <= 5 then Some(u - 1) else None
  {
    ConvertedLevel(zip, radius, search, u);
    LevelArrives(u);
  }

  /** The level arrives all the same when a two-word category is cut to its first word. */
  lemma UiLevelSurvivesCut(zip: string, radius: string, category: string, u: int, w1: string, w2: string)
    requires PlainValue(zip) && PlainValue(radius)
    requires Lower(category) == w1 + " " + w2
    requires PlainValue(w1) && w2 != "" && ' ' !in w2 && '=' !in w2 && !StartsWith(w2, "--")
    ensures var args := Cli.ConvertNumeric(Cli.Tokenise(CommandArgv(zip, radius, category, u), map[]));
      ValidatePriceLevel(Js, Cli.PriceArg(args)) == if 1 <= u <= 5 then Some(u - 1) else None
  {
    MultiWordCategoryCut(zip, radius, category, u, w1, w2);
    LevelOfArgs(CommandArgv(zip, radius, category, u), zip, radius, w1, u);
  }

  lemma ConvertedLevel(zip: string, radius: string, search: string, u: int)
    ensures Cli.PriceArg(Cli.ConvertNumeric(ExpectedArgs(zip, radius, search, u))) == Number((u - 1) as real)
  {
    var raw := ExpectedArgs(zip, radius, search, u);
    DecimalIsPlain(u - 1);
    assert raw["price-level"] == Cli.Str(DecimalText(GooglePriceLevel(u)));
    Cli.LevelConversion(raw);
    LevelArrives(u);
  }

  /** As written, the command splits a category of two words: the first becomes the
      search term and the second is dropped. */
  lemma MultiWordCategoryCut(zip: string, radius: string, category: string, u: int, w1: string, w2: string)
    requires PlainValue(zip) && PlainValue(radius)
    requires Lower(category) == w1 + " " + w2
    requires PlainValue(w1) && w2 != "" && ' ' !in w2 && '=' !in w2 && !StartsWith(w2, "--")
    ensures Cli.Tokenise(CommandArgv(zip, radius, category, u), map[]) == ExpectedArgs(zip, radius, w1, u)
  {
    var p := DecimalText(GooglePriceLevel(u));
    DecimalIsPlain(u - 1);
    OptionWords();
    WordsOfWord(zip);
    WordsOfWord(radius);
    WordsOfWord(p);
    WordsOfTwo(w1, w2);
    assert Unquoted("zipcode", zip) == Quoted("zipcode", zip);
    assert Unquoted("radius", radius) == Quoted("radius", radius);
    assert Unquoted("search", Lower(category)) == Quoted("search", w1) + [w2];
    assert Unquoted("price-level", p) == Quoted("price-level", p);
    FourGroups(Quoted("zipcode", zip), Quoted("radius", radius), Quoted("search", w1) + [w2],
               Quoted("price-level", p), map[]);
    var m1: Cli.Args := map["zipcode" := Cli.Str(zip)];
    var m2 := m1["radius" := Cli.Str(radius)];
    var m3 := m2["search" := Cli.Str(w1)];
    QuotedStep("zipcode", zip, map[]);
    QuotedStep("radius", radius, m1);
    TwoWordStep("search", w1, w2, m2);
    QuotedStep("price-level", p, m3);
  }

  /** The interface's "Fast Food" category searches for "fast" only; quoted, the search
      term would be "fast food". */
  lemma FastFoodSearchesFast(zip: string, radius: string, u: int)
    requires PlainValue(zip) && PlainValue(radius)
    ensures Cli.Tokenise(CommandArgv(zip, radius, "Fast Food", u), map[]) == ExpectedArgs(zip, radius, "fast", u)
    ensures Cli.Tokenise(QuotedCommandArgv(zip, radius, "Fast Food", u), map[]) == ExpectedArgs(zip, radius, "fast food", u)
  {
    LowerFastFood();
    MultiWordCategoryCut(zip, radius, "Fast Food", u, "fast", "food");
    QuotedCommandReachesScript(zip, radius, "Fast Food", u);
  }

  lemma LowerFastFood()
    ensures Lower("Fast Food") == "fast" + " " + "food" == "fast food"
    ensures PlainValue("fast") && Cli.ValueToken("fast food")
    ensures "food" != "" && ' ' !in "food" && '=' !in "food" && !StartsWith("food", "--")
  {
    var l := Lower("Fast Food");
    assert |l| == 9;
    forall i | 0 <= i < 9 ensures l[i] == "fast food"[i] {
    }
    Cli.NotOption("fast");
    Cli.NotOption("fast food");
    Cli.NotOption("food");
  }

  /** One entry of the route's reply built from the script's results. */
  datatype ApiRestaurant = ApiRestaurant(
    id: string,
    name: string,
    address: string,
    priceRange: string,
    priceLevelNumeric: Option<int>,
    rating: Rating,
    distance: real,
    isOpen: bool)

  /** The map over the results file: each record's fields renamed, and every entry
      marked open outright. */
  function MapResults(rs: seq<Restaurant>): (out: seq<ApiRestaurant>)
    ensures |out| == |rs|
    ensures forall i :: 0 <= i < |rs| ==>
      && out[i].id == rs[i].placeId && out[i].name == rs[i].name && out[i].address == rs[i].address
      && out[i].priceRange == rs[i].priceLevel && out[i].priceLevelNumeric == rs[i].priceLevelNumeric
      && out[i].rating == rs[i].rating && out[i].distance == rs[i].distanceMiles
    ensures forall i :: 0 <= i < |out| ==> out[i].isOpen
  {
    seq(|rs|, i requires 0 <= i < |rs| =>
      ApiRestaurant(rs[i].placeId, rs[i].name, rs[i].address, rs[i].priceLevel,
                    rs[i].priceLevelNumeric, rs[i].rating, rs[i].distanceMiles, true))
  }

  /** The reply built from a run of the Node script lists the places nearest first, and
      the flag isOpen it sets without looking holds of each of them: the details lookup
      of each listed place reported it open or could not tell. */
  lemma ScriptReplyOrderedAndOpen(req: SearchRequest, net: Services, fmt: Formatting)
    ensures var out := MapResults(OpenRestaurants(Js, req, net, fmt).collected);
      && (forall i, j :: 0 <= i < j < |out| ==> out[i].distance <= out[j].distance)
      && (forall i :: 0 <= i < |out| ==> out[i].isOpen && IsOpen(net.details(out[i].id)))
  {
    var c := OpenRestaurants(Js, req, net, fmt).collected;
    var out := MapResults(c);
    OnlyOpenRestaurants(Js, req, net, fmt);
    forall i, j | 0 <= i < j < |out| ensures out[i].distance <= out[j].distance {
      assert DistanceOf(c[i]) <= DistanceOf(c[j]);
    }
    forall i | 0 <= i < |out| ensures IsOpen(net.details(out[i].id)) {
      assert c[i] in c;
    }
  }

  /** What the route answers with: the filtered catalogue, a run of the script with the
      four texts interpolated into its command, or an error the handler does not survive. */
  datatype Reply =
    | MockReply(restaurants: seq<MockRestaurant>)
    | RunScript(zip: string, radius: string, search: string, level: string)
    | HandlerError

  /** How a template literal renders a body value. */
  function TemplateText(v: JsonValue, fmt: Formatting): (t: string)
    ensures v.Str? ==> t == v.s
  {
    match v
    case Undefined => "undefined"
    case Null => "null"
    case Bool(b) => if b then "true" else "false"
    case Num(x) => fmt.number(x)
    case Str(s) => s
  }

  /** JavaScript's Number() on a body value, None standing for NaN: undefined is NaN, null
      and false are 0, true is 1, and a string is the number its trimmed text spells
      (blank text is 0). */
  function ToNumber(v: JsonValue): Option<real> {
    match v
    case Undefined => None
    case Null => Some(0.0)
    case Bool(b) => Some(if b then 1.0 else 0.0)
    case Num(x) => Some(x)
    case Str(s) => TextNumber(Trim(s))
  }

  /** Number() on trimmed text: blank is 0, decimal digits their value, anything else NaN. */
  function TextNumber(t: string): Option<real> {
    if t == "" then Some(0.0)
    else if AllDigits(t) then Some(DigitsValue(t) as real)
    else None
  }

  /** `priceLevel - 1`: the body value coerced to a number, shifted down by one. */
  function ShiftedLevel(v: JsonValue): (r: Option<real>)
    ensures r.None? <==> ToNumber(v).None?
    ensures r.Some? ==> r.value + 1.0 == ToNumber(v).value
  {
    match ToNumber(v)
    case None => None
    case Some(x) => Some(x - 1.0)
  }

  /** A level sent as decimal digits is shifted like the number they spell. */
  lemma TextLevelShifts(t: string)
    requires t != "" && AllDigits(t)
    ensures ShiftedLevel(Str(t)) == ShiftedLevel(Num(DigitsValue(t) as real)) == Some(DigitsValue(t) as real - 1.0)
  {
    assert !IsSpace(t[0]) && !IsSpace(t[|t| - 1]);
    assert Trim(t) == t;
  }

  /** null, false and blank text count as 0 and true as 1; only a missing level is NaN. */
  lemma CoercedLevels(blank: string)
    requires forall i :: 0 <= i < |blank| ==> IsSpace(blank[i])
    ensures ShiftedLevel(Null) == ShiftedLevel(Bool(false)) == ShiftedLevel(Str(blank)) == ShiftedLevel(Num(0.0))
    ensures ShiftedLevel(Bool(true)) == ShiftedLevel(Num(1.0))
    ensures ShiftedLevel(Undefined) == None
  {
    assert Trim(blank) == [];
  }

  /** The interpolated `${googlePriceLevel}`. */
  function LevelText(v: JsonValue, fmt: Formatting): string {
    match ShiftedLevel(v)
    case None => "NaN"
    case Some(x) => fmt.number(x)
  }

  /** POST: without an API key the filtered catalogue; with one, the script is run. When
      the category is not a string, lowercasing it throws, and the catch block fails in
      turn: the body's fields it names were declared inside the try block. */
  function Post(mealType: JsonValue, category: JsonValue, zipCode: JsonValue, priceLevel: JsonValue,
                searchRadius: JsonValue, apiKey: Option<string>, fmt: Formatting): (r: Reply)
    ensures r.MockReply? <==> !Truthy(apiKey)
    ensures r.HandlerError? <==> Truthy(apiKey) && !category.Str?
    ensures r.MockReply? ==>
      r.restaurants == GetMockRestaurants(mealType, category, TemplateText(zipCode, fmt), priceLevel)
    ensures r.RunScript? ==> r.search == Lower(category.s) && r.level == LevelText(priceLevel, fmt)
    ensures r.RunScript? ==> r.zip == TemplateText(zipCode, fmt) && r.radius == TemplateText(searchRadius, fmt)
  {
    if !Truthy(apiKey) then MockReply(GetMockRestaurants(mealType, category, TemplateText(zipCode, fmt), priceLevel))
    else if !category.Str? then HandlerError
    else RunScript(TemplateText(zipCode, fmt), TemplateText(searchRadius, fmt), Lower(category.s),
                   LevelText(priceLevel, fmt))
  }

  /** With a key and a string category, the script is run on exactly the command
      CommandArgv describes for the zip code and radius as the template renders them
      (the interface sends the radius as a number), when the number formatting writes
      integers in decimal. */
  lemma PostRunsCommand(mealType: JsonValue, category: string, zipCode: JsonValue, u: int,
                        searchRadius: JsonValue, apiKey: Option<string>, fmt: Formatting)
    requires Truthy(apiKey)
    requires fmt.number((u - 1) as real) == DecimalText(u - 1)
    ensures var r := Post(mealType, Str(category), zipCode, Num(u as real), searchRadius, apiKey, fmt);
      var zip, radius := TemplateText(zipCode, fmt), TemplateText(searchRadius, fmt);
      && r == RunScript(zip, radius, Lower(category), DecimalText(GooglePriceLevel(u)))
      && CommandArgv(zip, radius, category, u) ==
           Unquoted("zipcode", r.zip) + Unquoted("radius", r.radius) + Unquoted("search", r.search)
           + Unquoted("price-level", r.level)
  {
    assert u as real - 1.0 == (u - 1) as real;
  }
}
