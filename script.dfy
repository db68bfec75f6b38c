/** The main flow of each fetch script up to the search: the argument checks with their
    exit status, the price-level validation, and the call to the search. */
module Script {
  import opened Basics
  import opened PriceLevel
  import opened Places
  import opened Search
  import opened Cli

  /** A bare `--search` leaves the search argument `true`. */
  predicate BareSearch(args: Args) {
    "search" in args && args["search"] == Flag
  }

  /** A run of food-finder.js: exit status 1 when an argument check fails, before any
      request. Otherwise the search runs; the status is 0 when it finds nothing, and also
      when it finds something, unless the search argument is a bare `--search`: building
      the file-name term then calls `replace` on `true`, which throws, and the catch
      handler of main exits with status 1. */
  method RunNode(argv: seq<string>, apiKey: Option<string>, net: Services, fmt: Formatting)
    returns (exitCode: int, restaurants: seq<Restaurant>, requests: seq<Query>)
    ensures Converted(ConvertNumeric(Tokenise(argv, map[])))
    ensures var args := ConvertNumeric(Tokenise(argv, map[]));
            var config := Configure(args, apiKey);
      && (exitCode == 1 <==> config.Err? || (restaurants != [] && BareSearch(args)))
      && (exitCode == 0 <==> config.Ok? && (restaurants == [] || !BareSearch(args)))
      && (config.Err? ==> restaurants == [] && requests == [])
      && (config.Ok? ==> Crawl(restaurants, requests) == OpenRestaurants(Js, config.value.request, net, fmt))
  {
    var args := ParseArgs(argv);
    var config := Configure(args, apiKey);
    if config.Err? {
      return 1, [], [];
    }
    restaurants, requests := FindOpenRestaurants(Js, config.value.request, net, fmt);
    if restaurants == [] {
      return 0, restaurants, requests;
    }
    exitCode := if BareSearch(args) then 1 else 0;
  }

  /** The arguments argparse hands to the Python script (argparse itself is library
      behaviour: it refuses a missing --zipcode or --radius and non-numeric values). */
  datatype PyArgs = PyArgs(zipcode: string, radius: real, search: Option<string>, priceLevel: Option<int>)

  /** The integer argparse produced, as validate_price_level receives it. */
  function PyPriceInput(level: Option<int>): (p: PriceInput)
    ensures level.None? <==> p.NoInput?
    ensures level.Some? ==> p == Number(level.value as real)
  {
    if level.None? then NoInput else Number(level.value as real)
  }

  /** A run of food-finder.py after argparse: exit status 1 without an API key, before
      any request; otherwise the search runs and the status is 0. */
  method RunPython(args: PyArgs, apiKey: Option<string>, net: Services, fmt: Formatting)
    returns (exitCode: int, restaurants: seq<Restaurant>, requests: seq<Query>)
    ensures exitCode == 1 <==> !Truthy(apiKey)
    ensures exitCode == 0 <==> Truthy(apiKey)
    ensures !Truthy(apiKey) ==> restaurants == [] && requests == []
    ensures Truthy(apiKey) ==>
      var level := ValidatePriceLevel(Py, PyPriceInput(args.priceLevel));
      Crawl(restaurants, requests) ==
        OpenRestaurants(Py, SearchRequest(apiKey.value, args.radius, args.search, level), net, fmt)
  {
    if !Truthy(apiKey) {
      return 1, [], [];
    }
    var level := ValidatePriceLevel(Py, PyPriceInput(args.priceLevel));
    restaurants, requests := FindOpenRestaurants(Py, SearchRequest(apiKey.value, args.radius, args.search, level), net, fmt);
    exitCode := 0;
  }

  /** An integer level reaches the search unchanged in both scripts when it lies in 0..4,
      and is dropped otherwise. */
  lemma IntegerLevelsAgree(d: Dialect, n: int)
    ensures ValidatePriceLevel(d, PyPriceInput(Some(n))) == if 0 <= n <= 4 then Some(n) else None
  {
    assert Truncate(n as real) == n;
  }
}
