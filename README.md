# Food finder: price levels, the open-restaurant search and the restaurants route

This project models the decision layer of the food finder. The layer sits between a web
form and Google's geocoding, places and place-details services, and has three parts:

- **The two fetch scripts**, `food-finder/food-finder.js` (Node) and `food-finder/food-finder.py`
  (Python), which are near-twins. They:
  - parse the command line;
  - refuse to run without a zip code, a radius or an API key;
  - normalise the requested price level to 0..4;
  - geocode the zip code and build the nearby-search request;
  - follow at most three result pages;
  - keep the candidates whose details say they are open, building a record for each
    with fixed defaults and a `$`..`$$$$` price text;
  - sort the records by distance.
- **The Next.js route `app/api/restaurants/route.js`**:
  - without an API key it answers from a fixed 18-entry catalogue filtered by meal
    type, category and price;
  - with a key it shifts the interface's 1..4 price scale to the service's 0..3, runs
    the Node script through a shell command and renames the fields of its records.
- **Divergences between the two scripts**, carried by a `Dialect` parameter (`Js` or
  `Py`) wherever they occur.

Every network reply is an input. The geocoding reply, the reply to the n-th page request
and the details reply for each place id are bundled in `Search.Services`. Number rendering
and `encodeURIComponent` are library behaviour and are given as the functions of
`Places.Formatting`.

Modules, one file each:

- `Basics` (basics.dfy): options, truthiness, trimming, `$` runs, and a filter with its
  subsequence property.
- `PriceLevel` (price_level.dfy):
  - `parseInt(…, 10)` and Python's `int()` on text;
  - validatePriceLevel / validate_price_level;
  - the price display.
- `Places` (places.dfy):
  - the record built for an open place;
  - the open-check decision rule;
  - the geocoding result;
  - the nearby-search and next-page requests.
- `Sorting` (sorting.dfy): the stable sort by distance.
- `Search` (search.dfy): the paging loop.
  - `FindOpenRestaurants` is a method. Its `while` loop, as in both scripts, is the
    method `FetchPages`, with one turn in `FetchPage`.
  - They are proved equal to the specification functions `OpenRestaurants` and `CrawlFrom`.
  - The lemmas about the loop are proved on that function.
- `Cli` (cli.dfy):
  - `parseArgs`, as a method with an index loop proved against the recursive
    `Tokenise`;
  - the numeric conversion;
  - the required-argument checks.
- `Script` (script.dfy): each script's main flow up to the search, with its exit status.
- `Route` (route.js → route.dfy):
  - the catalogue and its filter;
  - the price shift;
  - the shell command as the Node script receives it;
  - the POST decision;
  - the result mapping.

Two behaviours of the code are easy to misread, and the model follows the code in both:

- The Node script exits with status 0 when no open restaurant is found
  (food-finder/food-finder.js:350-353), not with a failure status.
- validatePriceLevel has a branch for `$`..`$$$$$` text (food-finder/food-finder.js:118-124),
  but a `$$` price level given on the command line never reaches it. The Node script's
  parseArgs already applies `parseInt` to it and gets NaN, so no filter is applied
  (`Cli.DollarArgumentIgnored`). Python's argparse (`type=int`) refuses it outright.

## Model

| member | source | states |
|---|---|---|
| PriceLevel.ValidatePriceLevel | food-finder/food-finder.js:111-143 | No input or NaN gives no level. A number gives its truncation exactly when it lies strictly between -1 and 5. A non-blank run of n `$` gives n-1 for n in 1..5 and none otherwise. Any level returned is in 0..4. |
| PriceLevel.ValidateDecimal | food-finder/food-finder.py:86-95 | A decimal integer written as text is accepted exactly when it lies in 0..4, in both scripts. |
| PriceLevel.DollarRuns | food-finder/food-finder.js:119-124 | A run of n `$` validates to n-1 for 1 <= n <= 5 and to no level otherwise, in both scripts. |
| PriceLevel.TrailingTextDivergence | food-finder/food-finder.js:130 | `3abc` validates to 3 in the Node script (parseInt reads a digit prefix) and to no level in the Python script (int() raises). |
| PriceLevel.ParseIntJsDecimal | food-finder/food-finder.js:130 | parseInt recovers every integer from its decimal text. |
| PriceLevel.ParseIntPyDecimal | food-finder/food-finder.py:89 | int() recovers every integer from its decimal text. |
| PriceLevel.DollarText | food-finder/food-finder.js:118-124 | A non-empty run of n `$` validates to n-1 when n is at most 5 and to no level otherwise, in both scripts. |
| PriceLevel.WordText | food-finder/food-finder.js:125-136 | Text that starts with neither white space, a sign, a digit nor `$`, and does not end in white space, gives no level in both scripts. |
| PriceLevel.NoDigitPrefix | food-finder/food-finder.js:130 | parseInt gives NaN for text that does not start with white space, a sign or a digit. |
| PriceLevel.PriceDisplay | food-finder/food-finder.js:280-289 | No level gives "Price not available". A level in 0..3 gives level+1 `$` symbols, and any other level gives four. |
| PriceLevel.DisplayThenValidate | food-finder/food-finder.py:170-176 | Validating the displayed price text gives back the level for 0..3, 3 for any other level, and none when no level was shown. |
| Places.BuildRecord | food-finder/food-finder.js:266-289 | The record keeps the place id, name, distance and numeric level, with the price text of that level. The address is the vicinity, or "Address not available" when the vicinity is missing (or empty, in the Node script). The rating is the place's rating, or "No rating" when it is missing (or 0, in the Node script). The review count defaults to 0 and the types to []. |
| Places.RecordDialectsAgree | food-finder/food-finder.py:158-167 | The two scripts build the same record for any place whose vicinity is not empty and whose rating is not 0. |
| Places.IsOpen | food-finder/food-finder.js:186-204 | A place counts as closed exactly when an OK details reply carries an explicit open_now of false. A failed lookup counts as open. |
| Places.Coordinates | food-finder/food-finder.py:11-21 | Coordinates exist exactly for an OK geocoding reply with at least one result, and they are the first result's location. |
| Places.SearchQuery | food-finder/food-finder.js:215-235 | The nearby-search request starts with location, radius and type, and ends with the key. Its parameter names are exactly location, radius, type, then keyword when the search term is truthy, then minprice and maxprice when a level is given, then key, with no others. The keyword carries the term, and minprice and maxprice both equal the level. |
| Places.KnownNames | food-finder/food-finder.py:116-127 | In the parameter list, keyword appears exactly for a truthy term, and minprice and maxprice exactly for a given level. |
| Sorting.SortBy | food-finder/food-finder.js:311 | The result is sorted by the key and is a permutation of the input. |
| Sorting.InsertKeepsSorted | food-finder/food-finder.py:189 | Inserting into a sorted sequence keeps it sorted. |
| Sorting.InsertPermutes | food-finder/food-finder.py:189 | Inserting adds exactly the one element, as a multiset. |
| Sorting.SortIsStable | food-finder/food-finder.py:189 | Records with equal distance keep their original relative order. |
| Search.OpenRecords | food-finder/food-finder.js:255-293 | A page contributes at most as many records as it has places. |
| Search.OpenRecordsOfOpenPlaces | food-finder/food-finder.js:255-293 | A page contributes exactly the records built from its open places, in page order. |
| Search.OpenRecordsExact | food-finder/food-finder.js:255-293 | Each record a page contributes is the record built from one of its open places, and every open place contributes its record. |
| Search.NextRequest | food-finder/food-finder.js:296-302 | A next request is made exactly after an OK page whose token is followed (truthy in Node, present in Python), while fewer than three requests were made. That request carries the reply's page token and the key. |
| Search.CrawlFrom | food-finder/food-finder.js:239-308 | The loop makes between one and the remaining page allowance of requests, and the first is the one it was started with. |
| Search.OpenRestaurants | food-finder/food-finder.js:207-313 | An unusable origin (no coordinates, or a latitude or longitude of 0) gives no requests and no results. Otherwise the requests are those of the crawl from the nearby-search request. There are at most three of them. The result is sorted by distance and is a permutation of the records the crawl collected. |
| Search.AppendOpen | food-finder/food-finder.py:147-178 | The inner loop appends exactly the open records of the page, in page order. |
| Search.FindOpenRestaurants | food-finder/food-finder.py:101-191 | The search's results and requests are those of the specification function OpenRestaurants. |
| Search.FetchPages | food-finder/food-finder.js:237-306 | The paging loop collects the records and makes the requests of the specification function CrawlFrom. |
| Search.FetchPage | food-finder/food-finder.js:244-305 | One turn appends what the reply contributes (nothing for a failed or non-OK reply) and leaves the loop the same work as the request the reply makes due. |
| Search.CrawlStep | food-finder/food-finder.js:241-306 | A crawl is the first reply's records and request followed by the crawl from the request that reply makes due, if any. |
| Search.CrawlShape | food-finder/food-finder.py:131-186 | Each request after the first is the next request of the previous page's reply, and the last reply asks for none. The results are the concatenated open records of the pages fetched. |
| Search.OnlyOpenRestaurants | food-finder/food-finder.js:262-264 | Every returned record belongs to a place whose details lookup reported it open or could not tell. |
| Search.PageCapStopsTokens | food-finder/food-finder.js:239-242 | When every page is OK and offers a followed token, exactly three requests are made. |
| Search.FailureKeepsEarlierPages | food-finder/food-finder.js:247-253 | When the second page fails or is not OK, the results of the first page are kept, and no third request is made. |
| Cli.StripDashes | food-finder/food-finder.js:17 | One leading `--` is removed, and a token without it is unchanged. |
| Cli.SecondPart | food-finder/food-finder.js:16-18 | The value of a `key=value` token contains no `=`. |
| Cli.SecondPartIsValue | food-finder/food-finder.js:16-18 | For a key and a value without `=`, `key=value` and `key=value=more` both give the value, so `--k=a=b` sets k to `a`. |
| Cli.TokeniseRaw | food-finder/food-finder.js:13-29 | Before the conversion every value is a string or `true`. |
| Cli.TokeniseSplit | food-finder/food-finder.js:13-29 | Tokenising splits at every option token: the rest of the line continues from the object built so far. |
| Cli.LastOccurrenceWins | food-finder/food-finder.js:15-19 | A later `--key=value` overwrites whatever the key held before. |
| Cli.SeparateValueForm | food-finder/food-finder.js:23-28 | `--key value` sets the key to the value and consumes both tokens, when the value is non-empty and does not start with `--`. |
| Cli.FlagForm | food-finder/food-finder.js:25-27 | `--key` before nothing, an empty token or another option sets the key to `true` and skips nothing. |
| Cli.SkipStepAt | food-finder/food-finder.js:13-29 | A token that is neither an option nor holds `=` is skipped. |
| Cli.ParseFloatNat | food-finder/food-finder.js:32 | parseFloat reads back every natural number from its decimal text. |
| Cli.ConvertNumeric | food-finder/food-finder.js:32-33 | The conversion keeps the set of keys and every key other than radius and price-level. It leaves radius and price-level as numbers, NaN or an empty string. |
| Cli.ParseArgs | food-finder/food-finder.js:9-36 | The index loop computes the tokenised and converted arguments. |
| Cli.DollarFormUnreachable | food-finder/food-finder.js:33 | From the Node command line, validatePriceLevel never receives a non-empty string. |
| Cli.DollarArgumentIgnored | food-finder/food-finder.js:33 | `--price-level $$` gives no filter, though validatePriceLevel maps `$$` to 1. |
| Cli.SearchOf | food-finder/food-finder.js:346 | The search term is absent exactly when the search argument is falsy. Otherwise it is the argument's text, and a bare `--search` flag gives "true". |
| Cli.Configure | food-finder/food-finder.js:41-81 | The script stops for a falsy zip code, then for a falsy radius, then for a missing or empty key, each exactly in its case. Otherwise it goes on with the zip code's text, and the request carries the parsed non-zero radius, the key, the search term and the validated level. |
| Cli.RadiusConversion | food-finder/food-finder.js:32 | A truthy radius is replaced by its parseFloat, and a falsy one is kept. |
| Cli.LevelConversion | food-finder/food-finder.js:33 | A truthy price level becomes the number parseInt gives, or NaN, whatever the radius. |
| Cli.NonNumericLevel | food-finder/food-finder.js:33 | A price-level text that starts with neither white space, a sign nor a digit becomes NaN. |
| Cli.FalsyRadiusStops | food-finder/food-finder.js:32-49 | With a zip code, a radius text that parses to 0 or NaN stops the script as a missing radius. |
| Cli.RadiusZeroOrNaNIsMissing | food-finder/food-finder.js:32 | A radius that parses to 0 or to NaN stops the script as a missing radius. |
| Script.RunNode | food-finder/food-finder.js:38-402 | When an argument check fails the status is 1 and no request is made. Otherwise the search is that of OpenRestaurants. The status is then 0 when nothing is found. When something is found it is 1 for a bare `--search` flag, whose `true` has no `replace`, so main's catch exits, and 0 otherwise. |
| Script.RunPython | food-finder/food-finder.py:214-242 | Exit status 1 exactly when the key is missing or empty, with no request made. Otherwise the search runs with the validated level. |
| Script.IntegerLevelsAgree | food-finder/food-finder.py:222 | An integer level passes in both scripts exactly when it lies in 0..4. |
| Route.Catalogue | app/api/restaurants/route.js:94-311 | The catalogue has 18 entries. Entry k has id mock-k and is marked open. Its numeric level is in 1..4, and its price range has that many `$`. |
| Route.Entry | app/api/restaurants/route.js:94-311 | Entry k has id mock-k and is marked open. Its numeric level is in 1..4, and its price range has that many `$`. |
| Route.CatalogueIdsUnique | app/api/restaurants/route.js:94-311 | No two entries share an id. |
| Route.GetMockRestaurants | app/api/restaurants/route.js:314-319 | The result is a subsequence of the catalogue. Each entry in it matches the meal type, the category and (when truthy) the price level, and every matching entry is in it. |
| Route.FalsyLevelIgnored | app/api/restaurants/route.js:317 | A falsy price level gives the same result as no price level. |
| Route.TextLevelMatchesNothing | app/api/restaurants/route.js:317 | A non-empty string price level matches nothing, because the comparison is strict. |
| Route.LevelArrives | app/api/restaurants/route.js:15 | The shifted level u-1 is read back by the script as u-1, and it is accepted exactly for interface levels 1..5. |
| Route.ConvertedLevel | app/api/restaurants/route.js:15 | After the script's conversion the price argument is the number u-1. |
| Route.LevelOfArgs | app/api/restaurants/route.js:15 | Any command line that tokenises to the route's four arguments hands the search level u-1, exactly for u in 1..5. |
| Route.LevelDisplayed | app/api/restaurants/route.js:15 | For u in 1..4 the shifted level u-1 is displayed as u `$`, as the interface showed it. |
| Route.UiLevelReachesScript | app/api/restaurants/route.js:15-28 | On the command as the route writes it, with a one-word zip code, radius and category, interface level u reaches the search as u-1 exactly for u in 1..5. For u in 1..4 the level u-1 that is sent displays as u `$`, as the interface showed it. |
| Route.UiLevelSurvivesCut | app/api/restaurants/route.js:15-28 | With a two-word category, cut to its first word, the level still reaches the search as u-1 exactly for u in 1..5. |
| Route.PlainCommandAsQuoted | app/api/restaurants/route.js:28 | When the zip code, the radius and the lowercased category are single words, the unquoted command splits into the same words as the quoted one. |
| Route.QuotedCommandReachesScript | app/api/restaurants/route.js:28 | With each value passed as one token, the script receives exactly the zip code, the radius, the lowercased category and the shifted level. |
| Route.MultiWordCategoryCut | app/api/restaurants/route.js:28 | As written, a two-word category reaches the script as its first word only. |
| Route.FastFoodSearchesFast | app/api/restaurants/route.js:28 | As written, "Fast Food" searches for "fast". Quoted, it would search for "fast food". |
| Route.TextLevelShifts | app/api/restaurants/route.js:15 | A level sent as decimal digits is coerced like the number it names and shifted down by one. |
| Route.CoercedLevels | app/api/restaurants/route.js:15 | null, false and blank text are coerced to 0 and shift to -1, true shifts to 0, and a missing level gives NaN. |
| Route.Post | app/api/restaurants/route.js:19-28 | Without a key the answer is the filtered catalogue, with the zip code as rendered. With a key and a string category the script runs on the zip code and radius as the template renders them, the lowercased category and the shifted level. With a key and a non-string category the handler fails. |
| Route.PostRunsCommand | app/api/restaurants/route.js:28 | With a key, a string category and a numeric level, for any zip code and radius body values (the interface sends the radius as a number), the command the handler runs has exactly the words CommandArgv describes for their rendered text. |
| Route.MapResults | app/api/restaurants/route.js:47-56 | The mapping keeps the length and order. It renames place_id to id, price_level to priceRange and distance_miles to distance, and marks every entry open. |
| Route.ScriptReplyOrderedAndOpen | app/api/restaurants/route.js:47-56 | The route's reply after a script run is ordered by distance. Each entry marked open was reported open, or not reported closed, by its details lookup. |

## Findings

| source | as written | input that shows it | evidently intended | confidence | as-written member | corrected member |
|---|---|---|---|---|---|---|
| app/api/restaurants/route.js:28 | `--search ${category.toLowerCase()}` is interpolated into a shell command unquoted, so the shell splits a multi-word category, the Node script takes only the first word as the search term and skips the rest (Route.CommandArgv, Route.MultiWordCategoryCut); the corrected command is Route.QuotedCommandArgv | category "Fast Food" (or "Coffee Shop") from the interface's own list: the script searches for "fast" (or "coffee") | the whole lowercased category, "fast food", as the search term | not executed | Route.FastFoodSearchesFast | Route.QuotedCommandReachesScript |

## Left out

- The Haversine distance and its rounding to two decimals are floating-point trigonometry. A place's distance is an input real (`Places.Place.distance`).
- Network I/O is not modelled: the geocoding, nearby-search and details requests, and the HTTP status and JSON parsing behind them. Their outcomes are inputs in `Search.Services`. In the Node script `RequestFailed` (and `DetailsUnavailable`, `GeocodeUnavailable`) stands for a request that threw or a body that does not parse as JSON, which it catches. `makeRequest` (food-finder/food-finder.js:54-73) never reads the HTTP status, so a non-200 reply whose body parses is an ordinary reply, decided by its `status` field. In the Python script `RequestFailed` stands only for a status other than 200.
- Uncaught exceptions on the way to the search are not modelled. In the Python script, `requests.get` can raise and `response.json()` can fail on a 200 reply, both for the geocoding, timezone, nearby-search and details requests (food-finder/food-finder.py:14, 16, 44, 47, 60, 63, 135, 140). `pytz.timezone` can also raise on an unknown zone id (food-finder.py:50). Each of these ends the script with status 1 and keeps none of the results. In the Node script, a timezone reply without `rawOffset` or `dstOffset` gives an Invalid Date. Its `toISOString` then throws (food-finder/food-finder.js:175-176, 219), and main's catch exits with status 1 (food-finder.js:400-402).
- The timezone lookup is left out. Its local time is only logged.
- The two-second wait before each next-page request is left out. It is timing only.
- These output steps are left out: writing results.json, the console output, the top-five digest and the file-name terms computed in main. `Script.RunNode` models only the exit status of the file-name step: on a bare `--search` flag it throws before results.json is written.
- Python's argparse is library behaviour. `Script.PyArgs` is what it hands over: it refuses a missing zip code or radius, and a non-numeric radius or level, before the script's own code runs.
- Script.RunPython: a radius of 0 is accepted, as argparse passes it on; Python has no falsy-radius check.
- The route's shell execution is left out: the `mv` of results.json, `readFileSync` and `JSON.parse`. `Route.ScriptReplyOrderedAndOpen` assumes the file read back holds the records of the run just made. It does not cover a run that found nothing, which writes no file.
- The route's catch block is modelled only for a non-string category (`Route.HandlerError`). The body fields it uses are declared inside the try block, so it cannot rebuild the catalogue. An unreadable request body takes the same path.
- Route.TextNumber: Number() on a string is modelled only for text that is blank or all decimal digits after trimming. Signs, decimals, exponents, hexadecimal and `Infinity` become NaN here, though JavaScript's Number() reads them. Objects and arrays are not among the modelled body values.
- Route.TemplateText: numbers are rendered by the given formatting function, and the shell's handling of quotes, globs and other metacharacters is not modelled. Words are split at spaces only.
- The interface files are not part of this model: components/FoodDecider.js, components/FoodRecommendation.js, lib/api.js, app/page.js and app/layout.js. They hold React state, rendering, random choice and a fetch wrapper.
- The `mockCategories` table in route.js is left out. It is never read.
- Cli.ConvertNumeric: parseFloat reads an optional sign, digits and an optional fraction, and stops there. An exponent is not read, so `1e3` gives 1 where JavaScript gives 1000, and `Infinity` gives NaN.
- PriceLevel.ValidatePriceLevel: a number is truncated towards zero. parseInt reads the number's printed text instead, and the two differ for numbers JavaScript prints in exponent form (at least 1e21, or below 1e-6). Such numbers do arrive from the command line: `--price-level 2000000000000000000000` becomes the Number 2e21, printed `2e+21`, and the Node script searches with level 2, where the model gives no level. Likewise `999999999999999999999` rounds to 1e21 and gives level 1.
- Numbers are exact reals, not IEEE doubles. The radius, the price level and the distances are not rounded, and overflow to Infinity and underflow to 0 are not modelled.
- Trimming and digits are ASCII only. `Basics.IsSpace` is space, tab, line feed, vertical tab, form feed and carriage return. Python's `strip()` and `int()` also drop the separators \x1c-\x1f and \x85, and both languages drop other Unicode white space such as U+00A0. Unicode digits and non-ASCII lowercasing are not modelled either.
- The in-place sorts are modelled on sequences (`Sorting.SortBy`, a stable insertion sort). Only the sorted result matters: both languages' sorts are stable, and the list is not shared.
- Malformed replies are outside the inputs the model admits. Python raises uncaught exceptions on some of them, such as a page without `results` or a details reply whose `result` is null. In the Node script, a place without `geometry.location` throws inside the page's `try` (food-finder/food-finder.js:257). The catch at food-finder.js:304-307 then ends the loop, keeping the records already taken from that page. `Search.PageResponse` cannot express such a partial page.
- Python appends the keyword to the URL without encoding it. Its text is modelled, but not the URL it forms.
