/** The shapes of the places service's replies, the decision rules applied to them
    (isRestaurantOpen / is_restaurant_open, the geocoding check, the result record) and
    the search request each script builds. */
module Places {
  import opened Basics
  import opened PriceLevel

  /** One candidate of a nearby-search page. The distance from the search origin
      (Haversine, rounded to two decimals) is taken as given. */
  datatype Place = Place(
    placeId: string,
    name: string,
    vicinity: Option<string>,
    distance: real,
    priceLevel: Option<int>,
    rating: Option<real>,
    userRatingsTotal: Option<int>,
    types: Option<seq<string>>)

  /** A rating, or the 'No rating' text. */
  datatype Rating = Score(stars: real) | NoRating

  const AddressNotAvailable: string := "Address not available"

  /** One element of the restaurants list the scripts write to results.json. */
  datatype Restaurant = Restaurant(
    name: string,
    address: string,
    distanceMiles: real,
    rating: Rating,
    userRatingsTotal: int,
    priceLevelNumeric: Option<int>,
    placeId: string,
    types: seq<string>,
    priceLevel: string)

  /** The record built for an open candidate. The Node script falls back to a default
      whenever the field is falsy (an empty vicinity, a rating of 0); the Python script
      only when the key is absent. */
  function BuildRecord(d: Dialect, p: Place): (r: Restaurant)
    ensures r.placeId == p.placeId && r.name == p.name && r.distanceMiles == p.distance
    ensures r.priceLevelNumeric == p.priceLevel && r.priceLevel == PriceDisplay(p.priceLevel)
    ensures r.address == AddressNotAvailable <==>
              p.vicinity.None? || p.vicinity.value == AddressNotAvailable || (d == Js && p.vicinity.value == "")
    ensures r.rating == NoRating <==> p.rating.None? || (d == Js && p.rating.value == 0.0)
    ensures r.address ==
              if p.vicinity.Some? && !(d == Js && p.vicinity.value == "") then p.vicinity.value else AddressNotAvailable
    ensures r.rating ==
              if p.rating.Some? && !(d == Js && p.rating.value == 0.0) then Score(p.rating.value) else NoRating
    ensures r.userRatingsTotal == (if p.userRatingsTotal.Some? then p.userRatingsTotal.value else 0)
    ensures r.types == (if p.types.Some? then p.types.value else [])
  {
    var address :=
      match p.vicinity
      case Some(v) => if d == Js && v == "" then AddressNotAvailable else v
      case None => AddressNotAvailable;
    var rating :=
      match p.rating
      case Some(x) => if d == Js && x == 0.0 then NoRating else Score(x)
      case None => NoRating;
    Restaurant(
      p.name,
      address,
      p.distance,
      rating,
      match p.userRatingsTotal case Some(n) => n case None => 0,
      p.priceLevel,
      p.placeId,
      match p.types case Some(ts) => ts case None => [],
      PriceDisplay(p.priceLevel))
  }

  /** The two scripts build the same record unless the vicinity is empty or the rating is 0. */
  lemma RecordDialectsAgree(p: Place)
    requires p.vicinity != Some("") && p.rating != Some(0.0)
    ensures BuildRecord(Js, p) == BuildRecord(Py, p)
  {
  }

  /** The place-details reply for one candidate (fields=opening_hours). */
  datatype OpeningHours = OpeningHours(openNow: Option<bool>)
  datatype DetailsResult = DetailsResult(openingHours: Option<OpeningHours>)
  datatype DetailsResponse =
    | DetailsUnavailable  // a request or parse error (Node), a non-200 reply (Python)
    | Details(status: string, result: Option<DetailsResult>)

  /** The reply states explicitly that the place is closed now. */
  predicate ReportsClosed(r: DetailsResponse) {
    && r.Details?
    && r.status == "OK"
    && r.result.Some?
    && r.result.value.openingHours.Some?
    && r.result.value.openingHours.value.openNow == Some(false)
  }

  /** isRestaurantOpen / is_restaurant_open: the explicit open_now of an OK reply, and
      true ("assume it is open") in every other case. */
  function IsOpen(r: DetailsResponse): (open: bool)
    ensures !open <==> ReportsClosed(r)
    ensures r.DetailsUnavailable? ==> open
  {
    match r
    case DetailsUnavailable => true
    case Details(status, result) =>
      if status == "OK" && result.Some? && result.value.openingHours.Some?
         && result.value.openingHours.value.openNow.Some?
      then result.value.openingHours.value.openNow.value
      else true
  }

  datatype Coord = Coord(lat: real, lng: real)

  /** The geocoding reply for the zip code. */
  datatype GeocodeResponse =
    | GeocodeUnavailable  // a request or parse error (Node), a non-200 reply (Python)
    | Geocode(status: string, locations: seq<Coord>)

  /** getCoordinatesFromZipcode / get_coordinates_from_zipcode: the first location of an
      OK reply with at least one result, otherwise nothing. */
  function Coordinates(g: GeocodeResponse): (c: Option<Coord>)
    ensures c.Some? <==> g.Geocode? && g.status == "OK" && g.locations != []
    ensures c.Some? ==> c.value == g.locations[0]
  {
    if g.Geocode? && g.status == "OK" && g.locations != [] then Some(g.locations[0]) else None
  }

  /** `if (!lat || !lng) return []`: a latitude or longitude of exactly 0 counts as missing. */
  predicate UsableOrigin(c: Option<Coord>) {
    c.Some? && c.value.lat != 0.0 && c.value.lng != 0.0
  }

  /** A request to the places service: its endpoint and its query parameters in order. */
  datatype Param = Param(name: string, value: string)
  datatype Query = Query(endpoint: string, params: seq<Param>)

  const NearbySearch: string := "https://maps.googleapis.com/maps/api/place/nearbysearch/json"

  /** The parameter names of a request, in order. */
  function Names(ps: seq<Param>): (ns: seq<string>)
    ensures |ns| == |ps| && forall i :: 0 <= i < |ps| ==> ns[i] == ps[i].name
  {
    seq(|ps|, i requires 0 <= i < |ps| => ps[i].name)
  }

  /** How the scripts render a floating-point number in a URL, and encodeURIComponent;
      both are library behaviour, given as parameters. */
  datatype Formatting = Formatting(number: real -> string, encodeComponent: string -> string)

  /** A search request: what the command line supplies to findOpenRestaurants. */
  datatype SearchRequest = SearchRequest(
    key: string,
    radiusMiles: real,
    searchTerm: Option<string>,
    priceLevel: Option<int>)

  /** Miles to meters, as the places service wants the radius. */
  const MetersPerMile: real := 1609.34

  /** The first nearby-search request: location, radius, type, then an optional keyword
      (encodeURIComponent'd by the Node script, verbatim in Python), then minprice and
      maxprice pinned to the level when one is given, and the key last. */
  function SearchQuery(d: Dialect, origin: Coord, req: SearchRequest, fmt: Formatting): (q: Query)
    ensures q.endpoint == NearbySearch
    ensures |q.params| >= 4 && q.params[|q.params| - 1] == Param("key", req.key)
    ensures q.params[..3] == LocationParams(origin, req, fmt)
    ensures Names(q.params) ==
              ["location", "radius", "type"] + KeywordNames(req.searchTerm) + PriceNames(req.priceLevel) + ["key"]
    ensures "keyword" in Names(q.params) <==> Truthy(req.searchTerm)
    ensures Truthy(req.searchTerm) ==> Param("keyword", Keyword(d, req.searchTerm.value, fmt)) in q.params
    ensures "minprice" in Names(q.params) <==> req.priceLevel.Some?
    ensures "maxprice" in Names(q.params) <==> req.priceLevel.Some?
    ensures req.priceLevel.Some? ==>
              Param("minprice", DecimalText(req.priceLevel.value)) in q.params &&
              Param("maxprice", DecimalText(req.priceLevel.value)) in q.params
  {
    var ps := LocationParams(origin, req, fmt) + KeywordParams(d, req.searchTerm, fmt)
              + PriceParams(req.priceLevel) + [Param("key", req.key)];
    ParamsShape(LocationParams(origin, req, fmt), KeywordParams(d, req.searchTerm, fmt),
                PriceParams(req.priceLevel), Param("key", req.key), ps);
    NamesOfParts(d, origin, req, fmt);
    KnownNames(req.searchTerm, req.priceLevel);
    Query(NearbySearch, ps)
  }

  /** location, radius (in meters) and type=restaurant. */
  function LocationParams(origin: Coord, req: SearchRequest, fmt: Formatting): seq<Param> {
    [Param("location", fmt.number(origin.lat) + "," + fmt.number(origin.lng)),
     Param("radius", fmt.number(req.radiusMiles * MetersPerMile)),
     Param("type", "restaurant")]
  }

  /** The keyword text: encodeURIComponent(searchTerm) in Node, the term itself in Python. */
  function Keyword(d: Dialect, term: string, fmt: Formatting): string {
    if d == Js then fmt.encodeComponent(term) else term
  }

  function KeywordParams(d: Dialect, term: Option<string>, fmt: Formatting): seq<Param> {
    if Truthy(term) then [Param("keyword", Keyword(d, term.value, fmt))] else []
  }

  function PriceParams(level: Option<int>): seq<Param> {
    if level.Some? then [Param("minprice", DecimalText(level.value)), Param("maxprice", DecimalText(level.value))]
    else []
  }

  lemma ParamsShape(loc: seq<Param>, kw: seq<Param>, pr: seq<Param>, last: Param, ps: seq<Param>)
    requires |loc| == 3 && ps == loc + kw + pr + [last]
    ensures ps[..3] == loc && |ps| >= 4 && ps[|ps| - 1] == last
    ensures forall p :: p in kw ==> p in ps
    ensures forall p :: p in pr ==> p in ps
    ensures Names(ps) == Names(loc) + Names(kw) + Names(pr) + [last.name]
  {
    var ns := Names(loc) + Names(kw) + Names(pr) + [last.name];
    assert |Names(ps)| == |ns|;
    forall i | 0 <= i < |ps| ensures Names(ps)[i] == ns[i] {
      if i < 3 {
        assert ps[i] == loc[i];
      } else if i < 3 + |kw| {
        assert ps[i] == kw[i - 3];
      } else if i < 3 + |kw| + |pr| {
        assert ps[i] == pr[i - 3 - |kw|];
      }
    }
  }

  function KeywordNames(term: Option<string>): seq<string> {
    if Truthy(term) then ["keyword"] else []
  }

  function PriceNames(level: Option<int>): seq<string> {
    if level.Some? then ["minprice", "maxprice"] else []
  }

  lemma NamesOfParts(d: Dialect, origin: Coord, req: SearchRequest, fmt: Formatting)
    ensures Names(LocationParams(origin, req, fmt)) == ["location", "radius", "type"]
    ensures Names(KeywordParams(d, req.searchTerm, fmt)) == KeywordNames(req.searchTerm)
    ensures Names(PriceParams(req.priceLevel)) == PriceNames(req.priceLevel)
  {
  }

  lemma KnownNames(term: Option<string>, level: Option<int>)
    ensures var names := ["location", "radius", "type"] + KeywordNames(term) + PriceNames(level) + ["key"];
      && ("keyword" in names <==> Truthy(term))
      && ("minprice" in names <==> level.Some?)
      && ("maxprice" in names <==> level.Some?)
  {
  }

  /** The follow-up request for a continuation token (not URL-encoded by either script). */
  function NextPageQuery(token: string, key: string): (q: Query)
    ensures q.endpoint == NearbySearch && q.params == [Param("pagetoken", token), Param("key", key)]
  {
    Query(NearbySearch, [Param("pagetoken", token), Param("key", key)])
  }
}
