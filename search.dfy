/** The fetch-filter-sort pipeline of findOpenRestaurants / find_open_restaurants, with
    every network reply an input: geocode the zip code, page through the nearby search
    (at most three pages), keep the open candidates as records, sort them by distance. */
module Search {
  import opened Basics
  import opened PriceLevel
  import opened Places
  import opened Sorting

  /** A search makes at most three nearby-search requests, to bound API usage. */
  const MaxPages: nat := 3

  /** The reply to one nearby-search request. */
  datatype PageResponse =
    | RequestFailed  // Node: the request threw (network or JSON error); Python: an HTTP status other than 200
    | Page(status: string, results: seq<Place>, nextPageToken: Option<string>)

  /** The network as one search sees it: the geocoding reply, the reply to the k-th
      nearby-search request (counting from 0), and the place-details reply per place id. */
  datatype Services = Services(
    geocode: GeocodeResponse,
    pages: nat -> PageResponse,
    details: string -> DetailsResponse)

  /** Another page is requested when the token is truthy (Node) or merely present (Python). */
  predicate FollowsToken(d: Dialect, token: Option<string>) {
    if d == Js then Truthy(token) else token.Some?
  }

  function DistanceOf(r: Restaurant): real {
    r.distanceMiles
  }

  /** The records one OK page appends: a record for each candidate whose open check holds,
      in page order. */
  function OpenRecords(d: Dialect, places: seq<Place>, details: string -> DetailsResponse): (r: seq<Restaurant>)
    ensures |r| <= |places|
  {
    if places == [] then []
    else
      var init := places[..|places| - 1];
      var last := places[|places| - 1];
      assert places == init + [last];
      OpenRecords(d, init, details) + (if IsOpen(details(last.placeId)) then [BuildRecord(d, last)] else [])
  }

  /** The places of a page whose open check holds, in page order. */
  function OpenPlaces(places: seq<Place>, details: string -> DetailsResponse): seq<Place> {
    Filter(places, (p: Place) => IsOpen(details(p.placeId)))
  }

  /** The record of each place, in order. */
  function Records(d: Dialect, places: seq<Place>): (r: seq<Restaurant>)
    ensures |r| == |places|
    ensures forall i :: 0 <= i < |places| ==> r[i] == BuildRecord(d, places[i])
  {
    seq(|places|, i requires 0 <= i < |places| => BuildRecord(d, places[i]))
  }

  lemma RecordsAppend(d: Dialect, a: seq<Place>, b: seq<Place>)
    ensures Records(d, a + b) == Records(d, a) + Records(d, b)
  {
    assert forall i :: 0 <= i < |a| ==> (a + b)[i] == a[i];
    assert forall i :: |a| <= i < |a| + |b| ==> (a + b)[i] == b[i - |a|];
  }

  lemma OpenPlacesSnoc(places: seq<Place>, last: Place, details: string -> DetailsResponse)
    ensures OpenPlaces(places + [last], details)
              == OpenPlaces(places, details) + (if IsOpen(details(last.placeId)) then [last] else [])
  {
    FilterSnoc(places, last, (p: Place) => IsOpen(details(p.placeId)));
  }

  /** The records a page contributes are the records of its open places, in page order. */
  lemma {:induction false} OpenRecordsOfOpenPlaces(d: Dialect, places: seq<Place>, details: string -> DetailsResponse)
    ensures OpenRecords(d, places, details) == Records(d, OpenPlaces(places, details))
  {
    if places != [] {
      var init := places[..|places| - 1];
      var last := places[|places| - 1];
      var tail := if IsOpen(details(last.placeId)) then [last] else [];
      assert places == init + [last];
      OpenRecordsOfOpenPlaces(d, init, details);
      OpenPlacesSnoc(init, last, details);
      RecordsAppend(d, OpenPlaces(init, details), tail);
      assert Records(d, tail) == if IsOpen(details(last.placeId)) then [BuildRecord(d, last)] else [];
    }
  }

  /** Each record a page contributes is the record of one of its open places, and every
      open place contributes its record. */
  lemma OpenRecordsExact(d: Dialect, places: seq<Place>, details: string -> DetailsResponse)
    ensures forall x :: x in OpenRecords(d, places, details) ==>
              exists p :: p in places && IsOpen(details(p.placeId)) && x == BuildRecord(d, p)
    ensures forall p :: p in places && IsOpen(details(p.placeId)) ==> BuildRecord(d, p) in OpenRecords(d, places, details)
  {
    OpenRecordsOfOpenPlaces(d, places, details);
    var open := OpenPlaces(places, details);
    var r := Records(d, open);
    forall x | x in r
      ensures exists p :: p in places && IsOpen(details(p.placeId)) && x == BuildRecord(d, p)
    {
      var i :| 0 <= i < |r| && r[i] == x;
      assert open[i] in open;
    }
    forall p | p in places && IsOpen(details(p.placeId)) ensures BuildRecord(d, p) in r {
      assert p in open;
      var i :| 0 <= i < |open| && open[i] == p;
      assert r[i] == BuildRecord(d, p);
    }
  }

  /** What a reply contributes: the open records of an OK page, nothing otherwise. */
  function PageRecords(d: Dialect, reply: PageResponse, details: string -> DetailsResponse): seq<Restaurant> {
    if reply.Page? && reply.status == "OK" then OpenRecords(d, reply.results, details) else []
  }

  /** The request issued after request number `page`, if the loop goes on: only after an
      OK page whose token is followed, and only while fewer than MaxPages were made. */
  function NextRequest(d: Dialect, reply: PageResponse, page: nat, key: string): (next: Option<Query>)
    ensures next.Some? <==>
              reply.Page? && reply.status == "OK" && FollowsToken(d, reply.nextPageToken) && page + 1 < MaxPages
    ensures next.Some? ==> next.value == NextPageQuery(reply.nextPageToken.value, key)
  {
    if reply.Page? && reply.status == "OK" && FollowsToken(d, reply.nextPageToken) && page + 1 < MaxPages
    then Some(NextPageQuery(reply.nextPageToken.value, key))
    else None
  }

  /** The records collected and the requests made, in order. */
  datatype Crawl = Crawl(collected: seq<Restaurant>, requests: seq<Query>)

  /** The paging loop from request number `page` on, starting with request q. */
  function CrawlFrom(d: Dialect, q: Query, page: nat, key: string, net: Services): (c: Crawl)
    requires page < MaxPages
    ensures 1 <= |c.requests| <= MaxPages - page
    ensures c.requests[0] == q
    decreases MaxPages - page
  {
    var reply := net.pages(page);
    var here := PageRecords(d, reply, net.details);
    match NextRequest(d, reply, page, key)
    case None => Crawl(here, [q])
    case Some(next) =>
      var rest := CrawlFrom(d, next, page + 1, key, net);
      Crawl(here + rest.collected, [q] + rest.requests)
  }

  /** What a search returns and which nearby-search requests it makes: nothing at all when
      geocoding gives no usable origin, otherwise the crawl's records sorted by distance. */
  function OpenRestaurants(d: Dialect, req: SearchRequest, net: Services, fmt: Formatting): (c: Crawl)
    ensures !UsableOrigin(Coordinates(net.geocode)) ==> c == Crawl([], [])
    ensures |c.requests| <= MaxPages
    ensures SortedBy(c.collected, DistanceOf)
    ensures UsableOrigin(Coordinates(net.geocode)) ==>
              var crawl := CrawlFrom(d, SearchQuery(d, Coordinates(net.geocode).value, req, fmt), 0, req.key, net);
              c.requests == crawl.requests && multiset(c.collected) == multiset(crawl.collected)
  {
    var origin := Coordinates(net.geocode);
    if !UsableOrigin(origin) then Crawl([], [])
    else
      var crawl := CrawlFrom(d, SearchQuery(d, origin.value, req, fmt), 0, req.key, net);
      Crawl(SortBy(crawl.collected, DistanceOf), crawl.requests)
  }

  /** The inner loop over one OK page: each candidate whose open check holds is appended
      as a record, in page order. */
  method AppendOpen(d: Dialect, places: seq<Place>, details: string -> DetailsResponse, collected: seq<Restaurant>)
    returns (r: seq<Restaurant>)
    ensures r == collected + OpenRecords(d, places, details)
  {
    r := collected;
    var j := 0;
    while j < |places|
      invariant j <= |places|
      invariant r == collected + OpenRecords(d, places[..j], details)
    {
      var place := places[j];
      if IsOpen(details(place.placeId)) {
        r := r + [BuildRecord(d, place)];
      }
      assert places[..j + 1][..j] == places[..j];
      j := j + 1;
    }
    assert places[..j] == places;
  }

  /** What the paging loop has still to do when `next` is the pending request and `page`
      requests were made: nothing once there is none or the cap is reached. */
  ghost function Remaining(d: Dialect, next: Option<Query>, page: nat, key: string, net: Services): Crawl {
    if next.Some? && page < MaxPages then CrawlFrom(d, next.value, page, key, net) else Crawl([], [])
  }

  /** One turn of the paging loop: request `url` contributes what its reply contributes,
      and the crawl goes on with the request that reply makes due. */
  lemma CrawlStep(d: Dialect, url: Query, page: nat, key: string, net: Services)
    requires page < MaxPages
    ensures var reply := net.pages(page);
            var more := Remaining(d, NextRequest(d, reply, page, key), page + 1, key, net);
      CrawlFrom(d, url, page, key, net)
        == Crawl(PageRecords(d, reply, net.details) + more.collected, [url] + more.requests)
  {
    if NextRequest(d, net.pages(page), page, key).None? {
      assert PageRecords(d, net.pages(page), net.details) + [] == PageRecords(d, net.pages(page), net.details);
      assert [url] + [] == [url];
    }
  }

  lemma EmptyAppend<T>(s: seq<T>)
    ensures [] + s == s && s + [] == s
  {
  }

  lemma Reassociate<T>(a: seq<T>, b: seq<T>, c: seq<T>)
    ensures a + (b + c) == (a + b) + c
  {
  }

  /** findOpenRestaurants / find_open_restaurants: geocode, page, sort. */
  method FindOpenRestaurants(d: Dialect, req: SearchRequest, net: Services, fmt: Formatting)
    returns (restaurants: seq<Restaurant>, requests: seq<Query>)
    ensures Crawl(restaurants, requests) == OpenRestaurants(d, req, net, fmt)
  {
    var origin := Coordinates(net.geocode);
    if !UsableOrigin(origin) {
      return [], [];
    }
    var collected;
    collected, requests := FetchPages(d, SearchQuery(d, origin.value, req, fmt), req.key, net);
    restaurants := SortBy(collected, DistanceOf);
  }

  /** The paging loop of findOpenRestaurants / find_open_restaurants, from the first
      nearby-search request on: at most MaxPages requests, each made while the previous
      reply asks for one. */
  method FetchPages(d: Dialect, first: Query, key: string, net: Services)
    returns (collected: seq<Restaurant>, requests: seq<Query>)
    ensures Crawl(collected, requests) == CrawlFrom(d, first, 0, key, net)
  {
    var nearby: Option<Query> := Some(first);
    var pageCount: nat := 0;
    collected := [];
    requests := [];
    ghost var whole := CrawlFrom(d, first, 0, key, net);
    EmptyAppend(whole.collected);
    EmptyAppend(whole.requests);
    while nearby.Some? && pageCount < MaxPages
      invariant pageCount <= MaxPages
      invariant var rest := Remaining(d, nearby, pageCount, key, net);
        whole == Crawl(collected + rest.collected, requests + rest.requests)
      decreases MaxPages - pageCount
    {
      var url := nearby.value;
      CrawlStep(d, url, pageCount, key, net);
      ghost var more := Remaining(d, NextRequest(d, net.pages(pageCount), pageCount, key), pageCount + 1, key, net);
      Reassociate(requests, [url], more.requests);
      Reassociate(collected, PageRecords(d, net.pages(pageCount), net.details), more.collected);
      collected, nearby := FetchPage(d, url, pageCount, key, net, collected);
      requests := requests + [url];
      pageCount := pageCount + 1;
    }
    EmptyAppend(collected);
    EmptyAppend(requests);
  }

  /** One turn of the paging loop, request number `page`: a failed or non-OK reply ends the
      loop; an OK one appends its open records and passes on its token, if followed. */
  method FetchPage(d: Dialect, url: Query, page: nat, key: string, net: Services, collected: seq<Restaurant>)
    returns (extended: seq<Restaurant>, next: Option<Query>)
    requires page < MaxPages
    ensures extended == collected + PageRecords(d, net.pages(page), net.details)
    ensures Remaining(d, next, page + 1, key, net) == Remaining(d, NextRequest(d, net.pages(page), page, key), page + 1, key, net)
  {
    var reply := net.pages(page);
    if reply.RequestFailed? || reply.status != "OK" {
      assert collected + [] == collected;
      return collected, None;
    }
    extended := AppendOpen(d, reply.results, net.details, collected);
    if FollowsToken(d, reply.nextPageToken) {
      next := Some(NextPageQuery(reply.nextPageToken.value, key));
    } else {
      next := None;
    }
  }

  /** The records of `count` consecutive replies starting with reply number `page`. */
  function Collected(d: Dialect, net: Services, page: nat, count: nat): seq<Restaurant>
    decreases count
  {
    if count == 0 then [] else PageRecords(d, net.pages(page), net.details) + Collected(d, net, page + 1, count - 1)
  }

  /** Requests from number `page` on that form a chain: each after the first is the one
      the reply to the previous asks for, and the reply to the last asks for none. */
  predicate Chain(d: Dialect, net: Services, page: nat, key: string, requests: seq<Query>)
    decreases |requests|
  {
    && requests != []
    && if |requests| == 1 then NextRequest(d, net.pages(page), page, key) == None
       else NextRequest(d, net.pages(page), page, key) == Some(requests[1])
            && Chain(d, net, page + 1, key, requests[1..])
  }

  /** The shape of a crawl: its requests form a chain, and its records are those of the
      replies received, in order. */
  lemma CrawlShape(d: Dialect, q: Query, page: nat, key: string, net: Services)
    requires page < MaxPages
    ensures var c := CrawlFrom(d, q, page, key, net);
      && Chain(d, net, page, key, c.requests)
      && c.collected == Collected(d, net, page, |c.requests|)
  {
    CrawlChain(d, q, page, key, net);
    CrawlCollected(d, q, page, key, net);
  }

  lemma {:induction false} CrawlChain(d: Dialect, q: Query, page: nat, key: string, net: Services)
    requires page < MaxPages
    ensures Chain(d, net, page, key, CrawlFrom(d, q, page, key, net).requests)
    decreases MaxPages - page
  {
    var c := CrawlFrom(d, q, page, key, net);
    match NextRequest(d, net.pages(page), page, key)
    case None =>
    case Some(next) =>
      CrawlChain(d, next, page + 1, key, net);
      var rest := CrawlFrom(d, next, page + 1, key, net);
      assert c.requests == [q] + rest.requests;
      assert c.requests[1..] == rest.requests;
  }

  /** The records of a crawl are those of the replies to its requests. */
  lemma {:induction false} CrawlCollected(d: Dialect, q: Query, page: nat, key: string, net: Services)
    requires page < MaxPages
    ensures var c := CrawlFrom(d, q, page, key, net);
      c.collected == Collected(d, net, page, |c.requests|)
    decreases MaxPages - page
  {
    match NextRequest(d, net.pages(page), page, key)
    case None =>
      assert Collected(d, net, page + 1, 0) == [];
    case Some(next) =>
      CrawlCollected(d, next, page + 1, key, net);
  }

  lemma {:induction false} CollectedOpen(d: Dialect, net: Services, page: nat, count: nat)
    ensures forall x :: x in Collected(d, net, page, count) ==> IsOpen(net.details(x.placeId))
    decreases count
  {
    if count > 0 {
      CollectedOpen(d, net, page + 1, count - 1);
      OpenRecordsExact(d, if net.pages(page).Page? then net.pages(page).results else [], net.details);
    }
  }

  /** Only candidates whose open check holds end up in the result, which is a sorted,
      stable permutation of the records collected page by page. */
  lemma OnlyOpenRestaurants(d: Dialect, req: SearchRequest, net: Services, fmt: Formatting)
    ensures var c := OpenRestaurants(d, req, net, fmt);
      forall x :: x in c.collected ==> IsOpen(net.details(x.placeId))
  {
    var origin := Coordinates(net.geocode);
    if UsableOrigin(origin) {
      var q := SearchQuery(d, origin.value, req, fmt);
      var crawl := CrawlFrom(d, q, 0, req.key, net);
      CrawlShape(d, q, 0, req.key, net);
      CollectedOpen(d, net, 0, |crawl.requests|);
      forall x | x in SortBy(crawl.collected, DistanceOf) ensures IsOpen(net.details(x.placeId)) {
        assert x in multiset(SortBy(crawl.collected, DistanceOf));
      }
    }
  }

  /** The page cap: when every reply is an OK page with a followed token, exactly
      MaxPages requests are made all the same. */
  lemma {:induction false} PageCapStopsTokens(d: Dialect, q: Query, page: nat, key: string, net: Services)
    requires page < MaxPages
    requires forall k :: page <= k < MaxPages ==>
               net.pages(k).Page? && net.pages(k).status == "OK" && FollowsToken(d, net.pages(k).nextPageToken)
    ensures |CrawlFrom(d, q, page, key, net).requests| == MaxPages - page
    decreases MaxPages - page
  {
    if page + 1 < MaxPages {
      var next := NextRequest(d, net.pages(page), page, key);
      PageCapStopsTokens(d, next.value, page + 1, key, net);
    }
  }

  /** A failure on the second request ends the crawl and keeps the first page's records. */
  lemma FailureKeepsEarlierPages(d: Dialect, q: Query, key: string, net: Services)
    requires net.pages(0).Page? && net.pages(0).status == "OK" && FollowsToken(d, net.pages(0).nextPageToken)
    requires net.pages(1).RequestFailed? || (net.pages(1).Page? && net.pages(1).status != "OK")
    ensures var c := CrawlFrom(d, q, 0, key, net);
      && c.requests == [q, NextPageQuery(net.pages(0).nextPageToken.value, key)]
      && c.collected == OpenRecords(d, net.pages(0).results, net.details)
  {
    var next := NextRequest(d, net.pages(0), 0, key);
    assert next == Some(NextPageQuery(net.pages(0).nextPageToken.value, key));
    var rest := CrawlFrom(d, next.value, 1, key, net);
    assert rest == Crawl([], [next.value]);
  }
}
