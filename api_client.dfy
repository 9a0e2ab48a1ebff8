// The backend client: the crawler that pages through the free phone numbers
// of one connection (falling back to the connection's endpoints when the
// phone-number resource answers 404), and the POST that registers endpoints.

module ApiClient {

  import opened Wrappers
  import opened PyText
  import opened PyValue
  import opened Http
  import opened Config

  /** The path segment that marks a provider-scoped phone-number URL. */
  const ProviderMarker := "/channels/v2v/providers/"

  const ConnectionsMarker := "/connections/"

  /** The item fields tried, in order, for the phone number of a dict item. */
  const NumberFields := ["phone_number", "number", "phone", "endpoint", "id"]

  // ---------------------------------------------------------------------------
  // URLs

  /** The phone-number resource the crawler pages through. An empty `apiUrl`
      stands for a missing or empty argument. */
  function PageUrl(apiUrl: string, cfg: AppConfig): (r: string)
    ensures apiUrl != [] && Contains(apiUrl, "/phone-numbers") ==> r == apiUrl
    ensures apiUrl != [] && !Contains(apiUrl, "/phone-numbers") ==> r == apiUrl + "/phone-numbers"
    ensures apiUrl == [] ==> r == cfg.baseUrl + "/phone-numbers"
    ensures Contains(r, "/phone-numbers")
  {
    if apiUrl != [] then
      if Contains(apiUrl, "/phone-numbers") then apiUrl
      else
        ContainsMiddle(apiUrl, "/phone-numbers", "");
        assert apiUrl + "/phone-numbers" + "" == apiUrl + "/phone-numbers";
        apiUrl + "/phone-numbers"
    else
      ContainsMiddle(cfg.baseUrl, "/phone-numbers", "");
      assert cfg.baseUrl + "/phone-numbers" + "" == cfg.baseUrl + "/phone-numbers";
      cfg.baseUrl + "/phone-numbers"
  }

  /** Resolving an already resolved URL changes nothing. */
  lemma PageUrlIdempotent(apiUrl: string, cfg: AppConfig)
    ensures PageUrl(PageUrl(apiUrl, cfg), cfg) == PageUrl(apiUrl, cfg)
  {
  }

  /** The URL of the page at `offset`: the query is appended with `&` when the
      page URL already has one, else it starts one with `?`. */
  function PageRequestUrl(pageUrl: string, offset: nat, limit: int): (r: string)
    ensures StartsWith(r, pageUrl) && |r| > |pageUrl|
    ensures r[|pageUrl|] == '&' <==> '?' in pageUrl
    ensures r[|pageUrl|] == '?' <==> '?' !in pageUrl
  {
    pageUrl + (if '?' in pageUrl then "&" else "?") + PageQuery(offset, limit)
  }

  lemma NoQuestionMarkInNumber(n: int)
    ensures '?' !in IntText(n)
  {
    var t := IntText(n);
    forall i | 0 <= i < |t| ensures t[i] != '?' {
      if n < 0 {
        assert i == 0 || t[i] == NatText(-n)[i - 1];
      }
    }
  }

  /** The query `PageRequestUrl` appends after its separator. */
  function PageQuery(offset: nat, limit: int): (r: string)
    ensures '?' !in r
  {
    var a := "show_free_phone_numbers=true&offset=";
    var b := IntText(offset);
    var c := "&limit=";
    var d := IntText(limit);
    NoQuestionMarkInNumber(offset);
    NoQuestionMarkInNumber(limit);
    assert forall i :: 0 <= i < |a| ==> a[i] != '?';
    assert forall i :: 0 <= i < |c| ==> c[i] != '?';
    assert '?' !in a + b + c + d by {
      forall i | 0 <= i < |a + b + c + d| ensures (a + b + c + d)[i] != '?' {
        if i < |a| {
          assert (a + b + c + d)[i] == a[i];
        } else if i < |a + b| {
          assert (a + b + c + d)[i] == b[i - |a|];
        } else if i < |a + b + c| {
          assert (a + b + c + d)[i] == c[i - |a + b|];
        } else {
          assert (a + b + c + d)[i] == d[i - |a + b + c|];
        }
      }
    }
    a + b + c + d
  }

  lemma QueryAddsNoMark(u: string, offset: nat, limit: int)
    ensures Count(u + PageQuery(offset, limit), '?') == Count(u, '?')
  {
    var tail := PageQuery(offset, limit);
    CountZero(tail, '?');
    CountConcat(u, tail, '?');
  }

  lemma SeparatorMarks(pageUrl: string)
    ensures Count(pageUrl + (if '?' in pageUrl then "&" else "?"), '?') ==
              if '?' in pageUrl then Count(pageUrl, '?') else 1
  {
    var sep := if '?' in pageUrl then "&" else "?";
    CountConcat(pageUrl, sep, '?');
    if '?' in pageUrl {
      assert Count(sep, '?') == 0;
    } else {
      CountZero(pageUrl, '?');
      assert Count(sep, '?') == 1;
    }
  }

  /** The page request has exactly one `?` when the page URL had none, and adds
      none to a page URL that had one. */
  lemma PageRequestUrlQuery(pageUrl: string, offset: nat, limit: int)
    ensures Count(PageRequestUrl(pageUrl, offset, limit), '?') ==
              if '?' in pageUrl then Count(pageUrl, '?') else 1
  {
    var u := pageUrl + (if '?' in pageUrl then "&" else "?");
    QueryAddsNoMark(u, offset, limit);
    SeparatorMarks(pageUrl);
  }

  /** The connection id the 404 rewrite reads out of a URL: the text after the
      last `/connections/`, up to the next `/`. */
  function ConnectionSegment(pageUrl: string): string
  {
    Split(Last(Split(pageUrl, ConnectionsMarker)), "/")[0]
  }

  /** The connection segment holds no `/` and starts the text after the last
      `/connections/`. */
  lemma ConnectionSegmentShape(pageUrl: string)
    ensures '/' !in ConnectionSegment(pageUrl)
    ensures StartsWith(Last(Split(pageUrl, ConnectionsMarker)), ConnectionSegment(pageUrl))
  {
    var tail := Last(Split(pageUrl, ConnectionsMarker));
    SplitHead(tail, "/");
    var seg := ConnectionSegment(pageUrl);
    match IndexOf(tail, "/")
    case None =>
      forall j | 0 <= j < |tail| ensures tail[j] != '/' {
        assert !OccursAt(tail, "/", j);
        assert tail[j..j + 1] == [tail[j]];
      }
    case Some(i) =>
      forall j | 0 <= j < i ensures tail[j] != '/' {
        assert !OccursAt(tail, "/", j);
        assert tail[j..j + 1] == [tail[j]];
      }
  }

  /** The sibling endpoints resource of a provider-scoped phone-number URL: the
      text before the provider marker, then `/connections/` and the connection
      segment, then `/endpoints`. There is one exactly when the URL holds both
      markers and the segment is non-empty. */
  function FallbackUrl(pageUrl: string): (r: Option<string>)
    ensures r.Some? <==> Contains(pageUrl, ProviderMarker) && Contains(pageUrl, ConnectionsMarker)
                         && ConnectionSegment(pageUrl) != []
    ensures r.Some? ==> r.value == Split(pageUrl, ProviderMarker)[0] + ConnectionsMarker
                                   + ConnectionSegment(pageUrl) + "/endpoints"
  {
    if !Contains(pageUrl, ProviderMarker) then None
    else
      var basePath := Split(pageUrl, ProviderMarker)[0];
      if !Contains(pageUrl, ConnectionsMarker) then None
      else
        var connPart := Split(Last(Split(pageUrl, ConnectionsMarker)), "/")[0];
        if connPart == [] then None
        else
          Some(basePath + ConnectionsMarker + connPart + "/endpoints")
  }

  /** The URL of the endpoints page at `offset`. */
  function EndpointsRequestUrl(endpointsUrl: string, offset: nat, limit: int): (r: string)
    ensures StartsWith(r, endpointsUrl + "?show_free_endpoints=false&offset=")
  {
    endpointsUrl + "?show_free_endpoints=false&offset=" + IntText(offset) + "&limit=" + IntText(limit)
  }

  // ---------------------------------------------------------------------------
  // Reading one page

  /** The items of a page and whether the page says more follow. */
  datatype Page = Page(items: seq<Json>, hasMore: bool)

  /** The keys a dict page may keep its records under, in the order the
      phone-number loop tries them. */
  const PageKeys := ["items", "data", "results"]

  /** How the phone-number loop reads a decoded body. For a dict, `has_more`
      defaults to whether the `items` list is full, and an empty `items` falls
      back to `data`, then to `results`, when those keys are present. `len()` and
      iteration of a value that has neither raise TypeError. So the records
      are those of the first truthy value among `items`, `data` and `results`,
      and there are none when all three are falsy. */
  function PrimaryPage(v: Json, limit: int): (r: Result<Page, Exc>)
    ensures r.Err? ==> r.error == TypeError
    ensures v.List? ==> r == Ok(Page(v.items, |v.items| == limit))
    ensures !v.List? && !v.Object? ==> r == Ok(Page([], false))
    ensures v.Object? && r.Ok? && Has(v.fields, "has_more") ==>
              r.value.hasMore == Truthy(Get(v.fields, "has_more", Null))
    ensures v.Object? && r.Ok? && !Has(v.fields, "has_more") ==>
              r.value.hasMore == (Len(Get(v.fields, "items", List([]))) == Some(limit))
    ensures v.Object? && r.Ok? ==>
              var first := FirstTruthy(v.fields, PageKeys);
              if Truthy(first) then Iter(first) == Some(r.value.items) else r.value.items == []
  {
    match v
    case Object(fs) =>
      var items0 := Get(fs, "items", List([]));
      if Len(items0).None? then Err(TypeError)
      else
        var hasMore := Truthy(Get(fs, "has_more", Bool(Len(items0).value == limit)));
        var items1 := if !Truthy(items0) && Has(fs, "data") then Get(fs, "data", List([])) else items0;
        var items2 := if !Truthy(items1) && Has(fs, "results") then Get(fs, "results", List([])) else items1;
        if Iter(items2).None? then Err(TypeError)
        else Ok(Page(Iter(items2).value, hasMore))
    case List(xs) => Ok(Page(xs, |xs| == limit))
    case _ => Ok(Page([], false))
  }

  /** A dict that names neither `items` nor `has_more` never asks for another
      page, whatever its `data` or `results` hold. */
  lemma DataOnlyEndsPaging(fs: seq<Field>, limit: int)
    requires limit != 0
    requires !Has(fs, "items") && !Has(fs, "has_more")
    ensures PrimaryPage(Object(fs), limit).Ok? ==> !PrimaryPage(Object(fs), limit).value.hasMore
  {
    assert Get(fs, "items", List([])) == List([]);
    assert Get(fs, "has_more", Bool(0 == limit)) == Bool(false);
  }

  /** How the endpoints fallback reads a decoded body. Unlike the phone-number
      loop it takes `items` whenever the key is present, even when its value is
      falsy, falls back to `data` only when `items` is absent, and never reads
      `results`; `has_more` defaults to whether the records fill the page. */
  function EndpointPage(v: Json, limit: int): (r: Result<Page, Exc>)
    ensures r.Err? ==> r.error == TypeError
    ensures v.List? ==> r == Ok(Page(v.items, |v.items| == limit))
    ensures !v.List? && !v.Object? ==> r == Ok(Page([], false))
    ensures v.Object? && r.Ok? && Has(v.fields, "items") ==>
              Iter(Get(v.fields, "items", Null)) == Some(r.value.items)
    ensures v.Object? && r.Ok? && !Has(v.fields, "items") && Has(v.fields, "data") ==>
              Iter(Get(v.fields, "data", Null)) == Some(r.value.items)
    ensures v.Object? && !Has(v.fields, "items") && !Has(v.fields, "data") ==>
              r.Ok? && r.value.items == []
    ensures v.Object? && r.Ok? && Has(v.fields, "has_more") ==>
              r.value.hasMore == Truthy(Get(v.fields, "has_more", Null))
    ensures v.Object? && r.Ok? && !Has(v.fields, "has_more") ==>
              r.value.hasMore == (|r.value.items| == limit)
  {
    match v
    case Object(fs) =>
      var items := Get(fs, "items", Get(fs, "data", List([])));
      if Len(items).None? then Err(TypeError)
      else
        var hasMore := Truthy(Get(fs, "has_more", Bool(Len(items).value == limit)));
        Ok(Page(Iter(items).value, hasMore))
    case List(xs) => Ok(Page(xs, |xs| == limit))
    case _ => Ok(Page([], false))
  }

  /** Bodies of the documented shapes never raise: a dict whose `items`,
      `data` and `results` are absent or lists, or a bare list. */
  predicate WellShaped(v: Json)
  {
    v.List? ||
    (v.Object? && forall k :: k in ["items", "data", "results"] ==>
                    (Get(v.fields, k, List([])).List?))
  }

  lemma WellShapedPagesRead(v: Json, limit: int)
    requires WellShaped(v)
    ensures PrimaryPage(v, limit).Ok? && EndpointPage(v, limit).Ok?
  {
    if v.Object? {
      assert Get(v.fields, "items", List([])).List?;
      assert Get(v.fields, "data", List([])).List?;
      assert Get(v.fields, "results", List([])).List?;
    }
  }

  // ---------------------------------------------------------------------------
  // Extracting numbers

  /** What the phone-number loop adds for one item: a dict gives `str()` of its
      first truthy number field and nothing when none is truthy, a string is
      added as it is, anything else as its `str()`. */
  function PrimaryNumber(item: Json): (r: Option<string>)
    ensures item.Str? ==> r == Some(item.s)
    ensures !item.Str? && !item.Object? ==> r == Some(PyStr(item))
  {
    match item
    case Object(fs) =>
      var v := FirstTruthy(fs, NumberFields);
      if Truthy(v) then Some(PyStr(v)) else None
    case Str(s) => Some(s)
    case _ => Some(PyStr(item))
  }

  /** A dict item gives a number exactly when one of its number fields is truthy. */
  lemma DictItemGives(fs: seq<Field>)
    ensures PrimaryNumber(Object(fs)).Some? <==>
              exists i :: 0 <= i < |NumberFields| && Truthy(Get(fs, NumberFields[i], Null))
  {
  }

  /** What the endpoints loop adds for one item: as above, except that items
      that are neither dicts nor strings are skipped. */
  function EndpointNumber(item: Json): (r: Option<string>)
    ensures r.Some? ==> r == PrimaryNumber(item)
    ensures item.Object? || item.Str? ==> r == PrimaryNumber(item)
    ensures !item.Object? && !item.Str? ==> r.None?
  {
    if item.Object? || item.Str? then PrimaryNumber(item) else None
  }

  /** The number a dict item gives is `str()` of the value of its first truthy
      number field. */
  lemma DictItemNumber(fs: seq<Field>, i: nat)
    requires i < |NumberFields| && Truthy(Get(fs, NumberFields[i], Null))
    requires forall j :: 0 <= j < i ==> !Truthy(Get(fs, NumberFields[j], Null))
    ensures PrimaryNumber(Object(fs)) == Some(PyStr(Get(fs, NumberFields[i], Null)))
  {
    var v := FirstTruthy(fs, NumberFields);
    var k :| 0 <= k < |NumberFields| && v == Get(fs, NumberFields[k], Null)
             && forall j :: 0 <= j < k ==> !Truthy(Get(fs, NumberFields[j], Null));
    assert k == i;
  }

  /** The number one item gives, `endpoints` telling which loop reads it. */
  function ItemNumber(item: Json, endpoints: bool): Option<string>
  {
    if endpoints then EndpointNumber(item) else PrimaryNumber(item)
  }

  /** How a number is read off an item; the crawl reads with `ItemNumber`. The
      page fold and the crawl are stated for any reader, so that their proofs
      do not depend on how an item is read. */
  type Reader = (Json, bool) -> Option<string>

  /** The set of numbers `read` gives for the items of a page, by item order. */
  function Collect(items: seq<Json>, endpoints: bool, read: Reader): set<string>
  {
    if items == [] then {}
    else
      var n := read(items[|items| - 1], endpoints);
      Collect(items[..|items| - 1], endpoints, read) + (if n.Some? then {n.value} else {})
  }

  /** Some item of `items` gives the number `s`. */
  predicate Gives(items: seq<Json>, endpoints: bool, read: Reader, s: string)
  {
    exists i :: 0 <= i < |items| && read(items[i], endpoints) == Some(s)
  }

  /** A list gives `s` when its front does or its last item does. */
  lemma GivesSnoc(items: seq<Json>, endpoints: bool, read: Reader, s: string)
    requires items != []
    ensures Gives(items, endpoints, read, s) <==>
              Gives(items[..|items| - 1], endpoints, read, s) || read(items[|items| - 1], endpoints) == Some(s)
  {
    var init := items[..|items| - 1];
    if Gives(init, endpoints, read, s) {
      var i :| 0 <= i < |init| && read(init[i], endpoints) == Some(s);
      assert items[i] == init[i];
    }
    if Gives(items, endpoints, read, s) {
      var i :| 0 <= i < |items| && read(items[i], endpoints) == Some(s);
      if i < |init| {
        assert init[i] == items[i];
      }
    }
  }

  /** A number is gathered from a page exactly when some item gives it. */
  lemma {:induction false} CollectMembership(items: seq<Json>, endpoints: bool, read: Reader, s: string)
    ensures s in Collect(items, endpoints, read) <==> Gives(items, endpoints, read, s)
  {
    if items != [] {
      CollectMembership(items[..|items| - 1], endpoints, read, s);
      GivesSnoc(items, endpoints, read, s);
    }
  }

  /** The endpoints loop never gathers a number the phone-number loop would not. */
  lemma {:induction false} EndpointNumbersWithin(items: seq<Json>)
    ensures Collect(items, true, ItemNumber) <= Collect(items, false, ItemNumber)
  {
    if items != [] {
      EndpointNumbersWithin(items[..|items| - 1]);
    }
  }

  /** The loop `for item in items: available.add(...)`. */
  method AddNumbers(available: set<string>, items: seq<Json>, endpoints: bool, read: Reader)
    returns (r: set<string>)
    ensures r == available + Collect(items, endpoints, read)
  {
    r := available;
    for i := 0 to |items|
      invariant r == available + Collect(items[..i], endpoints, read)
    {
      assert items[..i + 1][..i] == items[..i];
      var n := read(items[i], endpoints);
      if n.Some? {
        r := r + {n.value};
      }
    }
    assert items[..|items|] == items;
  }

  // ---------------------------------------------------------------------------
  // One round of the loop

  /** Everything one crawl works with: the resolved page URL, the bearer
      headers, the page size and the backend. */
  datatype Crawler = Crawler(pageUrl: string, headers: Headers, limit: int,
                             server: Request -> Reply)

  /** The crawler `fetch_all_available_numbers(api_url, token, limit)` sets up:
      an empty token falls back to the configured one. */
  function NewCrawler(apiUrl: string, token: string, limit: int, cfg: AppConfig,
                      server: Request -> Reply): (c: Crawler)
    ensures Contains(c.pageUrl, "/phone-numbers") && c.limit == limit
    ensures Header(c.headers, "Authorization") ==
              Some("Bearer " + (if token != [] then token else cfg.token))
  {
    Crawler(PageUrl(apiUrl, cfg), BearerHeaders(if token != [] then token else cfg.token), limit, server)
  }

  /** What one round obtains: a page from the phone-number resource or from the
      endpoints fallback, the end of the crawl (401, an HTTP error, a failed or
      undecodable request, a failed fallback), or an escaping exception. */
  datatype Fetched = Fetched(page: Page, endpoints: bool) | Stopped | Threw(error: Exc)

  /** The endpoints fallback after a 404. Any failure in it, TypeError included,
      ends the crawl. */
  function FallbackFetch(c: Crawler, offset: nat): (r: Fetched)
    ensures !r.Threw?
    ensures r.Fetched? ==> r.endpoints && FallbackUrl(c.pageUrl).Some?
  {
    match FallbackUrl(c.pageUrl)
    case None => Stopped
    case Some(eu) =>
      match c.server(HttpGet(EndpointsRequestUrl(eu, offset, c.limit), c.headers))
      case TransportFailure => Stopped
      case Response(status, _, body) =>
        if status != 200 || body.NotJson? then Stopped
        else match EndpointPage(body.value, c.limit)
          case Err(_) => Stopped
          case Ok(p) => Fetched(p, true)
  }

  /** The requests of one round at `offset`. */
  function FetchAt(c: Crawler, offset: nat): (r: Fetched)
    ensures r.Threw? ==> r.error == TypeError
  {
    match c.server(HttpGet(PageRequestUrl(c.pageUrl, offset, c.limit), c.headers))
    case TransportFailure => Stopped
    case Response(status, _, body) =>
      if status == 401 then Stopped
      else if status == 404 then FallbackFetch(c, offset)
      else if IsHttpError(status) || body.NotJson? then Stopped
      else match PrimaryPage(body.value, c.limit)
        case Err(e) => Threw(e)
        case Ok(p) => Fetched(p, false)
  }

  /** Whether the loop goes on after a page: a phone-number page must be
      non-empty, at least `limit` long and say `has_more`; an endpoints page must
      be non-empty, say `has_more` and be exactly `limit` long. */
  predicate Continues(p: Page, endpoints: bool, limit: int)
  {
    if endpoints then |p.items| > 0 && p.hasMore && |p.items| == limit
    else !(|p.items| == 0 || |p.items| < limit || !p.hasMore)
  }

  /** A page that goes on is full and says `has_more`; a short page, an empty
      page and a page without `has_more` end the crawl. */
  lemma ContinuesOnlyAfterFullPage(p: Page, endpoints: bool, limit: int)
    ensures Continues(p, endpoints, limit) <==>
              |p.items| > 0 && |p.items| >= limit && p.hasMore
                && (endpoints ==> |p.items| == limit)
  {
  }

  /** One round of the loop, requesting the page at `offset` and (after a 404)
      the endpoints page at the same offset. */
  method FetchPage(c: Crawler, offset: nat) returns (r: Fetched)
    ensures r == Rounds(c)(offset)
  {
    var reply := c.server(HttpGet(PageRequestUrl(c.pageUrl, offset, c.limit), c.headers));
    if reply.TransportFailure? {
      return Stopped;
    }
    if reply.status == 401 {
      return Stopped;
    }
    if reply.status == 404 {
      var fallback := FallbackUrl(c.pageUrl);
      if fallback.None? {
        return Stopped;
      }
      var second := c.server(HttpGet(EndpointsRequestUrl(fallback.value, offset, c.limit), c.headers));
      if second.TransportFailure? || second.status != 200 || second.body.NotJson? {
        return Stopped;
      }
      var page := EndpointPage(second.body.value, c.limit);
      if page.Err? {
        return Stopped;
      }
      return Fetched(page.value, true);
    }
    if IsHttpError(reply.status) || reply.body.NotJson? {
      return Stopped;
    }
    var page := PrimaryPage(reply.body.value, c.limit);
    if page.Err? {
      return Threw(page.error);
    }
    r := Fetched(page.value, false);
  }

  // ---------------------------------------------------------------------------
  // The whole crawl
  //
  // The loop is stated over `rounds`, what one round at each offset obtains;
  // for a crawler `c` that is `o => FetchAt(c, o)`.

  /** The round at `offset` asks for another page. */
  predicate GoesOn(rounds: nat -> Fetched, limit: int, offset: nat)
  {
    var f := rounds(offset);
    f.Fetched? && Continues(f.page, f.endpoints, limit)
  }

  /** The crawl from `offset` with the numbers `acc` already gathered, allowing
      at most `fuel` rounds. */
  function CrawlFrom(rounds: nat -> Fetched, read: Reader, limit: int, offset: nat, acc: set<string>, fuel: nat)
    : Outcome<set<string>>
    requires limit > 0
    decreases fuel
  {
    if fuel == 0 then OutOfFuel
    else match rounds(offset)
      case Stopped => Done(acc)
      case Threw(e) => Raised(e)
      case Fetched(p, endpoints) =>
        var acc' := acc + Collect(p.items, endpoints, read);
        if Continues(p, endpoints, limit) then CrawlFrom(rounds, read, limit, offset + limit, acc', fuel - 1)
        else Done(acc')
  }

  /** The offsets the crawl requests, in order. */
  function CrawlOffsets(rounds: nat -> Fetched, limit: int, offset: nat, fuel: nat): seq<nat>
    requires limit > 0
    decreases fuel
  {
    if fuel == 0 then []
    else if GoesOn(rounds, limit, offset) then [offset] + CrawlOffsets(rounds, limit, offset + limit, fuel - 1)
    else [offset]
  }

  /** The rounds of a crawler. */
  function Rounds(c: Crawler): nat -> Fetched
  {
    (o: nat) => FetchAt(c, o)
  }

  /** The `while True` loop of `fetch_all_available_numbers` over the rounds it
      performs at each offset, bounded by `fuel` rounds. Returns the outcome and
      what the crawl gathered. */
  method CrawlLoop(rounds: nat -> Fetched, read: Reader, limit: int, fuel: nat) returns (r: Outcome<set<string>>)
    requires limit > 0
    ensures r == CrawlFrom(rounds, read, limit, 0, {}, fuel)
  {
    var available: set<string> := {};
    var offset: nat := 0;
    var requests: nat := 0;
    ghost var whole := CrawlFrom(rounds, read, limit, 0, {}, fuel);
    while requests < fuel
      invariant requests <= fuel
      invariant CrawlFrom(rounds, read, limit, offset, available, fuel - requests) == whole
      decreases fuel - requests
    {
      var f := rounds(offset);
      if !f.Fetched? {
        CrawlLast(rounds, read, limit, offset, available, fuel - requests);
        return if f.Stopped? then Done(available) else Raised(f.error);
      }
      var gathered := AddNumbers(available, f.page.items, f.endpoints, read);
      if !Continues(f.page, f.endpoints, limit) {
        CrawlLast(rounds, read, limit, offset, available, fuel - requests);
        return Done(gathered);
      }
      CrawlNext(rounds, read, limit, offset, available, fuel - requests);
      available, offset, requests := gathered, offset + limit, requests + 1;
    }
    return OutOfFuel;
  }

  /** `fetch_all_available_numbers(api_url, token, limit)` on a crawler built by
      `NewCrawler`, allowing at most `fuel` rounds. */
  method FetchAllAvailableNumbers(c: Crawler, fuel: nat) returns (r: Outcome<set<string>>)
    requires c.limit > 0
    ensures r == CrawlFrom(Rounds(c), ItemNumber, c.limit, 0, {}, fuel)
  {
    r := CrawlLoop(Rounds(c), ItemNumber, c.limit, fuel);
  }

  /** A round that ends the crawl. */
  lemma CrawlLast(rounds: nat -> Fetched, read: Reader, limit: int, offset: nat, acc: set<string>, fuel: nat)
    requires limit > 0 && fuel > 0 && !GoesOn(rounds, limit, offset)
    ensures rounds(offset).Stopped? ==> CrawlFrom(rounds, read, limit, offset, acc, fuel) == Done(acc)
    ensures rounds(offset).Threw? ==> CrawlFrom(rounds, read, limit, offset, acc, fuel) == Raised(rounds(offset).error)
    ensures rounds(offset).Fetched? ==>
              CrawlFrom(rounds, read, limit, offset, acc, fuel) ==
              Done(acc + Collect(rounds(offset).page.items, rounds(offset).endpoints, read))
  {
  }

  /** A round after which the crawl goes on at the next offset. */
  lemma CrawlNext(rounds: nat -> Fetched, read: Reader, limit: int, offset: nat, acc: set<string>, fuel: nat)
    requires limit > 0 && fuel > 0 && GoesOn(rounds, limit, offset)
    ensures CrawlFrom(rounds, read, limit, offset, acc, fuel) ==
              CrawlFrom(rounds, read, limit, offset + limit,
                        acc + Collect(rounds(offset).page.items, rounds(offset).endpoints, read), fuel - 1)
  {
  }

  // ---------------------------------------------------------------------------
  // Properties of the crawl

  /** The requests go out at `offset`, `offset + limit`, `offset + 2 * limit`, ... */
  lemma {:induction false} OffsetsStep(rounds: nat -> Fetched, limit: int, offset: nat, fuel: nat)
    requires limit > 0
    ensures forall i :: 0 <= i < |CrawlOffsets(rounds, limit, offset, fuel)| ==>
              CrawlOffsets(rounds, limit, offset, fuel)[i] == offset + i * limit
    decreases fuel
  {
    var offs := CrawlOffsets(rounds, limit, offset, fuel);
    if fuel > 0 && GoesOn(rounds, limit, offset) {
      OffsetsStep(rounds, limit, offset + limit, fuel - 1);
      var rest := CrawlOffsets(rounds, limit, offset + limit, fuel - 1);
      assert offs == [offset] + rest;
      forall i | 0 <= i < |offs| ensures offs[i] == offset + i * limit {
        if i > 0 {
          assert offs[i] == rest[i - 1];
        }
      }
    }
  }

  /** Every requested page but the last was full and said `has_more`. */
  lemma {:induction false} OffsetsAdvanceAfterFullPages(rounds: nat -> Fetched, limit: int, offset: nat, fuel: nat)
    requires limit > 0
    ensures forall i :: 0 <= i < |CrawlOffsets(rounds, limit, offset, fuel)| - 1 ==>
              GoesOn(rounds, limit, CrawlOffsets(rounds, limit, offset, fuel)[i])
    decreases fuel
  {
    var offs := CrawlOffsets(rounds, limit, offset, fuel);
    if fuel > 0 && GoesOn(rounds, limit, offset) {
      OffsetsAdvanceAfterFullPages(rounds, limit, offset + limit, fuel - 1);
      var rest := CrawlOffsets(rounds, limit, offset + limit, fuel - 1);
      assert offs == [offset] + rest;
      forall i | 0 <= i < |offs| - 1 ensures GoesOn(rounds, limit, offs[i]) {
        if i > 0 {
          assert offs[i] == rest[i - 1];
        }
      }
    }
  }

  /** Every one of `offs` asked for another page. */
  predicate AllGoOn(rounds: nat -> Fetched, limit: int, offs: seq<nat>)
  {
    forall i :: 0 <= i < |offs| ==> GoesOn(rounds, limit, offs[i])
  }

  lemma AllGoOnCons(rounds: nat -> Fetched, limit: int, offset: nat, rest: seq<nat>)
    ensures AllGoOn(rounds, limit, [offset] + rest) <==>
              GoesOn(rounds, limit, offset) && AllGoOn(rounds, limit, rest)
  {
    var offs := [offset] + rest;
    if GoesOn(rounds, limit, offset) && AllGoOn(rounds, limit, rest) {
      forall i | 0 <= i < |offs| ensures GoesOn(rounds, limit, offs[i]) {
        if i > 0 {
          assert offs[i] == rest[i - 1];
        }
      }
    }
    if AllGoOn(rounds, limit, offs) {
      assert offs[0] == offset;
      forall i | 0 <= i < |rest| ensures GoesOn(rounds, limit, rest[i]) {
        assert rest[i] == offs[i + 1];
      }
    }
  }

  /** The crawl runs out of fuel exactly when all `fuel` rounds it was allowed
      asked for another page. */
  lemma {:induction false} OffsetsMatchOutcome(rounds: nat -> Fetched, read: Reader, limit: int, offset: nat,
                                               acc: set<string>, fuel: nat)
    requires limit > 0
    ensures CrawlFrom(rounds, read, limit, offset, acc, fuel).OutOfFuel? <==>
              (|CrawlOffsets(rounds, limit, offset, fuel)| == fuel &&
               AllGoOn(rounds, limit, CrawlOffsets(rounds, limit, offset, fuel)))
    decreases fuel
  {
    if fuel > 0 {
      var f := rounds(offset);
      var offs := CrawlOffsets(rounds, limit, offset, fuel);
      if GoesOn(rounds, limit, offset) {
        var acc' := acc + Collect(f.page.items, f.endpoints, read);
        OffsetsMatchOutcome(rounds, read, limit, offset + limit, acc', fuel - 1);
        var rest := CrawlOffsets(rounds, limit, offset + limit, fuel - 1);
        assert offs == [offset] + rest;
        AllGoOnCons(rounds, limit, offset, rest);
      } else {
        assert offs == [offset];
        assert !GoesOn(rounds, limit, offs[0]);
      }
    }
  }

  /** The only exception that escapes the crawl is the TypeError of a body of
      an unexpected shape: a 401, an HTTP error, a transport failure and an
      undecodable body all end it with the numbers gathered so far. */
  lemma {:induction false} CrawlRaisesOnlyTypeError(rounds: nat -> Fetched, read: Reader, limit: int, offset: nat,
                                                    acc: set<string>, fuel: nat)
    requires limit > 0
    requires forall o :: rounds(o).Threw? ==> rounds(o).error == TypeError
    ensures CrawlFrom(rounds, read, limit, offset, acc, fuel).Raised? ==>
              CrawlFrom(rounds, read, limit, offset, acc, fuel).error == TypeError
    decreases fuel
  {
    if fuel > 0 {
      var f := rounds(offset);
      if f.Fetched? {
        CrawlRaisesOnlyTypeError(rounds, read, limit, offset + limit, acc + Collect(f.page.items, f.endpoints, read), fuel - 1);
      }
    }
  }

  /** A crawler's rounds raise nothing but TypeError. */
  lemma RoundsRaiseOnlyTypeError(c: Crawler)
    ensures forall o :: Rounds(c)(o).Threw? ==> Rounds(c)(o).error == TypeError
  {
    forall o: nat | Rounds(c)(o).Threw? ensures Rounds(c)(o).error == TypeError {
      assert Rounds(c)(o) == FetchAt(c, o);
    }
  }

  /** Numbers once gathered stay: the result contains everything gathered
      before. */
  lemma {:induction false} CrawlKeepsGathered(rounds: nat -> Fetched, read: Reader, limit: int, offset: nat,
                                              acc: set<string>, fuel: nat)
    requires limit > 0
    ensures CrawlFrom(rounds, read, limit, offset, acc, fuel).Done? ==>
              acc <= CrawlFrom(rounds, read, limit, offset, acc, fuel).value
    decreases fuel
  {
    if fuel > 0 {
      var f := rounds(offset);
      if f.Fetched? {
        CrawlKeepsGathered(rounds, read, limit, offset + limit, acc + Collect(f.page.items, f.endpoints, read), fuel - 1);
      }
    }
  }

  /** The page read at `offset` gives the number `s`. */
  predicate GaveNumber(rounds: nat -> Fetched, read: Reader, offset: nat, s: string)
  {
    var f := rounds(offset);
    f.Fetched? && s in Collect(f.page.items, f.endpoints, read)
  }

  /** Every number in the result was gathered before or comes from an item of
      a page the crawl read. */
  lemma {:induction false} CrawlGathersOnlyServed(rounds: nat -> Fetched, read: Reader, limit: int, offset: nat,
                                                  acc: set<string>, fuel: nat, s: string)
    requires limit > 0
    requires CrawlFrom(rounds, read, limit, offset, acc, fuel).Done?
    requires s in CrawlFrom(rounds, read, limit, offset, acc, fuel).value
    ensures s in acc || exists i :: 0 <= i < |CrawlOffsets(rounds, limit, offset, fuel)| &&
                                    GaveNumber(rounds, read, CrawlOffsets(rounds, limit, offset, fuel)[i], s)
    decreases fuel
  {
    var offs := CrawlOffsets(rounds, limit, offset, fuel);
    var f := rounds(offset);
    assert offs[0] == offset;
    if f.Fetched? && s !in acc {
      var acc' := acc + Collect(f.page.items, f.endpoints, read);
      if s !in acc' {
        assert Continues(f.page, f.endpoints, limit);
        CrawlGathersOnlyServed(rounds, read, limit, offset + limit, acc', fuel - 1, s);
        var rest := CrawlOffsets(rounds, limit, offset + limit, fuel - 1);
        assert offs == [offset] + rest;
        var i :| 0 <= i < |rest| && GaveNumber(rounds, read, rest[i], s);
        assert 0 <= i + 1 < |offs| && GaveNumber(rounds, read, offs[i + 1], s);
        assert exists i :: 0 <= i < |CrawlOffsets(rounds, limit, offset, fuel)| &&
                                      GaveNumber(rounds, read, CrawlOffsets(rounds, limit, offset, fuel)[i], s);
      } else {
        assert s in Collect(f.page.items, f.endpoints, read);
        assert 0 <= 0 < |offs| && GaveNumber(rounds, read, offs[0], s);
        assert exists i :: 0 <= i < |CrawlOffsets(rounds, limit, offset, fuel)| &&
                                      GaveNumber(rounds, read, CrawlOffsets(rounds, limit, offset, fuel)[i], s);
      }
    } else {
      assert s in acc;
    }
  }

  /** The crawl depends on the backend only through the rounds at the offsets
      it requests: two backends that agree there give the same crawl. */
  lemma {:induction false} CrawlReadsOnlyOffsets(rounds: nat -> Fetched, other: nat -> Fetched, read: Reader, limit: int,
                                                 offset: nat, acc: set<string>, fuel: nat)
    requires limit > 0
    requires forall i :: 0 <= i < |CrawlOffsets(rounds, limit, offset, fuel)| ==>
               other(CrawlOffsets(rounds, limit, offset, fuel)[i]) == rounds(CrawlOffsets(rounds, limit, offset, fuel)[i])
    ensures CrawlOffsets(other, limit, offset, fuel) == CrawlOffsets(rounds, limit, offset, fuel)
    ensures CrawlFrom(other, read, limit, offset, acc, fuel) == CrawlFrom(rounds, read, limit, offset, acc, fuel)
    decreases fuel
  {
    if fuel > 0 {
      var offs := CrawlOffsets(rounds, limit, offset, fuel);
      assert offs[0] == offset;
      assert other(offset) == rounds(offset);
      var f := rounds(offset);
      if GoesOn(rounds, limit, offset) {
        var rest := CrawlOffsets(rounds, limit, offset + limit, fuel - 1);
        assert offs == [offset] + rest;
        forall i | 0 <= i < |rest| ensures other(rest[i]) == rounds(rest[i]) {
          assert rest[i] == offs[i + 1];
        }
        CrawlReadsOnlyOffsets(rounds, other, read, limit, offset + limit, acc + Collect(f.page.items, f.endpoints, read), fuel - 1);
      }
    }
  }

  /** More fuel does not change an answer already reached. */
  lemma {:induction false} CrawlFuelMonotone(rounds: nat -> Fetched, read: Reader, limit: int, offset: nat,
                                             acc: set<string>, fuel: nat, more: nat)
    requires limit > 0
    requires fuel <= more && !CrawlFrom(rounds, read, limit, offset, acc, fuel).OutOfFuel?
    ensures CrawlFrom(rounds, read, limit, offset, acc, more) == CrawlFrom(rounds, read, limit, offset, acc, fuel)
    decreases fuel
  {
    assert fuel > 0;
    if GoesOn(rounds, limit, offset) {
      var f := rounds(offset);
      var acc' := acc + Collect(f.page.items, f.endpoints, read);
      CrawlNext(rounds, read, limit, offset, acc, fuel);
      CrawlNext(rounds, read, limit, offset, acc, more);
      CrawlFuelMonotone(rounds, read, limit, offset + limit, acc', fuel - 1, more - 1);
    } else {
      CrawlLast(rounds, read, limit, offset, acc, fuel);
      CrawlLast(rounds, read, limit, offset, acc, more);
    }
  }

  // ---------------------------------------------------------------------------
  // Registering endpoints

  /** The list posted: a lone string becomes a one-element list, anything else
      is sent as it is. */
  function EndpointList(phoneNumbers: Json): (r: Json)
    ensures phoneNumbers.Str? ==> r == List([phoneNumbers])
    ensures !phoneNumbers.Str? ==> r == phoneNumbers
  {
    if phoneNumbers.Str? then List([phoneNumbers]) else phoneNumbers
  }

  /** The POST `create_endpoint` sends: to `base_url + "/endpoints"` with only a
      bearer header when both `base_url` and the token are non-empty, else to the
      configured endpoints URL with the configured headers; the body is
      `{"endpoints": list}`. */
  function EndpointRequest(phoneNumbers: Json, baseUrl: string, token: string, cfg: AppConfig): (r: Request)
    ensures r.HttpPost? && EndsWith(r.url, "/endpoints")
    ensures r.payload == Object([Field("endpoints", EndpointList(phoneNumbers))])
    ensures baseUrl != [] && token != [] ==>
              StartsWith(r.url, baseUrl) && r.headers == [("Authorization", "Bearer " + token)]
    ensures !(baseUrl != [] && token != []) ==>
              StartsWith(r.url, cfg.baseUrl) && Header(r.headers, "Authorization") == Some("Bearer " + cfg.token)
  {
    var payload := Object([Field("endpoints", EndpointList(phoneNumbers))]);
    if baseUrl != [] && token != [] then HttpPost(baseUrl + "/endpoints", [("Authorization", "Bearer " + token)], payload)
    else HttpPost(EndpointsUrl(cfg), GetHeaders(cfg), payload)
  }

  /** The text appended to an HTTPError's own text before it is raised again
      as ValueError. */
  function ErrorDetails(body: Body): string
  {
    match body
    case Json(v) => "\nAPI Error Details: " + PyStr(v)
    case NotJson(t) => "\nResponse Text: " + t
  }

  /** `create_endpoint`: the decoded response body on success; an HTTP error
      status becomes a ValueError carrying the HTTPError text and the response
      details; a transport failure or an undecodable success body is a
      request error raised again unchanged. */
  function CreateEndpoint(phoneNumbers: Json, baseUrl: string, token: string, cfg: AppConfig,
                          server: Request -> Reply): (r: Result<Json, Exc>)
    ensures r.Err? ==> r.error == RequestError || r.error.ValueError?
    ensures r.Ok? <==> (var reply := server(EndpointRequest(phoneNumbers, baseUrl, token, cfg));
                        reply.Response? && !IsHttpError(reply.status) && reply.body.Json?)
    ensures r.Ok? ==> r.value == server(EndpointRequest(phoneNumbers, baseUrl, token, cfg)).body.value
  {
    var req := EndpointRequest(phoneNumbers, baseUrl, token, cfg);
    match server(req)
    case TransportFailure => Err(RequestError)
    case Response(status, reason, body) =>
      if IsHttpError(status) then Err(ValueError(HttpErrorText(status, reason, req.url) + ErrorDetails(body)))
      else if body.NotJson? then Err(RequestError)
      else Ok(body.value)
  }

  /** An HTTP error status surfaces as a ValueError whose message starts with the
      HTTPError's text, which starts with the status. */
  lemma CreateEndpointHttpError(phoneNumbers: Json, baseUrl: string, token: string, cfg: AppConfig,
                                server: Request -> Reply)
    requires var reply := server(EndpointRequest(phoneNumbers, baseUrl, token, cfg));
             reply.Response? && IsHttpError(reply.status)
    ensures var req := EndpointRequest(phoneNumbers, baseUrl, token, cfg);
            var reply := server(req);
            var r := CreateEndpoint(phoneNumbers, baseUrl, token, cfg, server);
            r.Err? && r.error.ValueError?
            && StartsWith(r.error.message, HttpErrorText(reply.status, reply.reason, req.url))
            && StartsWith(r.error.message, IntText(reply.status) + " ")
  {
    var req := EndpointRequest(phoneNumbers, baseUrl, token, cfg);
    var reply := server(req);
    var t := HttpErrorText(reply.status, reply.reason, req.url);
    var m := t + ErrorDetails(reply.body);
    assert m[..|t|] == t;
    assert m[..|IntText(reply.status) + " "|] == t[..|IntText(reply.status) + " "|];
  }

  /** `create_single_endpoint`: posts a one-element list. */
  function CreateSingleEndpoint(phoneNumber: string, baseUrl: string, token: string, cfg: AppConfig,
                                server: Request -> Reply): (r: Result<Json, Exc>)
    ensures r == CreateEndpoint(List([Str(phoneNumber)]), baseUrl, token, cfg, server)
  {
    CreateEndpoint(Str(phoneNumber), baseUrl, token, cfg, server)
  }

  /** The JSON list of the given strings, order and duplicates kept. */
  function StrList(xs: seq<string>): (r: Json)
    ensures r.List? && |r.items| == |xs| && forall i :: 0 <= i < |xs| ==> r.items[i] == Str(xs[i])
  {
    List(seq(|xs|, i requires 0 <= i < |xs| => Str(xs[i])))
  }

  /** `create_bulk_endpoints`: posts the list as given; a one-element list is
      the same request as `create_single_endpoint`. */
  function CreateBulkEndpoints(phoneNumbers: seq<string>, baseUrl: string, token: string, cfg: AppConfig,
                               server: Request -> Reply): (r: Result<Json, Exc>)
    ensures r == CreateEndpoint(StrList(phoneNumbers), baseUrl, token, cfg, server)
    ensures |phoneNumbers| == 1 ==>
              r == CreateSingleEndpoint(phoneNumbers[0], baseUrl, token, cfg, server)
  {
    var xs := StrList(phoneNumbers);
    assert |phoneNumbers| == 1 ==> xs == List([Str(phoneNumbers[0])]);
    CreateEndpoint(xs, baseUrl, token, cfg, server)
  }

  /** A bulk post sends every number, in order and with duplicates kept, as the
      `endpoints` list of its payload. */
  lemma BulkPayload(phoneNumbers: seq<string>, baseUrl: string, token: string, cfg: AppConfig)
    ensures var p := EndpointRequest(StrList(phoneNumbers), baseUrl, token, cfg).payload;
            p.Object? && |p.fields| == 1 && p.fields[0].key == "endpoints" && p.fields[0].value.List?
            && |p.fields[0].value.items| == |phoneNumbers|
            && forall i :: 0 <= i < |phoneNumbers| ==> p.fields[0].value.items[i] == Str(phoneNumbers[i])
  {
  }
}
