/**
 * Request construction and response dispatch of the Stocks app's API client
 * (APIManager). A request URL is the base URL, the endpoint's path, "?" and
 * the query items `name=value` joined by "&", the API token always last. The
 * network, `URL(string:)`, percent-encoding, JSON decoding and date
 * formatting are not modelled; they enter as functions given to the model.
 */
module Api {
  import opened Wrappers
  import opened KeyOrder
  import opened Text

  /** Seconds in a day. */
  const Day: int := 3600 * 24

  /** The API endpoints; the raw value of each is its path. */
  datatype Endpoint = Search | TopStories | CompanyNews | MarketData | Financials {
    function RawValue(): (path: string)
      ensures |path| > 0 && '?' !in path && '&' !in path && '=' !in path
    {
      match this
      case Search => "search"
      case TopStories => "news"
      case CompanyNews => "company-news"
      case MarketData => "stock/candle"
      case Financials => "stock/metric"
    }
  }

  /** `Endpoint(rawValue:)`, which Swift derives for an enum with string raw values. */
  function EndpointFromRawValue(raw: string): (e: Option<Endpoint>)
    ensures e.Some? ==> e.value.RawValue() == raw
  {
    if raw == "search" then Some(Search)
    else if raw == "news" then Some(Endpoint.TopStories)
    else if raw == "company-news" then Some(CompanyNews)
    else if raw == "stock/candle" then Some(MarketData)
    else if raw == "stock/metric" then Some(Financials)
    else None
  }

  /** Every endpoint is recovered from its path, so no two endpoints share a path. */
  lemma RawValueRoundTrip(e: Endpoint, e': Endpoint)
    ensures EndpointFromRawValue(e.RawValue()) == Some(e)
    ensures e.RawValue() == e'.RawValue() ==> e == e'
  {
    match e
    case Search =>
    case TopStories =>
    case CompanyNews =>
    case MarketData =>
    case Financials =>
  }

  // The query string.

  datatype QueryItem = QueryItem(name: string, value: string)

  /** One query item as written into the URL. */
  function Render(item: QueryItem): string {
    item.name + "=" + item.value
  }

  function Rendered(items: seq<QueryItem>): seq<string> {
    seq(|items|, i requires 0 <= i < |items| => Render(items[i]))
  }

  /** The query part of a URL: the rendered items joined by "&". */
  function QueryString(items: seq<QueryItem>): string {
    Join(Rendered(items), '&')
  }

  /** Reads one query item back: the name runs up to the first "=". */
  function ParseItem(s: string): Option<QueryItem> {
    match SplitAtFirst(s, '=')
    case None => None
    case Some((name, value)) => Some(QueryItem(name, value))
  }

  function ParseItems(parts: seq<string>): Option<seq<QueryItem>> {
    if |parts| == 0 then Some([])
    else
      match (ParseItem(parts[0]), ParseItems(parts[1..]))
      case (Some(item), Some(rest)) => Some([item] + rest)
      case _ => None
  }

  /** Reads a query part back into its items. */
  function ParseQuery(q: string): Option<seq<QueryItem>> {
    ParseItems(Split(q, '&'))
  }

  /** An item whose rendering can be read back: no "=" in the name, no "&" anywhere. */
  predicate Readable(item: QueryItem) {
    '=' !in item.name && '&' !in item.name && '&' !in item.value
  }

  lemma ParseRenderedItem(item: QueryItem)
    requires '=' !in item.name
    ensures ParseItem(Render(item)) == Some(item)
  {
    SplitAtFirstAfterPart(item.name, '=', item.value);
  }

  lemma {:induction false} ParseRenderedItems(items: seq<QueryItem>)
    requires forall i :: 0 <= i < |items| ==> Readable(items[i])
    ensures ParseItems(Rendered(items)) == Some(items)
  {
    if |items| > 0 {
      var parts, rest := Rendered(items), items[1..];
      assert parts[0] == Render(items[0]);
      assert parts[1..] == Rendered(rest);
      assert ParseItem(parts[0]) == Some(items[0]) by {
        ParseRenderedItem(items[0]);
      }
      assert ParseItems(Rendered(rest)) == Some(rest) by {
        assert forall i :: 0 <= i < |rest| ==> Readable(rest[i]) by {
          forall i | 0 <= i < |rest| ensures Readable(rest[i]) {
            assert rest[i] == items[i + 1];
          }
        }
        ParseRenderedItems(rest);
      }
      assert [items[0]] + rest == items;
    }
  }

  /** A query string holds exactly its items, in order, when each of them can be read back. */
  lemma QueryRoundTrip(items: seq<QueryItem>)
    requires |items| >= 1
    requires forall i :: 0 <= i < |items| ==> Readable(items[i])
    ensures ParseQuery(QueryString(items)) == Some(items)
  {
    forall i | 0 <= i < |items| ensures '&' !in Rendered(items)[i] {
      assert Rendered(items)[i] == items[i].name + "=" + items[i].value;
    }
    SplitJoin(Rendered(items), '&');
    ParseRenderedItems(items);
  }

  // URLs.

  /** The API token query item, which every request carries. */
  function TokenItem(apiKey: string): QueryItem {
    QueryItem("token", apiKey)
  }

  /** The query items of the parameters `params`, in the iteration order `order`. */
  function ParamItems(params: map<string, string>, order: seq<string>): (items: seq<QueryItem>)
    requires forall i :: 0 <= i < |order| ==> order[i] in params
    ensures |items| == |order|
  {
    if |order| == 0 then []
    else
      var name := order[|order| - 1];
      ParamItems(params, order[..|order| - 1]) + [QueryItem(name, params[name])]
  }

  /** All query items of a request: the parameters, then the token. */
  function ItemsFor(params: map<string, string>, order: seq<string>, apiKey: string): seq<QueryItem>
    requires forall i :: 0 <= i < |order| ==> order[i] in params
  {
    ParamItems(params, order) + [TokenItem(apiKey)]
  }

  /** The URL string of a request. */
  function UrlString(baseUrl: string, endpoint: Endpoint, items: seq<QueryItem>): string {
    baseUrl + endpoint.RawValue() + "?" + QueryString(items)
  }

  /** Reads a URL string back into the part before the first "?" and the query items. */
  function ParseUrl(url: string): Option<(string, seq<QueryItem>)> {
    match SplitAtFirst(url, '?')
    case None => None
    case Some((path, query)) =>
      match ParseQuery(query)
      case None => None
      case Some(items) => Some((path, items))
  }

  lemma {:induction false} ParamItemsAt(params: map<string, string>, order: seq<string>, i: nat)
    requires forall j :: 0 <= j < |order| ==> order[j] in params
    requires i < |order|
    ensures |ParamItems(params, order)| == |order|
    ensures ParamItems(params, order)[i] == QueryItem(order[i], params[order[i]])
  {
    var front := order[..|order| - 1];
    if i < |order| - 1 {
      ParamItemsAt(params, front, i);
    } else if |front| > 0 {
      ParamItemsAt(params, front, 0);
    }
  }

  /**
   * A request carries one query item per parameter, each `name=value` for a
   * distinct parameter, every parameter once, then the token as the last item.
   */
  lemma QueryItemsOfRequest(params: map<string, string>, order: seq<string>, apiKey: string)
    requires Enumerates(order, params.Keys)
    ensures |ItemsFor(params, order, apiKey)| == |params| + 1
    ensures ItemsFor(params, order, apiKey)[|params|] == TokenItem(apiKey)
    ensures forall i :: 0 <= i < |params| ==>
              ItemsFor(params, order, apiKey)[i].name in params &&
              ItemsFor(params, order, apiKey)[i].value == params[ItemsFor(params, order, apiKey)[i].name]
    ensures forall i, j :: 0 <= i < j < |params| ==>
              ItemsFor(params, order, apiKey)[i].name != ItemsFor(params, order, apiKey)[j].name
    ensures forall k :: k in params ==> exists i :: 0 <= i < |params| && ItemsFor(params, order, apiKey)[i].name == k
  {
    EnumerationLength(order, params.Keys);
    var items := ItemsFor(params, order, apiKey);
    forall i | 0 <= i < |order| ensures items[i] == QueryItem(order[i], params[order[i]]) {
      ParamItemsAt(params, order, i);
    }
    forall k | k in params ensures exists i :: 0 <= i < |params| && items[i].name == k {
      var i :| 0 <= i < |order| && order[i] == k;
      assert items[i].name == k;
    }
  }

  lemma TokenRendering(apiKey: string)
    ensures Render(TokenItem(apiKey)) == "token=" + apiKey
  {
    assert "token" + "=" == "token=";
  }

  /** With no parameters the query is exactly the token. */
  lemma QueryWithoutParams(apiKey: string)
    ensures QueryString(ItemsFor(map[], [], apiKey)) == "token=" + apiKey
  {
    var items := ItemsFor(map[], [], apiKey);
    assert items == [TokenItem(apiKey)];
    TokenRendering(apiKey);
    assert Rendered(items) == ["token=" + apiKey];
  }

  /** The items of a one-parameter request: the parameter, then the token. */
  lemma OneParamItems(name: string, value: string, order: seq<string>, apiKey: string)
    requires Enumerates(order, {name})
    ensures ItemsFor(map[name := value], order, apiKey) == [QueryItem(name, value), TokenItem(apiKey)]
    ensures QueryString(ItemsFor(map[name := value], order, apiKey)) == name + "=" + value + "&token=" + apiKey
  {
    SingletonEnumeration(order, name);
    var items := ItemsFor(map[name := value], order, apiKey);
    assert order[..0] == [];
    assert items == [QueryItem(name, value), TokenItem(apiKey)];
    TokenRendering(apiKey);
    assert Rendered(items) == [name + "=" + value, "token=" + apiKey];
    assert Rendered(items)[1..] == ["token=" + apiKey];
    assert Join(Rendered(items)[1..], '&') == "token=" + apiKey;
    assert QueryString(items) == (name + "=" + value) + ['&'] + ("token=" + apiKey);
    assert ['&'] + "token=" == "&token=";
  }

  /**
   * A request URL reads back as the base URL followed by the endpoint's path,
   * and its items, when the base URL has no "?" and every item can be read back.
   */
  lemma UrlRoundTrip(baseUrl: string, endpoint: Endpoint, items: seq<QueryItem>)
    requires '?' !in baseUrl
    requires |items| >= 1
    requires forall i :: 0 <= i < |items| ==> Readable(items[i])
    ensures ParseUrl(UrlString(baseUrl, endpoint, items)) == Some((baseUrl + endpoint.RawValue(), items))
  {
    RawValueRoundTrip(endpoint, endpoint);
    SplitAtFirstAfterPart(baseUrl + endpoint.RawValue(), '?', QueryString(items));
    QueryRoundTrip(items);
  }

  // The environment of a request.

  type Data = seq<bv8>

  datatype TransportError = TransportError(description: string)
  datatype DecodeError = DecodeError(description: string)

  /** What the data task hands to its completion handler. */
  datatype Response = Response(data: Option<Data>, error: Option<TransportError>)

  /** The errors a request reports. */
  datatype ApiError = InvalidUrl | NoDataReturned | Transport(cause: TransportError) | Decoding(reason: DecodeError)

  /**
   * What a request depends on beyond its arguments: the base URL and API key
   * constants, which strings `URL(string:)` accepts, and the response the
   * server gives to each URL.
   */
  datatype Environment = Environment(
    baseUrl: string,
    apiKey: string,
    isValidUrl: string -> bool,
    respond: string -> Response)

  /** The loop of `url(for:queryParams:)` that turns each visited parameter into a query item. */
  method CollectParamItems(queryParams: map<string, string>, names: seq<string>) returns (queryItems: seq<QueryItem>)
    requires forall i :: 0 <= i < |names| ==> names[i] in queryParams
    ensures queryItems == ParamItems(queryParams, names)
  {
    queryItems := [];
    for i := 0 to |names|
      invariant queryItems == ParamItems(queryParams, names[..i])
    {
      assert names[..i + 1][..i] == names[..i];
      queryItems := queryItems + [QueryItem(names[i], queryParams[names[i]])];
    }
    assert names[..|names|] == names;
  }

  /** `url(for:queryParams:)`: builds the URL string, then validates it. */
  method Url(env: Environment, endpoint: Endpoint, queryParams: map<string, string>)
    returns (url: Option<string>, ghost order: seq<string>)
    ensures Enumerates(order, queryParams.Keys)
    ensures var s := UrlString(env.baseUrl, endpoint, ItemsFor(queryParams, order, env.apiKey));
      url == if env.isValidUrl(s) then Some(s) else None
  {
    var urlString := env.baseUrl + endpoint.RawValue();
    var names := IterationOrder(queryParams.Keys);
    order := names;
    var queryItems := CollectParamItems(queryParams, names);
    queryItems := queryItems + [QueryItem("token", env.apiKey)];
    urlString := urlString + "?" + QueryString(queryItems);
    url := if env.isValidUrl(urlString) then Some(urlString) else None;
  }

  /** The result the completion handler receives for a response. */
  function Outcome<T>(response: Response, decode: Data -> Result<T, DecodeError>): (r: Result<T, ApiError>)
    ensures response.error.Some? ==> r == Failure(Transport(response.error.value))
    ensures response.error.None? && response.data.None? ==> r == Failure(NoDataReturned)
    ensures r.Success? <==> response.error.None? && response.data.Some? && decode(response.data.value).Success?
    ensures r.Success? ==> r.value == decode(response.data.value).value
    ensures response.error.None? && response.data.Some? && decode(response.data.value).Failure? ==>
              r == Failure(Decoding(decode(response.data.value).error))
  {
    if response.data.None? || response.error.Some? then
      if response.error.Some? then Failure(Transport(response.error.value)) else Failure(NoDataReturned)
    else
      match decode(response.data.value)
      case Success(value) => Success(value)
      case Failure(e) => Failure(Decoding(e))
  }

  /**
   * `request(url:expecting:completion:)`. `fetches` lists the URLs fetched and
   * `completions` the results handed to the completion handler, in order.
   */
  method Request<T>(env: Environment, url: Option<string>, decode: Data -> Result<T, DecodeError>)
    returns (fetches: seq<string>, completions: seq<Result<T, ApiError>>)
    ensures url.None? ==> fetches == [] && completions == [Failure(InvalidUrl)]
    ensures url.Some? ==> fetches == [url.value] && completions == [Outcome(env.respond(url.value), decode)]
    ensures |completions| == 1
    ensures completions[0] == Failure(InvalidUrl) <==> url.None?
  {
    if url.None? {
      fetches, completions := [], [Failure(InvalidUrl)];
      return;
    }
    fetches := [url.value];
    var response := env.respond(url.value);
    completions := [Outcome(response, decode)];
  }

  /** A request for `items` at `endpoint` was issued: one completion, and a fetch exactly when the URL is valid. */
  ghost predicate Dispatched<T>(env: Environment, endpoint: Endpoint, items: seq<QueryItem>,
                                decode: Data -> Result<T, DecodeError>,
                                fetches: seq<string>, completions: seq<Result<T, ApiError>>)
  {
    var s := UrlString(env.baseUrl, endpoint, items);
    if env.isValidUrl(s) then fetches == [s] && completions == [Outcome(env.respond(s), decode)]
    else fetches == [] && completions == [Failure(InvalidUrl)]
  }

  // The public calls.

  /**
   * `search(query:completion:)`: sends the percent-encoded query as "q"; when
   * encoding fails nothing is fetched and the completion is never called.
   */
  method SearchCompanies<T>(env: Environment, query: string, encode: string -> Option<string>,
                            decode: Data -> Result<T, DecodeError>)
    returns (fetches: seq<string>, completions: seq<Result<T, ApiError>>)
    ensures encode(query).None? ==> fetches == [] && completions == []
    ensures encode(query).Some? ==>
      Dispatched(env, Search, [QueryItem("q", encode(query).value), TokenItem(env.apiKey)], decode, fetches, completions)
    ensures encode(query).Some? ==>
      UrlString(env.baseUrl, Search, [QueryItem("q", encode(query).value), TokenItem(env.apiKey)])
      == env.baseUrl + "search?q=" + encode(query).value + "&token=" + env.apiKey
  {
    var safeQuery := encode(query);
    if safeQuery.None? {
      fetches, completions := [], [];
      return;
    }
    var url;
    ghost var order;
    url, order := Url(env, Search, map["q" := safeQuery.value]);
    assert ItemsFor(map["q" := safeQuery.value], order, env.apiKey)
        == [QueryItem("q", safeQuery.value), TokenItem(env.apiKey)] by {
      OneParamItems("q", safeQuery.value, order, env.apiKey);
    }
    SearchUrlString(env.baseUrl, safeQuery.value, env.apiKey);
    fetches, completions := Request(env, url, decode);
  }

  /** The search URL spelled out: `search?q=<value>&token=<key>` after the base URL. */
  lemma SearchUrlString(baseUrl: string, value: string, apiKey: string)
    ensures UrlString(baseUrl, Search, [QueryItem("q", value), TokenItem(apiKey)])
         == baseUrl + "search?q=" + value + "&token=" + apiKey
  {
    var items := [QueryItem("q", value), TokenItem(apiKey)];
    var rendered := Rendered(items);
    assert rendered[0] == "q=" + value by {
      assert "q" + "=" + value == "q=" + value;
    }
    TokenRendering(apiKey);
    assert rendered == ["q=" + value, "token=" + apiKey];
    assert rendered[1..] == ["token=" + apiKey];
    assert QueryString(items) == rendered[0] + ['&'] + Join(rendered[1..], '&');
    assert "search" + "?" + "q=" == "search?q=";
    assert ['&'] + "token=" == "&token=";
  }

  /**
   * As written, `search` percent-encodes with the URL-query character set,
   * which keeps "&" and "=". A query holding "&" therefore ends the "q" item
   * early: the URL for "AT&T" does not read back as the items it was built from.
   */
  lemma SearchAmpersandBreaksQuery(baseUrl: string, apiKey: string)
    requires '?' !in baseUrl
    ensures ParseUrl(UrlString(baseUrl, Search, [QueryItem("q", "AT&T"), TokenItem(apiKey)])) == None
  {
    var token := "token=" + apiKey;
    var query := "q=AT" + ['&'] + ("T" + ['&'] + token);
    assert UrlString(baseUrl, Search, [QueryItem("q", "AT&T"), TokenItem(apiKey)])
        == (baseUrl + "search") + ['?'] + query by {
      SearchUrlString(baseUrl, "AT&T", apiKey);
      assert baseUrl + "search?q=" + "AT&T" + "&token=" + apiKey == (baseUrl + "search") + ['?'] + query;
    }
    assert ParseQuery(query) == None by {
      AmpersandQueryIsMalformed(token);
    }
    SplitAtFirstAfterPart(baseUrl + "search", '?', query);
  }

  /** The query part of that URL holds the item "T", which has no "=", so it does not read back. */
  lemma AmpersandQueryIsMalformed(token: string)
    ensures ParseQuery("q=AT" + ['&'] + ("T" + ['&'] + token)) == None
  {
    var parts := Split("q=AT" + ['&'] + ("T" + ['&'] + token), '&');
    assert parts == ["q=AT"] + (["T"] + Split(token, '&')) by {
      SplitAfterPart("q=AT", '&', "T" + ['&'] + token);
      SplitAfterPart("T", '&', token);
    }
    assert ParseItem(parts[1]) == None;
    assert ParseItems(parts[1..]) == None;
  }

  /** Percent-encodes the characters that the URL-query set lets through but that end a query value: "&", "=" and "+". */
  function EscapeQueryValue(s: string): (r: string)
    ensures '&' !in r && '=' !in r && '+' !in r
    ensures |r| >= |s|
  {
    if |s| == 0 then ""
    else
      var head := if s[0] == '&' then "%26" else if s[0] == '=' then "%3D" else if s[0] == '+' then "%2B" else [s[0]];
      head + EscapeQueryValue(s[1..])
  }

  /** Escaping changes nothing in a value that holds none of the three characters. */
  lemma {:induction false} EscapeKeepsPlainValue(s: string)
    requires '&' !in s && '=' !in s && '+' !in s
    ensures EscapeQueryValue(s) == s
  {
    if |s| > 0 {
      assert s[0] != '&' && s[0] != '=' && s[0] != '+' && s[0] in s;
      assert EscapeQueryValue(s) == [s[0]] + EscapeQueryValue(s[1..]);
      assert '&' !in s[1..] && '=' !in s[1..] && '+' !in s[1..];
      EscapeKeepsPlainValue(s[1..]);
      assert [s[0]] + s[1..] == s;
    }
  }

  /**
   * With the value escaped as well, the search URL reads back as the search
   * path and exactly the "q" item and the token.
   */
  lemma SearchUrlReadsBack(baseUrl: string, encoded: string, apiKey: string)
    requires '?' !in baseUrl && '&' !in apiKey
    ensures var items := [QueryItem("q", EscapeQueryValue(encoded)), TokenItem(apiKey)];
      ParseUrl(UrlString(baseUrl, Search, items)) == Some((baseUrl + "search", items))
  {
    var items := [QueryItem("q", EscapeQueryValue(encoded)), TokenItem(apiKey)];
    assert Readable(items[0]) && Readable(items[1]);
    UrlRoundTrip(baseUrl, Search, items);
  }

  /** The kinds of news: top stories, or the news of one company. */
  datatype NewsKind = TopStories | Company(symbol: string)

  /** The query parameters of a news request; `formatDate` renders a time as a day. */
  function NewsParams(kind: NewsKind, now: int, formatDate: int -> string): (params: map<string, string>)
    ensures kind.TopStories? ==> params.Keys == {"category"} && params["category"] == "general"
    ensures kind.Company? ==> params.Keys == {"symbol", "from", "to"} && params["symbol"] == kind.symbol
    ensures kind.Company? ==> params["from"] == formatDate(now - 7 * Day) && params["to"] == formatDate(now)
  {
    match kind
    case TopStories => map["category" := "general"]
    case Company(symbol) =>
      map["symbol" := symbol, "from" := formatDate(now - Day * 7), "to" := formatDate(now)]
  }

  function NewsEndpoint(kind: NewsKind): Endpoint {
    if kind.TopStories? then Endpoint.TopStories else CompanyNews
  }

  /** `news(for:completion:)`: top stories in the "general" category, or a company's news of the last week. */
  method News<T>(env: Environment, kind: NewsKind, now: int, formatDate: int -> string,
                 decode: Data -> Result<T, DecodeError>)
    returns (fetches: seq<string>, completions: seq<Result<T, ApiError>>, ghost order: seq<string>)
    ensures Enumerates(order, NewsParams(kind, now, formatDate).Keys)
    ensures Dispatched(env, NewsEndpoint(kind), ItemsFor(NewsParams(kind, now, formatDate), order, env.apiKey),
                       decode, fetches, completions)
  {
    var url;
    match kind {
      case TopStories =>
        url, order := Url(env, Endpoint.TopStories, map["category" := "general"]);
      case Company(symbol) =>
        var today := now;
        var oneWeekBack := today - Day * 7;
        url, order := Url(env, CompanyNews,
                          map["symbol" := symbol, "from" := formatDate(oneWeekBack), "to" := formatDate(today)]);
    }
    fetches, completions := Request(env, url, decode);
  }

  /** A span of time in whole seconds since 1970. */
  datatype Window = Window(from: int, to: int)

  /** The market-data window: it ends a day before `now` and spans `numberOfDays` days. */
  function MarketDataWindow(now: int, numberOfDays: int := 7): (w: Window)
    ensures w.to == now - Day
    ensures w.to - w.from == numberOfDays * Day
  {
    var today := now - Day;
    var prior := today - Day * numberOfDays;
    Window(prior, today)
  }

  /** The query parameters of a market-data request. */
  function MarketDataParams(symbol: string, now: int, numberOfDays: int): map<string, string> {
    var w := MarketDataWindow(now, numberOfDays);
    map["symbol" := symbol, "resolution" := "1", "from" := DecimalString(w.from), "to" := DecimalString(w.to)]
  }

  /**
   * A market-data request asks for the symbol at resolution "1", and its
   * "from" and "to" parameters read back as the window's bounds, which are
   * `numberOfDays` days apart, "to" a day before `now`.
   */
  lemma MarketDataQuery(symbol: string, now: int, numberOfDays: int)
    ensures var params := MarketDataParams(symbol, now, numberOfDays);
      && params.Keys == {"symbol", "resolution", "from", "to"}
      && params["symbol"] == symbol
      && params["resolution"] == "1"
      && ParseDecimal(params["to"]) == Some(now - Day)
      && ParseDecimal(params["from"]) == Some(now - Day - numberOfDays * Day)
  {
    var w := MarketDataWindow(now, numberOfDays);
    DecimalRoundTrip(w.from);
    DecimalRoundTrip(w.to);
  }

  /** With no day count given, the window is one week. */
  lemma DefaultWindowIsOneWeek(now: int)
    ensures MarketDataWindow(now).to - MarketDataWindow(now).from == 7 * Day
  {
  }

  /** `marketData(for:numberOfDays:completion:)`, `numberOfDays` defaulting to 7. */
  method MarketDataFor<T>(env: Environment, symbol: string, now: int,
                          decode: Data -> Result<T, DecodeError>, numberOfDays: int := 7)
    returns (fetches: seq<string>, completions: seq<Result<T, ApiError>>, ghost order: seq<string>)
    ensures Enumerates(order, MarketDataParams(symbol, now, numberOfDays).Keys)
    ensures Dispatched(env, MarketData, ItemsFor(MarketDataParams(symbol, now, numberOfDays), order, env.apiKey),
                       decode, fetches, completions)
  {
    var today := now - Day;
    var prior := today - Day * numberOfDays;
    var params := map["symbol" := symbol, "resolution" := "1",
                      "from" := DecimalString(prior), "to" := DecimalString(today)];
    assert params == MarketDataParams(symbol, now, numberOfDays);
    var url;
    url, order := Url(env, MarketData, params);
    fetches, completions := Request(env, url, decode);
  }

  /** `financialMetrics(for:completion:)`: all metrics of one symbol. */
  method FinancialMetrics<T>(env: Environment, symbol: string, decode: Data -> Result<T, DecodeError>)
    returns (fetches: seq<string>, completions: seq<Result<T, ApiError>>, ghost order: seq<string>)
    ensures Enumerates(order, {"symbol", "metric"})
    ensures Dispatched(env, Financials, ItemsFor(map["symbol" := symbol, "metric" := "all"], order, env.apiKey),
                       decode, fetches, completions)
  {
    var url;
    url, order := Url(env, Financials, map["symbol" := symbol, "metric" := "all"]);
    fetches, completions := Request(env, url, decode);
  }
}
