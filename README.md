# Stocks app: watch-list store and API request construction

A Dafny model of the two pieces of logic in the Stocks iOS app that do not draw UI:

- **The watch-list store** (`PersistenceManager`). It keeps everything in the app's user defaults, a
  key-value store. The ordered list of ticker symbols is under `"watchlist"`, each symbol's company name is
  under the symbol itself, and the onboarding flag is under `"hasOnboarded"`. The first read of the list
  seeds nine default symbols. Symbols can be tested for membership, appended with a name, and removed
  (every occurrence, with the name cleared). Adding posts a `didAddToWatchList` notification.
  The model is a class `Persistence.PersistenceManager` whose field `defaults` is the whole key-value store
  (`map<string, Value>`) and whose field `didAddToWatchListPosts` counts the notifications. Each method
  states its new store as a function of the old one (`AfterRead`, `AfterAdd`, `AfterRemove`), and the
  lemmas beside them state what those functions promise. Symbols live in the same key space as the list and
  the flag, so a symbol spelled `"watchlist"` or `"hasOnboarded"` overwrites them. The model keeps this,
  and the lemmas exclude such symbols by name (`IsPlainSymbol`) instead of assuming they never occur.
- **Request construction and dispatch** (`APIManager`). An `Endpoint` maps to its path. A request URL is
  `base + path + "?"` followed by `name=value` items joined by `&`, with `token=<api key>` always last. The
  market-data window is computed in whole seconds. `request` hands exactly one result to its completion
  handler: invalid URL, transport error, no data, decoding failure, or success.
  Module `Api` models this. `Text` gives the string operations it uses (joining, splitting, decimal
  rendering) together with parsers, so that what a URL carries is stated as a round trip.
  `KeyOrder` models the unspecified iteration order of a Swift dictionary.

Nondeterminism is modelled explicitly. A dictionary's keys are iterated in an order the program does not
control. `KeyOrder.IterationOrder` picks each next key freely, and the methods return the order that was
taken as a ghost out-parameter, so that their contracts are exact for every possible order.

Neither PersistenceManager.swift nor APIManager.swift aggregates market data, caches prices, computes a
change percentage or debounces searches, so none of these is part of this model.

## Model

| member | source | states |
|---|---|---|
| `Persistence.HasOnboarded` | Stocks/Managers/PersistenceManager.swift:76-78 | the store counts as onboarded exactly when the flag key holds a Boolean true; a missing key or any other value reads as not onboarded |
| `Persistence.StoredWatchlist` | Stocks/Managers/PersistenceManager.swift:36 | the list is the string array stored under "watchlist", and `[]` when the key is missing or holds anything else |
| `Persistence.PersistenceManager.constructor` | Stocks/Managers/PersistenceManager.swift:13-25 | the manager starts over the given user-defaults contents, with no notification posted |
| `Persistence.PersistenceManager.Watchlist` | Stocks/Managers/PersistenceManager.swift:30-37 | the new store is `AfterRead` of the old one: onboarding happens only when the flag is unset. The result is the stored string array, or `[]` when none is stored. Posts nothing |
| `Persistence.PersistenceManager.WatchlistContains` | Stocks/Managers/PersistenceManager.swift:42-44 | true exactly when the symbol occurs in what reading `watchlist` returns; the store changes as a read changes it |
| `Persistence.PersistenceManager.AddToWatchlist` | Stocks/Managers/PersistenceManager.swift:50-57 | the new store is `AfterAdd`: after the read, the list gets the symbol appended and the name is written under the symbol. Exactly one notification is posted |
| `Persistence.PersistenceManager.RemoveFromWatchlist` | Stocks/Managers/PersistenceManager.swift:61-70 | the new store is `AfterRemove`: the name is cleared first, then the list is read and rewritten by the filtering loop without the symbol. No notification is posted |
| `Persistence.PersistenceManager.RemoveFromWatchlistReadFirst` | Stocks/Managers/PersistenceManager.swift:61-70 | the corrected removal (see Findings): the list is read first, then the name is cleared and the filtered list is stored |
| `Persistence.PersistenceManager.SetUpDefaults` | Stocks/Managers/PersistenceManager.swift:81-99 | stores the default symbols in the dictionary's iteration order (each default once), then every default name under its symbol; nothing else changes |
| `Persistence.StoreKeysAreNotDefaults` | Stocks/Managers/PersistenceManager.swift:19-22 | neither `"hasOnboarded"` nor `"watchlist"` is a default symbol, so seeding cannot overwrite the flag or the list |
| `Persistence.NineDefaults` | Stocks/Managers/PersistenceManager.swift:82-92 | the defaults dictionary has nine distinct symbols |
| `Persistence.WithDefaultsEntries` | Stocks/Managers/PersistenceManager.swift:81-99 | after the defaults are set up, the stored list is exactly the iteration order, every default symbol's key holds its company name, and the onboarding flag is as it was |
| `Persistence.OnboardingSeedsDefaults` | Stocks/Managers/PersistenceManager.swift:31-34 | on a read before onboarding, the flag becomes true, the list becomes exactly the nine default symbols in some order, and each default symbol's key holds its company name |
| `Persistence.OnboardingKeepsOtherKeys` | Stocks/Managers/PersistenceManager.swift:93-98 | onboarding leaves every key other than the flag, the list and the default symbols as it was |
| `Persistence.ReadIsIdempotent` | Stocks/Managers/PersistenceManager.swift:31-36 | after any read the store is onboarded; once onboarded a read changes nothing, so reading twice is reading once |
| `Persistence.ReadWithoutSymbol` | Stocks/Managers/PersistenceManager.swift:64-65 | clearing a symbol's name changes neither the flag nor what a read returns |
| `Persistence.AddAppends` | Stocks/Managers/PersistenceManager.swift:51-54 | after an add, a read returns the earlier read's list with the symbol appended at the end (order kept), the symbol's key holds the name, and every other symbol's name is as the read left it |
| `Persistence.AddTwiceKeepsBoth` | Stocks/Managers/PersistenceManager.swift:51-53 | there is no de-duplication: two adds append two occurrences |
| `Persistence.FilterAppend` | Stocks/Managers/PersistenceManager.swift:65-67 | the filter distributes over concatenation, so the kept elements keep their relative order |
| `Persistence.FilterCounts` | Stocks/Managers/PersistenceManager.swift:65-67 | the filtered list has no occurrence of the symbol and every other element exactly as often as before |
| `Persistence.FilterDrops` | Stocks/Managers/PersistenceManager.swift:65-66 | the filtered list never contains the symbol |
| `Persistence.FilterAbsent` | Stocks/Managers/PersistenceManager.swift:65-67 | filtering out an absent symbol returns the list unchanged |
| `Persistence.FilterIdempotent` | Stocks/Managers/PersistenceManager.swift:65-67 | filtering twice equals filtering once |
| `Persistence.RemoveDropsSymbol` | Stocks/Managers/PersistenceManager.swift:61-69 | after a remove, a read returns the earlier read's list with every occurrence of the symbol dropped and the rest in order. The symbol is no longer contained, and the store is onboarded |
| `Persistence.RemoveAbsentKeepsList` | Stocks/Managers/PersistenceManager.swift:65-69 | removing a symbol that is not in the list leaves the list unchanged |
| `Persistence.RemoveClearsName` | Stocks/Managers/PersistenceManager.swift:64-65 | the symbol's name is gone after a remove, when the store was onboarded or the symbol is not a default one |
| `Persistence.RemoveIsIdempotent` | Stocks/Managers/PersistenceManager.swift:61-69 | under the same conditions, removing twice leaves the same store as removing once |
| `Persistence.RemoveBeforeOnboardingKeepsName` | Stocks/Managers/PersistenceManager.swift:64-65 | as written, before onboarding a remove of a default symbol leaves its default name in place, and a second remove then changes the store |
| `Persistence.RemoveFromFreshStoreKeepsName` | Stocks/Managers/PersistenceManager.swift:64-65 | concretely, removing `"AAPL"` from an empty store leaves `"Apple Inc."` under `"AAPL"` |
| `Persistence.RemoveReadFirstClearsName` | Stocks/Managers/PersistenceManager.swift:61-69 | with the read first, the name is always cleared, the list is filtered as before, and removal is idempotent from every store |
| `KeyOrder.IterationOrder` | Stocks/Managers/PersistenceManager.swift:93 | iterating a dictionary's keys visits every key exactly once, in some order |
| `KeyOrder.EnumerationLength` | Stocks/Managers/APIManager.swift:157-159 | an iteration visits as many keys as the dictionary holds |
| `KeyOrder.SingletonEnumeration` | Stocks/Managers/APIManager.swift:43 | a one-key dictionary has only one iteration order |
| `Text.SplitJoin` | Stocks/Managers/APIManager.swift:164 | splitting at `&` recovers the joined parts when no part contains `&` |
| `Text.JoinSplit` | Stocks/Managers/APIManager.swift:164 | joining the parts split at a separator gives back the original string |
| `Text.SplitAtFirst` | Stocks/Managers/APIManager.swift:164 | splitting at the first separator gives a separator-free prefix and the rest, which rejoin to the input; the result is none exactly when the separator is absent |
| `Text.SplitAtFirstAfterPart` | Stocks/Managers/APIManager.swift:164 | a part without the separator is recovered from `part + sep + rest` |
| `Text.NatStringValue` | Stocks/Managers/APIManager.swift:100-101 | the decimal digits of a natural number read back as that number |
| `Text.DecimalRoundTrip` | Stocks/Managers/APIManager.swift:100-101 | the interpolated decimal form of any integer, sign included, reads back as that integer |
| `Api.Endpoint.RawValue` | Stocks/Managers/APIManager.swift:131-137 | each endpoint's path is non-empty and holds none of `?`, `&` and `=`, so it cannot disturb the query that follows it |
| `Api.EndpointFromRawValue` | Stocks/Managers/APIManager.swift:131-137 | the endpoint recovered from a path has that path as its raw value |
| `Api.RawValueRoundTrip` | Stocks/Managers/APIManager.swift:131-137 | each endpoint is recovered from its own path, so no two endpoints share a path |
| `Api.CollectParamItems` | Stocks/Managers/APIManager.swift:155-159 | the loop over the visited parameter names yields exactly `ParamItems` of them: one `name=value` item per name, in the order visited |
| `Api.ParamItems` | Stocks/Managers/APIManager.swift:157-159 | the loop makes one query item per parameter visited |
| `Api.ParamItemsAt` | Stocks/Managers/APIManager.swift:157-159 | the i-th query item is the i-th visited parameter with its value |
| `Api.QueryItemsOfRequest` | Stocks/Managers/APIManager.swift:155-164 | a request has exactly `|queryParams| + 1` items. Each parameter item has a distinct name and that name's value, every parameter appears, and the last item is `token=<api key>` |
| `Api.TokenRendering` | Stocks/Managers/APIManager.swift:161-164 | the token item is written `token=<api key>` |
| `Api.QueryWithoutParams` | Stocks/Managers/APIManager.swift:151-164 | with no parameters the query is exactly `"token=" + apiKey` |
| `Api.OneParamItems` | Stocks/Managers/APIManager.swift:157-164 | with one parameter the query is exactly `name=value&token=<api key>` |
| `Api.ParseRenderedItem` | Stocks/Managers/APIManager.swift:164 | a rendered `name=value` item reads back as that item when the name has no `=` |
| `Api.QueryRoundTrip` | Stocks/Managers/APIManager.swift:155-164 | the query string reads back as exactly its items, in order, when no name has `=` and nothing has `&` |
| `Api.UrlRoundTrip` | Stocks/Managers/APIManager.swift:153-164 | when the base URL has no `?`, there is at least one item and every item is readable (no `=` in a name, no `&` in a name or value), the URL reads back as the base URL followed by the endpoint's path, then exactly its items |
| `Api.Url` | Stocks/Managers/APIManager.swift:150-167 | the URL string is `base + path + "?" + query`. The query is the parameters in the dictionary's iteration order, then the token. The result is present exactly when `URL(string:)` accepts that string |
| `Api.Outcome` | Stocks/Managers/APIManager.swift:186-201 | a transport error gives `failure(error)` whatever the data. No data and no error gives `noDataReturned`. Data that fails to decode gives the decoding failure. Success exactly when there is no error, there is data and it decodes, and then the decoded value is returned |
| `Api.Request` | Stocks/Managers/APIManager.swift:174-205 | the completion is called exactly once. A missing URL gives `invalidUrl` and nothing is fetched. Otherwise exactly that URL is fetched, and the result is `Outcome` of the response |
| `Api.SearchCompanies` | Stocks/Managers/APIManager.swift:33-47 | when percent-encoding fails, nothing is fetched and the completion is never called. Otherwise the request goes to `base + "search?q=" + encoded + "&token=" + key` |
| `Api.SearchAmpersandBreaksQuery` | Stocks/Managers/APIManager.swift:37-43 | as written, the search URL for the query "AT&T" does not read back as the items it was built from: the "&" the encoding keeps ends the "q" item early (see Findings) |
| `Api.EscapeQueryValue` | Stocks/Managers/APIManager.swift:37 | the corrected extra escaping: its result holds no `&`, `=` or `+` and is never shorter than its input |
| `Api.EscapeKeepsPlainValue` | Stocks/Managers/APIManager.swift:37 | the extra escaping leaves a value without `&`, `=` and `+` unchanged |
| `Api.SearchUrlReadsBack` | Stocks/Managers/APIManager.swift:37-43 | with the value escaped, the search URL reads back as the search path, the "q" item and the token, for any encoded query, when the base URL has no `?` and the key no `&` (see Findings) |
| `Api.NewsParams` | Stocks/Managers/APIManager.swift:61-75 | top stories carry the single parameter `category=general`; a company's news carries exactly `symbol`, `from` (the day formatted seven days before now) and `to` (today formatted) |
| `Api.News` | Stocks/Managers/APIManager.swift:53-79 | top stories ask `news` with `category=general`. A company's news asks `company-news` with the symbol, from one week before now to now. One completion either way |
| `Api.MarketDataWindow` | Stocks/Managers/APIManager.swift:91-92 | `to` is one day before now, and `to - from` is `numberOfDays` days (7 when not given) |
| `Api.MarketDataQuery` | Stocks/Managers/APIManager.swift:93-102 | a market-data request has exactly the parameters symbol, resolution `"1"`, from and to. Read back as integers, from and to are `now - 1 day - numberOfDays days` and `now - 1 day` |
| `Api.DefaultWindowIsOneWeek` | Stocks/Managers/APIManager.swift:88 | with the default day count the window spans seven days |
| `Api.MarketDataFor` | Stocks/Managers/APIManager.swift:86-106 | the request goes to `stock/candle` with the market-data parameters in the dictionary's iteration order, then the token; one completion |
| `Api.FinancialMetrics` | Stocks/Managers/APIManager.swift:112-126 | the request goes to `stock/metric` with `symbol` and `metric=all`, then the token; one completion |

## Left out

- Networking (`URLSession`, `dataTask`, `resume`) is not modelled. The server is the function `Environment.respond`, from a URL to the data and error it hands back. The completion handler runs synchronously in the model, and its thread is not modelled.
- `JSONDecoder` is not modelled: decoding is a function parameter, and the decoded types (`SearchResponse`, `NewsStory`, market-data and financial-metrics responses) stand as the type parameter `T`.
- `URL(string:)` validity is the predicate `Environment.isValidUrl`, and percent-encoding is the function `encode`, because both are library behaviour.
- `Date()` becomes the integer-seconds parameter `now`.
- `Api.MarketDataWindow`: `TimeInterval` is a floating-point type in the source; the model takes whole seconds and a whole number of days, so fractional day counts and the `Int(...)` truncation of fractional times are not modelled.
- 64-bit `Int` overflow is not modelled: integers are unbounded.
- `DateFormatter` with pattern `"YYYY-MM-dd"` is the function `formatDate`. That the pattern uses the week-based year is therefore not captured.
- The delivery of `NotificationCenter` notifications is not modelled; only their count is.
- The persistence of `UserDefaults` across launches is not modelled; its contents are.
- `Persistence.BoolFor`: `UserDefaults.bool(forKey:)` also reads numbers and strings such as `"YES"` as Booleans. The model reads any non-Boolean value as false.
- `Persistence.PersistenceManager.WatchlistContains`, `Persistence.Filter`: Swift compares strings by Unicode canonical equivalence; the model compares character sequences, so differently normalized spellings of one symbol are different symbols here. `UserDefaults` keys are compared literally in both.
- The unused `sandboxApiKey` constant is left out.
- `url(for:)` writes `value ?? ""`. Every value is a non-optional string here, so the nil case is not modelled.
- The singleton `shared` instances are not modelled: the model builds a `PersistenceManager` over given contents, and the API functions take an `Environment`.
- The view controllers, views, cells, scene delegate, haptics and the `UIView` frame helpers are UI code and are not part of this model.

## Findings

| source | as written | input that shows it | evidently intended | confidence | as-written member | corrected member |
|---|---|---|---|---|---|---|
| Stocks/Managers/PersistenceManager.swift:64-65 | `removeFromWatchlist` clears the symbol's name before it reads `watchlist`. On a store that is not yet onboarded, that read seeds the defaults and writes the default name again | an empty store, then `removeFromWatchlist(symbol: "AAPL")`: `"Apple Inc."` is still stored under `"AAPL"`, and a second removal then deletes it | removal clears the name and is idempotent | low, not executed: the app normally reads the list before anything can be removed | `Persistence.RemoveBeforeOnboardingKeepsName` | `Persistence.RemoveReadFirstClearsName` |
| Stocks/Managers/APIManager.swift:37 | `search` percent-encodes the query with `.urlQueryAllowed`, which keeps `&`, `=` and `+`, and sends it as the value of "q" | `search(query: "AT&T")` requests `search?q=AT&T&token=…`, whose query reads back as "q=AT" followed by a malformed item "T" | the whole query is the value of "q" | medium, not executed | `Api.SearchAmpersandBreaksQuery` | `Api.SearchUrlReadsBack` |
