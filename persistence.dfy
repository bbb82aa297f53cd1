/**
 * The watch-list store of the Stocks app (PersistenceManager). It keeps
 * everything in the app's user defaults, a key-value store, under three kinds
 * of keys: the ordered list of ticker symbols under "watchlist", the company
 * name of each symbol under the symbol itself, and the "hasOnboarded" flag.
 * Because symbols are keys of the same store, a symbol spelled "watchlist" or
 * "hasOnboarded" overwrites the list or the flag; the model keeps that.
 */
module Persistence {
  import opened Wrappers
  import opened KeyOrder

  const OnboardedKey: string := "hasOnboarded"
  const WatchListKey: string := "watchlist"

  /** The watch list seeded on first access: symbol to company name. */
  const DefaultNames: map<string, string> := map[
    "AAPL" := "Apple Inc.",
    "MSFT" := "Microsoft Corporation",
    "SNAP" := "Snap Inc.",
    "GOOG" := "Alphabet",
    "AMZN" := "Amazon.com, Inc.",
    "FB" := "Facebook Inc.",
    "NVDA" := "Nvidia Inc.",
    "NKE" := "Nike",
    "PINS" := "Pininterest Inc."
  ]

  /** The kinds of value the store holds. */
  datatype Value = BoolValue(b: bool) | StringValue(s: string) | StringArrayValue(items: seq<string>)

  /** The contents of the user defaults. */
  type Store = map<string, Value>

  /** `bool(forKey:)`: false unless a Boolean true is stored. */
  function BoolFor(store: Store, key: string): bool {
    key in store && store[key] == BoolValue(true)
  }

  /** `stringArray(forKey:)`: the stored array of strings, if that is what the key holds. */
  function StringArrayFor(store: Store, key: string): Option<seq<string>> {
    if key in store && store[key].StringArrayValue? then Some(store[key].items) else None
  }

  /** The private `hasOnboarded` property. */
  function HasOnboarded(store: Store): (onboarded: bool)
    ensures onboarded <==> OnboardedKey in store && store[OnboardedKey].BoolValue? && store[OnboardedKey].b
  {
    BoolFor(store, OnboardedKey)
  }

  /** The list stored under "watchlist", or `[]` when none is. */
  function StoredWatchlist(store: Store): (list: seq<string>)
    ensures WatchListKey in store && store[WatchListKey].StringArrayValue? ==> list == store[WatchListKey].items
    ensures WatchListKey !in store || !store[WatchListKey].StringArrayValue? ==> list == []
  {
    StringArrayFor(store, WatchListKey).GetOr([])
  }

  /** The company name stored under each default symbol. */
  function DefaultNameEntries(): map<string, Value> {
    map k | k in DefaultNames :: StringValue(DefaultNames[k])
  }

  /** The names of the symbols in `symbols` that `names` holds, as stored values. */
  ghost function NameEntries(names: map<string, string>, symbols: seq<string>): map<string, Value> {
    map k | k in symbols && k in names :: StringValue(names[k])
  }

  lemma NameEntriesStep(names: map<string, string>, symbols: seq<string>, i: nat)
    requires i < |symbols| && symbols[i] in names
    ensures NameEntries(names, symbols[..i + 1])
         == NameEntries(names, symbols[..i])[symbols[i] := StringValue(names[symbols[i]])]
  {
    assert symbols[..i + 1] == symbols[..i] + [symbols[i]];
  }

  lemma NameEntriesAll(names: map<string, string>, symbols: seq<string>)
    requires Enumerates(symbols, names.Keys)
    ensures NameEntries(names, symbols[..|symbols|]) == map k | k in names :: StringValue(names[k])
  {
    assert symbols[..|symbols|] == symbols;
  }

  lemma UnionThenUpdate(m: Store, entries: Store, k: string, v: Value)
    ensures (m + entries)[k := v] == m + entries[k := v]
  {
  }

  /** The store after `setUpDefaults`, the defaults dictionary being iterated in `order`. */
  function WithDefaults(store: Store, order: seq<string>): Store {
    store[WatchListKey := StringArrayValue(order)] + DefaultNameEntries()
  }

  /** The store after a read of `watchlist`: onboarding happens only when the flag is not set. */
  function AfterRead(store: Store, order: seq<string>): Store {
    if HasOnboarded(store) then store
    else WithDefaults(store[OnboardedKey := BoolValue(true)], order)
  }

  /** What a read of `watchlist` returns. */
  function ReadWatchlist(store: Store, order: seq<string>): seq<string> {
    StoredWatchlist(AfterRead(store, order))
  }

  /** The elements of `items` other than `symbol`, in their order. */
  function Filter(items: seq<string>, symbol: string): seq<string> {
    if |items| == 0 then []
    else
      Filter(items[..|items| - 1], symbol)
      + (if items[|items| - 1] == symbol then [] else [items[|items| - 1]])
  }

  /** The store after `addToWatchlist(symbol:companyName:)`. */
  function AfterAdd(store: Store, symbol: string, companyName: string, order: seq<string>): Store {
    var read := AfterRead(store, order);
    read[WatchListKey := StringArrayValue(StoredWatchlist(read) + [symbol])][symbol := StringValue(companyName)]
  }

  /** The store after `removeFromWatchlist(symbol:)`, as written: the name is cleared before the list is read. */
  function AfterRemove(store: Store, symbol: string, order: seq<string>): Store {
    var read := AfterRead(store - {symbol}, order);
    read[WatchListKey := StringArrayValue(Filter(StoredWatchlist(read), symbol))]
  }

  /** Removal with the list read before the name is cleared. */
  function AfterRemoveReadFirst(store: Store, symbol: string, order: seq<string>): Store {
    var read := AfterRead(store, order);
    (read - {symbol})[WatchListKey := StringArrayValue(Filter(StoredWatchlist(read), symbol))]
  }

  /** A symbol that is not one of the store's own keys. */
  predicate IsPlainSymbol(symbol: string) {
    symbol != WatchListKey && symbol != OnboardedKey
  }

  // Properties of the list filter used by removal.

  /** Filtering distributes over concatenation, so it keeps the relative order of what it keeps. */
  lemma {:induction false} FilterAppend(a: seq<string>, b: seq<string>, symbol: string)
    ensures Filter(a + b, symbol) == Filter(a, symbol) + Filter(b, symbol)
  {
    if |b| > 0 {
      var ab := a + b;
      assert ab[..|ab| - 1] == a + b[..|b| - 1];
      FilterAppend(a, b[..|b| - 1], symbol);
    } else {
      assert a + b == a;
    }
  }

  /** Filtering drops every occurrence of the symbol and keeps every other element as often as it occurs. */
  lemma {:induction false} FilterCounts(items: seq<string>, symbol: string)
    ensures multiset(Filter(items, symbol))[symbol] == 0
    ensures forall x :: x != symbol ==> multiset(Filter(items, symbol))[x] == multiset(items)[x]
  {
    if |items| > 0 {
      var front, last := items[..|items| - 1], items[|items| - 1];
      var kept := if last == symbol then [] else [last];
      assert items == front + [last];
      assert multiset(items) == multiset(front) + multiset{last};
      assert multiset(Filter(items, symbol)) == multiset(Filter(front, symbol)) + multiset(kept);
      FilterCounts(front, symbol);
    }
  }

  /** The filtered list never holds the symbol. */
  lemma FilterDrops(items: seq<string>, symbol: string)
    ensures symbol !in Filter(items, symbol)
  {
    FilterCounts(items, symbol);
  }

  /** Filtering out a symbol that is absent changes nothing. */
  lemma {:induction false} FilterAbsent(items: seq<string>, symbol: string)
    requires symbol !in items
    ensures Filter(items, symbol) == items
  {
    if |items| > 0 {
      var front, last := items[..|items| - 1], items[|items| - 1];
      assert items == front + [last];
      assert symbol !in front && last != symbol;
      FilterAbsent(front, symbol);
      calc {
        Filter(items, symbol);
        Filter(front, symbol) + [last];
        front + [last];
      }
    }
  }

  /** Filtering twice is filtering once. */
  lemma FilterIdempotent(items: seq<string>, symbol: string)
    ensures Filter(Filter(items, symbol), symbol) == Filter(items, symbol)
  {
    FilterDrops(items, symbol);
    FilterAbsent(Filter(items, symbol), symbol);
  }

  // Properties of the store operations.

  /** Neither key of the store itself is a default symbol. */
  lemma StoreKeysAreNotDefaults()
    ensures OnboardedKey !in DefaultNames && WatchListKey !in DefaultNames
  {
  }

  /**
   * The first read of `watchlist` sets the flag and stores the nine default
   * symbols, in some order, with their company names.
   */
  lemma OnboardingSeedsDefaults(store: Store, order: seq<string>)
    requires !HasOnboarded(store)
    requires Enumerates(order, DefaultNames.Keys)
    ensures HasOnboarded(AfterRead(store, order))
    ensures ReadWatchlist(store, order) == order && |order| == 9
    ensures forall k :: k in DefaultNames ==> AfterRead(store, order)[k] == StringValue(DefaultNames[k])
  {
    var base := store[OnboardedKey := BoolValue(true)];
    assert AfterRead(store, order) == WithDefaults(base, order);
    WithDefaultsEntries(base, order);
    assert |order| == 9 by {
      EnumerationLength(order, DefaultNames.Keys);
      NineDefaults();
    }
  }

  /** Setting up the defaults stores `order` as the list, every default name, and keeps the flag. */
  lemma WithDefaultsEntries(base: Store, order: seq<string>)
    ensures StoredWatchlist(WithDefaults(base, order)) == order
    ensures HasOnboarded(WithDefaults(base, order)) == HasOnboarded(base)
    ensures forall k :: k in DefaultNames ==> WithDefaults(base, order)[k] == StringValue(DefaultNames[k])
  {
    StoreKeysAreNotDefaults();
    var listed := base[WatchListKey := StringArrayValue(order)];
    assert WatchListKey !in DefaultNameEntries() && OnboardedKey !in DefaultNameEntries();
    assert WithDefaults(base, order)[WatchListKey] == listed[WatchListKey];
    assert OnboardedKey in WithDefaults(base, order) <==> OnboardedKey in base;
    assert OnboardedKey in base ==> WithDefaults(base, order)[OnboardedKey] == base[OnboardedKey];
  }

  /** Onboarding leaves every key other than the flag, the list and the default symbols as it was. */
  lemma OnboardingKeepsOtherKeys(store: Store, order: seq<string>, k: string)
    requires !HasOnboarded(store)
    requires k !in DefaultNames && IsPlainSymbol(k)
    ensures k in AfterRead(store, order) <==> k in store
    ensures k in store ==> AfterRead(store, order)[k] == store[k]
  {
  }

  /** The defaults dictionary has nine entries. */
  lemma NineDefaults()
    ensures |DefaultNames.Keys| == 9
  {
    var m: map<string, string> := map[];
    m := m["AAPL" := "Apple Inc."];
    assert "MSFT" !in m; m := m["MSFT" := "Microsoft Corporation"];
    assert "SNAP" !in m; m := m["SNAP" := "Snap Inc."];
    assert "GOOG" !in m; m := m["GOOG" := "Alphabet"];
    assert "AMZN" !in m; m := m["AMZN" := "Amazon.com, Inc."];
    assert "FB" !in m; m := m["FB" := "Facebook Inc."];
    assert "NVDA" !in m; m := m["NVDA" := "Nvidia Inc."];
    assert "NKE" !in m; m := m["NKE" := "Nike"];
    assert "PINS" !in m; m := m["PINS" := "Pininterest Inc."];
    assert |m| == 9;
    assert m == DefaultNames;
  }

  /** Once onboarded, a read changes nothing; so reading twice is reading once. */
  lemma ReadIsIdempotent(store: Store, order: seq<string>, order': seq<string>)
    ensures HasOnboarded(AfterRead(store, order))
    ensures HasOnboarded(store) ==> AfterRead(store, order) == store
    ensures AfterRead(AfterRead(store, order), order') == AfterRead(store, order)
  {
    StoreKeysAreNotDefaults();
  }

  /** Removing a key other than the store's own leaves what a read returns unchanged. */
  lemma ReadWithoutSymbol(store: Store, symbol: string, order: seq<string>)
    requires IsPlainSymbol(symbol)
    ensures HasOnboarded(store - {symbol}) == HasOnboarded(store)
    ensures ReadWatchlist(store - {symbol}, order) == ReadWatchlist(store, order)
  {
  }

  /**
   * Adding appends the symbol at the end of what a read returned, stores its
   * name, and leaves the name of every other symbol as the read left it.
   */
  lemma AddAppends(store: Store, symbol: string, companyName: string, order: seq<string>, order': seq<string>)
    requires IsPlainSymbol(symbol)
    ensures var after := AfterAdd(store, symbol, companyName, order);
      && HasOnboarded(after)
      && ReadWatchlist(after, order') == ReadWatchlist(store, order) + [symbol]
      && after[symbol] == StringValue(companyName)
      && forall k :: k != symbol && IsPlainSymbol(k) ==>
           (k in after <==> k in AfterRead(store, order)) &&
           (k in after ==> after[k] == AfterRead(store, order)[k])
  {
    ReadIsIdempotent(store, order, order');
  }

  /** There is no de-duplication: two adds of one symbol add two occurrences. */
  lemma AddTwiceKeepsBoth(store: Store, symbol: string, name1: string, name2: string,
                          order1: seq<string>, order2: seq<string>, order': seq<string>)
    requires IsPlainSymbol(symbol)
    ensures var twice := AfterAdd(AfterAdd(store, symbol, name1, order1), symbol, name2, order2);
      && ReadWatchlist(twice, order') == ReadWatchlist(store, order1) + [symbol, symbol]
      && multiset(ReadWatchlist(twice, order'))[symbol] == multiset(ReadWatchlist(store, order1))[symbol] + 2
  {
    var once := AfterAdd(store, symbol, name1, order1);
    var twice := AfterAdd(once, symbol, name2, order2);
    AddAppends(store, symbol, name1, order1, order2);
    AddAppends(once, symbol, name2, order2, order');
    assert ReadWatchlist(store, order1) + [symbol] + [symbol] == ReadWatchlist(store, order1) + [symbol, symbol];
  }

  /**
   * Removing keeps, in order, every element of what a read returns except the
   * symbol, so afterwards the symbol is not contained; the store stays onboarded.
   */
  lemma RemoveDropsSymbol(store: Store, symbol: string, order: seq<string>, order': seq<string>)
    requires IsPlainSymbol(symbol)
    ensures HasOnboarded(AfterRemove(store, symbol, order))
    ensures ReadWatchlist(AfterRemove(store, symbol, order), order') == Filter(ReadWatchlist(store, order), symbol)
    ensures symbol !in ReadWatchlist(AfterRemove(store, symbol, order), order')
  {
    ReadWithoutSymbol(store, symbol, order);
    ReadIsIdempotent(store - {symbol}, order, order');
    FilterDrops(ReadWatchlist(store, order), symbol);
  }

  /** Removing a symbol that is not in the list leaves the list as a read returns it. */
  lemma RemoveAbsentKeepsList(store: Store, symbol: string, order: seq<string>, order': seq<string>)
    requires IsPlainSymbol(symbol)
    requires symbol !in ReadWatchlist(store, order)
    ensures ReadWatchlist(AfterRemove(store, symbol, order), order') == ReadWatchlist(store, order)
  {
    RemoveDropsSymbol(store, symbol, order, order');
    FilterAbsent(ReadWatchlist(store, order), symbol);
  }

  /** Removing clears the symbol's name once the store is onboarded, or for a symbol that is not a default. */
  lemma RemoveClearsName(store: Store, symbol: string, order: seq<string>)
    requires IsPlainSymbol(symbol)
    requires HasOnboarded(store) || symbol !in DefaultNames
    ensures symbol !in AfterRemove(store, symbol, order)
  {
  }

  /** Under the same conditions, removing twice leaves the store as removing once. */
  lemma RemoveIsIdempotent(store: Store, symbol: string, order: seq<string>, order': seq<string>)
    requires IsPlainSymbol(symbol)
    requires HasOnboarded(store) || symbol !in DefaultNames
    ensures AfterRemove(AfterRemove(store, symbol, order), symbol, order') == AfterRemove(store, symbol, order)
  {
    var once := AfterRemove(store, symbol, order);
    RemoveSettles(store, symbol, order);
    FilterIdempotent(ReadWatchlist(store, order), symbol);
    RemoveFixesSettled(once, symbol, order');
  }

  /** After such a removal the store is onboarded, holds no name for the symbol, and stores the filtered list. */
  lemma RemoveSettles(store: Store, symbol: string, order: seq<string>)
    requires IsPlainSymbol(symbol)
    requires HasOnboarded(store) || symbol !in DefaultNames
    ensures var once := AfterRemove(store, symbol, order);
      symbol !in once && HasOnboarded(once) && StringArrayFor(once, WatchListKey).Some?
      && StoredWatchlist(once) == Filter(ReadWatchlist(store, order), symbol)
  {
    RemoveClearsName(store, symbol, order);
    RemoveDropsSymbol(store, symbol, order, order);
  }

  /** A store that is onboarded, has no name for the symbol and whose list is already filtered is left as it is. */
  lemma RemoveFixesSettled(store: Store, symbol: string, order: seq<string>)
    requires HasOnboarded(store) && symbol !in store && StringArrayFor(store, WatchListKey).Some?
    requires Filter(StoredWatchlist(store), symbol) == StoredWatchlist(store)
    ensures AfterRemove(store, symbol, order) == store
  {
    RemoveOnOnboarded(store, symbol, order);
  }

  /** On an onboarded store without the symbol's name, removal only rewrites the list. */
  lemma RemoveOnOnboarded(store: Store, symbol: string, order: seq<string>)
    requires HasOnboarded(store) && symbol !in store
    ensures AfterRemove(store, symbol, order)
         == store[WatchListKey := StringArrayValue(Filter(StoredWatchlist(store), symbol))]
  {
    assert store - {symbol} == store;
  }

  /**
   * As written, a removal before onboarding does not clear the name of a
   * default symbol: onboarding runs after the name was cleared and writes it
   * again. A second removal then clears it, so removal is not idempotent there.
   */
  lemma RemoveBeforeOnboardingKeepsName(store: Store, symbol: string, order: seq<string>, order': seq<string>)
    requires !HasOnboarded(store) && symbol in DefaultNames
    ensures AfterRemove(store, symbol, order)[symbol] == StringValue(DefaultNames[symbol])
    ensures AfterRemove(AfterRemove(store, symbol, order), symbol, order') != AfterRemove(store, symbol, order)
  {
    StoreKeysAreNotDefaults();
    var once := AfterRemove(store, symbol, order);
    assert symbol in once;
    assert HasOnboarded(once);
    assert symbol !in AfterRemove(once, symbol, order');
  }

  /** The smallest instance: removing "AAPL" from a fresh store leaves "Apple Inc." under "AAPL". */
  lemma RemoveFromFreshStoreKeepsName(order: seq<string>)
    ensures AfterRemove(map[], "AAPL", order)["AAPL"] == StringValue("Apple Inc.")
  {
    RemoveBeforeOnboardingKeepsName(map[], "AAPL", order, order);
  }

  /** Reading the list before clearing the name: the name is always cleared and removal is idempotent. */
  lemma RemoveReadFirstClearsName(store: Store, symbol: string, order: seq<string>, order': seq<string>)
    requires IsPlainSymbol(symbol)
    ensures symbol !in AfterRemoveReadFirst(store, symbol, order)
    ensures HasOnboarded(AfterRemoveReadFirst(store, symbol, order))
    ensures ReadWatchlist(AfterRemoveReadFirst(store, symbol, order), order') == Filter(ReadWatchlist(store, order), symbol)
    ensures AfterRemoveReadFirst(AfterRemoveReadFirst(store, symbol, order), symbol, order')
         == AfterRemoveReadFirst(store, symbol, order)
  {
    var once := AfterRemoveReadFirst(store, symbol, order);
    ReadIsIdempotent(store, order, order');
    ReadIsIdempotent(once, order', order');
    FilterIdempotent(ReadWatchlist(store, order), symbol);
    assert once - {symbol} == once;
  }

  class PersistenceManager {
    /** The user defaults. */
    var defaults: Store
    /** How many `didAddToWatchList` notifications have been posted. */
    var didAddToWatchListPosts: nat

    constructor (store: Store)
      ensures defaults == store && didAddToWatchListPosts == 0
    {
      defaults := store;
      didAddToWatchListPosts := 0;
    }

    /** The `watchlist` getter: onboards on first access, then returns the stored list. */
    method Watchlist() returns (list: seq<string>, ghost order: seq<string>)
      modifies this
      ensures Enumerates(order, DefaultNames.Keys)
      ensures defaults == AfterRead(old(defaults), order)
      ensures list == StoredWatchlist(defaults)
      ensures didAddToWatchListPosts == old(didAddToWatchListPosts)
    {
      if !HasOnboarded(defaults) {
        defaults := defaults[OnboardedKey := BoolValue(true)];
        order := SetUpDefaults();
      } else {
        order := EnumerationExists(DefaultNames.Keys);
      }
      list := StoredWatchlist(defaults);
    }

    /** `watchlistContains(symbol:)`: whether the symbol occurs in `watchlist`. */
    method WatchlistContains(symbol: string) returns (contains: bool, ghost order: seq<string>)
      modifies this
      ensures Enumerates(order, DefaultNames.Keys)
      ensures defaults == AfterRead(old(defaults), order)
      ensures contains <==> symbol in ReadWatchlist(old(defaults), order)
      ensures didAddToWatchListPosts == old(didAddToWatchListPosts)
    {
      var list;
      list, order := Watchlist();
      contains := symbol in list;
    }

    /** `addToWatchlist(symbol:companyName:)`: appends, stores the name and posts a notification. */
    method AddToWatchlist(symbol: string, companyName: string) returns (ghost order: seq<string>)
      modifies this
      ensures Enumerates(order, DefaultNames.Keys)
      ensures defaults == AfterAdd(old(defaults), symbol, companyName, order)
      ensures didAddToWatchListPosts == old(didAddToWatchListPosts) + 1
    {
      var current;
      current, order := Watchlist();
      current := current + [symbol];
      defaults := defaults[WatchListKey := StringArrayValue(current)];
      defaults := defaults[symbol := StringValue(companyName)];
      didAddToWatchListPosts := didAddToWatchListPosts + 1;
    }

    /** `removeFromWatchlist(symbol:)`: clears the name, then keeps every other list element; posts nothing. */
    method RemoveFromWatchlist(symbol: string) returns (ghost order: seq<string>)
      modifies this
      ensures Enumerates(order, DefaultNames.Keys)
      ensures defaults == AfterRemove(old(defaults), symbol, order)
      ensures didAddToWatchListPosts == old(didAddToWatchListPosts)
    {
      var newList: seq<string> := [];
      defaults := defaults - {symbol};
      var list;
      list, order := Watchlist();
      ghost var read := defaults;
      for i := 0 to |list|
        invariant newList == Filter(list[..i], symbol)
        invariant defaults == read && didAddToWatchListPosts == old(didAddToWatchListPosts)
      {
        assert list[..i + 1][..i] == list[..i];
        if list[i] != symbol {
          newList := newList + [list[i]];
        }
      }
      assert list[..|list|] == list;
      defaults := defaults[WatchListKey := StringArrayValue(newList)];
    }

    /** Removal with the list read before the name is cleared (see `RemoveBeforeOnboardingKeepsName`). */
    method RemoveFromWatchlistReadFirst(symbol: string) returns (ghost order: seq<string>)
      modifies this
      ensures Enumerates(order, DefaultNames.Keys)
      ensures defaults == AfterRemoveReadFirst(old(defaults), symbol, order)
      ensures didAddToWatchListPosts == old(didAddToWatchListPosts)
    {
      var newList: seq<string> := [];
      var list;
      list, order := Watchlist();
      ghost var read := defaults;
      for i := 0 to |list|
        invariant newList == Filter(list[..i], symbol)
        invariant defaults == read && didAddToWatchListPosts == old(didAddToWatchListPosts)
      {
        assert list[..i + 1][..i] == list[..i];
        if list[i] != symbol {
          newList := newList + [list[i]];
        }
      }
      assert list[..|list|] == list;
      defaults := defaults - {symbol};
      defaults := defaults[WatchListKey := StringArrayValue(newList)];
    }

    /** `setUpDefaults`: stores the default symbols, in the dictionary's iteration order, and their names. */
    method SetUpDefaults() returns (ghost order: seq<string>)
      modifies this
      ensures Enumerates(order, DefaultNames.Keys)
      ensures defaults == WithDefaults(old(defaults), order)
      ensures didAddToWatchListPosts == old(didAddToWatchListPosts)
    {
      // `map.keys.map { $0 }`: the keys in the dictionary's iteration order
      var symbols := IterationOrder(DefaultNames.Keys);
      order := symbols;
      defaults := defaults[WatchListKey := StringArrayValue(symbols)];
      ghost var listed := defaults;
      // `for (symbol, name) in map`, in the same order
      for i := 0 to |symbols|
        invariant defaults == listed + NameEntries(DefaultNames, symbols[..i])
        invariant didAddToWatchListPosts == old(didAddToWatchListPosts)
      {
        var symbol := symbols[i];
        NameEntriesStep(DefaultNames, symbols, i);
        UnionThenUpdate(listed, NameEntries(DefaultNames, symbols[..i]), symbol, StringValue(DefaultNames[symbol]));
        defaults := defaults[symbol := StringValue(DefaultNames[symbol])];
      }
      NameEntriesAll(DefaultNames, symbols);
    }
  }
}
