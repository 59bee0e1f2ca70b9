/**
 * The aggregation (`getPrices`) over the fixed table of four stores, and the
 * module-level history map it fills through `generateMockPriceHistory`.
 *
 * What the outside world answers is passed in: the shopping-search reply for
 * each query text, the browser's outcome for each URL, `encodeURIComponent`,
 * the draws of `Math.random()` in call order and the current day.
 */
module Scraper {
  import opened Wrappers
  import opened PriceText
  import opened Quotes
  import opened Shopping
  import opened PageScrape
  import opened History

  /** One row of the store table: the name, the search URL in front of the encoded query, and the lookups. */
  datatype Store = Store(name: string, searchUrl: string, selectors: Selectors)

  const AmazonSearch: string := "https://www.amazon.in/s?k="
  const FlipkartSearch: string := "https://www." + FlipkartSearchPath
  /** The part of Flipkart's search URL from its host on. */
  const FlipkartSearchPath: string := "flipkart.com/search?q="
  const CromaSearch: string := "https://www.croma.com/search/?q="
  const RelianceSearch: string := "https://www.reliancedigital.in/search?q="

  /** The stores, in the order `for…in` visits them. */
  const Stores: seq<Store> := [
    Store("Amazon", AmazonSearch,
      Selectors("span.a-price-whole", "span.a-text-strike")),
    Store("Flipkart", FlipkartSearch,
      Selectors("div._30jeq3", "div._3I9_wc")),
    Store("Croma", CromaSearch,
      Selectors(".cp-price", ".cp-strike")),
    Store("Reliance Digital", RelianceSearch,
      Selectors(".sp__price", ".Text__strike"))
  ]

  /** What one store contributes to the result: its quote and the history made from it. */
  datatype StoreEntry = StoreEntry(currentPrice: Quote, priceHistory: seq<HistoryPoint>)

  /**
   * What the outside world answers during one aggregation: `encodeURIComponent`,
   * the shopping-search reply for each query text, the browser's outcome for
   * each URL, the current day, and the draws of `Math.random()` in call order.
   */
  datatype Upstream = Upstream(
    encode: string -> string,
    serp: string -> Reply,
    browse: string -> Navigation,
    today: int,
    draws: seq<real>)

  /** Seven draws for each store's history. */
  predicate EnoughDraws(up: Upstream) {
    |up.draws| == Days * |Stores|
  }

  /** The text sent to the shopping search for a store. */
  function ShoppingQuery(product: string, store: string): string {
    product + " " + store
  }

  /** The key under which a store's history is kept. */
  function HistoryKey(product: string, store: string): string {
    product + "-" + store
  }

  /** The store's own search page for the product. */
  function StoreUrl(store: Store, encodedProduct: string): string {
    store.searchUrl + encodedProduct
  }

  /** Whether the shopping search rejected for store number i, which sends that store to its page. */
  predicate Rejected(product: string, up: Upstream, i: nat)
    requires i < |Stores|
  {
    FetchPriceWithSerpApi(up.serp(ShoppingQuery(product, Stores[i].name))).Err?
  }

  /** The quote for one store: the shopping result, or the store's page when the shopping search rejected. */
  function StoreQuote(product: string, store: Store, up: Upstream): (q: Quote)
    ensures q.finalPrice == q.discountedPrice
  {
    match FetchPriceWithSerpApi(up.serp(ShoppingQuery(product, store.name)))
    case Ok(quote) => quote
    case Err(_) =>
      var url := StoreUrl(store, up.encode(product));
      ScrapeWebsite(url, store.selectors, up.browse(url))
  }

  /** The seven draws store number i consumes. */
  function DrawsFor(up: Upstream, i: nat): (d: seq<real>)
    requires EnoughDraws(up) && i < |Stores|
    ensures |d| == Days
  {
    up.draws[Days * i..Days * i + Days]
  }

  /** The history made from a quote: the quote's final price, read back as a number, jittered. */
  function HistoryFor(quote: Quote, today: int, draws: seq<real>): seq<HistoryPoint>
    requires |draws| == Days
  {
    MockHistory(ParsePrice(quote.finalPrice), today, draws)
  }

  /** The entry of store number i. */
  function EntryFor(product: string, up: Upstream, i: nat): StoreEntry
    requires EnoughDraws(up) && i < |Stores|
  {
    var quote := StoreQuote(product, Stores[i], up);
    StoreEntry(quote, HistoryFor(quote, up.today, DrawsFor(up, i)))
  }

  /** `m` with keys[j] set to values[j] for each j < n, in that order. */
  function AssignUpTo<V>(m: map<string, V>, keys: seq<string>, values: seq<V>, n: nat): map<string, V>
    requires n <= |keys| && n <= |values|
  {
    if n == 0 then m else AssignUpTo(m, keys, values, n - 1)[keys[n - 1] := values[n - 1]]
  }

  /** The first n keys, as a set. */
  function KeySet(keys: seq<string>, n: nat): set<string>
    requires n <= |keys|
  {
    if n == 0 then {} else KeySet(keys, n - 1) + {keys[n - 1]}
  }

  /** The first n assignments add exactly the first n keys. */
  lemma {:induction false} AssignUpToKeys<V>(m: map<string, V>, keys: seq<string>, values: seq<V>, n: nat)
    requires n <= |keys| && n <= |values|
    ensures AssignUpTo(m, keys, values, n).Keys == m.Keys + KeySet(keys, n)
  {
    if n > 0 {
      AssignUpToKeys(m, keys, values, n - 1);
    }
  }

  /** With distinct keys, each of the first n keys ends up holding its own value. */
  lemma {:induction false} AssignUpToValues<V>(m: map<string, V>, keys: seq<string>, values: seq<V>, n: nat)
    requires n <= |keys| && n <= |values|
    requires forall i, j :: 0 <= i < j < n ==> keys[i] != keys[j]
    ensures forall j :: 0 <= j < n ==>
      keys[j] in AssignUpTo(m, keys, values, n) && AssignUpTo(m, keys, values, n)[keys[j]] == values[j]
  {
    if n > 0 {
      AssignUpToValues(m, keys, values, n - 1);
    }
  }

  /** A key outside the first n keeps the value it had. */
  lemma {:induction false} AssignUpToOthers<V>(m: map<string, V>, keys: seq<string>, values: seq<V>, n: nat)
    requires n <= |keys| && n <= |values|
    ensures forall k :: k in m && k !in KeySet(keys, n) ==>
      k in AssignUpTo(m, keys, values, n) && AssignUpTo(m, keys, values, n)[k] == m[k]
  {
    if n > 0 {
      AssignUpToOthers(m, keys, values, n - 1);
    }
  }
  /** The store names in table order. */
  function StoreNames(): (names: seq<string>)
    ensures |names| == |Stores|
  {
    seq(|Stores|, i requires 0 <= i < |Stores| => Stores[i].name)
  }

  /** The history keys of one request, in table order. */
  function HistoryKeyList(product: string): (keys: seq<string>)
    ensures |keys| == |Stores|
  {
    seq(|Stores|, i requires 0 <= i < |Stores| => HistoryKey(product, Stores[i].name))
  }

  /** The keys the aggregation adds to the history map. */
  function HistoryKeys(product: string): set<string> {
    KeySet(HistoryKeyList(product), |Stores|)
  }

  /** The entries of all stores, in table order. */
  function Entries(product: string, up: Upstream): (es: seq<StoreEntry>)
    requires EnoughDraws(up)
    ensures |es| == |Stores|
  {
    seq(|Stores|, i requires EnoughDraws(up) && 0 <= i < |Stores| => EntryFor(product, up, i))
  }

  /** The histories of all stores, in table order. */
  function Histories(product: string, up: Upstream): (hs: seq<seq<HistoryPoint>>)
    requires EnoughDraws(up)
    ensures |hs| == |Stores|
  {
    seq(|Stores|, i requires EnoughDraws(up) && 0 <= i < |Stores| => EntryFor(product, up, i).priceHistory)
  }

  /** The result map once the first n stores are done. */
  function PricesUpTo(product: string, up: Upstream, n: nat): map<string, StoreEntry>
    requires EnoughDraws(up) && n <= |Stores|
  {
    AssignUpTo(map[], StoreNames(), Entries(product, up), n)
  }

  /** The history map once the first n stores are done, starting from `start`. */
  function HistoriesUpTo(start: map<string, seq<HistoryPoint>>, product: string, up: Upstream, n: nat)
    : map<string, seq<HistoryPoint>>
    requires EnoughDraws(up) && n <= |Stores|
  {
    AssignUpTo(start, HistoryKeyList(product), Histories(product, up), n)
  }

  /** The names among the first n whose flag is set, in order. */
  function SelectUpTo(names: seq<string>, keep: seq<bool>, n: nat): seq<string>
    requires n <= |names| && n <= |keep|
  {
    if n == 0 then []
    else SelectUpTo(names, keep, n - 1) + (if keep[n - 1] then [names[n - 1]] else [])
  }

  /** With distinct names, a name is selected exactly when it is among the first n and its flag is set. */
  lemma {:induction false} SelectUpToMembers(names: seq<string>, keep: seq<bool>, n: nat)
    requires n <= |names| == |keep|
    requires forall i, j :: 0 <= i < j < |names| ==> names[i] != names[j]
    ensures forall j :: 0 <= j < |names| ==> (names[j] in SelectUpTo(names, keep, n) <==> j < n && keep[j])
  {
    if n > 0 {
      SelectUpToMembers(names, keep, n - 1);
    }
  }

  /** For each store, in table order, whether its shopping search rejected. */
  function RejectedFlags(product: string, up: Upstream): (flags: seq<bool>)
    ensures |flags| == |Stores|
  {
    seq(|Stores|, i requires 0 <= i < |Stores| => Rejected(product, up, i))
  }

  /** The stores among the first n whose page was loaded, in store order. */
  function ScrapedUpTo(product: string, up: Upstream, n: nat): seq<string>
    requires n <= |Stores|
  {
    SelectUpTo(StoreNames(), RejectedFlags(product, up), n)
  }

  lemma AllStoreNames()
    ensures KeySet(StoreNames(), |Stores|) == {"Amazon", "Flipkart", "Croma", "Reliance Digital"}
  {
    assert KeySet(StoreNames(), 1) == {"Amazon"};
    assert KeySet(StoreNames(), 2) == {"Amazon", "Flipkart"};
    assert KeySet(StoreNames(), 3) == {"Amazon", "Flipkart", "Croma"};
  }

  lemma StoreNamesDistinct()
    ensures forall i, j :: 0 <= i < |Stores| && 0 <= j < |Stores| && i != j ==> |Stores[i].name| != |Stores[j].name|
  {
  }

  /** Two stores never share a history key: their names have different lengths. */
  lemma HistoryKeysDistinct(product: string)
    ensures forall i, j :: 0 <= i < |Stores| && 0 <= j < |Stores| && i != j ==>
      HistoryKey(product, Stores[i].name) != HistoryKey(product, Stores[j].name)
  {
    StoreNamesDistinct();
    forall i, j | 0 <= i < |Stores| && 0 <= j < |Stores| && i != j
      ensures HistoryKey(product, Stores[i].name) != HistoryKey(product, Stores[j].name)
    {
      assert |HistoryKey(product, Stores[i].name)| == |product| + 1 + |Stores[i].name|;
    }
  }

  /** A store's name is among the scraped ones exactly when it is one of the first n and its shopping search rejected. */
  lemma ScrapedUpToMembers(product: string, up: Upstream, n: nat)
    requires n <= |Stores|
    ensures forall j :: 0 <= j < |Stores| ==>
      (Stores[j].name in ScrapedUpTo(product, up, n) <==> j < n && Rejected(product, up, j))
  {
    StoreNamesDistinct();
    SelectUpToMembers(StoreNames(), RejectedFlags(product, up), n);
    forall j | 0 <= j < |Stores|
      ensures Stores[j].name in ScrapedUpTo(product, up, n) <==> j < n && Rejected(product, up, j)
    {
      assert StoreNames()[j] == Stores[j].name;
      assert RejectedFlags(product, up)[j] == Rejected(product, up, j);
    }
  }

  /**
   * The aggregation result has exactly the four store names as keys; each
   * entry's quote is that store's (shopping result, else page) and its
   * history is made from that same quote with the store's own seven draws.
   */
  lemma AggregateEntries(product: string, up: Upstream)
    requires EnoughDraws(up)
    ensures PricesUpTo(product, up, |Stores|).Keys == {"Amazon", "Flipkart", "Croma", "Reliance Digital"}
    ensures forall i :: 0 <= i < |Stores| ==>
      Stores[i].name in PricesUpTo(product, up, |Stores|)
      && PricesUpTo(product, up, |Stores|)[Stores[i].name].currentPrice == StoreQuote(product, Stores[i], up)
    ensures forall i :: 0 <= i < |Stores| ==>
      var entry := PricesUpTo(product, up, |Stores|)[Stores[i].name];
      entry.priceHistory == HistoryFor(entry.currentPrice, up.today, DrawsFor(up, i))
  {
    StoreNamesDistinct();
    AssignUpToKeys(map[], StoreNames(), Entries(product, up), |Stores|);
    AssignUpToValues(map[], StoreNames(), Entries(product, up), |Stores|);
    AllStoreNames();
    forall i | 0 <= i < |Stores|
      ensures Stores[i].name in PricesUpTo(product, up, |Stores|)
      ensures PricesUpTo(product, up, |Stores|)[Stores[i].name] == EntryFor(product, up, i)
    {
      assert StoreNames()[i] == Stores[i].name;
      assert Entries(product, up)[i] == EntryFor(product, up, i);
    }
  }


  /** The page of a store is loaded exactly when its shopping search rejected. */
  lemma ScrapedExactlyRejected(product: string, up: Upstream)
    ensures forall i :: 0 <= i < |Stores| ==>
      (Stores[i].name in ScrapedUpTo(product, up, |Stores|) <==> Rejected(product, up, i))
  {
    ScrapedUpToMembers(product, up, |Stores|);
  }

  /** The history map gains the four `product-store` keys, each holding its store's history; no other key changes. */
  lemma RecordedHistories(start: map<string, seq<HistoryPoint>>, product: string, up: Upstream)
    requires EnoughDraws(up)
    ensures HistoriesUpTo(start, product, up, |Stores|).Keys == start.Keys + HistoryKeys(product)
    ensures forall i :: 0 <= i < |Stores| ==>
      HistoryKey(product, Stores[i].name) in HistoriesUpTo(start, product, up, |Stores|)
      && Stores[i].name in PricesUpTo(product, up, |Stores|)
      && HistoriesUpTo(start, product, up, |Stores|)[HistoryKey(product, Stores[i].name)]
         == PricesUpTo(product, up, |Stores|)[Stores[i].name].priceHistory
    ensures forall key :: key in start && key !in HistoryKeys(product) ==>
      HistoriesUpTo(start, product, up, |Stores|)[key] == start[key]
  {
    StoreNamesDistinct();
    HistoryKeysDistinct(product);
    AssignUpToKeys(start, HistoryKeyList(product), Histories(product, up), |Stores|);
    AssignUpToValues(start, HistoryKeyList(product), Histories(product, up), |Stores|);
    AssignUpToOthers(start, HistoryKeyList(product), Histories(product, up), |Stores|);
    AssignUpToValues(map[], StoreNames(), Entries(product, up), |Stores|);
    forall i | 0 <= i < |Stores|
      ensures HistoryKey(product, Stores[i].name) in HistoriesUpTo(start, product, up, |Stores|)
      ensures Stores[i].name in PricesUpTo(product, up, |Stores|)
      ensures HistoriesUpTo(start, product, up, |Stores|)[HistoryKey(product, Stores[i].name)]
        == PricesUpTo(product, up, |Stores|)[Stores[i].name].priceHistory
    {
      assert HistoryKeyList(product)[i] == HistoryKey(product, Stores[i].name);
      assert StoreNames()[i] == Stores[i].name;
      assert Histories(product, up)[i] == Entries(product, up)[i].priceHistory;
    }
  }

  /**
   * The shopping search is asked for "<product> <store>", and when its reply
   * has a first result the store's quote is that result's quote.
   */
  lemma ShoppingResultUsed(product: string, up: Upstream, i: nat)
    requires i < |Stores|
    requires var reply := up.serp(product + " " + Stores[i].name);
      reply.Data? && reply.shoppingResults.Some? && reply.shoppingResults.value != []
    ensures !Rejected(product, up, i)
    ensures StoreQuote(product, Stores[i], up)
      == Normalise(up.serp(product + " " + Stores[i].name).shoppingResults.value[0])
  {
  }

  /** When both sources fail for a store, its quote is the error record pointing at the store's search page. */
  lemma BothSourcesFailed(product: string, up: Upstream, i: nat)
    requires i < |Stores|
    requires Rejected(product, up, i)
    requires up.browse(StoreUrl(Stores[i], up.encode(product))).Failed?
    ensures var q := StoreQuote(product, Stores[i], up);
      q.discountedPrice == ErrorText && q.originalPrice == ErrorText && q.finalPrice == ErrorText
      && q.productLink == Some(StoreUrl(Stores[i], up.encode(product)))
  {
  }

  /**
   * As long as the encoded product does not itself mention Flipkart's host,
   * only the Flipkart page is read with the Flipkart link lookup.
   */
  lemma LinkLookupFollowsStore(encodedProduct: string)
    requires !Contains(encodedProduct, FlipkartHost)
    ensures forall i :: 0 <= i < |Stores| ==>
      (LinkSelector(StoreUrl(Stores[i], encodedProduct)) == FlipkartLinkSelector <==> Stores[i].name == "Flipkart")
  {
    forall i | 0 <= i < |Stores|
      ensures LinkSelector(StoreUrl(Stores[i], encodedProduct)) == FlipkartLinkSelector <==> Stores[i].name == "Flipkart"
    {
      if i == 1 {
        FlipkartUrlMentionsHost(encodedProduct);
      } else {
        HostAbsentFromSearchUrl(i);
        ContainsAfterPrefix(Stores[i].searchUrl, encodedProduct, FlipkartHost);
      }
    }
  }

  /**
   * The link lookup is chosen from the URL rather than the store: a query
   * whose encoding mentions Flipkart's host sends every store's page,
   * Amazon's included, to the Flipkart link lookup.
   */
  lemma QueryNamingHostPicksFlipkartLookup(encodedProduct: string)
    requires Contains(encodedProduct, FlipkartHost)
    ensures forall i :: 0 <= i < |Stores| ==>
      LinkSelector(StoreUrl(Stores[i], encodedProduct)) == FlipkartLinkSelector
  {
    forall i | 0 <= i < |Stores|
      ensures LinkSelector(StoreUrl(Stores[i], encodedProduct)) == FlipkartLinkSelector
    {
      ContainsInSuffix(Stores[i].searchUrl, encodedProduct, FlipkartHost);
    }
  }

  /** No search URL but Flipkart's holds the letter Flipkart's host starts with. */
  lemma HostAbsentFromSearchUrl(i: nat)
    requires i < |Stores| && i != 1
    ensures FlipkartHost[0] !in Stores[i].searchUrl && Stores[i].name != "Flipkart"
  {
    if i == 0 {
      HostAbsentFrom(AmazonSearch);
    } else if i == 2 {
      HostAbsentFrom(CromaSearch);
    } else {
      HostAbsentFrom(RelianceSearch);
    }
  }

  lemma HostAbsentFrom(url: string)
    requires url == AmazonSearch || url == CromaSearch || url == RelianceSearch
    ensures FlipkartHost[0] !in url
  {
  }

  /** The Flipkart search URL mentions Flipkart's host whatever the query. */
  lemma FlipkartUrlMentionsHost(encodedProduct: string)
    ensures Contains(StoreUrl(Stores[1], encodedProduct), FlipkartHost)
  {
    assert StartsWith(FlipkartSearchPath, FlipkartHost);
    ContainsInSuffix("https://www.", FlipkartSearchPath, FlipkartHost);
    ContainsInPrefix(Stores[1].searchUrl, encodedProduct, FlipkartHost);
  }

  /**
   * One store's try and fallback: the shopping search first, the store's page
   * only when that rejected. `usedPage` says whether the page was loaded.
   * `StoreQuote` is the specification of the quote; this method adds `usedPage`.
   */
  method FetchQuote(product: string, store: Store, up: Upstream) returns (currentPrice: Quote, usedPage: bool)
    ensures currentPrice == StoreQuote(product, store, up)
    ensures usedPage <==> FetchPriceWithSerpApi(up.serp(ShoppingQuery(product, store.name))).Err?
  {
    match FetchPriceWithSerpApi(up.serp(ShoppingQuery(product, store.name))) {
      case Ok(quote) =>
        currentPrice, usedPage := quote, false;
      case Err(_) =>
        var url := StoreUrl(store, up.encode(product));
        currentPrice, usedPage := ScrapeWebsite(url, store.selectors, up.browse(url)), true;
    }
  }

  /** The scraper's module state: the history map, written on every request and never read. */
  class PriceTracker {
    var priceHistory: map<string, seq<HistoryPoint>>

    constructor ()
      ensures priceHistory == map[]
    {
      priceHistory := map[];
    }

    /**
     * Builds the seven points oldest first, counting the day offset down from
     * 6 to 0, and records the history under `product-store`.
     */
    method GenerateMockPriceHistory(product: string, store: string, currentPrice: Quote,
                                    today: int, draws: seq<real>) returns (history: seq<HistoryPoint>)
      requires |draws| == Days
      modifies this
      ensures history == HistoryFor(currentPrice, today, draws)
      ensures priceHistory == old(priceHistory)[HistoryKey(product, store) := history]
    {
      history := [];
      var basePrice := ParsePrice(currentPrice.finalPrice);
      var i := Days as int - 1;
      while i >= 0
        invariant -1 <= i < Days
        invariant |history| == Days - 1 - i
        invariant history == MockHistory(basePrice, today, draws)[..|history|]
        invariant priceHistory == old(priceHistory)
      {
        var k := Days - 1 - i;
        MockHistoryPrefix(basePrice, today, draws, k);
        history := history + [MockPoint(basePrice, today - i, draws[k])];
        i := i - 1;
      }
      assert history == MockHistory(basePrice, today, draws)[..Days];
      priceHistory := priceHistory[HistoryKey(product, store) := history];
    }

    /**
     * One pass of the loop over the store table: fetch store number i's quote,
     * make its history, and enter both under the store's name.
     */
    method AddStore(product: string, up: Upstream, i: nat, prices: map<string, StoreEntry>, scraped: seq<string>)
      returns (prices': map<string, StoreEntry>, scraped': seq<string>)
      requires EnoughDraws(up) && i < |Stores|
      requires prices == PricesUpTo(product, up, i) && scraped == ScrapedUpTo(product, up, i)
      modifies this
      ensures prices' == PricesUpTo(product, up, i + 1)
      ensures scraped' == ScrapedUpTo(product, up, i + 1)
      ensures priceHistory == old(priceHistory)
        [HistoryKey(product, Stores[i].name) := EntryFor(product, up, i).priceHistory]
    {
      var store := Stores[i];
      var currentPrice, usedPage := FetchQuote(product, store, up);
      scraped' := if usedPage then scraped + [store.name] else scraped;
      var history := GenerateMockPriceHistory(product, store.name, currentPrice, up.today, DrawsFor(up, i));
      assert StoreEntry(currentPrice, history) == EntryFor(product, up, i);
      prices' := prices[store.name := StoreEntry(currentPrice, history)];
    }

    /**
     * Visits the stores in table order: fetches each store's quote, makes its
     * history, and enters both under the store's name. Also returns, in store
     * order, the stores whose page was loaded because the shopping search rejected.
     */
    method GetPrices(product: string, up: Upstream) returns (prices: map<string, StoreEntry>, scraped: seq<string>)
      requires EnoughDraws(up)
      modifies this
      ensures prices == PricesUpTo(product, up, |Stores|)
      ensures scraped == ScrapedUpTo(product, up, |Stores|)
      ensures priceHistory == HistoriesUpTo(old(priceHistory), product, up, |Stores|)
    {
      prices := map[];
      scraped := [];
      var i := 0;
      while i < |Stores|
        invariant 0 <= i <= |Stores|
        invariant prices == PricesUpTo(product, up, i)
        invariant scraped == ScrapedUpTo(product, up, i)
        invariant priceHistory == HistoriesUpTo(old(priceHistory), product, up, i)
      {
        prices, scraped := AddStore(product, up, i, prices, scraped);
        i := i + 1;
      }
    }
  }
}
