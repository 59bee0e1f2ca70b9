# Bargain-Bot price aggregation, modelled in Dafny

Bargain-Bot answers "what does this product cost right now at Amazon, Flipkart,
Croma and Reliance Digital, and how has the price moved lately?". For each store
in a fixed table the backend asks a shopping-search service for
"<product> <store>". When that rejects, it loads the store's own search page
and reads the prices from page elements. It then attaches a synthetic
seven-day price history and files it in a module-level map. The page then picks
the store with the lowest final price.

This project models that pipeline:

- `price_text.dfy`, module `PriceText`: numbers as whole numbers or NaN. It
  covers the `₹${n}` rendering, the `parseFloat(s.replace("₹", ""))` read-back,
  and `String.includes`.
- `quotes.dfy`, module `Quotes`: the quote record and its sentinels `"N/A"`,
  `"Error"` and `"No Discount"`.
- `shopping.dfy`, module `Shopping`: how a shopping-search reply becomes a quote
  or a rejection (`fetchPriceWithSerpAPI`).
- `page_scrape.dfy`, module `PageScrape`: the page fallback (`scrapeWebsite`).
  Each field degrades on its own, and a failed fetch gives the error record.
- `history.dfy`, module `History`: the seven-point mock history as a value.
- `scraper.dfy`, module `Scraper`: the store table, the try-then-fallback rule,
  and class `PriceTracker`. The class owns the module-level history map, and
  its methods are the loop of `generateMockPriceHistory` and the loop of
  `getPrices`. Each method is proved equal to a recursive specification
  function. Lemmas about those functions give the properties.
- `lowest_price.dfy`, module `LowestPrice`: the page's `getLowestPriceStore` fold.

Inputs from outside the program are parameters, bundled in `Scraper.Upstream`:

- the shopping-search reply for each query text;
- the browser outcome for each URL (a failed fetch, or what each element lookup finds);
- `encodeURIComponent`;
- the current day;
- the draws of `Math.random()`, in call order (seven per store, stores in table order).

Behaviour of the code that the model keeps:

- The page fallback parses no promotional or card discount.
- The browser is closed only on the success path.
- A quote read from a page has no `discount` field.
- Stores are visited one after another.
- A missing `extracted_price` next to a truthy `previous_price` gives the label
  `"NaN% off"`, because subtracting `undefined` gives NaN. An `extracted_price`
  of 0 gives a discount of 100.
- A store with an unparsable final price (`"N/A"`, `"Error"`) gets a history of
  `"₹NaN"` points. The floor of 1000 only applies when the base price is a number.

## Model

| member | source | states |
|---|---|---|
| `PriceText.ParseFloat` | backend/scraper.js:14 | `parseFloat` on whole-number text: text without a single digit reads as NaN (what it reads and what it does not is under Left out) |
| `PriceText.ParseIntFollowedBy` | backend/scraper.js:52-53 | the text of a whole number n, followed by text that does not start with a digit, reads back as n, for either sign of n |
| `PriceText.Rupee` | backend/scraper.js:26-28 | the rendering `₹${n}` is at least two characters long and starts with `₹` |
| `PriceText.ParseRupee` | backend/scraper.js:14 | reading back a rendered price `₹n` with `parseFloat(s.replace("₹", ""))` gives n, for every whole n |
| `PriceText.SentinelsParseToNaN` | frontend/src/App.js:135-136 | `"N/A"`, `"Error"` and `"₹NaN"` read back as NaN |
| `PriceText.ContainsAfterPrefix` | backend/scraper.js:91 | text placed in front cannot create an `includes` match when it lacks the pattern's first character |
| `PriceText.ContainsInSuffix` | backend/scraper.js:91 | an `includes` match survives text placed in front |
| `Shopping.DiscountLabel` | backend/scraper.js:51-53 | the label ends in `% off`; with an extracted price it reads back as the rounded percentage, and without one (`"NaN% off"`) it reads back as NaN |
| `Shopping.DiscountPercent` | backend/scraper.js:52 | the percentage is the whole number r with r - 1/2 <= 100 (previous - extracted) / previous < r + 1/2, for either sign of previous |
| `Shopping.Normalise` | backend/scraper.js:47-61 | finalPrice equals discountedPrice; a truthy price reads back as itself, a falsy extracted price gives "N/A"; a falsy previous price gives originalPrice = discountedPrice and "No Discount"; the link is passed through |
| `Shopping.FetchPriceWithSerpApi` | backend/scraper.js:45-67 | resolves exactly when the reply has a first shopping result, with that result's quote; no first result rejects with "price not found", no reply object rejects as an API error |
| `Shopping.DiscountInRange` | backend/scraper.js:51-52 | for 0 < extracted <= previous the percentage lies in 0..100 |
| `Shopping.DiscountedResultLabel` | backend/scraper.js:51-53 | for such a result the label is `<r>% off` with r the rounded percentage in 0..100 |
| `Shopping.WirelessMouseExample` | backend/scraper.js:48-60 | 999 and 1499 give `₹999`, `₹1499`, `33% off`, final `₹999` |
| `PageScrape.LinkSelector` | backend/scraper.js:91-95 | the Flipkart link lookup is used exactly when the URL contains `flipkart.com` |
| `PageScrape.ErrorQuote` | backend/scraper.js:101 | every price is `"Error"`, the link is the URL, and there is no discount field |
| `PageScrape.ScrapeWebsite` | backend/scraper.js:72-103 | a failed fetch gives the error record; a missing price element gives "N/A"; an empty or missing original-price lookup gives originalPrice = discountedPrice; finalPrice = discountedPrice always; a missing link element gives the URL; found elements are taken as they are |
| `History.Round` | backend/scraper.js:22 | `Math.round`: the result is within [-1/2, 1/2) of its argument |
| `History.JitteredPrice` | backend/scraper.js:21-22 | a number base gives a number of at least 1000; a NaN base gives NaN |
| `History.MockPoint` | backend/scraper.js:21-29 | a point is dated on its day, its three prices are the same text, and that text starts with `₹` |
| `History.PointReadsBack` | backend/scraper.js:22-28 | a point's final price reads back as exactly the jittered price it was rendered from |
| `History.MockHistoryPrefix` | backend/scraper.js:16-30 | the first k + 1 points are the first k followed by the point for day `today - (6 - k)`, which is what the counting-down loop pushes |
| `History.MockHistory` | backend/scraper.js:16-30 | seven points for consecutive days, oldest first, the last for today; each point's three prices are equal |
| `History.HistoryPricesReadBack` | backend/scraper.js:22-28 | each point's price reads back as its jittered price: at least 1000 when the base is a number, NaN throughout otherwise |
| `History.UnroundedWithinFivePercent` | backend/scraper.js:21 | for a draw in [0, 1), `basePrice + variation` lies in [0.95 b, 1.05 b) for a positive base b, and is at most 0 otherwise |
| `History.JitterWithinFivePercent` | backend/scraper.js:21-22 | for any whole base b and a draw in [0, 1), a point lies within 5% of b (give or take the rounding), unless the floor of 1000 lifted it; for b <= 0 the floor always lifts it |
| `Scraper.StoreQuote` | backend/scraper.js:129-135 | the store's quote (shopping result, else page) always has finalPrice = discountedPrice |
| `Scraper.ShoppingResultUsed` | backend/scraper.js:131 | the shopping query is `<product> <store>`, and a reply with a first result gives that result's quote without loading the page |
| `Scraper.BothSourcesFailed` | backend/scraper.js:99-101 | when the search rejects and the page fetch fails, every price is "Error" and the link is the store's search URL |
| `Scraper.FlipkartUrlMentionsHost` | backend/scraper.js:112 | the Flipkart search URL contains `flipkart.com` whatever the query |
| `Scraper.LinkLookupFollowsStore` | backend/scraper.js:91-95 | if the encoded query does not mention `flipkart.com`, only Flipkart's page uses the Flipkart link lookup |
| `Scraper.QueryNamingHostPicksFlipkartLookup` | backend/scraper.js:91 | if the encoded query mentions `flipkart.com`, every store's page uses the Flipkart link lookup |
| `Scraper.AllStoreNames` | backend/scraper.js:106-123 | the store table names exactly Amazon, Flipkart, Croma and Reliance Digital |
| `Scraper.StoreNamesDistinct` | backend/scraper.js:106-123 | no two stores in the table share a name (their names even differ in length) |
| `Scraper.HistoryKeysDistinct` | backend/scraper.js:32 | the four `product-store` keys of one request are pairwise distinct |
| `Scraper.AssignUpToKeys` | backend/scraper.js:137-140 | assigning the first n stores' keys in turn adds exactly those keys to the map |
| `Scraper.AssignUpToValues` | backend/scraper.js:137-140 | with distinct keys, after the first n assignments each of those keys holds its own store's value |
| `Scraper.AssignUpToOthers` | backend/scraper.js:33 | a key that is none of the assigned ones keeps the value it had |
| `Scraper.SelectUpToMembers` | backend/scraper.js:129-135 | with distinct names, after n steps of "push the name if its flag is set" a name is in the list exactly when it is among the first n and its flag is set |
| `Scraper.ScrapedUpToMembers` | backend/scraper.js:129-135 | after n stores a store was scraped exactly when it is among them and its search rejected |
| `Scraper.AggregateEntries` | backend/scraper.js:106-141 | the result has exactly the keys Amazon, Flipkart, Croma, Reliance Digital; each quote is the store's; each history is made from that same quote with the store's seven draws |
| `Scraper.ScrapedExactlyRejected` | backend/scraper.js:129-135 | a store's page is loaded exactly when its shopping search rejected |
| `Scraper.RecordedHistories` | backend/scraper.js:32-33 | the history map gains the four keys, each holding the history returned in the result; no other key changes |
| `Scraper.FetchQuote` | backend/scraper.js:128-135 | gives the store's quote and whether the page had to be loaded, which happens exactly when the search rejected |
| `Scraper.PriceTracker.constructor` | backend/scraper.js:10 | the history map starts empty |
| `Scraper.PriceTracker.GenerateMockPriceHistory` | backend/scraper.js:12-35 | the counting-down loop returns the mock history of the parsed final price, and the map changes only at `product-store`, which now holds it |
| `Scraper.PriceTracker.AddStore` | backend/scraper.js:128-140 | one pass of the store loop extends the result, the scraped list and the history map by store i |
| `Scraper.PriceTracker.GetPrices` | backend/scraper.js:105-144 | the loop's result, scraped list and history map are those of all four stores |
| `LowestPrice.LowestFrom` | frontend/src/App.js:134-138 | the fold ends on the running minimum or a later store; only a store with a number price replaces the minimum; a NaN minimum is never replaced |
| `LowestPrice.LowestIndex` | frontend/src/App.js:133-138 | the fold started on the first store ends on a position among the stores |
| `LowestPrice.GetLowestPriceStore` | frontend/src/App.js:131-139 | null prices give null; otherwise the result is present exactly when there are keys, and is then the store at `LowestIndex` |
| `LowestPrice.LowestFromIsFirstCheapest` | frontend/src/App.js:133-138 | over the parsed prices, the fold keeps a number minimum that no number seen undercuts and every earlier number strictly exceeds |
| `LowestPrice.LowestIsFirstCheapest` | frontend/src/App.js:135-137 | with a number first price, the chosen store's price is a number no other undercuts, and every earlier store's number is strictly larger (first wins ties) |
| `LowestPrice.AllNumbersGiveMinimum` | frontend/src/App.js:135-137 | when every price parses, the chosen store is the first of the cheapest |
| `LowestPrice.UnparsedPriceNeverWins` | frontend/src/App.js:137 | a store whose price is NaN is chosen only as the first store, and a NaN first store is always chosen |
| `LowestPrice.SentinelsNeverWin` | frontend/src/App.js:135-137 | a later store priced "N/A" or "Error" is never chosen |

## Left out

- The shopping-search client is not modelled: its locale parameters and the API key. A request whose callback never fires (a network error) is left out too; the reply is an input.
- The rejection reasons are variants without their message text. The source's texts are "Price not found" and "SerpAPI Error: " followed by the engine's message.
- Puppeteer is not modelled: launch, `newPage`, the 30-second navigation timeout, the 3-second wait and `browser.close`. A throw at any of these steps is one `Failed` outcome, and resource release is not modelled.
- A page is given as the trimmed text and `href` of the first element matching each selector; CSS matching is not modelled.
- `Math.random()` and `new Date()` are inputs. A history point carries a day number instead of an ISO date, so the UTC/local-time mix of `toISOString` is not modelled. The clock is read once, so a request spanning midnight is not modelled.
- Numbers are whole rupees or NaN:
  - Fractional prices are not modelled.
  - `parseFloat` reads an optional sign and digits, after the white space JavaScript skips there (tab, line feed, vertical tab, form feed, carriage return, the space separators, U+2028, U+2029 and the byte-order mark). Fractions, exponents and `Infinity` are not handled.
  - The text of numbers of 10^21 or more (exponent notation) is not modelled.
  - The discount percentage is rounded exactly rather than in floating point.
- The history jitter is modelled with exact real arithmetic, not in floating point.
- Search-result fields that are `null` or NaN, and a first result that is not an object, are not modelled. A field is either missing or a whole number.
- `encodeURIComponent` is an uninterpreted parameter.
- `backend/server.js` (the HTTP endpoint, its 400 and 500 replies, CORS, configuration) is not part of this model.
- The rest of `frontend/src/App.js` is not part of this model: React state, the request, cards and dialogs.
- `LowestPrice.GetLowestPriceStore`: the source returns `null` when there are no prices and `undefined` when there are no keys; the model returns None for both. `prices` is given as its keys in `Object.keys` order, each with its final price text. The fold carries the position of the current minimum rather than its key; keys of an object are distinct, so the two agree.
- The `console.log`, `console.warn` and `console.error` calls (backend/scraper.js:100, 130 and 133) are not modelled; they change no state the model keeps.
- Concurrent requests are not modelled. Two overlapping requests could interleave their writes to the module-level `priceHistory` map; `PriceTracker.GetPrices` treats one request as one atomic run.
