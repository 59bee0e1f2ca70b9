/**
 * The page's choice of the cheapest store (`getLowestPriceStore`): a left fold
 * over the keys of `prices` that keeps the current minimum and replaces it
 * only with a store whose parsed final price is strictly smaller.
 */
module LowestPrice {
  import opened Wrappers
  import opened PriceText

  /** One key of `prices`, in `Object.keys` order, with its current quote's final price text. */
  datatype Listing = Listing(store: string, finalPrice: string)

  /** `a < b` on numbers: false whenever either side is NaN. */
  predicate Less(a: JsNumber, b: JsNumber) {
    a.Int? && b.Int? && a.n < b.n
  }

  /** The final prices of the stores, in key order, as `parseFloat` reads them. */
  function Numbers(listings: seq<Listing>): (ns: seq<JsNumber>)
    ensures |ns| == |listings|
  {
    seq(|listings|, i requires 0 <= i < |listings| => ParsePrice(listings[i].finalPrice))
  }

  /** The final price of the store at position i, as `parseFloat` reads it. */
  function PriceAt(listings: seq<Listing>, i: nat): JsNumber
    requires i < |listings|
  {
    Numbers(listings)[i]
  }

  /**
   * The reduce from position i on over the parsed prices, where `best` is the
   * position of the current `minStore`. A store replaces the minimum only
   * when its price compares strictly below, so only a number ever replaces
   * it, and a NaN minimum is never replaced.
   */
  function LowestFrom(ns: seq<JsNumber>, i: nat, best: nat): (b: nat)
    requires best < |ns| && i <= |ns|
    ensures b < |ns|
    ensures b == best || i <= b
    ensures b != best ==> ns[b].Int?
    ensures ns[best].NaN? ==> b == best
    decreases |ns| - i
  {
    if i == |ns| then best
    else
      var next := if Less(ns[i], ns[best]) then i else best;
      LowestFrom(ns, i + 1, next)
  }

  /** The reduce over all keys, starting from the first key as the minimum. */
  function LowestIndex(listings: seq<Listing>): (b: nat)
    requires listings != []
    ensures b < |listings|
  {
    LowestFrom(Numbers(listings), 0, 0)
  }

  /**
   * No prices gives null; an empty `prices` gives no store; otherwise the
   * result is one of the keys.
   */
  function GetLowestPriceStore(prices: Option<seq<Listing>>): (r: Option<string>)
    ensures prices.None? ==> r.None?
    ensures prices.Some? ==> (r.Some? <==> prices.value != [])
    ensures r.Some? ==> exists k :: 0 <= k < |prices.value| && prices.value[k].store == r.value
    ensures prices.Some? && prices.value != [] ==> r == Some(prices.value[LowestIndex(prices.value)].store)
  {
    match prices
    case None => None
    case Some(listings) =>
      if listings == [] then None else Some(listings[LowestIndex(listings)].store)
  }

  /**
   * The fold's invariant: when the running minimum is a number no larger than
   * any number seen so far and strictly below every number before it, the
   * fold ends on such a position for the whole sequence.
   */
  lemma {:induction false} LowestFromIsFirstCheapest(ns: seq<JsNumber>, i: nat, best: nat)
    requires best < |ns| && best <= i <= |ns|
    requires ns[best].Int?
    requires forall j :: 0 <= j < i && ns[j].Int? ==> ns[best].n <= ns[j].n
    requires forall j :: 0 <= j < best && ns[j].Int? ==> ns[best].n < ns[j].n
    ensures var b := LowestFrom(ns, i, best);
      && ns[b].Int?
      && (forall j :: 0 <= j < |ns| && ns[j].Int? ==> ns[b].n <= ns[j].n)
      && (forall j :: 0 <= j < b && ns[j].Int? ==> ns[b].n < ns[j].n)
    decreases |ns| - i
  {
    if i < |ns| {
      var next := if Less(ns[i], ns[best]) then i else best;
      LowestFromIsFirstCheapest(ns, i + 1, next);
    }
  }

  /**
   * When the first store's price is a number, the chosen store has a number
   * for a price, no store's number is below it, and every store before it
   * costs strictly more: ties go to the earliest store.
   */
  lemma LowestIsFirstCheapest(listings: seq<Listing>)
    requires listings != [] && PriceAt(listings, 0).Int?
    ensures var b := LowestIndex(listings);
      && PriceAt(listings, b).Int?
      && (forall j :: 0 <= j < |listings| && PriceAt(listings, j).Int? ==> PriceAt(listings, b).n <= PriceAt(listings, j).n)
      && (forall j :: 0 <= j < b && PriceAt(listings, j).Int? ==> PriceAt(listings, b).n < PriceAt(listings, j).n)
  {
    LowestFromIsFirstCheapest(Numbers(listings), 0, 0);
  }

  /** When every price is a number, the chosen store is the first of the cheapest. */
  lemma AllNumbersGiveMinimum(listings: seq<Listing>)
    requires listings != []
    requires forall j :: 0 <= j < |listings| ==> PriceAt(listings, j).Int?
    ensures var b := LowestIndex(listings);
      && (forall j :: 0 <= j < |listings| ==> PriceAt(listings, b).n <= PriceAt(listings, j).n)
      && (forall j :: 0 <= j < b ==> PriceAt(listings, b).n < PriceAt(listings, j).n)
  {
    LowestIsFirstCheapest(listings);
  }

  /**
   * A store whose price does not parse is chosen only when it is the first
   * store, and then it is always chosen.
   */
  lemma UnparsedPriceNeverWins(listings: seq<Listing>)
    requires listings != []
    ensures forall j :: 0 < j < |listings| && PriceAt(listings, j).NaN? ==> LowestIndex(listings) != j
    ensures PriceAt(listings, 0).NaN? ==> LowestIndex(listings) == 0
  {
  }

  /** The sentinel prices "N/A" and "Error" never win over a store listed before them. */
  lemma SentinelsNeverWin(listings: seq<Listing>, j: nat)
    requires 0 < j < |listings|
    requires listings[j].finalPrice == "N/A" || listings[j].finalPrice == "Error"
    ensures LowestIndex(listings) != j
  {
  }
}
