/**
 * The shopping-search source (`fetchPriceWithSerpAPI`): the reply handed to
 * the client's callback, and how its first shopping result becomes a quote or
 * a rejection. The request itself is not modelled; its reply is the input.
 */
module Shopping {
  import opened Wrappers
  import opened PriceText
  import opened Quotes

  /**
   * One entry of `shopping_results`. A numeric field that is missing is None;
   * a field that is present may still be 0, which JavaScript treats as false.
   */
  datatype ShoppingResult = ShoppingResult(
    extractedPrice: Option<int>,
    previousPrice: Option<int>,
    link: Option<string>)

  /** The reply: no data at all (null or undefined), or an object whose `shopping_results` may be missing. */
  datatype Reply = NoData | Data(shoppingResults: Option<seq<ShoppingResult>>)

  /** Why the promise rejects: no first result, or reading the reply threw. */
  datatype Rejection = PriceNotFound | SerpApiError

  /** JavaScript truthiness of a numeric field: present and not zero. */
  predicate Truthy(x: Option<int>) {
    x.Some? && x.value != 0
  }

  /** Division rounding toward negative infinity, for either sign of divisor. */
  function FloorDiv(a: int, b: int): (q: int)
    requires b != 0
    ensures b > 0 ==> b * q <= a < b * q + b
    ensures b < 0 ==> b * q >= a > b * q + b
  {
    if b > 0 then a / b else (-a) / (-b)
  }

  /**
   * `Math.round(((previous - extracted) / previous) * 100)` in exact
   * arithmetic: the whole number r with r - 1/2 <= 100 (previous - extracted) / previous < r + 1/2.
   */
  function DiscountPercent(previous: int, extracted: int): (r: int)
    requires previous != 0
    ensures previous > 0 ==> previous * (2 * r - 1) <= 200 * (previous - extracted) < previous * (2 * r + 1)
    ensures previous < 0 ==> previous * (2 * r - 1) >= 200 * (previous - extracted) > previous * (2 * r + 1)
  {
    FloorDiv(200 * (previous - extracted) + previous, 2 * previous)
  }

  /** The label of a result with a truthy previous price; a missing extracted price makes the subtraction NaN. */
  function DiscountLabel(previous: int, extracted: Option<int>): (l: string)
    requires previous != 0
    ensures |l| > 5 && l[|l| - 5..] == "% off"
    ensures extracted.Some? ==> ParseFloat(l) == Int(DiscountPercent(previous, extracted.value))
    ensures extracted.None? ==> ParseFloat(l) == NaN
  {
    match extracted
    case None => NumberToString(NaN) + "% off"
    case Some(e) =>
      ParseIntFollowedBy(DiscountPercent(previous, e), "% off");
      IntToString(DiscountPercent(previous, e)) + "% off"
  }

  /** The quote built from the first shopping result. */
  function Normalise(p: ShoppingResult): (q: Quote)
    ensures q.finalPrice == q.discountedPrice
    ensures Truthy(p.extractedPrice) ==> ParsePrice(q.discountedPrice) == Int(p.extractedPrice.value)
    ensures !Truthy(p.extractedPrice) ==> q.discountedPrice == NotAvailable
    ensures Truthy(p.previousPrice) ==> ParsePrice(q.originalPrice) == Int(p.previousPrice.value)
    ensures !Truthy(p.previousPrice) ==> q.originalPrice == q.discountedPrice && q.discount == Some(NoDiscount)
    ensures Truthy(p.previousPrice) ==> q.discount == Some(DiscountLabel(p.previousPrice.value, p.extractedPrice))
    ensures q.productLink == p.link
  {
    var discountedPrice :=
      if Truthy(p.extractedPrice) then ParseRupee(p.extractedPrice.value); Rupee(p.extractedPrice.value)
      else NotAvailable;
    var originalPrice :=
      if Truthy(p.previousPrice) then ParseRupee(p.previousPrice.value); Rupee(p.previousPrice.value)
      else discountedPrice;
    var discount :=
      if Truthy(p.previousPrice) then DiscountLabel(p.previousPrice.value, p.extractedPrice)
      else NoDiscount;
    Quote(discountedPrice, originalPrice, Some(discount), discountedPrice, p.link)
  }

  /**
   * The promise's outcome for a reply: the quote of the first shopping
   * result, a rejection when there is none, and a rejection when there is no
   * reply object to read.
   */
  function FetchPriceWithSerpApi(reply: Reply): (r: Result<Quote, Rejection>)
    ensures r.Ok? <==> reply.Data? && reply.shoppingResults.Some? && reply.shoppingResults.value != []
    ensures reply.NoData? ==> r == Err(SerpApiError)
    ensures reply.Data? && !r.Ok? ==> r == Err(PriceNotFound)
    ensures r.Ok? ==> r.value == Normalise(reply.shoppingResults.value[0])
  {
    match reply
    case NoData => Err(SerpApiError)
    case Data(results) =>
      if results.Some? && results.value != [] then Ok(Normalise(results.value[0]))
      else Err(PriceNotFound)
  }

  lemma MulMono(p: int, a: int, c: int)
    requires p > 0 && a <= c
    ensures p * a <= p * c
  {
    assert p * c - p * a == p * (c - a);
  }

  /** A sale price between 1 and the previous price gives a discount of 0 to 100 per cent. */
  lemma DiscountInRange(previous: int, extracted: int)
    requires 0 < extracted <= previous
    ensures 0 <= DiscountPercent(previous, extracted) <= 100
  {
    var r := DiscountPercent(previous, extracted);
    if r > 100 {
      MulMono(previous, 201, 2 * r - 1);
      assert false;
    }
    if r < 0 {
      MulMono(previous, 2 * r + 1, -1);
      assert false;
    }
  }

  /** For an ordinary discounted result the label is the rounded percentage, between 0 and 100. */
  lemma DiscountedResultLabel(p: ShoppingResult)
    requires p.extractedPrice.Some? && p.previousPrice.Some?
    requires 0 < p.extractedPrice.value <= p.previousPrice.value
    ensures var r := DiscountPercent(p.previousPrice.value, p.extractedPrice.value);
      && 0 <= r <= 100
      && Normalise(p).discount == Some(IntToString(r) + "% off")
  {
    DiscountInRange(p.previousPrice.value, p.extractedPrice.value);
  }

  /** A result priced 999 with previous price 1499 gives the quote `₹999`, `₹1499`, `33% off`, `₹999`. */
  lemma WirelessMouseExample(link: string)
    ensures Normalise(ShoppingResult(Some(999), Some(1499), Some(link)))
      == Quote([RupeeSign] + "999", [RupeeSign] + "1499", Some("33% off"), [RupeeSign] + "999", Some(link))
  {
    assert NatToString(9) == "9";
    assert NatToString(99) == "99";
    assert NatToString(999) == "999";
    assert NatToString(1) == "1";
    assert NatToString(14) == "14";
    assert NatToString(149) == "149";
    assert NatToString(1499) == "1499";
    assert NatToString(3) == "3";
    assert NatToString(33) == "33";
    assert DiscountPercent(1499, 999) == 33;
    assert IntToString(33) + "% off" == "33% off";
    assert Rupee(999) == [RupeeSign] + "999";
    assert Rupee(1499) == [RupeeSign] + "1499";
  }
}
