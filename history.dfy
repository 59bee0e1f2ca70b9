/**
 * The synthetic seven-day price history (`generateMockPriceHistory`) as a
 * value: each point jitters the current price by a random draw, and all three
 * prices of a point carry the same text. The draws of `Math.random()` and the
 * current day are inputs; a day is a whole day number rather than a formatted date.
 */
module History {
  import opened PriceText

  /** One day of history; the three prices are the rendered texts. */
  datatype HistoryPoint = HistoryPoint(day: int, discountedPrice: string, originalPrice: string, finalPrice: string)

  /** The number of points in a history: today and the six days before it. */
  const Days: nat := 7

  /** No historical price is rendered below this many rupees. */
  const MinimumPrice: int := 1000

  /** `Math.round`: halves go up. */
  function Round(x: real): (r: int)
    ensures r as real - 0.5 <= x < r as real + 0.5
  {
    (x + 0.5).Floor
  }

  function Max(a: int, b: int): (m: int)
    ensures m >= a && m >= b && (m == a || m == b)
  {
    if a >= b then a else b
  }

  /** `base * (draw * 0.1 - 0.05)`, up to five per cent of the base either way. */
  function Variation(base: int, draw: real): real {
    (base as real) * (draw * 0.1 - 0.05)
  }

  /** `Math.max(1000, Math.round(base + variation))`; a NaN base stays NaN through both. */
  function JitteredPrice(base: JsNumber, draw: real): (p: JsNumber)
    ensures p.NaN? <==> base.NaN?
    ensures p.Int? ==> p.n >= MinimumPrice
  {
    match base
    case NaN => NaN
    case Int(b) => Int(Max(MinimumPrice, Round(b as real + Variation(b, draw))))
  }

  /** The point for one day: the jittered price rendered as `₹${price}` into all three fields. */
  function MockPoint(base: JsNumber, day: int, draw: real): (p: HistoryPoint)
    ensures p.day == day
    ensures p.discountedPrice == p.finalPrice && p.originalPrice == p.finalPrice
    ensures |p.finalPrice| >= 2 && p.finalPrice[0] == RupeeSign
  {
    var text := [RupeeSign] + NumberToString(JitteredPrice(base, draw));
    HistoryPoint(day, text, text, text)
  }

  /**
   * The history for a current price: seven points, oldest first, the last
   * one for today; point k uses the k-th draw.
   */
  function MockHistory(base: JsNumber, today: int, draws: seq<real>): (h: seq<HistoryPoint>)
    requires |draws| == Days
    ensures |h| == Days
    ensures forall k :: 0 <= k < |h| ==> h[k].day == today - (Days - 1 - k)
    ensures h[Days - 1].day == today
    ensures forall k :: 0 <= k < |h| ==>
      h[k].discountedPrice == h[k].finalPrice && h[k].originalPrice == h[k].finalPrice
  {
    seq(Days, k requires 0 <= k < Days => MockPoint(base, today - (Days - 1 - k), draws[k]))
  }

  /** The first k + 1 points of a history are its first k followed by point k. */
  lemma MockHistoryPrefix(base: JsNumber, today: int, draws: seq<real>, k: nat)
    requires |draws| == Days && k < Days
    ensures var h := MockHistory(base, today, draws);
      h[..k + 1] == h[..k] + [MockPoint(base, today - (Days - 1 - k), draws[k])]
  {
    var h := MockHistory(base, today, draws);
    PrefixStep(h, k);
    assert h[k] == MockPoint(base, today - (Days - 1 - k), draws[k]);
  }

  lemma PrefixStep<T>(s: seq<T>, k: nat)
    requires k < |s|
    ensures s[..k + 1] == s[..k] + [s[k]]
  {
    assert s[..k + 1] == s[..k] + [s[k]];
  }

  /** The price text of a point reads back, through `parseFloat`, as the jittered price. */
  lemma PointReadsBack(base: JsNumber, day: int, draw: real)
    ensures ParsePrice(MockPoint(base, day, draw).finalPrice) == JitteredPrice(base, draw)
  {
    match JitteredPrice(base, draw)
    case Int(n) =>
      assert MockPoint(base, day, draw).finalPrice == Rupee(n);
      ParseRupee(n);
    case NaN =>
      SentinelsParseToNaN();
  }

  /**
   * Each point's price reads back as the jittered price: at least 1000 when
   * the current price is a number, NaN throughout when it is not.
   */
  lemma HistoryPricesReadBack(base: JsNumber, today: int, draws: seq<real>)
    requires |draws| == Days
    ensures var h := MockHistory(base, today, draws);
      forall k :: 0 <= k < Days ==> ParsePrice(h[k].finalPrice) == JitteredPrice(base, draws[k])
    ensures var h := MockHistory(base, today, draws);
      base.Int? ==> forall k :: 0 <= k < Days ==>
        ParsePrice(h[k].finalPrice).Int? && ParsePrice(h[k].finalPrice).n >= MinimumPrice
    ensures var h := MockHistory(base, today, draws);
      base.NaN? ==> forall k :: 0 <= k < Days ==> ParsePrice(h[k].finalPrice).NaN?
  {
    var h := MockHistory(base, today, draws);
    forall k | 0 <= k < Days
      ensures ParsePrice(h[k].finalPrice) == JitteredPrice(base, draws[k])
    {
      assert h[k] == MockPoint(base, today - (Days - 1 - k), draws[k]);
      PointReadsBack(base, today - (Days - 1 - k), draws[k]);
    }
  }

  lemma MulNonneg(a: real, c: real)
    requires a >= 0.0 && c >= 0.0
    ensures a * c >= 0.0
  {
  }

  lemma MulPos(a: real, c: real)
    requires a > 0.0 && c > 0.0
    ensures a * c > 0.0
  {
  }

  /** The bounds a draw in [0, 1) puts on m = b * draw. */
  lemma VariationBounds(b: int, draw: real)
    requires 0.0 <= draw < 1.0
    ensures b > 0 ==> 0.0 <= (b as real) * draw < b as real
    ensures b <= 0 ==> (b as real) * draw <= 0.0
  {
    var br := b as real;
    var m := br * draw;
    assert br * (1.0 - draw) == br - m;
    if b > 0 {
      MulNonneg(br, draw);
      MulPos(br, 1.0 - draw);
    } else {
      MulNonneg(-br, draw);
      assert (-br) * draw == -m;
    }
  }

  /**
   * Before rounding, a jittered price lies in [0.95 b, 1.05 b) for b > 0,
   * and is never positive for b <= 0.
   */
  lemma UnroundedWithinFivePercent(b: int, draw: real)
    requires 0.0 <= draw < 1.0
    ensures b > 0 ==> 0.95 * (b as real) <= b as real + Variation(b, draw) < 1.05 * (b as real)
    ensures b <= 0 ==> b as real + Variation(b, draw) <= 0.0
  {
    assert Variation(b, draw) == 0.1 * ((b as real) * draw) - 0.05 * (b as real);
    VariationBounds(b, draw);
  }

  /** Rounding a value in [0.95 b, 1.05 b) and flooring it at 1000 stays within five per cent, give or take a half. */
  lemma RoundedWithinFivePercent(b: int, x: real)
    requires b > 0 ==> 0.95 * (b as real) <= x < 1.05 * (b as real)
    requires b <= 0 ==> x <= 0.0
    ensures var p := Max(MinimumPrice, Round(x));
      19 * b - 10 <= 20 * p && (p == MinimumPrice || 20 * p < 21 * b + 10)
  {
  }

  /**
   * For a current price b and a draw in [0, 1), a point's price p lies within
   * five per cent of b, give or take the rounding half-rupee, unless the
   * floor of 1000 lifted it (which it always does for b <= 0).
   */
  lemma JitterWithinFivePercent(b: int, draw: real)
    requires 0.0 <= draw < 1.0
    ensures var p := JitteredPrice(Int(b), draw).n;
      19 * b - 10 <= 20 * p && (p == MinimumPrice || 20 * p < 21 * b + 10)
  {
    UnroundedWithinFivePercent(b, draw);
    RoundedWithinFivePercent(b, b as real + Variation(b, draw));
  }
}
