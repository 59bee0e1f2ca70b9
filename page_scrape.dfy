/**
 * The page-extraction fallback (`scrapeWebsite`). The browser is not
 * modelled: what the page offers to each element lookup is the input, and a
 * failure anywhere in launching, loading, waiting or closing is one outcome.
 */
module PageScrape {
  import opened Wrappers
  import opened PriceText
  import opened Quotes

  /** A store's lookups: the current price, and the struck-out price when the selector is non-empty. */
  datatype Selectors = Selectors(discountedPrice: string, originalPrice: string)

  /**
   * A loaded page as `page.$eval` sees it: for a selector, the trimmed
   * `innerText` and the `href` of its first matching element; a selector
   * missing from a map has no matching element, so the lookup rejects.
   */
  datatype Page = Page(text: map<string, string>, href: map<string, string>)

  /** The fetch-level outcome: the page was loaded, or something threw on the way. */
  datatype Navigation = Failed | Loaded(page: Page)

  /** The product-link lookup used on Flipkart pages. */
  const FlipkartLinkSelector: string := "a._1fQZEK, a.s1Q9rs"

  /** The product-link lookup used on every other page. */
  const ProductLinkSelector: string := "a[href*=\"/dp/\"], a[href*=\"/product/\"], a[href*=\"/p/\"]"

  /** The text the URL is tested for to pick the Flipkart link lookup. */
  const FlipkartHost: string := "flipkart.com"

  /** A lookup that falls back to a default value when no element matches. */
  function LookupOr(found: map<string, string>, selector: string, fallback: string): (v: string)
    ensures selector in found ==> v == found[selector]
    ensures selector !in found ==> v == fallback
  {
    if selector in found then found[selector] else fallback
  }

  /** The link lookup is chosen by whether the URL mentions Flipkart's host. */
  function LinkSelector(url: string): (selector: string)
    ensures selector == FlipkartLinkSelector <==> Contains(url, FlipkartHost)
    ensures selector == ProductLinkSelector <==> !Contains(url, FlipkartHost)
  {
    if Contains(url, FlipkartHost) then FlipkartLinkSelector else ProductLinkSelector
  }

  /** The record returned when the fetch as a whole fails: every price is the error sentinel. */
  function ErrorQuote(url: string): (q: Quote)
    ensures q.discountedPrice == ErrorText && q.originalPrice == ErrorText && q.finalPrice == ErrorText
    ensures q.productLink == Some(url) && q.discount == None
  {
    Quote(ErrorText, ErrorText, None, ErrorText, Some(url))
  }

  /**
   * The record `scrapeWebsite(url, selectors)` resolves with. Each field
   * degrades on its own when its element is missing; the whole record
   * degrades to the error sentinels only when the fetch failed. It never rejects.
   */
  function ScrapeWebsite(url: string, selectors: Selectors, nav: Navigation): (q: Quote)
    ensures q.finalPrice == q.discountedPrice
    ensures q.discount == None && q.productLink.Some?
    ensures nav.Failed? ==> q == ErrorQuote(url)
    ensures nav.Loaded? && selectors.discountedPrice !in nav.page.text ==> q.discountedPrice == NotAvailable
    ensures nav.Loaded? && selectors.discountedPrice in nav.page.text
      ==> q.discountedPrice == nav.page.text[selectors.discountedPrice]
    ensures nav.Loaded? && (selectors.originalPrice == "" || selectors.originalPrice !in nav.page.text)
      ==> q.originalPrice == q.discountedPrice
    ensures nav.Loaded? && selectors.originalPrice != "" && selectors.originalPrice in nav.page.text
      ==> q.originalPrice == nav.page.text[selectors.originalPrice]
    ensures nav.Loaded? && LinkSelector(url) !in nav.page.href ==> q.productLink == Some(url)
    ensures nav.Loaded? && LinkSelector(url) in nav.page.href
      ==> q.productLink == Some(nav.page.href[LinkSelector(url)])
  {
    match nav
    case Failed => ErrorQuote(url)
    case Loaded(page) =>
      var discountedPrice := LookupOr(page.text, selectors.discountedPrice, NotAvailable);
      var originalPrice :=
        if selectors.originalPrice != "" then LookupOr(page.text, selectors.originalPrice, discountedPrice)
        else discountedPrice;
      var productLink := LookupOr(page.href, LinkSelector(url), url);
      Quote(discountedPrice, originalPrice, None, discountedPrice, Some(productLink))
  }
}
