/** The quote record both price sources produce for one store, and its sentinel texts. */
module Quotes {
  import opened Wrappers

  /**
   * The object a source resolves with. `discount` is absent (None) on a quote
   * built from the store's own page, and `productLink` is absent when the
   * search result carried no link.
   */
  datatype Quote = Quote(
    discountedPrice: string,
    originalPrice: string,
    discount: Option<string>,
    finalPrice: string,
    productLink: Option<string>)

  /** Stands for a price that could not be read. */
  const NotAvailable: string := "N/A"

  /** Stands for every price of a store whose page could not be loaded. */
  const ErrorText: string := "Error"

  /** The discount label of a search result without a previous price. */
  const NoDiscount: string := "No Discount"
}
