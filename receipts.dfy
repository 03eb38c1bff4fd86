/** The records a client submits: the decoded form of the JSON body, every field kept as text. */
module Receipts {

  /** One line of a receipt; the price is decimal text, parsed only when a rule needs it. */
  datatype Item = Item(shortDescription: string, price: string)

  /**
   * A purchase receipt. The date is meant as `YYYY-MM-DD`, the time as `HH:MM` (24 h),
   * the total as decimal text; none of this is checked until the receipt is scored.
   */
  datatype Receipt = Receipt(
    retailer: string,
    purchaseDate: string,
    purchaseTime: string,
    total: string,
    items: seq<Item>)
}
