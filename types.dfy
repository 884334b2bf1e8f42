/**
 * The records of types.ts. `number` fields that hold identifiers and counts
 * are integers; prices and amounts (rupees) are exact reals.
 */
module Types {
  import opened Wrappers

  /** A catalog entry. */
  datatype Product = Product(id: int, name: string, price: real, category: string, imageUrl: Option<string>)

  /**
   * A line of the current bill. In the source a BillItem is the product's own
   * fields spread into a new record with a `quantity` added, so the line keeps
   * the product as it was when the line was created.
   */
  datatype BillItem = BillItem(product: Product, quantity: int) {
    function Id(): int { product.id }

    /** The line amount `price * quantity` that the totals add up. */
    function Amount(): real { product.price * quantity as real }
  }

  /** An archived bill: its items and the totals shown when it was saved. */
  datatype SavedBill = SavedBill(id: int, date: string, items: seq<BillItem>, subtotal: real, gstAmount: real, total: real)
}
