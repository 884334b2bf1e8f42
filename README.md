# Retail billing ledger — a Dafny model

This project models the bookkeeping core of a point-of-sale billing screen for
an Indian department store. Its parts:

- the **current bill**: an ordered list of bill items, each a product with a
  quantity. The cashier can add a product, set a quantity, remove a line and
  clear the bill.
- the **totals**: the subtotal, 18% GST on it, and the total. They are recomputed
  from the items on every read.
- the **saved-bill archive**: a most-recent-first list of snapshots. Saving
  archives the bill with its totals and starts a new bill. Loading puts a
  snapshot's items back on the bill. Deleting drops snapshots by id. Every
  change of the archive is written to browser storage.
- the **catalog view**: the category filter list, and the products shown for a
  search term and a selected category.
- the **quantity editor** of a bill line: a small state machine that parses the
  typed text the way JavaScript's `parseInt(s, 10)` does. It forwards only
  positive, changed quantities.

Modules:

- `Types`: the records Product, BillItem, SavedBill.
- `Seqs`: `Array.prototype.filter` and the facts about it that the other modules share.
- `Ledger`: the pure updater functions and the totals.
- `Archive`: find, delete and snapshot over saved bills.
- `PointOfSale`: class `App`, which holds `billItems`, `savedBills` and a ghost
  `stored` copy of the storage slot. Its methods are the handlers. Their
  postconditions are stated through the `Ledger` and `Archive` functions.
- `Catalog`: the two catalog memos.
- `QuantityControl`: the `parseInt`/`toString` models, class `QuantityEditor`,
  and the wiring of a commit into the bill.

Three points where the model follows App.tsx as written:

- App.tsx keeps no installation-fee state. The totals have no fee, a snapshot
  has no fee flag, and saving is refused only when the bill has no items.
- Deleting removes every saved bill with the id, not only one.
- Loading takes the first bill with the id.

## Model

| member | source | states |
|---|---|---|
| `Seqs.Filter` | App.tsx:194-197 | `Array.prototype.filter`: never longer than the input, and every element kept satisfies the predicate (order and multiplicities: `Seqs.FilterIsSubsequence`, `Seqs.FilterMultiplicity`) |
| `Ledger.FindItem` | App.tsx:209 | finds a line exactly when the id is on the bill, and returns the first line with that id |
| `Ledger.Increment` | App.tsx:211-213 | keeps the length and every line's product; only quantities change |
| `Ledger.IncrementAt` | App.tsx:211-213 | on a bill with one line per id, the increment changes only line k, by one |
| `Ledger.AddProduct` | App.tsx:207-217 | the ids become the old ids plus the product's id; the length grows only for a new product; one-line-per-id and positive quantities are preserved |
| `Ledger.AddProductEffect` | App.tsx:207-217 | on a bill with one line per id, a product already on the bill has its line's quantity raised by one, and every other line, the order and the length stay the same; a new product is appended with quantity 1 |
| `Ledger.SetQuantity` | App.tsx:223-227 | keeps the length, the products and the ids; preserves one-line-per-id, and positive quantities when q ≥ 1 |
| `Ledger.SetQuantityEffect` | App.tsx:219-229 | on a bill with one line per id, sets the quantity of exactly the matching line and keeps the others and their order; an absent id leaves the bill unchanged |
| `Ledger.Remove` | App.tsx:231-233 | the ids become the old ids minus the removed id; the bill never grows |
| `Ledger.RemoveAbsent` | App.tsx:231-233 | removing an id that is not on the bill leaves the bill unchanged |
| `Ledger.RemoveAt` | App.tsx:231-233 | on a bill with one line per id, removal deletes exactly that line; the lines before and after keep their order |
| `Ledger.RemoveKeepsOthers` | App.tsx:232 | the result is an order-preserving subsequence that keeps every other line as often as before and drops every line with the id |
| `Ledger.RemoveWellFormed` | App.tsx:231-233 | removal preserves one-line-per-id and positive quantities |
| `Ledger.ComputeTotals` | App.tsx:200-205 | gstAmount = subtotal · 0.18 and total = subtotal + gstAmount; with non-negative prices and quantities all three are ≥ 0 and total ≥ subtotal |
| `Ledger.Subtotal` | App.tsx:201 | the `reduce` of price × quantity over the lines, left to right; non-negative prices and quantities give a non-negative subtotal |
| `Ledger.SubtotalConcat` | App.tsx:201 | the subtotal of two lists joined is the sum of their subtotals |
| `Ledger.SubtotalUpdate` | App.tsx:201 | replacing one line changes the subtotal by the difference of the two line amounts |
| `Ledger.SubtotalAfterAdd` | App.tsx:200-217 | on a bill with one line per id, adding a product raises the subtotal by one unit price: the price stored on its existing line, or the catalog price for a new line |
| `Ledger.SubtotalAfterSetQuantity` | App.tsx:219-229 | on a bill with one line per id, setting line k to q changes the subtotal by price · (q − old quantity) |
| `Ledger.SubtotalAfterRemove` | App.tsx:231-233 | on a bill with one line per id, removing line k lowers the subtotal by exactly that line's amount |
| `Ledger.QuantityAt` | App.tsx:209 | on a bill with one line per id, the quantity found for a line's id is that line's quantity |
| `Ledger.AddQuantity` | App.tsx:207-217 | on a bill with one line per id, one add raises the quantity shown for that product by one and for no other product |
| `Ledger.AddAllCounts` | App.tsx:207-217 | any run of adds keeps one line per product, and each quantity grows by the number of adds of that product |
| `Archive.FindBill` | App.tsx:257 | finds nothing exactly when no bill has the id; otherwise it returns the first, most recent, bill with the id |
| `Archive.DeleteBill` | App.tsx:265 | no remaining bill has the deleted id; the archive never grows |
| `Archive.DeleteKeepsOthers` | App.tsx:265 | the remaining bills are an order-preserving subsequence that keeps every other bill as often as before |
| `Archive.DeleteAbsent` | App.tsx:264-268 | deleting an id that no bill has leaves the archive unchanged |
| `Archive.FindAfterDelete` | App.tsx:256-268 | after a delete, loading that id finds nothing, and loading any other id finds the same bill as before |
| `Archive.Snapshot` | App.tsx:242-249 | the saved record carries the id, the date and the items, and its recorded totals are the totals of its items |
| `PointOfSale.App.Totals` | App.tsx:200-205 | the memo of the current bill: its subtotal, gstAmount = subtotal · 0.18 and total = subtotal + gstAmount; non-negative lines give 0 ≤ subtotal ≤ total |
| `PointOfSale.App.constructor` | App.tsx:41-54 | the app starts with an empty bill and with the archive read from storage |
| `PointOfSale.App.AddProduct` | App.tsx:207-217 | the bill becomes the add-updater's result; the archive and storage are unchanged; the bill invariant is kept |
| `PointOfSale.App.UpdateQuantity` | App.tsx:219-229 | a quantity ≤ 0 gives exactly the result of removing the line; a positive quantity sets it and keeps every line on the bill |
| `PointOfSale.App.RemoveItem` | App.tsx:231-233 | the bill becomes the filter result, which has the old ids minus the removed id |
| `PointOfSale.App.ClearBill` | App.tsx:235-238 | the bill becomes empty; the archive and storage are unchanged |
| `PointOfSale.App.SaveBill` | App.tsx:240-254 | an empty bill changes nothing; otherwise the snapshot with the current totals is put in front of the unchanged old archive, storage holds the new list, and the bill becomes empty |
| `PointOfSale.App.LoadBill` | App.tsx:256-262 | the bill becomes the items of the first saved bill with the id, or stays as it was; the archive is unchanged |
| `PointOfSale.App.DeleteBill` | App.tsx:264-268 | the archive becomes the filter result, storage equals it, and the bill is unchanged |
| `PointOfSale.App.Logout` | App.tsx:276-279 | logging out empties the bill and keeps the archive |
| `PointOfSale.SaveThenLoad` | App.tsx:240-262 | saving a non-empty bill and loading its id restores the same items and the same totals |
| `PointOfSale.DeleteThenLoad` | App.tsx:256-268 | after deleting an id, loading that id leaves the bill untouched |
| `Catalog.Distinct` | App.tsx:190 | lists exactly the elements of the input, each once |
| `Catalog.DistinctFirstOccurrenceOrder` | App.tsx:190 | lists the elements in the order of their first occurrence |
| `Catalog.CategoryList` | App.tsx:190 | one category per product, in catalog order: line i is product i's category |
| `Catalog.Categories` | App.tsx:189-191 | 'All' comes first; then every product category appears exactly once, and nothing else appears |
| `Catalog.CategoriesInFirstUseOrder` | App.tsx:189-191 | the categories after 'All' are ordered by their first use in the catalog |
| `Catalog.ToLower` | App.tsx:195 | keeps the length; each letter A to Z becomes the same letter in lower case, and every other character is kept |
| `Catalog.Contains` | App.tsx:195 | the empty term is contained in every text, and a contained term is never longer than the text |
| `Catalog.ContainsAt` | App.tsx:195 | `includes` holds exactly when the term occurs at some offset of the name |
| `Catalog.FilteredProducts` | App.tsx:193-198 | every shown product's lower-cased name contains the lower-cased term, and a selected category other than 'All' is matched exactly |
| `Catalog.FilteredProductsExact` | App.tsx:193-198 | the result is the catalog in its order with each matching product as often as in the catalog and no other product |
| `Catalog.NoFilterShowsAll` | App.tsx:193-198 | an empty search with 'All' selected shows the whole catalog |
| `Catalog.SearchIgnoresCase` | App.tsx:195 | lower-casing the search term does not change the result |
| `Catalog.NameCaseIgnored` | App.tsx:195 | a product matches exactly when the same product with its name lower-cased matches: the case of the name does not matter |
| `QuantityControl.TrimStart` | components/QuantityControl.tsx:24 | a suffix of the text: everything dropped is white space, and what is left does not start with white space |
| `QuantityControl.DigitRun` | components/QuantityControl.tsx:24 | the length of the maximal run of leading decimal digits |
| `QuantityControl.NatToString` | components/QuantityControl.tsx:12 | decimal digits without leading zeros whose value is n; a leading '0' only in "0" itself |
| `QuantityControl.IntToString` | components/QuantityControl.tsx:12 | `toString` of an integer: non-empty, starting with '-' exactly for negative numbers, then decimal digits whose value is the magnitude of n |
| `QuantityControl.ParseIntOfDecimal` | components/QuantityControl.tsx:24 | parseInt reads back the decimal text of any integer, whatever follows it when that does not start with a digit |
| `QuantityControl.ParseIntSkipsWhiteSpace` | components/QuantityControl.tsx:24 | leading white space never changes what parseInt reads |
| `QuantityControl.ParseInt` | components/QuantityControl.tsx:24 | `parseInt(s, 10)`: a number comes only from text holding a decimal digit (text with none is NaN), and a negative number only from text holding a minus sign |
| `QuantityControl.ParseIntPlusSign` | components/QuantityControl.tsx:24 | an explicit plus sign is read and dropped: "+" followed by the digits of n reads as n |
| `QuantityControl.ParseIntSignWithoutDigit` | components/QuantityControl.tsx:24 | a sign not followed by a digit is NaN, as in "-", "- 5" or "--1" |
| `QuantityControl.ParseIntNotANumber` | components/QuantityControl.tsx:24 | text whose first character is not white space, a sign or a digit is NaN, as in "a12" |
| `QuantityControl.CommitChange` | components/QuantityControl.tsx:23-36 | a commit calls back only with a parsed number that is ≥ 1 and differs from the quantity; every other text makes no call |
| `QuantityControl.ResetTextCommitsNothing` | components/QuantityControl.tsx:30-34 | committing the text the field is reset to makes no call |
| `QuantityControl.QuantityEditor.constructor` | components/QuantityControl.tsx:11-12 | the editor starts closed and shows the quantity |
| `QuantityControl.QuantityEditor.Render` | components/QuantityControl.tsx:15-21 | a closed field is reset to the new quantity; an open one keeps its text |
| `QuantityControl.QuantityEditor.StartEditing` | components/QuantityControl.tsx:70 | a click opens the field and leaves its text as it is |
| `QuantityControl.QuantityEditor.Change` | components/QuantityControl.tsx:62 | typing replaces the text |
| `QuantityControl.QuantityEditor.Commit` | components/QuantityControl.tsx:23-36 | the call is the validated change, always ≥ 1; text that is not a positive number is reset to the quantity; the field ends closed |
| `QuantityControl.QuantityEditor.KeyDown` | components/QuantityControl.tsx:38-46 | Enter is exactly a commit; Escape resets the text, closes the field and makes no call; other keys change nothing |
| `QuantityControl.CommitLine` | components/BillingSection.tsx:69-74 | a commit from a line's editor never removes a line from the bill and never touches the archive |

## Left out

- The generative-AI calls are not modelled: avatar, product-image and image-edit
  generation, video generation, and cart suggestions. They are asynchronous
  network requests through an external SDK.
- The `aiSuggestions`, `isFetchingSuggestions` and `currentUser` state is not
  modelled, and neither is the clearing of suggestions in `handleClearBill`.
  Logout is modelled only as clearing the bill.
- Browser storage is the ghost field `stored`. `JSON.stringify` and
  `JSON.parse`, and the error handling of the first read, are not modelled.
  The archive read at start-up is the constructor's parameter.
- PointOfSale.App.SaveBill and PointOfSale.App.DeleteBill assume that every
  `localStorage.setItem` succeeds (App.tsx:252, App.tsx:267). In the source
  the write can throw, for example when storage is full or disabled, and
  nothing catches it. The archive state has then already been updated, but
  the stored slot keeps the old list. In `handleSaveBill` the bill is also
  not cleared, because `handleClearBill()` never runs.
- `Date.now()` and `new Date().toISOString()` are clock readings. The id and
  the date of a saved bill are parameters of `SaveBill`.
- Numbers are exact. Prices and totals are `real`, and identifiers and
  quantities are unbounded `int`. IEEE double rounding of the source is not
  modelled, including the rounding of `subtotal * 0.18` and precision loss in
  `parseInt` for very long digit runs. `toFixed(2)` display rounding is not
  modelled either.
- QuantityControl.IntToString: writes every integer in plain decimal. JavaScript
  switches to exponent notation from 10^21 on, far beyond any quantity.
- Catalog.ToLower: lower-cases only the letters A to Z. JavaScript's
  `toLowerCase` also maps the other Unicode upper-case letters.
- The modal-open flags (`isLoginModalOpen`, `isSavedBillsModalOpen`,
  including its reset in `handleLoadBill`) are not modelled. The search-term
  and selected-category state are parameters of `Catalog.FilteredProducts`.
- The installation fee declared by components/BillingSection.tsx is not
  modelled. App.tsx never supplies it, and no total includes it.
- Price editing (components/EditablePrice.tsx) is not modelled. It is not used
  by App.tsx, and it is built on floating-point parsing.
- The presentation components are not modelled: the header, product grid,
  category filter, login dialog, suggestions list, saved-bills dialog and
  billing panel. Only the line that connects a line's quantity editor to the
  bill is modelled, as `QuantityControl.CommitLine`.
- The initial catalog (App.tsx:11-26) is data. The catalog functions take any
  product list.
