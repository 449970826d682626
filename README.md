# Sales-tax invoice screens: line items, product catalog, Annex-C totals

A Dafny model of the three screens of the FBR e-invoicing front end that hold rules
rather than layout:

- **Create invoice** (`create-invoice.tsx`), module `Invoice` in `create_invoice.dfy`.
  The form keeps a list of line items. It has four edit operations: add a blank row,
  remove a row by id (never the last row), edit one field of a row, and pick the buyer
  type. Picking an HS code auto-fills the row from a built-in catalog. Picking
  "Unregistered" forces the buyer STRN to the sentinel `9999997`. The form computes two
  tax figures. `calculateTax` applies a flat 18% to the subtotal. The summary it displays
  ("Sales Tax (Mixed)") applies each row's own tax percent, or 18 when that is absent or
  zero. `calculateTax` and `calculateTotal` are defined but never rendered; the displayed
  figures come from the per-row expressions.
  The class `InvoiceEditor` holds the state slots `items`, `buyerType` and `buyerStrn`.
  Its invariant says: the list is never empty, ids are distinct, every row is taxed at
  18%, and an unregistered buyer has the sentinel STRN. Because the built-in catalog
  rates everything at 18%, the two tax figures always agree on a reachable state
  (`ShownSalesTax`, `ShownTotal`). They disagree as soon as a row carries another
  percent (`SummariesDisagree`).
- **Product management** (`product-management.tsx`), module `Products` in
  `product_management.dfy`. It covers the search filter, the add/edit modal with its form
  buffer, and delete after confirmation. The class `ProductManager` holds `products`,
  `searchQuery`, `isModalOpen`, `editingProduct` and `formData`. The form can be filled in
  and submitted only while the modal is open.
- **Annex-C report** (`annex-c.tsx`), module `AnnexC` in `annex_c.dfy`. It covers the
  fixed record list, its count, and the three column totals.

Helper modules: `Wrappers` (an `Option` for absent values), `Seqs` (order-preserving
sub-sequences, and lists whose elements carry distinct ids, shared by the invoice rows
and the products) and `Text` (ASCII lower-casing and substring search, standing in for
`toLowerCase` and `includes`).

Money is Dafny `real`, so sums are exact. Sums are written as the left folds that
`reduce(..., 0)` computes. Ids that the source draws from `Date.now()` or
`Math.random()` are parameters, and so is the answer to `window.confirm`.

## Model

| member | source | states |
|---|---|---|
| Invoice.FindProduct | src/app/components/create-invoice.tsx:70 | `products.find` by HS code: None exactly when no entry has the code; otherwise the result is the entry at the first position carrying that code |
| Invoice.AutoFillFromCatalog | src/app/components/create-invoice.tsx:68-77 | choosing a code the catalog knows gives the row the first matching product's name, unit, default rate and tax percent; id and quantity are kept |
| Invoice.UnknownCodeKeepsFields | src/app/components/create-invoice.tsx:66-77 | choosing a code the catalog lacks (the empty choice included) changes only `hsCode`; an earlier description, unit, rate or tax percent stays |
| Invoice.MockCatalogLookups | src/app/components/create-invoice.tsx:32-38 | the built-in catalog has no entry for "" and maps "5205.1100" to Cotton Yarn, KG, 485.50, 18% |
| Invoice.ApplyEdit | src/app/components/create-invoice.tsx:66-77 | `{ ...item, [field]: value }`: a description, quantity, unit or rate edit sets exactly that field and leaves every other field as it was; the id always survives; only choosing an HS code changes the code or the tax percent |
| Invoice.UpdateItems | src/app/components/create-invoice.tsx:62-83 | same length and order; rows with another id are unchanged; each row with the id becomes the edited row; no id changes |
| Invoice.RemoveWithId | src/app/components/create-invoice.tsx:58 | the filter keeps exactly the rows whose id differs, as an order-preserving sub-sequence, and the length drops by the number of rows carrying the id |
| Invoice.GuardedRemove | src/app/components/create-invoice.tsx:56-60 | a list of one row (or none) is returned unchanged; a longer one becomes exactly `RemoveWithId` of it, so its rows with the id go and every other row stays, in order and with its multiplicity |
| Invoice.RemoveItemDropsOne | src/app/components/create-invoice.tsx:56-60 | with distinct ids, more than one row and the id present, the list shrinks by exactly one |
| Invoice.SharedIdEmptiesList | src/app/components/create-invoice.tsx:56-60 | the guard counts rows, not ids: two rows sharing the removed id both go and the list becomes empty |
| Seqs.DistinctKeyCountsOnce | src/app/components/create-invoice.tsx:56-60 | with distinct ids (keys), a present id is carried by exactly one element, an absent one by none; used for the invoice rows and for the products |
| Invoice.RemovePreservesUniqueIds | src/app/components/create-invoice.tsx:58 | removing by id keeps row ids distinct |
| Invoice.LineAmount | src/app/components/create-invoice.tsx:85-87 | `calculateLineAmount`: a row with zero quantity or zero rate adds nothing, and non-negative inputs give a non-negative amount |
| Invoice.Subtotal | src/app/components/create-invoice.tsx:89-91 | `calculateSubtotal`, the left fold of the line amounts: non-negative when every row's quantity and rate are |
| Invoice.FlatTax | src/app/components/create-invoice.tsx:93-95 | `calculateTax`, 18% of the subtotal: between 0 and the subtotal when every row's quantity and rate are non-negative |
| Invoice.FlatTotal | src/app/components/create-invoice.tsx:97-99 | `calculateTotal`, subtotal plus flat tax: exactly 118% of the subtotal |
| Invoice.EffectiveTaxPercent | src/app/components/create-invoice.tsx:437 | `taxPercent \|\| 18`: an absent or zero percent becomes 18, any other is used as is, so the displayed tax never uses 0 |
| Invoice.LineTax | src/app/components/create-invoice.tsx:437 | one row's share of the displayed tax: non-negative for a non-negative row |
| Invoice.DisplayedTax | src/app/components/create-invoice.tsx:437 | the "Sales Tax (Mixed)" fold of the line taxes: non-negative when the rows are |
| Invoice.DisplayedTotal | src/app/components/create-invoice.tsx:441 | the "Total Invoice Value": subtotal plus displayed tax, never below the subtotal when the rows are non-negative |
| Invoice.SubtotalAppend | src/app/components/create-invoice.tsx:89-91 | the subtotal of the empty list is 0 and the subtotal of a concatenation is the sum of the subtotals |
| Invoice.DisplayedTaxAppend | src/app/components/create-invoice.tsx:437 | the displayed tax of a concatenation is the sum of the parts' displayed taxes |
| Invoice.StandardRatedSummariesAgree | src/app/components/create-invoice.tsx:93-99 | when every row's effective percent is 18, the displayed tax equals `calculateTax` and the displayed total equals `calculateTotal` |
| Invoice.SummariesDisagree | src/app/components/create-invoice.tsx:437 | one row of 100 at 5% displays a tax of 5 while `calculateTax` gives 18 |
| Invoice.BlankItemKeepsTotals | src/app/components/create-invoice.tsx:49-54 | appending a blank row changes neither the subtotal nor the displayed tax |
| Invoice.UpdateKeepsStandardRated | src/app/components/create-invoice.tsx:68-77 | against a catalog rated 18% throughout, editing rows keeps every row at 18% |
| Invoice.StrnForBuyerType | src/app/components/create-invoice.tsx:40-47 | the STRN a buyer type forces: `9999997` exactly for "Unregistered", "" for every other type |
| Invoice.InvoiceEditor.constructor | src/app/components/create-invoice.tsx:17-29 | the form opens with one blank row with id "1", a registered buyer and an empty STRN, and satisfies the invariant |
| Invoice.InvoiceEditor.SetBuyerType | src/app/components/create-invoice.tsx:40-47 | sets the type; the STRN becomes `StrnForBuyerType` of the new type, so it is determined by the type alone and repeating the call changes nothing; rows unchanged; invariant kept |
| Invoice.InvoiceEditor.EditBuyerStrn | src/app/components/create-invoice.tsx:221-224 | typing in the STRN box changes it only when the buyer is not unregistered (the box is disabled otherwise); invariant kept |
| Invoice.InvoiceEditor.AddItem | src/app/components/create-invoice.tsx:49-54 | exactly one blank row (description "", hsCode "", quantity 0, unit "PCS", rate 0, no percent) is appended; earlier rows, subtotal, displayed tax and buyer fields are unchanged |
| Invoice.InvoiceEditor.RemoveItem | src/app/components/create-invoice.tsx:56-60 | the rows become `GuardedRemove` of the old rows; with the id present among several rows the length drops by one; the list stays non-empty with distinct ids |
| Invoice.InvoiceEditor.UpdateItem | src/app/components/create-invoice.tsx:62-83 | the rows become `UpdateItems` of the old rows against the built-in catalog; invariant kept, buyer fields unchanged |
| Invoice.InvoiceEditor.ShownSalesTax | src/app/components/create-invoice.tsx:437 | the displayed "Sales Tax (Mixed)" equals the flat 18% of `calculateTax` on every state the form can reach |
| Invoice.InvoiceEditor.ShownTotal | src/app/components/create-invoice.tsx:441 | the displayed "Total Invoice Value" equals `calculateTotal` on every state the form can reach |
| Text.Lower | src/app/components/product-management.tsx:36 | `toLowerCase` on ASCII: same length, each upper-case ASCII letter becomes its lower-case partner (code + 32), every other character kept, so no upper-case ASCII letter is left |
| Text.EqualIgnoringCaseLower | src/app/components/product-management.tsx:36 | two texts that differ only in the case of their ASCII letters lower-case to the same text |
| Text.LowerIdempotent | src/app/components/product-management.tsx:36 | lower-casing twice is lower-casing once |
| Text.Contains | src/app/components/product-management.tsx:36-37 | `includes`: true exactly when the query occurs at some position of the string |
| Products.FormOf | src/app/components/product-management.tsx:43-49 | the form filled from a product is the product less its id: rebuilding from the form with that id gives the product back |
| Products.WithForm | src/app/components/product-management.tsx:71 | `{ ...p, ...formData }`: the product rebuilt from the form under its own id; none of its old fields survives |
| Products.FromForm | src/app/components/product-management.tsx:74-77 | `{ ...formData, id }`: a product carrying the given id and each of the form's five fields |
| Products.FormRoundTrip | src/app/components/product-management.tsx:40-49 | a product saved with its own form is unchanged; a product built from a form or edited with one carries exactly that form, with the new or the old id |
| Products.Matches | src/app/components/product-management.tsx:36-37 | the search test; the empty query matches every product |
| Products.Filter | src/app/components/product-management.tsx:35-38 | a product is in the result exactly when it is in the list and its lower-cased name contains the lower-cased query or its HS code contains the query; each matching product appears as often as in the list and a non-matching one not at all; the result keeps list order |
| Products.EmptyQueryShowsAll | src/app/components/product-management.tsx:35-38 | the empty query returns the whole product list |
| Products.FilterIdempotent | src/app/components/product-management.tsx:35-38 | filtering the result again with the same query changes nothing |
| Products.NameSubstringMatches | src/app/components/product-management.tsx:36 | a name containing the query in the same case is found |
| Products.NameMatchesAnyCase | src/app/components/product-management.tsx:36 | a name containing the query in any mix of letter cases (a slice equal to the query up to ASCII case) is found |
| Products.NameMatchIgnoresCase | src/app/components/product-management.tsx:36 | lower-casing a product's name changes none of the queries that find it |
| Products.SearchExamples | src/app/components/product-management.tsx:17 | the seeded cotton yarn is found by "COTTON" through its name and by "5205" through its HS code |
| Products.LowerSlice | src/app/components/product-management.tsx:36 | lower-casing commutes with taking a slice |
| Products.EditById | src/app/components/product-management.tsx:71 | same length and ids; products with another id unchanged; each product with the id carries the form's five fields |
| Products.EditWithOwnFormKeepsList | src/app/components/product-management.tsx:71 | with distinct ids, saving a product's own form over it leaves the list as it was |
| Products.DeleteById | src/app/components/product-management.tsx:86 | keeps exactly the products whose id differs, in order, and the length drops by the number of products carrying the id |
| Products.DeleteUniqueDropsOne | src/app/components/product-management.tsx:84-89 | with distinct ids, deleting a present id removes exactly one product |
| Products.ProductManager.constructor | src/app/components/product-management.tsx:15-33 | the screen opens with the five seeded products, an empty query, the modal closed, nothing edited and the blank form |
| Products.ProductManager.SetSearchQuery | src/app/components/product-management.tsx:115 | sets the query; nothing else changes |
| Products.ProductManager.FilteredProducts | src/app/components/product-management.tsx:35-38 | the shown list holds exactly the matching products, each as often as in the list, in order, and all of them for an empty query |
| Products.ProductManager.OpenModal | src/app/components/product-management.tsx:40-61 | opens the modal; with a product its five fields fill the form and it becomes the edited one; without, the form is hs_code "", name "", unit "PCS", rate 0, tax 18 and nothing is edited; products unchanged |
| Products.ProductManager.CloseModal | src/app/components/product-management.tsx:63-66 | the modal closes and nothing is edited; the form buffer and products are unchanged |
| Products.ProductManager.SetFormData | src/app/components/product-management.tsx:181-252 | while the modal (and so the form) is open, the form buffer takes the new value; nothing else changes |
| Products.ProductManager.Submit | src/app/components/product-management.tsx:68-82 | callable only while the modal is open; in edit mode the products become `EditById` with the edited id and the form; in add mode exactly one product with the form's fields and the new id is appended; either way the modal ends closed with nothing edited |
| Products.ProductManager.Delete | src/app/components/product-management.tsx:84-89 | confirmed: the products become `DeleteById`; not confirmed: nothing changes |
| AnnexC.TotalTaxable | src/app/components/annex-c.tsx:59 | `totalTaxable`, the left fold of the taxable amounts: non-negative when each amount is |
| AnnexC.TotalTax | src/app/components/annex-c.tsx:60 | `totalTax`, the left fold of the tax amounts: non-negative when each amount is |
| AnnexC.TotalAmount | src/app/components/annex-c.tsx:61 | `totalAmount`, the left fold of the record totals: non-negative when each total is |
| AnnexC.AppendRecord | src/app/components/annex-c.tsx:59-61 | the totals of the empty list are 0, and appending a record raises each total by exactly that record's own field |
| AnnexC.BalancedTotals | src/app/components/annex-c.tsx:59-61 | when every record's total is taxable plus tax, the grand total is the taxable total plus the tax total |
| AnnexC.StandardRatedTotals | src/app/components/annex-c.tsx:59-61 | when every record's tax is 18% of its taxable amount, the tax total is 18% of the taxable total |
| AnnexC.RecordsConsistent | src/app/components/annex-c.tsx:20-57 | each listed record has total = taxable + tax and tax = taxable × 18 / 100 |
| AnnexC.RecordsCount | src/app/components/annex-c.tsx:117 | the "Total Invoices" card shows `records.length`, which is 3 |
| AnnexC.RecordsTotals | src/app/components/annex-c.tsx:20-61 | the screen's totals are taxable 455600, tax 82008 and total 537608; total = taxable + tax and tax = 18% of taxable |

## Left out

- JSX rendering, `toast`, `navigate` and CSS: presentation with no state to model.
- `toLocaleString` formatting and binary floating point: all money is exact `real`. In particular `0.18` in `calculateTax` is exactly 18/100 here.
- `parseFloat(...) || 0` on the number inputs: field values are modelled as already-parsed reals.
- Browser form validation on the product form (the `<form>` at product-management.tsx line 194 checks `required` at lines 200 and 227 and `min`/`max` at lines 243, 254 and 255): it can stop a submit event before `handleSubmit` runs. The model calls the handler directly. The invoice form has no `<form>` element, so its `required` and `min` attributes stop nothing and are not modelled.
- `handleSaveDraft` only shows a toast. `handleSubmitToFBR` shows a toast and navigates to the invoice list. No draft, submitted or validated status exists in this code, nor any zero-rated or exempt override or STRN pattern check.
- The other header fields of the invoice form (buyer name, NTN, address, provinces, invoice type, sale type, payment mode) are plain setters whose values no computation reads.
- `updateItem` also accepts the field `id`, but no input passes it, so `ItemEdit` has no case for it.
- Invoice.InvoiceEditor.AddItem: requires the new row's id to differ from every existing one. The source uses `Date.now()`, which two clicks within one millisecond could repeat. `SharedIdEmptiesList` shows what a repeated id would allow.
- Products.ProductManager.SetFormData: replaces the whole buffer. Each input actually replaces exactly one field of it.
- `Math.random()` ids for new products are a parameter of `Submit`, and `window.confirm` is the `confirmed` parameter of `Delete`. Product ids are not assumed distinct: the lemmas that need distinct ids say so.
- `toLowerCase` is ASCII lower-casing; other Unicode case mappings are not modelled.
- Annex-C: the tax-period picker sets state that nothing reads. The status-based exclusion described in the banner text has no code. The export buttons do nothing.
- `src/app/lib/api.ts` (HTTP client), `src/app/App.tsx` (router and login flag), `src/app/components/login.tsx` and `src/app/components/dashboard-layout.tsx`: I/O and navigation shell, not part of this model.
