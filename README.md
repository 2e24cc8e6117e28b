# Taxify sales-tax integration for Magento 2 — a Dafny model

The `magento2-taxify` module replaces the host's tax calculation by an external sales-tax
service. An around-plugin on the host's tax calculation decides whether to ask the service.
It does so when the module is enabled, the quote has items and an address, and the customer's
tax class is not the configured exempt class. The API client turns the quote into a request
and asks the service. It keeps the answer in the checkout session, under a fingerprint of
the quote and in one of three namespaces that depend on whether the cart holds the shipping
line. The calculator then reconciles the service's response lines with the quote items. It
builds one tax-detail row per item: a matched row, an empty row, or for a bundle parent the
sums of its children. It also accumulates the cart subtotal, the tax amount and the
cart-level applied taxes. A classifier maps host tax-class labels to the service's eleven
taxability codes, and a price helper picks the price on which tax is computed.

Modules, one per source unit:

- `Wrappers` — `Option` and `Result`.
- `TaxifyConstants` — the taxability codes and tax-detail categories as datatypes.
- `Config` — the configuration record.
- `QuoteData` — quote, item, address and response-line records, and PHP truthiness.
- `PhpArray` — PHP's ordered string-keyed arrays as sequences of entries. A new key is
  appended; an existing key is replaced where it stands.
- `TaxClassHelper`, `PriceForTax`, `TaxifyApi`, `Calculator`, `TaxCalculationPlugin` — the
  five source files.
- `CalculatorProperties` — what the reconciliation promises, stated as lemmas.

The host services are inputs to the model:
- the store currency rounding and PHP `round(x, 2)`;
- `sha1` and PHP's number-to-string conversion;
- the tax-class repository and the region table, as partial maps;
- the clock;
- the service call itself, given as `execute`. It yields `None` when the call throws.

`TaxifyApi.TaxifyApi` is a class whose `session` field is the checkout session's data;
its methods update it in place. `Calculator.TaxDetails` is the tax-details object that
`CalculateTax` and `AggregateTaxData` fill in. Each of their methods is proved against a
pure function: `TaxForQuote`, `HostCacheKey`, `HostRequest`, `Reconcile`, `Aggregate`,
`MergeIntended`. The lemmas state their properties.

Where the behaviour described for the system and the code disagree, the model follows the
code, with two exceptions. The code has two defects, recorded under "## Findings". The
main path runs the corrected code for both, and the as-written code is modelled beside it:
- The cart-level applied taxes: `Calculator.Aggregate` and the methods proved against it
  merge through `Calculator.MergeIntended`. As written, the merge is
  `Calculator.MergeAsWritten`, and the list stays empty.
- The cache-miss path: `TaxifyApi.TaxForQuote` and the methods proved against it build the
  request and call the service. As written, it is `TaxifyApi.TaxForQuoteAsWritten`, which
  raises at the undefined classifier methods.

In all other cases the model follows the code:
- A matched line or bundle parent with quantity 0 raises a division-by-zero error
  (`TaxCalculationPlugin.Intercept` gives `Fail(DivisionByZero)`). It is not treated as an
  unmatched item.
- A quote with a billing address but no shipping address reaches a parameter that does
  not accept null, so the call raises. It does not fall back to the host.
- Children whose parent code is not a top-level item's code are dropped from the output.
  Not every item code is present in it.

## Model

| member | source | states |
|---|---|---|
| TaxClassHelper.MagentoTaxClassNameById | Helper/TaxClassHelper.php:50-63 | a falsy id gives "None" without a lookup; an id the repository holds gives its class name; an unknown id gives "None" instead of raising |
| TaxClassHelper.TaxabilityCode | Helper/TaxClassHelper.php:72-98 | a code other than TAXABLE is always the code of a configured name that equals the label |
| TaxClassHelper.TaxabilityCodeIsFirstMatch | Helper/TaxClassHelper.php:72-98 | the switch equals the first-match lookup over the ten configured names, in the order candy, clothing, exemptservice, food, foodservice, freight, installation, nontax, proservice, supplements, with TAXABLE as default |
| TaxClassHelper.FirstMatchIsLeast | Helper/TaxClassHelper.php:74-96 | the first-match lookup returns the code at the least index whose name equals the label, and TAXABLE when no name matches |
| TaxClassHelper.TaxabilityCodeFirstMatchWins | Helper/TaxClassHelper.php:74-96 | the earliest equal configured name decides, so of two entries with one name the earlier wins; the result is TAXABLE exactly when no configured name equals the label |
| TaxClassHelper.TaxableSettingIgnored | Model/Config.php:151-154 | changing the "taxable" class-name setting never changes a code |
| PriceForTax.OriginalPriceIgnoresDiscountAndOverride | Helper/PriceForTax.php:64-67 | the original price, the host-rounded unit price times quantity, is equal for items with equal unit price and quantity, whatever their discount or price override |
| PriceForTax.PriceForTaxFromQuoteItem | Helper/PriceForTax.php:44-55 | a set, non-zero override gives its host-rounded value; an absent or 0 override gives the given price |
| PriceForTax.PriceForTaxFromOrderItem | Helper/PriceForTax.php:77-86 | the result is never below the given price; it differs from it exactly when the store taxes the original price and the original price is set and greater, and it is then the original price |
| TaxifyApi.GetCustomerTaxClassId | Model/TaxifyApi.php:256-262 | an id-typed customer class key gives its value; otherwise the quote's customer tax-class id |
| TaxifyApi.ItemTaxClassId | Model/TaxifyApi.php:226-229 | an id-typed item class key gives its value; otherwise the item's tax-class id |
| TaxifyApi.ItemTaxabilityCode | Model/TaxifyApi.php:224-233 | an item's code is the first match, among the configured names, of the label its resolved class id resolves to |
| TaxifyApi.CustomerTaxabilityCode | Model/TaxifyApi.php:242-247 | the customer's code is the first match of the label of the resolved customer class id |
| TaxifyApi.TaxabilityCodesUseClassifier | Model/TaxifyApi.php:224-247 | item and customer codes are the classifier's result on the resolved label: an unknown class gives the code for "None"; a known one gives the first match of its name |
| TaxifyApi.BuildRequestAsWritten | Model/TaxifyApi.php:242-247 | building the request as written always fails with the undefined customer-code method |
| TaxifyApi.TaxForQuoteAsWritten | Model/TaxifyApi.php:109-184 | as written: an unusable address gives null; a cache hit returns the cached response; a success is null or the cached response; the only failure is the undefined customer-code method |
| TaxifyApi.AsWrittenCacheMissRaises | Model/TaxifyApi.php:109-184 | as written, every cache miss with a usable address raises the undefined-method error instead of asking the service |
| TaxifyApi.ShippingAddressIsUsable | Model/TaxifyApi.php:271-276 | usable exactly when the address is present and has a truthy country id and postcode |
| TaxifyApi.RegionCodeById | Model/TaxifyApi.php:207-215 | a falsy region id, or one the region table lacks, gives ""; a known id gives its code |
| TaxifyApi.RequestLineFor | Model/TaxifyApi.php:153-171 | a line carries the item's code as line number, its SKU, quantity and name, the override price (or unit price) times quantity less discount, and the item's taxability code |
| TaxifyApi.RequestFor | Model/TaxifyApi.php:123-171 | one line per item, each the request line of the item at its position; the customer's taxability code; the shipping address's country and postcode as destination |
| TaxifyApi.RequestShape | Model/TaxifyApi.php:123-171 | one line per item in cart order with number, quantity, extended price and the item's taxability code; document key "quote"+id; never committed; the tax date is the time given; a customer key exactly when the customer id is non-zero; region "" for a falsy region id; both street lines and the city default to "" |
| TaxifyApi.ItemsPartsLayout | Model/TaxifyApi.php:330-339 | the per-item fingerprint parts are five per item, item i's at 5i..5i+4 |
| TaxifyApi.FingerprintLayout | Model/TaxifyApi.php:317-342 | the fingerprint input has 8+5n parts: the eight quote fields, then SKU, quantity, code, rounded unit price and rounded discount of each item in cart order |
| TaxifyApi.SubCentPriceNoiseKeepsKey | Model/TaxifyApi.php:335-338 | a unit-price change that round(x, 2) does not see leaves the cache key unchanged |
| TaxifyApi.CacheKey | Model/TaxifyApi.php:317-342 | the digest of the fingerprint parts joined by a pipe; its layout and what it is sensitive to are stated by FingerprintLayout, SubCentPriceNoiseKeepsKey and SkuChangeChangesFingerprintInput |
| TaxifyApi.SkuChangeChangesFingerprintInput | Model/TaxifyApi.php:330-340 | setting an item's SKU to a value other than the one it renders as (a null SKU rendering as "") changes both the fingerprint parts and the string joined by a pipe that the digest receives |
| TaxifyApi.ImplodeDiffersAt | Model/TaxifyApi.php:340 | two part lists that differ in exactly one position join to different strings, even when parts contain the separator |
| TaxifyApi.ImplodeDiffersIn | Model/TaxifyApi.php:340 | two part lists that differ only in one part, the parts before and after it being the same, join to different strings |
| TaxifyApi.ItemsPartsAround | Model/TaxifyApi.php:330-339 | a cart's item components are those of the items before one item, then that item's, then those of the items after it |
| TaxifyApi.IsOnlyShipping | Model/TaxifyApi.php:351-361 | true exactly when every item's code is "shipping" |
| TaxifyApi.IsMissingShipping | Model/TaxifyApi.php:370-379 | true exactly when no item's code is "shipping" |
| TaxifyApi.CachePrefix | Model/TaxifyApi.php:388-398 | "item_tax_cache_" exactly when no item is shipping, the empty cart included; "shipping_tax_cache_" exactly when the cart is non-empty and all shipping; "tax_cache_" exactly when both kinds are present |
| TaxifyApi.Lookup | Model/TaxifyApi.php:285-294 | a hit exactly when the key slot holds the fresh key, and then the value slot's content; otherwise a miss |
| TaxifyApi.Store | Model/TaxifyApi.php:302-308 | a store writes the key slot and the value slot of the prefix and leaves every other session entry as it was |
| TaxifyApi.StoreThenLookup | Model/TaxifyApi.php:302-308 | storing a response and reading with the same prefix and key gives that response back |
| TaxifyApi.StaleKeyMisses | Model/TaxifyApi.php:289-293 | after a store, a read with a different key misses |
| TaxifyApi.PrefixesIsolated | Model/TaxifyApi.php:388-398 | a store under one cart shape's prefix leaves reads under another prefix unchanged |
| TaxifyApi.TaxForQuote | Model/TaxifyApi.php:109-184 | an unusable address gives no response and leaves the session alone; a cache hit returns the stored response and leaves the session alone; a failed call on a miss returns null and leaves the session alone; a successful call on a miss returns the service's response and stores it under the fresh key in the cart's namespace; the session changes only then |
| TaxifyApi.SecondCallHitsCache | Model/TaxifyApi.php:118-121 | after a call that yields a response, asking again for the same quote returns it from the session whatever the service does, and changes nothing |
| TaxifyApi.TaxifyApi.GetCacheKey | Model/TaxifyApi.php:317-342 | the loop computes the sha1 of the fingerprint parts joined by a pipe |
| TaxifyApi.TaxifyApi.LoadFromCache | Model/TaxifyApi.php:285-294 | the result is the lookup of the fresh key under the cart's prefix |
| TaxifyApi.TaxifyApi.CacheTaxResponse | Model/TaxifyApi.php:302-308 | the session becomes the old one with the fresh key and the response stored under the cart's prefix |
| TaxifyApi.TaxifyApi.BuildRequest | Model/TaxifyApi.php:123-171 | the loop builds the request the host would send, with its lines in cart order |
| TaxifyApi.TaxifyApi.GetTaxForQuote | Model/TaxifyApi.php:109-184 | the response and the new session are those of TaxForQuote on the old session |
| Calculator.OptionalRound | Model/Calculator.php:394-397 | with rounding on, the host rounding of the number; with it off, the number itself |
| Calculator.TaxLabel | Model/Calculator.php:405-416 | "Sales and Use" for product_and_shipping, "Shipping" for shipping, the code itself otherwise |
| Calculator.DetailType | Model/Calculator.php:247-249 | the shipping category exactly when the line's taxability code is FREIGHT |
| Calculator.IndexLines | Model/Calculator.php:104-108 | every indexed line is stored under its own line number |
| Calculator.CreateAppliedTaxes | Model/Calculator.php:245-263 | one entry, under the line's category key, carrying that key as its rate key and the line's amount |
| Calculator.CreateEmptyDetailsTaxItem | Model/Calculator.php:307-329 | an unmatched item's row has its code, no tax and no applied taxes, and equal figures on both sides of tax |
| Calculator.CreateTaxDetailsItem | Model/Calculator.php:340-368 | a matched row is stored under the line number and carries the line's applied taxes; without rounding its tax is the line's sales tax and its total incl. tax adds that tax |
| Calculator.BundleRow | Model/Calculator.php:157-177 | a bundle parent's row keeps its code, carries no applied taxes, and without rounding its totals are its children's sums |
| Calculator.MergeIntended | Model/Calculator.php:214-231 | the merged keys are the cart's keys and the row's keys |
| Calculator.MergeAsWritten | Model/Calculator.php:214-231 | as written, the merged keys are only the cart's keys |
| Calculator.Aggregate | Model/Calculator.php:202-237 | subtotal and tax grow by the row's total and tax; the cart's categories become its own and the row's, with the amounts of a shared one added |
| Calculator.Reconcile | Model/Calculator.php:101-193 | the output rows are indexed by code: no code is stored twice |
| Calculator.MergeAppliedTaxes | Model/Calculator.php:214-231 | the loop over the row's applied taxes gives the intended merge |
| Calculator.AggregateTaxData | Model/Calculator.php:202-237 | subtotal and tax amount grow by the row's total and tax, and the applied taxes are merged; the stored rows stay as they are |
| Calculator.CreateEmptyDetails | Model/Calculator.php:275-297 | the loop's subtotal is the sum of the empty rows' totals; tax and compensation are 0; no applied taxes; the items are the empty rows by code |
| Calculator.EmptyItems | Model/Calculator.php:280-288 | the loop over the quote items yields the sum of the empty rows' totals and the empty rows keyed by code, a later code replacing an earlier one in place |
| Calculator.IndexResultItems | Model/Calculator.php:104-108 | the loop builds the index of the response lines by line number, a later line replacing an earlier one |
| Calculator.SplitItems | Model/Calculator.php:127-133 | the loop gives the top-level items by code, and each parent code's children in cart order |
| Calculator.ProcessChildren | Model/Calculator.php:141-155 | each child row is aggregated and stored under its code, in cart order |
| Calculator.CombineChildren | Model/Calculator.php:162-168 | the loop sums row total, row total incl. tax and row tax over the child rows |
| Calculator.ProcessItem | Model/Calculator.php:135-188 | one top-level item: a bundle parent's children are aggregated and the parent gets their combination; any other item is aggregated and stored itself |
| Calculator.ProcessTopItems | Model/Calculator.php:135-188 | the loop over the top-level items leaves the details' figures and the stored rows equal to the reconciliation fold over those items, and sets no compensation amount |
| Calculator.CalculateTax | Model/Calculator.php:101-193 | the details' figures and items are those of the reconciliation fold; no compensation amount is set |
| CalculatorProperties.AppliedTaxesOfLine | Model/Calculator.php:245-263 | a matched row's applied taxes are one entry, with key, rate code and title given by the FREIGHT test, the line's amount, and the line's rate times 100 (a missing rate counting as 0) as percent |
| CalculatorProperties.EmptyRowFields | Model/Calculator.php:307-329 | an unmatched item gets zero tax and tax percent, no applied taxes, its unit price on both sides of tax, and unit price times quantity less discount as both row totals |
| CalculatorProperties.MatchedRowFields | Model/Calculator.php:340-368 | a matched item's row, its code the line number and each figure optionally rounded: the line's sales tax as row tax; the undiscounted rounded quote value as row total; that plus the sales tax as row total incl. tax; the unit price plus per-unit tax as unit price incl. tax; the rate times 100 as percent |
| CalculatorProperties.MatchedPercentAgrees | Model/Calculator.php:346-365 | the row's tax percent equals its applied tax's percent |
| CalculatorProperties.MatchedRowUnrounded | Model/Calculator.php:348-361 | without rounding, row tax is the sales tax, row total incl. tax is row total plus it, and the per-unit difference times the line quantity is the sales tax |
| CalculatorProperties.BundleRowFields | Model/Calculator.php:157-177 | a bundle parent's totals are the optionally rounded sums of its children's; its prices are those sums over its own quantity |
| CalculatorProperties.IndexLinesHas | Model/Calculator.php:104-108 | a line number is indexed exactly when some line has it |
| CalculatorProperties.IndexLinesLastWins | Model/Calculator.php:104-108 | of several lines with one line number, the index keeps the last |
| CalculatorProperties.ItemRowFromLines | Model/Calculator.php:143-146 | an item no line names gets the empty row; otherwise the row built from the last line naming it |
| CalculatorProperties.ChildrenMembers | Model/Calculator.php:127-130 | the children of a parent code are the items whose truthy parent code equals it |
| CalculatorProperties.TopItemsShape | Model/Calculator.php:127-133 | the top-level map holds each top-level code once, each with a top-level item of that code |
| CalculatorProperties.ReconcileKeys | Model/Calculator.php:127-190 | the output's keys are exactly the top-level codes and the codes of children of top-level items |
| CalculatorProperties.ReconcileRow | Model/Calculator.php:135-190 | with distinct codes, an item is in the output exactly when it is top-level or its parent is, and then holds its own row (a bundle parent: its children's combination) |
| CalculatorProperties.ReconcileTotals | Model/Calculator.php:112-114 | subtotal and tax amount are the sums of row total and row tax over the aggregated rows; a category is in the cart's applied taxes exactly when an aggregated row carries it, with the rows' amounts added up |
| CalculatorProperties.ReconcileAggregatesLeaves | Model/Calculator.php:135-187 | the aggregated rows are exactly those of childless top-level items and of children of top-level items; bundle parents never are |
| CalculatorProperties.AggregateAllApplied | Model/Calculator.php:214-231 | folding rows into the cart keeps earlier categories, adds each category a row carries, and sums the amounts under each key |
| CalculatorProperties.AsWrittenStaysEmpty | Model/Calculator.php:212-236 | as written, starting from the empty list, the cart's applied taxes stay empty whatever the rows, while subtotal and tax amount agree with the intended merge |
| CalculatorProperties.AsWrittenLosesCategories | Model/Calculator.php:226-231 | every category a row carries is missing as written and present under the intended merge |
| CalculatorProperties.EmptyDetailsShape | Model/Calculator.php:275-297 | the empty details hold every item's code; their subtotal is the discounted quote value and their tax 0; each stored row is the empty row of an item of its code |
| CalculatorProperties.EmptyDetailsRow | Model/Calculator.php:283-288 | with distinct codes, each item's code holds exactly that item's empty row |
| TaxCalculationPlugin.QuoteIsUsableForTaxifyCall | Plugin/TaxCalculationPlugin.php:102-107 | usable exactly when there are items and at least one of billing and shipping address |
| TaxCalculationPlugin.CustomerTaxClassIsExempt | Plugin/TaxCalculationPlugin.php:116-131 | a zero class id is never exempt; an unset exempt label never matches; otherwise exempt exactly when the exempt label equals the resolved class label |
| TaxCalculationPlugin.ExemptionFollowsIdKey | Plugin/TaxCalculationPlugin.php:118-122 | an id-typed key decides the class exactly as if it were the quote's class id |
| TaxCalculationPlugin.UnknownClassExemptOnlyUnderNone | Plugin/TaxCalculationPlugin.php:128-130 | a class unknown to the repository is exempt exactly when the exempt label is "None" |
| TaxCalculationPlugin.Intercept | Plugin/TaxCalculationPlugin.php:56-81 | disabled, unusable or exempt gives the host's calculation without touching the session; past that gate, a null shipping address raises without touching the session; a reconciliation uses the service's response with rounding defaulting to on; a division-by-zero failure means the response has a zero quantity where it divides; on every route past the address check (no response, division by zero, reconciliation) the session is the one TaxForQuote leaves, so a response cached before a division by zero stays cached |
| TaxCalculationPlugin.InterceptFallsBack | Plugin/TaxCalculationPlugin.php:71-80 | past the gate, no response means the host's calculation and a computable response means reconciliation |
| TaxCalculationPlugin.AroundCalculateTax | Plugin/TaxCalculationPlugin.php:56-81 | the plugin's answer and the session afterwards follow Intercept; a reconciliation answers fresh details equal to the fold's figures and rows |

## Left out

- I/O: the service call, the region load, the tax-class repository, the clock, the logger and the message manager are inputs to the model. `execute` stands for the request's call and its error handling: it returns `None` when the call throws.
- `sha1` is an uninterpreted function. No property relies on its injectivity.
- Money is `real`. The store currency rounding and PHP `round(x, 2)` are uninterpreted functions, so PHP floating point is not modelled.
- The classifier's `switch` compares loosely. The model compares exactly, as optional strings. So it does not model an empty label matching an unset setting. It also does not model numeric strings comparing equal by value ("1.0" equals "1", and "1e1" equals "10").
- `Model/Config.php` reads host configuration and is modelled as a record. `Model/TaxifyConstants.php` is folded into datatypes.
- `Plugin/CommonTaxCollectorPlugin.php` is not part of this model. Items carry the SKU, name and price override it attaches, as plain fields.
- `getStoreId` in the plugin is dead code; it refers to an undefined property.
- The translation calls in the tax label are literal strings.
- A null unit price, quantity or discount is read as 0, as PHP arithmetic and the `?? 0.00` defaults read it. A null id is 0. A null item tax-class id would make PHP raise a type error at the `int` parameter of `getMagentoTaxClassNameById` (Helper/TaxClassHelper.php:50). The model instead gives the label "None" there (`TaxClassHelper.MagentoTaxClassNameById`). A null customer class id enters the fingerprint as the rendering of 0, where PHP's implode would give "".
- PHP's conversion of numeric string keys to integer keys is not modelled; codes stay strings.
- `onlyShipping` in the calculator is private and never called. It is the same scan as `isOnlyShipping`, which `TaxifyApi.IsOnlyShipping` models.
- The session's value slot is modelled as holding a digest or a stored response. Any other truthy value the host might keep there is not modelled.
- The request's destination region is taken from the shipping address's region id. The source reads it through the address's region object.
- The order of the cart-level applied taxes is not modelled; they are a map.
- Division is PHP 8's: a zero divisor raises. PHP 7's warning and INF result are not modelled.
- A TaxLine's `amount` is used as the applied-tax amount, as written. Its relation to `salesTaxAmount` is the service's concern.
- TaxifyApi.TaxForQuote: treats a missing shipping address as unusable. In the source this case raises a type error; the plugin model (`TaxCalculationPlugin.Intercept`) raises there too.
- Calculator.ItemRows: its contract states only the row count. The rows themselves are stated by `CalculatorProperties.ItemRowFromLines` and `CalculatorProperties.ReconcileRow`.
- CalculatorProperties.ReconcileRow: needs distinct item codes. When codes repeat, the output keys (`ReconcileKeys`) still hold, but which item's row a key holds is not stated.
- Calculator.AggregateTaxData / Calculator.CalculateTax: the main path merges applied taxes with the corrected `Calculator.MergeIntended`. The as-written merge, which keeps the cart's list empty, is `Calculator.MergeAsWritten`, with `CalculatorProperties.AsWrittenStaysEmpty` about it.
- TaxifyApi.TaxForQuote: on a cache miss the main path builds the request and calls the service. As written, that path raises at an undefined classifier method. This is `TaxifyApi.TaxForQuoteAsWritten`, with `TaxifyApi.AsWrittenCacheMissRaises` about it.
- The host's own calculation, which the plugin hands back to, is not modelled. `Native` stands for it.

## Findings

| source | as written | input that shows it | evidently intended | confidence | as-written member | corrected member |
|---|---|---|---|---|---|---|
| Model/TaxifyApi.php:232 | the item and customer codes call `getTaxifyItemTaxabilityCodeFromMagentoTaxClassName` and `getTaxifyCustomerTaxabilityCodeFromMagentoTaxClassName`; the tax-class helper defines neither, only `getTaxifyTaxabilityCodeFromMagentoTaxClassName` | any quote with a usable shipping address and no cached response: building the request calls the undefined customer method at Model/TaxifyApi.php:246 and raises, outside the guarded block | assumed: both codes come from the one classifier the helper does define (the unused customer-code constants may instead point to a separate customer classifier that was never written) | high (not executed) | TaxifyApi.AsWrittenCacheMissRaises | TaxifyApi.TaxabilityCodesUseClassifier |
| Model/Calculator.php:226-231 | a category the cart does not hold yet is built as a new applied tax and then dropped; the list starts empty, so nothing is ever stored | one item matched by one line: the row carries "product_and_shipping", and the cart's applied taxes stay empty | the new applied tax is stored under its key, and later rows add their amounts | high (not executed) | CalculatorProperties.AsWrittenStaysEmpty | CalculatorProperties.AggregateAllApplied |
