/** The host's read-only inputs (quote details, addresses, items) and the external
    service's response, as values. */
module QuoteData {
  import opened Wrappers

  /** PHP truthiness of a string: everything except "" and "0" (null is modelled as ""). */
  predicate Truthy(s: string) {
    s != "" && s != "0"
  }

  /** PHP truthiness of an optional string. */
  predicate TruthyOpt(s: Option<string>) {
    s.Some? && Truthy(s.value)
  }

  datatype Address = Address(
    street: seq<string>,
    city: Option<string>,
    regionId: Option<int>,
    postcode: Option<string>,
    countryId: Option<string>)

  /** A tax-class key: by id, or by name. */
  datatype TaxClassKey = IdKey(id: int) | NameKey(name: string)

  /** One quote-details item. `parentCode` is "" for a top-level item; `sku`, `name` and
      `priceForTaxCalculation` are the extension attributes the collector plugin attaches. */
  datatype QuoteItem = QuoteItem(
    code: string,
    parentCode: string,
    itemType: string,
    unitPrice: real,
    quantity: real,
    discountAmount: real,
    associatedItemCode: Option<string>,
    taxClassKey: Option<TaxClassKey>,
    taxClassId: int,
    sku: Option<string>,
    name: Option<string>,
    priceForTaxCalculation: Option<real>)

  /** Unit price times quantity, before any discount. */
  function RowValue(item: QuoteItem): real {
    item.unitPrice * item.quantity
  }

  /** A top-level item is one without a (truthy) parent code. */
  predicate TopLevel(item: QuoteItem) {
    !Truthy(item.parentCode)
  }

  /** Quote details; `customerId` and the class ids use 0 for "none". */
  datatype QuoteDetails = QuoteDetails(
    id: string,
    shippingAddress: Option<Address>,
    billingAddress: Option<Address>,
    customerId: int,
    customerTaxClassKey: Option<TaxClassKey>,
    customerTaxClassId: int,
    items: seq<QuoteItem>)

  /** One line of the external service's response. `amount` is the line's amount as the
      response reports it, distinct from its sales-tax amount. */
  datatype TaxLine = TaxLine(
    lineNumber: string,
    quantity: real,
    salesTaxAmount: real,
    amount: real,
    taxRate: Option<real>,
    itemTaxabilityCode: string)

  datatype TaxResponse = TaxResponse(lines: seq<TaxLine>)
}
