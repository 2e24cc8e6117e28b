/** The host configuration the module reads: plain optional settings and an enabled flag. */
module Config {
  import opened Wrappers

  /** Settings under `beebots/taxify/`. Each class-name setting holds the host tax-class
      label that maps to one taxability code, or nothing when unset. */
  datatype Config = Config(
    enabled: bool,
    apiKey: Option<string>,
    candy: Option<string>,
    clothing: Option<string>,
    exemptService: Option<string>,
    food: Option<string>,
    foodService: Option<string>,
    freight: Option<string>,
    installation: Option<string>,
    nonTax: Option<string>,
    proService: Option<string>,
    supplements: Option<string>,
    taxable: Option<string>,
    exemptCustomer: Option<string>)

  /** The store's origin address, settings under `shipping/origin/`. */
  datatype OriginConfig = OriginConfig(
    countryId: Option<string>,
    regionId: Option<string>,
    city: Option<string>,
    postcode: Option<string>,
    streetLine1: Option<string>,
    streetLine2: Option<string>)
}
