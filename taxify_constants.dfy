/** The string constants of the Taxify module, folded into datatypes. */
module TaxifyConstants {

  /** The eleven item taxability codes the external service understands. */
  datatype ItemTaxCode =
    | Candy | Clothing | ExemptService | Food | FoodService | Freight
    | Installation | NonTax | ProService | Supplements | Taxable
  {
    /** The code as it is sent on the wire. */
    function Name(): string {
      match this
      case Candy => "CANDY"
      case Clothing => "CLOTHING"
      case ExemptService => "EXEMPTSERVICE"
      case Food => "FOOD"
      case FoodService => "FOODSERVICE"
      case Freight => "FREIGHT"
      case Installation => "INSTALLATION"
      case NonTax => "NONTAX"
      case ProService => "PROSERVICE"
      case Supplements => "SUPPLEMENTS"
      case Taxable => "TAXABLE"
    }
  }

  /** The two categories under which a matched line's tax is reported. */
  datatype TaxDetailType = ShippingTax | ProductAndShippingTax {
    function Key(): string {
      match this
      case ShippingTax => "shipping"
      case ProductAndShippingTax => "product_and_shipping"
    }
  }

  /** The code the host gives its shipping line item. */
  const SHIPPING_ITEM_CODE: string := "shipping"

  /** The product SKU and name attached to the shipping line item. */
  const ITEM_SHIPPING_SKU: string := "SHIPPING"
  const ITEM_SHIPPING_NAME: string := "Shipping"
}
