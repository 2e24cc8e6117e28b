/** The request builder and the session-backed response cache in front of the external
    tax service. */
module TaxifyApi {
  import opened Wrappers
  import opened TaxifyConstants
  import opened Config
  import opened QuoteData
  import TaxClassHelper

  // ---------------------------------------------------------------------------
  // Tax classes of the customer and of an item

  /** A tax-class key of type id overrides the quote's customer tax-class id. */
  function GetCustomerTaxClassId(quote: QuoteDetails): (id: int)
    ensures quote.customerTaxClassKey.Some? && quote.customerTaxClassKey.value.IdKey? ==>
              id == quote.customerTaxClassKey.value.id
    ensures quote.customerTaxClassKey.None? || quote.customerTaxClassKey.value.NameKey? ==>
              id == quote.customerTaxClassId
  {
    match quote.customerTaxClassKey
    case Some(IdKey(v)) => v
    case _ => quote.customerTaxClassId
  }

  /** The same choice for an item: its key's id when the key is of type id, else its
      tax-class id. */
  function ItemTaxClassId(item: QuoteItem): (id: int)
    ensures item.taxClassKey.Some? && item.taxClassKey.value.IdKey? ==> id == item.taxClassKey.value.id
    ensures item.taxClassKey.None? || item.taxClassKey.value.NameKey? ==> id == item.taxClassId
  {
    match item.taxClassKey
    case Some(IdKey(v)) => v
    case _ => item.taxClassId
  }

  /** An item's taxability code: its class label run through the classifier, that is the
      code of the first configured name equal to the label, TAXABLE when none is. */
  function ItemTaxabilityCode(item: QuoteItem, config: Config, repository: map<int, string>): (code: ItemTaxCode)
    ensures code == TaxClassHelper.FirstMatch(TaxClassHelper.CaseTable(config),
                                              TaxClassHelper.MagentoTaxClassNameById(ItemTaxClassId(item), repository))
  {
    var name := TaxClassHelper.MagentoTaxClassNameById(ItemTaxClassId(item), repository);
    TaxClassHelper.TaxabilityCodeIsFirstMatch(config, name);
    TaxClassHelper.TaxabilityCode(config, name)
  }

  /** The customer's taxability code, through the same classifier. */
  function CustomerTaxabilityCode(quote: QuoteDetails, config: Config, repository: map<int, string>): (code: ItemTaxCode)
    ensures code == TaxClassHelper.FirstMatch(TaxClassHelper.CaseTable(config),
                                              TaxClassHelper.MagentoTaxClassNameById(GetCustomerTaxClassId(quote), repository))
  {
    var name := TaxClassHelper.MagentoTaxClassNameById(GetCustomerTaxClassId(quote), repository);
    TaxClassHelper.TaxabilityCodeIsFirstMatch(config, name);
    TaxClassHelper.TaxabilityCode(config, name)
  }

  /** Both codes are the classifier's verdict on the resolved class label, so an
      unresolvable class (label "None") gets the code configured for "None", or TAXABLE. */
  lemma TaxabilityCodesUseClassifier(quote: QuoteDetails, item: QuoteItem, config: Config, repository: map<int, string>)
    ensures ItemTaxClassId(item) !in repository ==>
              ItemTaxabilityCode(item, config, repository) == TaxClassHelper.TaxabilityCode(config, "None")
    ensures GetCustomerTaxClassId(quote) !in repository ==>
              CustomerTaxabilityCode(quote, config, repository) == TaxClassHelper.TaxabilityCode(config, "None")
    ensures ItemTaxClassId(item) != 0 && ItemTaxClassId(item) in repository ==>
              ItemTaxabilityCode(item, config, repository) ==
              TaxClassHelper.FirstMatch(TaxClassHelper.CaseTable(config), repository[ItemTaxClassId(item)])
  {
    if ItemTaxClassId(item) != 0 && ItemTaxClassId(item) in repository {
      TaxClassHelper.TaxabilityCodeIsFirstMatch(config, repository[ItemTaxClassId(item)]);
    }
  }

  // ---------------------------------------------------------------------------
  // The call as written: two helper methods that do not exist

  /** The error a call to an undefined method raises. */
  datatype ApiError = UndefinedMethod(name: string)

  /** The source asks the tax-class helper for an item code and a customer code through
      two methods the helper does not define; only the generic classifier exists. The
      customer code is asked for first, while the request is built and before the
      guarded call, so the request is never built. */
  function BuildRequestAsWritten(quote: QuoteDetails): (r: Result<TaxRequest, ApiError>)
    ensures r.Failure?
  {
    Failure(UndefinedMethod("getTaxifyCustomerTaxabilityCodeFromMagentoTaxClassName"))
  }

  /** The cache-miss path as written: null for an unusable address, the cached response
      on a hit, and otherwise the undefined-method error, raised outside the guarded
      block and so not turned into null. */
  function TaxForQuoteAsWritten(quote: QuoteDetails, session: map<string, SessionValue>,
                                sha1: string -> string, render: real -> string, round2: real -> real)
    : (r: Result<Option<TaxResponse>, ApiError>)
    ensures !ShippingAddressIsUsable(quote.shippingAddress) ==> r == Success(None)
    ensures ShippingAddressIsUsable(quote.shippingAddress) ==>
              var cached := CachedResponse(Lookup(session, CachePrefix(quote.items), CacheKey(quote, sha1, render, round2)));
              cached.Some? ==> r == Success(cached)
    ensures r.Success? ==>
              r.value.None? ||
              r.value == CachedResponse(Lookup(session, CachePrefix(quote.items), CacheKey(quote, sha1, render, round2)))
    ensures r.Failure? ==> r.error == UndefinedMethod("getTaxifyCustomerTaxabilityCodeFromMagentoTaxClassName")
  {
    if !ShippingAddressIsUsable(quote.shippingAddress) then Success(None)
    else
      var cached := CachedResponse(Lookup(session, CachePrefix(quote.items), CacheKey(quote, sha1, render, round2)));
      if cached.Some? then Success(cached)
      else match BuildRequestAsWritten(quote)
        case Success(_) => Success(None)
        case Failure(e) => Failure(e)
  }

  /** As written, every cache miss for a usable address raises instead of calling the
      service. */
  lemma AsWrittenCacheMissRaises(quote: QuoteDetails, session: map<string, SessionValue>,
                                 sha1: string -> string, render: real -> string, round2: real -> real)
    requires ShippingAddressIsUsable(quote.shippingAddress)
    requires CachedResponse(Lookup(session, CachePrefix(quote.items), CacheKey(quote, sha1, render, round2))).None?
    ensures TaxForQuoteAsWritten(quote, session, sha1, render, round2)
         == Failure(UndefinedMethod("getTaxifyCustomerTaxabilityCodeFromMagentoTaxClassName"))
  {
  }

  // ---------------------------------------------------------------------------
  // Address gate and request building

  /** A shipping address is usable when it is present and has a country id and a
      postcode. */
  function ShippingAddressIsUsable(address: Option<Address>): (usable: bool)
    ensures usable <==> address.Some? && TruthyOpt(address.value.countryId) && TruthyOpt(address.value.postcode)
  {
    match address
    case None => false
    case Some(a) => TruthyOpt(a.countryId) && TruthyOpt(a.postcode)
  }

  /** The region code for a region id: "" for a falsy id or a region without a code. The
      host's region table is the partial map `regions`. */
  function RegionCodeById(regionId: Option<int>, regions: map<int, string>): (code: string)
    ensures regionId.None? || regionId.value == 0 ==> code == ""
    ensures regionId.Some? && regionId.value != 0 && regionId.value in regions ==> code == regions[regionId.value]
    ensures regionId.Some? && regionId.value !in regions ==> code == ""
  {
    match regionId
    case None => ""
    case Some(id) => if id == 0 then "" else if id in regions then regions[id] else ""
  }

  /** Street line `i` of an address, "" when it has fewer lines. */
  function StreetLine(street: seq<string>, i: nat): string {
    if i < |street| then street[i] else ""
  }

  datatype TaxAddress = TaxAddress(
    country: Option<string>,
    region: Option<string>,
    city: Option<string>,
    postalCode: Option<string>,
    street1: Option<string>,
    street2: Option<string>)

  datatype RequestLine = RequestLine(
    lineNumber: string,
    itemKey: Option<string>,
    quantity: real,
    actualExtendedPrice: real,
    itemDescription: Option<string>,
    itemTaxabilityCode: ItemTaxCode)

  datatype TaxRequest = TaxRequest(
    documentKey: string,
    taxDate: int,
    committed: bool,
    origin: TaxAddress,
    destination: TaxAddress,
    customerTaxabilityCode: ItemTaxCode,
    customerKey: Option<int>,
    lines: seq<RequestLine>)

  /** The price the service taxes for one item: the price override when one is present
      (even 0, since only null falls back) or else the unit price, times the quantity,
      less the discount. */
  function ExtendedPrice(item: QuoteItem): real {
    item.priceForTaxCalculation.GetOr(item.unitPrice) * item.quantity - item.discountAmount
  }

  /** The request line for one quote item. */
  function RequestLineFor(item: QuoteItem, config: Config, repository: map<int, string>): (line: RequestLine)
    ensures line.lineNumber == item.code && line.itemKey == item.sku && line.quantity == item.quantity
    ensures line.itemDescription == item.name
    ensures line.actualExtendedPrice == ExtendedPrice(item)
    ensures line.itemTaxabilityCode == ItemTaxabilityCode(item, config, repository)
  {
    RequestLine(item.code, item.sku, item.quantity, ExtendedPrice(item), item.name,
                ItemTaxabilityCode(item, config, repository))
  }

  /** The whole request for a quote whose shipping address is present. */
  function RequestFor(quote: QuoteDetails, now: int, config: Config, repository: map<int, string>,
                      regions: map<int, string>, origin: OriginConfig): (r: TaxRequest)
    requires quote.shippingAddress.Some?
    ensures |r.lines| == |quote.items|
    ensures forall i :: 0 <= i < |quote.items| ==> r.lines[i] == RequestLineFor(quote.items[i], config, repository)
    ensures r.customerTaxabilityCode == CustomerTaxabilityCode(quote, config, repository)
    ensures r.destination.country == quote.shippingAddress.value.countryId
    ensures r.destination.postalCode == quote.shippingAddress.value.postcode
  {
    var a := quote.shippingAddress.value;
    TaxRequest(
      "quote" + quote.id,
      now,
      false,
      TaxAddress(origin.countryId, origin.regionId, origin.city, origin.postcode, origin.streetLine1, origin.streetLine2),
      TaxAddress(a.countryId, Some(RegionCodeById(a.regionId, regions)), Some(a.city.GetOr("")), a.postcode,
                 Some(StreetLine(a.street, 0)), Some(StreetLine(a.street, 1))),
      CustomerTaxabilityCode(quote, config, repository),
      if quote.customerId != 0 then Some(quote.customerId) else None,
      seq(|quote.items|, i requires 0 <= i < |quote.items| => RequestLineFor(quote.items[i], config, repository)))
  }

  /** The request carries one line per quote item, in cart order; the document key is
      "quote" followed by the quote id; it is never committed; the customer key is present
      exactly when the customer id is non-zero; the destination's region code is "" for a
      falsy region id. */
  lemma RequestShape(quote: QuoteDetails, now: int, config: Config, repository: map<int, string>,
                     regions: map<int, string>, origin: OriginConfig)
    requires quote.shippingAddress.Some?
    ensures var r := RequestFor(quote, now, config, repository, regions, origin);
      && |r.lines| == |quote.items|
      && (forall i :: 0 <= i < |quote.items| ==>
            r.lines[i].lineNumber == quote.items[i].code &&
            r.lines[i].quantity == quote.items[i].quantity &&
            r.lines[i].actualExtendedPrice ==
              quote.items[i].priceForTaxCalculation.GetOr(quote.items[i].unitPrice) * quote.items[i].quantity
              - quote.items[i].discountAmount)
      && r.documentKey == "quote" + quote.id && !r.committed && r.taxDate == now
      && (r.customerKey.Some? <==> quote.customerId != 0)
      && (quote.shippingAddress.value.regionId.None? || quote.shippingAddress.value.regionId.value == 0 ==>
            r.destination.region == Some(""))
      && r.destination.street1 == Some(StreetLine(quote.shippingAddress.value.street, 0))
      && r.destination.street2 == Some(StreetLine(quote.shippingAddress.value.street, 1))
      && r.destination.city == Some(quote.shippingAddress.value.city.GetOr(""))
      && (forall i :: 0 <= i < |quote.items| ==>
            r.lines[i].itemTaxabilityCode == ItemTaxabilityCode(quote.items[i], config, repository))
  {
    var r := RequestFor(quote, now, config, repository, regions, origin);
    forall i | 0 <= i < |quote.items|
      ensures r.lines[i].actualExtendedPrice ==
              quote.items[i].priceForTaxCalculation.GetOr(quote.items[i].unitPrice) * quote.items[i].quantity
              - quote.items[i].discountAmount
    {
      assert r.lines[i] == RequestLineFor(quote.items[i], config, repository);
    }
  }

  // ---------------------------------------------------------------------------
  // Fingerprint

  /** The eight quote-level fingerprint components: both street lines, city, region id,
      postcode, country, quote id and resolved customer tax-class id; null renders as "".
      `render` is PHP's conversion of a number to a string. */
  function HeaderParts(quote: QuoteDetails, render: real -> string): seq<string>
    requires quote.shippingAddress.Some?
  {
    var a := quote.shippingAddress.value;
    [ StreetLine(a.street, 0), StreetLine(a.street, 1), a.city.GetOr(""),
      if a.regionId.Some? then render(a.regionId.value as real) else "",
      a.postcode.GetOr(""), a.countryId.GetOr(""), quote.id,
      render(GetCustomerTaxClassId(quote) as real) ]
  }

  /** The five components of one item: SKU, quantity, code, and the unit price and the
      discount each rounded to two decimals by `round2` (PHP's round(x, 2)). */
  function ItemParts(item: QuoteItem, render: real -> string, round2: real -> real): seq<string> {
    [ item.sku.GetOr(""), render(item.quantity), item.code,
      render(round2(item.unitPrice)), render(round2(item.discountAmount)) ]
  }

  /** The item components of a whole cart, in cart order. */
  function ItemsParts(items: seq<QuoteItem>, render: real -> string, round2: real -> real): seq<string> {
    if |items| == 0 then []
    else ItemsParts(items[..|items| - 1], render, round2) + ItemParts(items[|items| - 1], render, round2)
  }

  function FingerprintParts(quote: QuoteDetails, render: real -> string, round2: real -> real): seq<string>
    requires quote.shippingAddress.Some?
  {
    HeaderParts(quote, render) + ItemsParts(quote.items, render, round2)
  }

  /** PHP's implode: the parts joined by `sep`. */
  function Implode(sep: string, parts: seq<string>): string {
    if |parts| == 0 then ""
    else if |parts| == 1 then parts[0]
    else Implode(sep, parts[..|parts| - 1]) + sep + parts[|parts| - 1]
  }

  /** The cache key: `sha1` of the components joined by "|". */
  function CacheKey(quote: QuoteDetails, sha1: string -> string, render: real -> string, round2: real -> real): string
    requires quote.shippingAddress.Some?
  {
    sha1(Implode("|", FingerprintParts(quote, render, round2)))
  }

  /** The item components of a cart are five per item, item `i`'s at 5i..5i+4. */
  lemma {:induction false} ItemsPartsLayout(items: seq<QuoteItem>, render: real -> string, round2: real -> real)
    ensures |ItemsParts(items, render, round2)| == 5 * |items|
    ensures forall i, j :: 0 <= i < |items| && 0 <= j < 5 ==>
              ItemsParts(items, render, round2)[5 * i + j] == ItemParts(items[i], render, round2)[j]
  {
    if |items| > 0 {
      var init := items[..|items| - 1];
      ItemsPartsLayout(init, render, round2);
      forall i, j | 0 <= i < |items| && 0 <= j < 5
        ensures ItemsParts(items, render, round2)[5 * i + j] == ItemParts(items[i], render, round2)[j]
      {
        if i < |items| - 1 {
          assert init[i] == items[i];
        }
      }
    }
  }

  /** The fingerprint input has 8 + 5n components: the eight quote-level ones first, then
      each item's five in cart order. */
  lemma FingerprintLayout(quote: QuoteDetails, render: real -> string, round2: real -> real)
    requires quote.shippingAddress.Some?
    ensures var parts := FingerprintParts(quote, render, round2);
      && |parts| == 8 + 5 * |quote.items|
      && parts[..8] == HeaderParts(quote, render)
      && forall i, j :: 0 <= i < |quote.items| && 0 <= j < 5 ==>
           parts[8 + 5 * i + j] == ItemParts(quote.items[i], render, round2)[j]
  {
    ItemsPartsLayout(quote.items, render, round2);
    var parts := FingerprintParts(quote, render, round2);
    forall i, j | 0 <= i < |quote.items| && 0 <= j < 5
      ensures parts[8 + 5 * i + j] == ItemParts(quote.items[i], render, round2)[j]
    {
      assert parts[8 + 5 * i + j] == ItemsParts(quote.items, render, round2)[5 * i + j];
    }
  }

  /** Carts whose items agree component by component have the same item components. */
  lemma {:induction false} ItemsPartsAgree(items: seq<QuoteItem>, others: seq<QuoteItem>,
                                           render: real -> string, round2: real -> real)
    requires |items| == |others|
    requires forall i :: 0 <= i < |items| ==> ItemParts(items[i], render, round2) == ItemParts(others[i], render, round2)
    ensures ItemsParts(items, render, round2) == ItemsParts(others, render, round2)
  {
    if |items| > 0 {
      var n := |items| - 1;
      ItemsPartsAgree(items[..n], others[..n], render, round2);
    }
  }

  /** Moving one item's unit price by less than what round(x, 2) distinguishes leaves the
      cache key unchanged. */
  lemma SubCentPriceNoiseKeepsKey(quote: QuoteDetails, i: nat, price: real,
                                  sha1: string -> string, render: real -> string, round2: real -> real)
    requires quote.shippingAddress.Some? && i < |quote.items|
    requires round2(price) == round2(quote.items[i].unitPrice)
    ensures var moved := quote.(items := quote.items[i := quote.items[i].(unitPrice := price)]);
            CacheKey(moved, sha1, render, round2) == CacheKey(quote, sha1, render, round2)
  {
    var moved := quote.(items := quote.items[i := quote.items[i].(unitPrice := price)]);
    forall k | 0 <= k < |quote.items|
      ensures ItemParts(moved.items[k], render, round2) == ItemParts(quote.items[k], render, round2)
    {
      if k == i {
        assert render(round2(moved.items[k].unitPrice)) == render(round2(quote.items[k].unitPrice));
      }
    }
    ItemsPartsAgree(moved.items, quote.items, render, round2);
    assert HeaderParts(moved, render) == HeaderParts(quote, render);
    assert FingerprintParts(moved, render, round2) == FingerprintParts(quote, render, round2);
  }

  /** Two part lists that differ in exactly one position join to different strings, even
      when the parts themselves contain the separator. */
  lemma {:induction false} ImplodeDiffersAt(sep: string, p: seq<string>, q: seq<string>, k: nat)
    requires |p| == |q| && k < |p| && p[k] != q[k]
    requires forall j :: 0 <= j < |p| && j != k ==> p[j] == q[j]
    ensures Implode(sep, p) != Implode(sep, q)
  {
    var n := |p| - 1;
    if n == 0 {
    } else if k == n {
      assert p[..n] == q[..n];
      var front := Implode(sep, p[..n]) + sep;
      assert Implode(sep, p) == front + p[n] && Implode(sep, q) == front + q[n];
      assert (front + p[n])[|front|..] == p[n];
      assert (front + q[n])[|front|..] == q[n];
    } else {
      ImplodeDiffersAt(sep, p[..n], q[..n], k);
      var a, b := Implode(sep, p[..n]), Implode(sep, q[..n]);
      var back := sep + p[n];
      assert Implode(sep, p) == a + back && Implode(sep, q) == b + back;
      assert (a + back)[..|a|] == a && (b + back)[..|b|] == b;
    }
  }

  /** Two part lists that agree but in one part, between the same parts before and after,
      join to different strings. */
  lemma ImplodeDiffersIn(sep: string, front: seq<string>, x: string, y: string, back: seq<string>)
    requires x != y
    ensures Implode(sep, front + [x] + back) != Implode(sep, front + [y] + back)
  {
    var p, q := front + [x] + back, front + [y] + back;
    assert p[|front|] == x && q[|front|] == y;
    forall j | 0 <= j < |p| && j != |front|
      ensures p[j] == q[j]
    {
      if j < |front| {
        assert p[j] == front[j] && q[j] == front[j];
      } else {
        assert p[j] == back[j - |front| - 1] && q[j] == back[j - |front| - 1];
      }
    }
    ImplodeDiffersAt(sep, p, q, |front|);
  }

  /** Changing one item's SKU changes the fingerprint input: both its part list and the
      string joined from it that the digest receives (the digest itself is not assumed
      injective). */
  lemma SkuChangeChangesFingerprintInput(quote: QuoteDetails, i: nat, sku: string,
                                         render: real -> string, round2: real -> real)
    requires quote.shippingAddress.Some? && i < |quote.items|
    requires quote.items[i].sku.GetOr("") != sku
    ensures var changed := quote.(items := quote.items[i := quote.items[i].(sku := Some(sku))]);
            && FingerprintParts(changed, render, round2) != FingerprintParts(quote, render, round2)
            && Implode("|", FingerprintParts(changed, render, round2)) != Implode("|", FingerprintParts(quote, render, round2))
  {
    var changed := quote.(items := quote.items[i := quote.items[i].(sku := Some(sku))]);
    var header := HeaderParts(quote, render);
    assert HeaderParts(changed, render) == header;
    assert changed.items[..i] == quote.items[..i] && changed.items[i + 1..] == quote.items[i + 1..];
    ItemsPartsAround(quote.items, i, render, round2);
    ItemsPartsAround(changed.items, i, render, round2);
    SkuIsFirstItemPart(quote.items[i], sku, render, round2);
    var front, back := ItemsParts(quote.items[..i], render, round2), ItemsParts(quote.items[i + 1..], render, round2);
    var rest := ItemParts(quote.items[i], render, round2)[1..];
    RegroupAround(header, front, quote.items[i].sku.GetOr(""), rest, back);
    RegroupAround(header, front, sku, rest, back);
    ImplodeDiffersIn("|", header + front, sku, quote.items[i].sku.GetOr(""), rest + back);
  }

  /** The SKU is an item's first component, and setting it changes no other. */
  lemma SkuIsFirstItemPart(item: QuoteItem, sku: string, render: real -> string, round2: real -> real)
    ensures ItemParts(item, render, round2) == [item.sku.GetOr("")] + ItemParts(item, render, round2)[1..]
    ensures ItemParts(item.(sku := Some(sku)), render, round2) == [sku] + ItemParts(item, render, round2)[1..]
  {
  }

  /** Regrouping the fingerprint around one part. */
  lemma RegroupAround(header: seq<string>, front: seq<string>, part: string, rest: seq<string>, back: seq<string>)
    ensures header + (front + ([part] + rest) + back) == (header + front) + [part] + (rest + back)
  {
  }

  /** The item components of a cart: those before item `i`, item `i`'s, then those after. */
  lemma {:induction false} ItemsPartsAround(items: seq<QuoteItem>, i: nat, render: real -> string, round2: real -> real)
    requires i < |items|
    ensures ItemsParts(items, render, round2) ==
            ItemsParts(items[..i], render, round2) + ItemParts(items[i], render, round2) +
            ItemsParts(items[i + 1..], render, round2)
  {
    var n := |items| - 1;
    var init, last := items[..n], ItemParts(items[n], render, round2);
    assert ItemsParts(items, render, round2) == ItemsParts(init, render, round2) + last;
    if i == n {
      assert items[i + 1..] == [];
    } else {
      ItemsPartsAround(init, i, render, round2);
      SlicesAroundLast(items, i);
      var after := items[i + 1..];
      var front, part, rest := ItemsParts(items[..i], render, round2), ItemParts(items[i], render, round2),
                               ItemsParts(init[i + 1..], render, round2);
      assert ItemsParts(init, render, round2) == front + part + rest;
      assert ItemsParts(after, render, round2) == rest + last;
      Regroup(front, part, rest, last);
    }
  }

  /** How slicing off the last element meets slicing around position `i`. */
  lemma SlicesAroundLast<T>(s: seq<T>, i: nat)
    requires i + 1 < |s|
    ensures s[..|s| - 1][..i] == s[..i] && s[..|s| - 1][i] == s[i]
    ensures s[i + 1..][..|s[i + 1..]| - 1] == s[..|s| - 1][i + 1..]
    ensures s[i + 1..][|s[i + 1..]| - 1] == s[|s| - 1]
  {
  }

  /** Concatenation regrouped to the right. */
  lemma Regroup(a: seq<string>, b: seq<string>, c: seq<string>, d: seq<string>)
    ensures a + b + c + d == a + b + (c + d)
  {
  }

  // ---------------------------------------------------------------------------
  // Cache prefix

  /** True when every item is the shipping item (vacuously for an empty cart). */
  function IsOnlyShipping(items: seq<QuoteItem>): (r: bool)
    ensures r <==> forall i :: 0 <= i < |items| ==> items[i].code == SHIPPING_ITEM_CODE
  {
    if |items| == 0 then true
    else if items[0].code != SHIPPING_ITEM_CODE then false
    else IsOnlyShipping(items[1..])
  }

  /** True when no item is the shipping item. */
  function IsMissingShipping(items: seq<QuoteItem>): (r: bool)
    ensures r <==> forall i :: 0 <= i < |items| ==> items[i].code != SHIPPING_ITEM_CODE
  {
    if |items| == 0 then true
    else if items[0].code == SHIPPING_ITEM_CODE then false
    else IsMissingShipping(items[1..])
  }

  /** The cache namespace for a cart's shape. */
  function CachePrefix(items: seq<QuoteItem>): (prefix: string)
    ensures prefix == "item_tax_cache_" <==> forall i :: 0 <= i < |items| ==> items[i].code != SHIPPING_ITEM_CODE
    ensures prefix == "shipping_tax_cache_" <==>
              |items| > 0 && forall i :: 0 <= i < |items| ==> items[i].code == SHIPPING_ITEM_CODE
    ensures prefix == "tax_cache_" <==>
              (exists i :: 0 <= i < |items| && items[i].code == SHIPPING_ITEM_CODE) &&
              (exists i :: 0 <= i < |items| && items[i].code != SHIPPING_ITEM_CODE)
  {
    var prefix := "tax_cache_";
    var prefix := if IsOnlyShipping(items) then "shipping_" + prefix else prefix;
    if IsMissingShipping(items) then "item_tax_cache_" else prefix
  }

  // ---------------------------------------------------------------------------
  // Session cache

  /** What the checkout session holds under a key: a digest string or a stored response. */
  datatype SessionValue = Digest(digest: string) | Stored(response: TaxResponse)

  /** The outcome of a cache read: a miss (`false` in the source), or a hit carrying
      whatever the session holds under the value slot (null when nothing). */
  datatype CacheLookup = Miss | Hit(value: Option<SessionValue>)

  function SessionGet(session: map<string, SessionValue>, key: string): Option<SessionValue> {
    if key in session then Some(session[key]) else None
  }

  /** A read under `prefix`: the value slot, only when the key slot holds exactly `key`. */
  function Lookup(session: map<string, SessionValue>, prefix: string, key: string): (r: CacheLookup)
    ensures r.Hit? <==> prefix + "key" in session && session[prefix + "key"] == Digest(key)
    ensures r.Hit? ==> r.value == SessionGet(session, prefix + "value")
  {
    if SessionGet(session, prefix + "key") == Some(Digest(key)) then Hit(SessionGet(session, prefix + "value"))
    else Miss
  }

  /** A write under `prefix`: the key slot gets `key`, the value slot the response, and
      every other entry of the session stays as it was. */
  function Store(session: map<string, SessionValue>, prefix: string, key: string, response: TaxResponse)
    : (r: map<string, SessionValue>)
    ensures r.Keys == session.Keys + {prefix + "key", prefix + "value"}
    ensures r[prefix + "key"] == Digest(key) && r[prefix + "value"] == Stored(response)
    ensures forall k :: k in session && k != prefix + "key" && k != prefix + "value" ==> r[k] == session[k]
  {
    assert prefix + "key" != prefix + "value" by {
      assert |prefix + "key"| != |prefix + "value"|;
    }
    session[prefix + "key" := Digest(key)][prefix + "value" := Stored(response)]
  }

  /** The response a lookup yields to the caller: only a stored response counts. */
  function CachedResponse(look: CacheLookup): Option<TaxResponse> {
    if look.Hit? && look.value.Some? && look.value.value.Stored? then Some(look.value.value.response) else None
  }

  /** Storing and then reading with the same prefix and key gives back the response. */
  lemma StoreThenLookup(session: map<string, SessionValue>, prefix: string, key: string, response: TaxResponse)
    ensures Lookup(Store(session, prefix, key, response), prefix, key) == Hit(Some(Stored(response)))
    ensures CachedResponse(Lookup(Store(session, prefix, key, response), prefix, key)) == Some(response)
  {
    assert prefix + "key" != prefix + "value" by {
      assert |prefix + "key"| != |prefix + "value"|;
    }
  }

  /** After a store, a read with any other key misses. */
  lemma StaleKeyMisses(session: map<string, SessionValue>, prefix: string, key: string, other: string,
                       response: TaxResponse)
    requires other != key
    ensures Lookup(Store(session, prefix, key, response), prefix, other) == Miss
  {
    assert prefix + "key" != prefix + "value" by {
      assert |prefix + "key"| != |prefix + "value"|;
    }
  }

  /** The three namespaces do not share slots: a store under one prefix leaves reads under
      another unchanged. */
  lemma PrefixesIsolated(session: map<string, SessionValue>, items: seq<QuoteItem>, others: seq<QuoteItem>,
                         key: string, otherKey: string, response: TaxResponse)
    requires CachePrefix(items) != CachePrefix(others)
    ensures Lookup(Store(session, CachePrefix(items), key, response), CachePrefix(others), otherKey)
         == Lookup(session, CachePrefix(others), otherKey)
  {
    var p, q := CachePrefix(items), CachePrefix(others);
    assert p + "key" != q + "key" && p + "value" != q + "value" by {
      assert |p| != |q|;
    }
    assert p + "key" != q + "value" && p + "value" != q + "key" by {
      assert |p| + 3 != |q| + 5 && |p| + 5 != |q| + 3;
    }
  }

  // ---------------------------------------------------------------------------
  // The whole call

  /** The host services the API reads: configuration, the tax-class repository, the region
      table, the origin settings, sha1, PHP's number-to-string conversion and
      round(x, 2). */
  datatype Host = Host(
    config: Config,
    taxClasses: map<int, string>,
    regions: map<int, string>,
    origin: OriginConfig,
    sha1: string -> string,
    render: real -> string,
    round2: real -> real)

  function HostCacheKey(host: Host, quote: QuoteDetails): string
    requires quote.shippingAddress.Some?
  {
    CacheKey(quote, host.sha1, host.render, host.round2)
  }

  function HostRequest(host: Host, quote: QuoteDetails, now: int): TaxRequest
    requires quote.shippingAddress.Some?
  {
    RequestFor(quote, now, host.config, host.taxClasses, host.regions, host.origin)
  }

  /** The response for a quote and the session afterwards. `execute` is the external call
      (None when it throws) and `now` the current time. */
  function TaxForQuote(host: Host, quote: QuoteDetails, now: int, execute: TaxRequest -> Option<TaxResponse>,
                       session: map<string, SessionValue>): (r: (Option<TaxResponse>, map<string, SessionValue>))
    ensures !ShippingAddressIsUsable(quote.shippingAddress) ==> r == (None, session)
    ensures r.1 != session ==>
              && ShippingAddressIsUsable(quote.shippingAddress)
              && execute(HostRequest(host, quote, now)).Some?
              && r.0 == execute(HostRequest(host, quote, now))
              && r.1 == Store(session, CachePrefix(quote.items), HostCacheKey(host, quote), r.0.value)
    ensures ShippingAddressIsUsable(quote.shippingAddress) && r.0.None? ==>
              execute(HostRequest(host, quote, now)).None?
    ensures ShippingAddressIsUsable(quote.shippingAddress) ==>
              var cached := CachedResponse(Lookup(session, CachePrefix(quote.items), HostCacheKey(host, quote)));
              && (cached.Some? ==> r == (cached, session))
              && (cached.None? && execute(HostRequest(host, quote, now)).None? ==> r == (None, session))
              && (cached.None? && execute(HostRequest(host, quote, now)).Some? ==>
                    r == (execute(HostRequest(host, quote, now)),
                          Store(session, CachePrefix(quote.items), HostCacheKey(host, quote),
                                execute(HostRequest(host, quote, now)).value)))
  {
    if !ShippingAddressIsUsable(quote.shippingAddress) then (None, session)
    else
      var prefix := CachePrefix(quote.items);
      var key := HostCacheKey(host, quote);
      var cached := CachedResponse(Lookup(session, prefix, key));
      if cached.Some? then (cached, session)
      else
        var response := execute(HostRequest(host, quote, now));
        if response.None? then (None, session)
        else (response, Store(session, prefix, key, response.value))
  }

  /** After a call that yields a response, the same quote asked again, at any time and with
      any service behaviour, gets that response from the session without a new request,
      and the session stays as it is. */
  lemma SecondCallHitsCache(host: Host, quote: QuoteDetails, now: int, execute: TaxRequest -> Option<TaxResponse>,
                            later: int, executeLater: TaxRequest -> Option<TaxResponse>,
                            session: map<string, SessionValue>)
    requires TaxForQuote(host, quote, now, execute, session).0.Some?
    ensures var first := TaxForQuote(host, quote, now, execute, session);
            TaxForQuote(host, quote, later, executeLater, first.1) == first
  {
    var first := TaxForQuote(host, quote, now, execute, session);
    var prefix := CachePrefix(quote.items);
    var key := HostCacheKey(host, quote);
    if CachedResponse(Lookup(session, prefix, key)).None? {
      StoreThenLookup(session, prefix, key, first.0.value);
    }
  }

  /** The API over its host services; `session` is the checkout session's data. */
  class TaxifyApi {
    var session: map<string, SessionValue>
    const host: Host

    constructor (host: Host, session: map<string, SessionValue>)
      ensures this.host == host && this.session == session
    {
      this.host := host;
      this.session := session;
    }

    /** Builds the fingerprint component by component and hashes it. */
    method GetCacheKey(quote: QuoteDetails) returns (key: string)
      requires quote.shippingAddress.Some?
      ensures key == HostCacheKey(host, quote)
    {
      var render, round2 := host.render, host.round2;
      var keys := HeaderParts(quote, render);
      var i := 0;
      while i < |quote.items|
        invariant 0 <= i <= |quote.items|
        invariant keys == HeaderParts(quote, render) + ItemsParts(quote.items[..i], render, round2)
      {
        var item := quote.items[i];
        keys := keys + [item.sku.GetOr(""), render(item.quantity), item.code,
                        render(round2(item.unitPrice)), render(round2(item.discountAmount))];
        assert quote.items[..i + 1][..i] == quote.items[..i];
        i := i + 1;
      }
      assert quote.items[..i] == quote.items;
      key := host.sha1(Implode("|", keys));
    }

    /** The cached value for the quote, when the stored key under its prefix equals the
        freshly computed key; otherwise a miss. */
    method LoadFromCache(quote: QuoteDetails) returns (r: CacheLookup)
      requires quote.shippingAddress.Some?
      ensures r == Lookup(session, CachePrefix(quote.items), HostCacheKey(host, quote))
    {
      var prefix := CachePrefix(quote.items);
      var key := GetCacheKey(quote);
      var cachedKey := SessionGet(session, prefix + "key");
      if cachedKey == Some(Digest(key)) {
        r := Hit(SessionGet(session, prefix + "value"));
      } else {
        r := Miss;
      }
    }

    /** Stores the response under the quote's prefix, keyed by its fingerprint. */
    method CacheTaxResponse(response: TaxResponse, quote: QuoteDetails)
      requires quote.shippingAddress.Some?
      modifies this
      ensures session == Store(old(session), CachePrefix(quote.items), HostCacheKey(host, quote), response)
    {
      var prefix := CachePrefix(quote.items);
      var key := GetCacheKey(quote);
      session := session[prefix + "key" := Digest(key)];
      session := session[prefix + "value" := Stored(response)];
    }

    /** Builds the request, adding the lines one by one. */
    method BuildRequest(quote: QuoteDetails, now: int) returns (request: TaxRequest)
      requires quote.shippingAddress.Some?
      ensures request == HostRequest(host, quote, now)
    {
      var a := quote.shippingAddress.value;
      var origin := host.origin;
      var regionCode := RegionCodeById(a.regionId, host.regions);
      request := TaxRequest(
        "quote" + quote.id, now, false,
        TaxAddress(origin.countryId, origin.regionId, origin.city, origin.postcode, origin.streetLine1, origin.streetLine2),
        TaxAddress(a.countryId, Some(regionCode), Some(a.city.GetOr("")), a.postcode,
                   Some(StreetLine(a.street, 0)), Some(StreetLine(a.street, 1))),
        CustomerTaxabilityCode(quote, host.config, host.taxClasses),
        None, []);
      if quote.customerId != 0 {
        request := request.(customerKey := Some(quote.customerId));
      }
      var lines: seq<RequestLine> := [];
      var i := 0;
      while i < |quote.items|
        invariant 0 <= i <= |quote.items|
        invariant |lines| == i
        invariant forall j :: 0 <= j < i ==> lines[j] == RequestLineFor(quote.items[j], host.config, host.taxClasses)
      {
        var item := quote.items[i];
        var price := item.priceForTaxCalculation.GetOr(item.unitPrice);
        var rowTotal := price * item.quantity - item.discountAmount;
        lines := lines + [RequestLine(item.code, item.sku, item.quantity, rowTotal, item.name,
                                      ItemTaxabilityCode(item, host.config, host.taxClasses))];
        i := i + 1;
      }
      request := request.(lines := lines);
    }

    /** The response for a quote: none for an unusable shipping address (no cache read, no
        request); the cached response on a hit; otherwise the service's answer, cached only
        when the call succeeds. */
    method GetTaxForQuote(quote: QuoteDetails, now: int, execute: TaxRequest -> Option<TaxResponse>)
      returns (r: Option<TaxResponse>)
      modifies this
      ensures (r, session) == TaxForQuote(host, quote, now, execute, old(session))
    {
      if !ShippingAddressIsUsable(quote.shippingAddress) {
        return None;
      }
      var look := LoadFromCache(quote);
      var cached := CachedResponse(look);
      if cached.Some? {
        return cached;
      }
      var request := BuildRequest(quote, now);
      var response := execute(request);
      if response.None? {
        return None;
      }
      CacheTaxResponse(response.value, quote);
      r := response;
    }
  }
}
