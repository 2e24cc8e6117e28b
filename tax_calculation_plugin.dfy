/** The interception of the host's tax calculation: when the external service is enabled
    and the quote qualifies, the service's answer is reconciled into tax details in place
    of the host's own computation. */
module TaxCalculationPlugin {
  import opened Wrappers
  import opened Config
  import opened QuoteData
  import opened TaxClassHelper
  import opened TaxifyApi
  import opened Calculator

  /** A quote is sent only when it has items and at least one address. */
  function QuoteIsUsableForTaxifyCall(quote: QuoteDetails): (usable: bool)
    ensures usable <==> |quote.items| > 0 && (quote.billingAddress.Some? || quote.shippingAddress.Some?)
  {
    |quote.items| > 0 && !(quote.billingAddress.None? && quote.shippingAddress.None?)
  }

  /** The customer is exempt when the label of their tax class is the configured exempt
      label; a falsy class id is never exempt. */
  function CustomerTaxClassIsExempt(quote: QuoteDetails, config: Config, repository: map<int, string>): (exempt: bool)
    ensures GetCustomerTaxClassId(quote) == 0 ==> !exempt
    ensures config.exemptCustomer.None? ==> !exempt
    ensures GetCustomerTaxClassId(quote) != 0 ==>
              (exempt <==> config.exemptCustomer == Some(MagentoTaxClassNameById(GetCustomerTaxClassId(quote), repository)))
  {
    var customerTaxClassId := GetCustomerTaxClassId(quote);
    if customerTaxClassId == 0 then false
    else config.exemptCustomer == Some(MagentoTaxClassNameById(customerTaxClassId, repository))
  }

  /** An id-typed class key decides the class, whatever the quote's own class id says. */
  lemma ExemptionFollowsIdKey(quote: QuoteDetails, config: Config, repository: map<int, string>, id: int)
    requires quote.customerTaxClassKey == Some(IdKey(id))
    ensures CustomerTaxClassIsExempt(quote, config, repository) ==
            CustomerTaxClassIsExempt(quote.(customerTaxClassId := id, customerTaxClassKey := None), config, repository)
  {
  }

  /** A class id the repository does not know has the label "None", so it is exempt
      exactly when the exempt label is configured as "None". */
  lemma UnknownClassExemptOnlyUnderNone(quote: QuoteDetails, config: Config, repository: map<int, string>)
    requires GetCustomerTaxClassId(quote) != 0 && GetCustomerTaxClassId(quote) !in repository
    ensures CustomerTaxClassIsExempt(quote, config, repository) <==> config.exemptCustomer == Some("None")
  {
  }

  /** The ways the interception can fail instead of answering. */
  datatype PluginError =
    | NullShippingAddress   // a null shipping address reaches a parameter that does not accept null
    | DivisionByZero        // a matched line or a bundle parent with quantity 0

  /** Which answer the interception gives. */
  datatype Route =
    | UseNative                                   // the host's own calculation
    | Fail(error: PluginError)
    | Reconciled(response: TaxResponse, round: bool)

  /** The answer of the interception and the session afterwards; `round` is the optional
      third argument, rounding when it is absent. */
  function Intercept(host: Host, quote: QuoteDetails, round: Option<bool>, now: int,
                     execute: TaxRequest -> Option<TaxResponse>, session: map<string, SessionValue>)
    : (r: (Route, map<string, SessionValue>))
    ensures (!host.config.enabled || !QuoteIsUsableForTaxifyCall(quote) ||
             CustomerTaxClassIsExempt(quote, host.config, host.taxClasses)) ==> r == (UseNative, session)
    ensures r.0.Reconciled? ==>
              && r.0.round == round.GetOr(true)
              && (Some(r.0.response), r.1) == TaxForQuote(host, quote, now, execute, session)
              && Computable(quote.items, r.0.response.lines)
    ensures r.0 == Fail(DivisionByZero) ==>
              TaxForQuote(host, quote, now, execute, session).0.Some? &&
              !Computable(quote.items, TaxForQuote(host, quote, now, execute, session).0.value.lines)
    ensures r.0 == Fail(NullShippingAddress) ==> r.1 == session && quote.shippingAddress.None?
    ensures host.config.enabled && QuoteIsUsableForTaxifyCall(quote) &&
            !CustomerTaxClassIsExempt(quote, host.config, host.taxClasses) && quote.shippingAddress.None? ==>
              r == (Fail(NullShippingAddress), session)
    ensures host.config.enabled && QuoteIsUsableForTaxifyCall(quote) &&
            !CustomerTaxClassIsExempt(quote, host.config, host.taxClasses) && quote.shippingAddress.Some? ==>
              r.1 == TaxForQuote(host, quote, now, execute, session).1
  {
    if !host.config.enabled || !QuoteIsUsableForTaxifyCall(quote) ||
       CustomerTaxClassIsExempt(quote, host.config, host.taxClasses) then
      (UseNative, session)
    else if quote.shippingAddress.None? then
      (Fail(NullShippingAddress), session)
    else
      var (response, after) := TaxForQuote(host, quote, now, execute, session);
      if response.None? then (UseNative, after)
      else if !Computable(quote.items, response.value.lines) then (Fail(DivisionByZero), after)
      else (Reconciled(response.value, round.GetOr(true)), after)
  }

  /** When the service has no answer the host calculates; a service answer the host
      cannot divide out fails; otherwise the answer is reconciled. */
  lemma InterceptFallsBack(host: Host, quote: QuoteDetails, round: Option<bool>, now: int,
                           execute: TaxRequest -> Option<TaxResponse>, session: map<string, SessionValue>)
    requires host.config.enabled && QuoteIsUsableForTaxifyCall(quote)
    requires !CustomerTaxClassIsExempt(quote, host.config, host.taxClasses) && quote.shippingAddress.Some?
    ensures var (route, _) := Intercept(host, quote, round, now, execute, session);
            var answer := TaxForQuote(host, quote, now, execute, session).0;
      && (answer.None? <==> route.UseNative?)
      && (answer.Some? && Computable(quote.items, answer.value.lines) <==> route.Reconciled?)
      && (!ShippingAddressIsUsable(quote.shippingAddress) ==> route.UseNative?)
  {
  }

  /** What the host receives. */
  datatype PluginResult =
    | Native
    | Raised(error: PluginError)
    | External(details: TaxDetails)

  /** The around-plugin on the host's tax calculation. The host's own calculation is
      not part of this model: `Native` stands for handing the call back to it.
      `hostRound` is the store currency's rounding. */
  method AroundCalculateTax(api: TaxifyApi, quote: QuoteDetails, round: Option<bool>, now: int,
                            execute: TaxRequest -> Option<TaxResponse>, hostRound: real -> real)
    returns (r: PluginResult)
    modifies api
    ensures var (route, after) := Intercept(api.host, quote, round, now, execute, old(api.session));
      && api.session == after
      && (route.UseNative? ==> r.Native?)
      && (route.Fail? ==> r == Raised(route.error))
      && (route.Reconciled? ==>
            && r.External? && fresh(r.details)
            && r.details.Figures() == Reconcile(quote.items, route.response.lines, route.round, hostRound).totals
            && r.details.items == Reconcile(quote.items, route.response.lines, route.round, hostRound).processed)
  {
    var doRound := round.GetOr(true);
    var host := api.host;
    if !host.config.enabled || !QuoteIsUsableForTaxifyCall(quote) ||
       CustomerTaxClassIsExempt(quote, host.config, host.taxClasses) {
      return Native;
    }
    if quote.shippingAddress.None? {
      return Raised(NullShippingAddress);
    }
    var response := api.GetTaxForQuote(quote, now, execute);
    if response.None? {
      return Native;
    }
    if !Computable(quote.items, response.value.lines) {
      return Raised(DivisionByZero);
    }
    var details := CalculateTax(quote, response.value.lines, doRound, hostRound);
    r := External(details);
  }
}
