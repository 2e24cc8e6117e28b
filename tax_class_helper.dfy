/** Maps host tax classes to the external service's taxability codes. */
module TaxClassHelper {
  import opened Wrappers
  import opened TaxifyConstants
  import opened Config

  /** The host tax-class label for an id. The host's class repository is the partial
      map `repository`; an id it does not know raises not-found in the host, which is
      logged and answered with "None". A falsy id never reaches the repository. */
  function MagentoTaxClassNameById(taxClassId: int, repository: map<int, string>): (name: string)
    ensures taxClassId == 0 ==> name == "None"
    ensures taxClassId != 0 && taxClassId in repository ==> name == repository[taxClassId]
    ensures taxClassId !in repository ==> name == "None"
  {
    if taxClassId == 0 then "None"
    else if taxClassId in repository then repository[taxClassId]
    else "None"
  }

  /** The label-to-code lookup, written the way the source's `switch` is: an ordered
      chain of cases, each comparing the label with one configured name. */
  function TaxabilityCode(config: Config, taxClassName: string): (code: ItemTaxCode)
    ensures code != Taxable ==> (Some(taxClassName), code) in CaseTable(config)
  {
    var given := Some(taxClassName);
    if given == config.candy then Candy
    else if given == config.clothing then Clothing
    else if given == config.exemptService then ExemptService
    else if given == config.food then Food
    else if given == config.foodService then FoodService
    else if given == config.freight then Freight
    else if given == config.installation then Installation
    else if given == config.nonTax then NonTax
    else if given == config.proService then ProService
    else if given == config.supplements then Supplements
    else Taxable
  }

  /** The configured names in the order the lookup consults them, each with its code. */
  function CaseTable(config: Config): seq<(Option<string>, ItemTaxCode)> {
    [ (config.candy, Candy), (config.clothing, Clothing),
      (config.exemptService, ExemptService), (config.food, Food),
      (config.foodService, FoodService), (config.freight, Freight),
      (config.installation, Installation), (config.nonTax, NonTax),
      (config.proService, ProService), (config.supplements, Supplements) ]
  }

  /** Reference definition: the code of the first entry whose name equals the label,
      TAXABLE when there is none. */
  function FirstMatch(table: seq<(Option<string>, ItemTaxCode)>, taxClassName: string): ItemTaxCode {
    if |table| == 0 then Taxable
    else if table[0].0 == Some(taxClassName) then table[0].1
    else FirstMatch(table[1..], taxClassName)
  }

  /** Entry `i` is the first whose name equals the label. */
  predicate IsFirstMatchAt(table: seq<(Option<string>, ItemTaxCode)>, i: nat, taxClassName: string)
    requires i < |table|
  {
    table[i].0 == Some(taxClassName) && forall j :: 0 <= j < i ==> table[j].0 != Some(taxClassName)
  }

  /** FirstMatch picks the entry at the least matching index, and TAXABLE exactly when no
      entry matches. */
  lemma {:induction false} FirstMatchIsLeast(table: seq<(Option<string>, ItemTaxCode)>, taxClassName: string)
    ensures (forall j :: 0 <= j < |table| ==> table[j].0 != Some(taxClassName)) ==>
              FirstMatch(table, taxClassName) == Taxable
    ensures forall i :: 0 <= i < |table| && IsFirstMatchAt(table, i, taxClassName) ==>
              FirstMatch(table, taxClassName) == table[i].1
  {
    if |table| > 0 {
      FirstMatchIsLeast(table[1..], taxClassName);
      forall i | 0 < i < |table| && IsFirstMatchAt(table, i, taxClassName)
        ensures FirstMatch(table, taxClassName) == table[i].1
      {
        assert table[1..][i - 1] == table[i];
        assert forall j :: 0 <= j < i - 1 ==> table[1..][j] == table[j + 1];
      }
      if forall j :: 0 <= j < |table| ==> table[j].0 != Some(taxClassName) {
        assert forall j :: 0 <= j < |table| - 1 ==> table[1..][j] == table[j + 1];
      }
    }
  }

  /** One step of FirstMatch on a suffix of the table. */
  lemma FirstMatchStep(table: seq<(Option<string>, ItemTaxCode)>, k: nat, taxClassName: string)
    requires k < |table|
    ensures FirstMatch(table[k..], taxClassName) ==
              if table[k].0 == Some(taxClassName) then table[k].1 else FirstMatch(table[k + 1..], taxClassName)
  {
    assert table[k..][0] == table[k];
    assert table[k..][1..] == table[k + 1..];
  }

  /** The switch is the first-match lookup over the ten configured names, in the order
      candy, clothing, exemptservice, food, foodservice, freight, installation, nontax,
      proservice, supplements. */
  lemma TaxabilityCodeIsFirstMatch(config: Config, taxClassName: string)
    ensures TaxabilityCode(config, taxClassName) == FirstMatch(CaseTable(config), taxClassName)
  {
    var t := CaseTable(config);
    assert t[0..] == t;
    assert t[10..] == [];
    FirstMatchStep(t, 0, taxClassName);
    FirstMatchStep(t, 1, taxClassName);
    FirstMatchStep(t, 2, taxClassName);
    FirstMatchStep(t, 3, taxClassName);
    FirstMatchStep(t, 4, taxClassName);
    FirstMatchStep(t, 5, taxClassName);
    FirstMatchStep(t, 6, taxClassName);
    FirstMatchStep(t, 7, taxClassName);
    FirstMatchStep(t, 8, taxClassName);
    FirstMatchStep(t, 9, taxClassName);
  }

  /** The earliest configured name equal to the label decides the code; a label equal to
      none of them yields TAXABLE, and only then. */
  lemma TaxabilityCodeFirstMatchWins(config: Config, taxClassName: string)
    ensures forall i :: 0 <= i < 10 && IsFirstMatchAt(CaseTable(config), i, taxClassName) ==>
              TaxabilityCode(config, taxClassName) == CaseTable(config)[i].1
    ensures TaxabilityCode(config, taxClassName) == Taxable <==>
              forall j :: 0 <= j < 10 ==> CaseTable(config)[j].0 != Some(taxClassName)
  {
    TaxabilityCodeIsFirstMatch(config, taxClassName);
    FirstMatchIsLeast(CaseTable(config), taxClassName);
  }

  /** The "taxable" setting is never consulted. */
  lemma TaxableSettingIgnored(config: Config, other: Option<string>, taxClassName: string)
    ensures TaxabilityCode(config.(taxable := other), taxClassName) == TaxabilityCode(config, taxClassName)
  {
  }
}
