/** The reconciliation engine: turns the quote items and the service's response lines into
    the host's tax-details structure. */
module Calculator {
  import opened Wrappers
  import opened TaxifyConstants
  import opened QuoteData
  import opened PhpArray
  import PriceForTax

  // ---------------------------------------------------------------------------
  // Output records

  datatype AppliedTaxRate = AppliedTaxRate(percent: real, title: string, code: string)

  datatype AppliedTax = AppliedTax(taxRateKey: string, percent: real, amount: real, rates: seq<AppliedTaxRate>)

  /** One row of the output. Fields the source leaves unset are None. */
  datatype TaxDetailsItem = TaxDetailsItem(
    code: string,
    itemType: string,
    price: real,
    priceInclTax: real,
    rowTotal: real,
    rowTotalInclTax: real,
    rowTax: real,
    discountTaxCompensationAmount: Option<real>,
    discountAmount: Option<real>,
    associatedItemCode: Option<string>,
    taxPercent: Option<real>,
    appliedTaxes: Option<map<string, AppliedTax>>)

  /** The applied taxes of a row, an unset list read as empty. */
  function AppliedOf(row: TaxDetailsItem): map<string, AppliedTax> {
    row.appliedTaxes.GetOr(map[])
  }

  // ---------------------------------------------------------------------------
  // Single-row builders

  /** `hostRound` is the store currency's rounding. */
  function OptionalRound(x: real, round: bool, hostRound: real -> real): (r: real)
    ensures round ==> r == hostRound(x)
    ensures !round ==> r == x
  {
    if round then hostRound(x) else x
  }

  /** The display title of a tax category. */
  function TaxLabel(code: string): (title: string)
    ensures code == ProductAndShippingTax.Key() ==> title == "Sales and Use"
    ensures code == ShippingTax.Key() ==> title == "Shipping"
    ensures code != ProductAndShippingTax.Key() && code != ShippingTax.Key() ==> title == code
  {
    if code == ProductAndShippingTax.Key() then "Sales and Use"
    else if code == ShippingTax.Key() then "Shipping"
    else code
  }

  /** The category of a response line: shipping for freight, otherwise product and
      shipping. */
  function DetailType(line: TaxLine): (t: TaxDetailType)
    ensures t == ShippingTax <==> line.itemTaxabilityCode == Freight.Name()
  {
    if line.itemTaxabilityCode == Freight.Name() then ShippingTax else ProductAndShippingTax
  }

  /** A rate in percent; a missing rate multiplies as 0. */
  function Percent(line: TaxLine): real {
    line.taxRate.GetOr(0.0) * 100.0
  }

  /** The single applied tax of a matched row, keyed by its category. */
  function CreateAppliedTaxes(line: TaxLine): (taxes: map<string, AppliedTax>)
    ensures taxes.Keys == {DetailType(line).Key()}
    ensures forall k :: k in taxes ==> taxes[k].taxRateKey == k && taxes[k].amount == line.amount
  {
    var key := DetailType(line).Key();
    var rate := AppliedTaxRate(Percent(line), TaxLabel(key), key);
    map[key := AppliedTax(key, Percent(line), line.amount, [rate])]
  }

  /** The row of an item that has no response line: its own figures, no tax. */
  function CreateEmptyDetailsTaxItem(item: QuoteItem): (row: TaxDetailsItem)
    ensures row.code == item.code && row.rowTax == 0.0 && AppliedOf(row) == map[]
    ensures row.rowTotalInclTax == row.rowTotal && row.priceInclTax == row.price
  {
    var rowTotal := RowValue(item) - item.discountAmount;
    TaxDetailsItem(item.code, item.itemType, item.unitPrice, item.unitPrice, rowTotal, rowTotal, 0.0,
                   Some(0.0), Some(item.discountAmount), item.associatedItemCode, Some(0.0), Some(map[]))
  }

  /** The row of an item matched by a response line. The per-unit tax divides the line's
      sales tax by the line's quantity, so the line quantity must be non-zero. */
  function CreateTaxDetailsItem(item: QuoteItem, line: TaxLine, round: bool, hostRound: real -> real)
    : (row: TaxDetailsItem)
    requires line.quantity != 0.0
    ensures row.code == line.lineNumber && AppliedOf(row) == CreateAppliedTaxes(line)
    ensures !round ==> row.rowTax == line.salesTaxAmount && row.rowTotalInclTax == row.rowTotal + row.rowTax
  {
    var perItemTax := line.salesTaxAmount / line.quantity;
    var extendedPrice := PriceForTax.OriginalItemPriceOnQuote(item, hostRound);
    TaxDetailsItem(
      line.lineNumber, item.itemType,
      OptionalRound(item.unitPrice, round, hostRound),
      OptionalRound(item.unitPrice + perItemTax, round, hostRound),
      OptionalRound(extendedPrice, round, hostRound),
      OptionalRound(extendedPrice + line.salesTaxAmount, round, hostRound),
      OptionalRound(line.salesTaxAmount, round, hostRound),
      Some(0.0), None, item.associatedItemCode, Some(Percent(line)), Some(CreateAppliedTaxes(line)))
  }

  // ---------------------------------------------------------------------------
  // Indexing and partitioning

  /** Response lines by line number; a later line with the same number replaces an earlier
      one. */
  function IndexLines(lines: seq<TaxLine>): (index: map<string, TaxLine>)
    ensures forall k :: k in index ==> index[k].lineNumber == k
  {
    if |lines| == 0 then map[]
    else IndexLines(lines[..|lines| - 1])[lines[|lines| - 1].lineNumber := lines[|lines| - 1]]
  }

  /** The children of parent code `p`, in cart order; items whose parent code is falsy are
      nobody's children. */
  function Children(items: seq<QuoteItem>, p: string): seq<QuoteItem> {
    if |items| == 0 then []
    else
      var last := items[|items| - 1];
      Children(items[..|items| - 1], p) + (if Truthy(last.parentCode) && last.parentCode == p then [last] else [])
  }

  /** The top-level items by code; a later item with the same code replaces the earlier one
      where it stands. */
  function TopItems(items: seq<QuoteItem>): Entries<QuoteItem> {
    if |items| == 0 then []
    else
      var last := items[|items| - 1];
      if Truthy(last.parentCode) then TopItems(items[..|items| - 1])
      else Put(TopItems(items[..|items| - 1]), last.code, last)
  }

  // ---------------------------------------------------------------------------
  // Where a division could be by zero

  predicate ItemRowDefined(item: QuoteItem, index: map<string, TaxLine>) {
    item.code in index ==> index[item.code].quantity != 0.0
  }

  predicate RowsDefined(items: seq<QuoteItem>, index: map<string, TaxLine>) {
    forall i :: 0 <= i < |items| ==> ItemRowDefined(items[i], index)
  }

  /** A bundle parent divides by its own quantity and each matched child by its line's
      quantity; any other matched item by its line's quantity. */
  predicate TopDefined(item: QuoteItem, items: seq<QuoteItem>, index: map<string, TaxLine>) {
    var kids := Children(items, item.code);
    if |kids| > 0 then item.quantity != 0.0 && RowsDefined(kids, index) else ItemRowDefined(item, index)
  }

  predicate AllDefined(top: Entries<QuoteItem>, items: seq<QuoteItem>, index: map<string, TaxLine>) {
    forall j :: 0 <= j < |top| ==> TopDefined(top[j].1, items, index)
  }

  /** The reconciliation divides only by non-zero quantities. */
  predicate Computable(items: seq<QuoteItem>, lines: seq<TaxLine>) {
    AllDefined(TopItems(items), items, IndexLines(lines))
  }

  // ---------------------------------------------------------------------------
  // Rows and cart totals

  /** The row an item gets on its own: matched or empty. */
  function ItemRow(item: QuoteItem, index: map<string, TaxLine>, round: bool, hostRound: real -> real): TaxDetailsItem
    requires ItemRowDefined(item, index)
  {
    if item.code in index then CreateTaxDetailsItem(item, index[item.code], round, hostRound)
    else CreateEmptyDetailsTaxItem(item)
  }

  function ItemRows(items: seq<QuoteItem>, index: map<string, TaxLine>, round: bool, hostRound: real -> real)
    : (rows: seq<TaxDetailsItem>)
    requires RowsDefined(items, index)
    ensures |rows| == |items|
  {
    if |items| == 0 then []
    else ItemRows(items[..|items| - 1], index, round, hostRound) + [ItemRow(items[|items| - 1], index, round, hostRound)]
  }

  function SumRowTotal(rows: seq<TaxDetailsItem>): real {
    if |rows| == 0 then 0.0 else SumRowTotal(rows[..|rows| - 1]) + rows[|rows| - 1].rowTotal
  }

  function SumRowTotalInclTax(rows: seq<TaxDetailsItem>): real {
    if |rows| == 0 then 0.0 else SumRowTotalInclTax(rows[..|rows| - 1]) + rows[|rows| - 1].rowTotalInclTax
  }

  function SumRowTax(rows: seq<TaxDetailsItem>): real {
    if |rows| == 0 then 0.0 else SumRowTax(rows[..|rows| - 1]) + rows[|rows| - 1].rowTax
  }

  /** A bundle parent's row: the optionally rounded sums of its children's rows, and prices
      that are those sums over the parent's own quantity. */
  function BundleRow(item: QuoteItem, rows: seq<TaxDetailsItem>, round: bool, hostRound: real -> real)
    : (row: TaxDetailsItem)
    requires item.quantity != 0.0
    ensures row.code == item.code && AppliedOf(row) == map[]
    ensures !round ==> row.rowTotal == SumRowTotal(rows) && row.rowTax == SumRowTax(rows)
  {
    TaxDetailsItem(
      item.code, item.itemType,
      OptionalRound(SumRowTotal(rows) / item.quantity, round, hostRound),
      OptionalRound(SumRowTotalInclTax(rows) / item.quantity, round, hostRound),
      OptionalRound(SumRowTotal(rows), round, hostRound),
      OptionalRound(SumRowTotalInclTax(rows), round, hostRound),
      OptionalRound(SumRowTax(rows), round, hostRound),
      None, None, None, None, None)
  }

  /** Cart-level running figures. */
  datatype Totals = Totals(subtotal: real, taxAmount: real, appliedTaxes: map<string, AppliedTax>)

  const NoTotals := Totals(0.0, 0.0, map[])

  /** Merging a row's applied taxes into the cart's as evidently intended: a new category
      is inserted, a known one has the row's amount added. */
  function MergeIntended(cart: map<string, AppliedTax>, taxes: map<string, AppliedTax>): (r: map<string, AppliedTax>)
    ensures r.Keys == cart.Keys + taxes.Keys
  {
    map k | k in cart.Keys + taxes.Keys ::
      if k in cart && k in taxes then cart[k].(amount := cart[k].amount + taxes[k].amount)
      else if k in cart then cart[k] else taxes[k]
  }

  /** Merging as written: a new category is built and dropped, a known one has the row's
      amount added. */
  function MergeAsWritten(cart: map<string, AppliedTax>, taxes: map<string, AppliedTax>): (r: map<string, AppliedTax>)
    ensures r.Keys == cart.Keys
  {
    map k | k in cart :: if k in taxes then cart[k].(amount := cart[k].amount + taxes[k].amount) else cart[k]
  }

  /** Adding one row to the cart figures: subtotal and tax grow by the row's, and the
      row's categories join the cart's, a shared one with the amounts added. */
  function Aggregate(totals: Totals, row: TaxDetailsItem): (r: Totals)
    ensures r.subtotal - totals.subtotal == row.rowTotal && r.taxAmount - totals.taxAmount == row.rowTax
    ensures r.appliedTaxes.Keys == totals.appliedTaxes.Keys + AppliedOf(row).Keys
    ensures forall k :: k in totals.appliedTaxes && k in AppliedOf(row) ==>
              r.appliedTaxes[k].amount == totals.appliedTaxes[k].amount + AppliedOf(row)[k].amount
  {
    Totals(totals.subtotal + row.rowTotal, totals.taxAmount + row.rowTax,
           MergeIntended(totals.appliedTaxes, AppliedOf(row)))
  }

  function AggregateAll(totals: Totals, rows: seq<TaxDetailsItem>): Totals {
    if |rows| == 0 then totals else Aggregate(AggregateAll(totals, rows[..|rows| - 1]), rows[|rows| - 1])
  }

  /** Storing rows in the output by their codes, one after the other. */
  function PutRows(m: Entries<TaxDetailsItem>, rows: seq<TaxDetailsItem>): Entries<TaxDetailsItem> {
    if |rows| == 0 then m else Put(PutRows(m, rows[..|rows| - 1]), rows[|rows| - 1].code, rows[|rows| - 1])
  }

  // ---------------------------------------------------------------------------
  // The whole reconciliation

  datatype State = State(totals: Totals, processed: Entries<TaxDetailsItem>)

  /** One top-level item: a bundle parent aggregates and stores each child's row and then
      stores its own combined row; any other item aggregates and stores its own row. */
  function ProcessTop(s: State, item: QuoteItem, items: seq<QuoteItem>, index: map<string, TaxLine>,
                      round: bool, hostRound: real -> real): State
    requires TopDefined(item, items, index)
  {
    var kids := Children(items, item.code);
    if |kids| > 0 then
      var rows := ItemRows(kids, index, round, hostRound);
      State(AggregateAll(s.totals, rows), Put(PutRows(s.processed, rows), item.code, BundleRow(item, rows, round, hostRound)))
    else
      var row := ItemRow(item, index, round, hostRound);
      State(Aggregate(s.totals, row), Put(s.processed, item.code, row))
  }

  function ProcessAll(top: Entries<QuoteItem>, items: seq<QuoteItem>, index: map<string, TaxLine>,
                      round: bool, hostRound: real -> real): State
    requires AllDefined(top, items, index)
  {
    if |top| == 0 then State(NoTotals, [])
    else
      var init := top[..|top| - 1];
      assert AllDefined(init, items, index) by {
        forall j | 0 <= j < |init| ensures TopDefined(init[j].1, items, index) {
          assert init[j] == top[j];
        }
      }
      ProcessTop(ProcessAll(init, items, index, round, hostRound), top[|top| - 1].1, items, index, round, hostRound)
  }

  /** The cart figures and the output rows for a quote and a response. */
  function Reconcile(items: seq<QuoteItem>, lines: seq<TaxLine>, round: bool, hostRound: real -> real): (r: State)
    requires Computable(items, lines)
    ensures UniqueKeys(r.processed)
  {
    ProcessAllUniqueKeys(TopItems(items), items, IndexLines(lines), round, hostRound);
    ProcessAll(TopItems(items), items, IndexLines(lines), round, hostRound)
  }

  /** Details items are indexed by code: each code is stored once. */
  lemma {:induction false} ProcessAllUniqueKeys(top: Entries<QuoteItem>, items: seq<QuoteItem>,
                                                index: map<string, TaxLine>, round: bool, hostRound: real -> real)
    requires AllDefined(top, items, index)
    ensures UniqueKeys(ProcessAll(top, items, index, round, hostRound).processed)
  {
    if |top| > 0 {
      var init := top[..|top| - 1];
      AllDefinedPrefix(top, items, index, |top| - 1);
      ProcessAllUniqueKeys(init, items, index, round, hostRound);
      var s := ProcessAll(init, items, index, round, hostRound);
      var item := top[|top| - 1].1;
      var kids := Children(items, item.code);
      if |kids| > 0 {
        var rows := ItemRows(kids, index, round, hostRound);
        PutRowsKeepsUniqueKeys(s.processed, rows);
        PutKeepsUniqueKeys(PutRows(s.processed, rows), item.code, BundleRow(item, rows, round, hostRound));
      } else {
        PutKeepsUniqueKeys(s.processed, item.code, ItemRow(item, index, round, hostRound));
      }
    }
  }

  lemma {:induction false} PutRowsKeepsUniqueKeys(m: Entries<TaxDetailsItem>, rows: seq<TaxDetailsItem>)
    requires UniqueKeys(m)
    ensures UniqueKeys(PutRows(m, rows))
  {
    if |rows| > 0 {
      var init := rows[..|rows| - 1];
      PutRowsKeepsUniqueKeys(m, init);
      PutKeepsUniqueKeys(PutRows(m, init), rows[|rows| - 1].code, rows[|rows| - 1]);
    }
  }

  // ---------------------------------------------------------------------------
  // The tax-details object

  /** The host's tax-details object; fields the source never sets stay None. */
  class TaxDetails {
    var subtotal: real
    var taxAmount: real
    var discountTaxCompensationAmount: Option<real>
    var appliedTaxes: map<string, AppliedTax>
    var items: Entries<TaxDetailsItem>

    /** A fresh object from the factory, its figures zero and its lists empty. */
    constructor ()
      ensures subtotal == 0.0 && taxAmount == 0.0 && discountTaxCompensationAmount.None?
      ensures appliedTaxes == map[] && items == []
    {
      subtotal := 0.0;
      taxAmount := 0.0;
      discountTaxCompensationAmount := None;
      appliedTaxes := map[];
      items := [];
    }

    function Figures(): Totals
      reads this
    {
      Totals(subtotal, taxAmount, appliedTaxes)
    }
  }

  /** The value of category `q` once the categories in `done` of a row's applied taxes
      have been merged into `cart`. */
  function MergedAt(cart: map<string, AppliedTax>, taxes: map<string, AppliedTax>, done: set<string>, q: string)
    : AppliedTax
    requires q in cart || (q in taxes && q in done)
  {
    if q in cart && q in taxes && q in done then cart[q].(amount := cart[q].amount + taxes[q].amount)
    else if q in cart then cart[q] else taxes[q]
  }

  lemma MergedAtAll(cart: map<string, AppliedTax>, taxes: map<string, AppliedTax>, merged: map<string, AppliedTax>)
    requires merged.Keys == cart.Keys + taxes.Keys
    requires forall q :: q in merged ==> merged[q] == MergedAt(cart, taxes, taxes.Keys, q)
    ensures merged == MergeIntended(cart, taxes)
  {
  }

  /** The loop that merges a row's applied taxes into the cart's, one category at a
      time. */
  method MergeAppliedTaxes(cart0: map<string, AppliedTax>, itemTaxes: map<string, AppliedTax>)
    returns (cart: map<string, AppliedTax>)
    ensures cart == MergeIntended(cart0, itemTaxes)
  {
    cart := cart0;
    var pending: set<string>, done: set<string> := itemTaxes.Keys, {};
    while pending != {}
      invariant pending + done == itemTaxes.Keys && pending !! done
      invariant cart.Keys == cart0.Keys + done
      invariant forall q :: q in cart ==> cart[q] == MergedAt(cart0, itemTaxes, done, q)
      decreases pending
    {
      var k :| k in pending;
      if k !in cart {
        cart := cart[k := itemTaxes[k]];
      } else {
        cart := cart[k := cart[k].(amount := cart[k].amount + itemTaxes[k].amount)];
      }
      pending, done := pending - {k}, done + {k};
    }
    MergedAtAll(cart0, itemTaxes, cart);
  }

  /** Adds a row's figures to the cart: subtotal, tax amount and applied taxes. */
  method AggregateTaxData(details: TaxDetails, row: TaxDetailsItem)
    modifies details
    ensures details.Figures() == Aggregate(old(details.Figures()), row)
    ensures details.items == old(details.items)
    ensures details.discountTaxCompensationAmount == old(details.discountTaxCompensationAmount)
  {
    details.subtotal := details.subtotal + row.rowTotal;
    details.taxAmount := details.taxAmount + row.rowTax;
    var itemTaxes := AppliedOf(row);
    if |itemTaxes| == 0 {
      assert itemTaxes == map[];
      assert MergeIntended(details.appliedTaxes, itemTaxes) == details.appliedTaxes;
      return;
    }
    var merged := MergeAppliedTaxes(details.appliedTaxes, itemTaxes);
    details.appliedTaxes := merged;
  }

  lemma SumsSnoc(rows: seq<TaxDetailsItem>, row: TaxDetailsItem)
    ensures SumRowTotal(rows + [row]) == SumRowTotal(rows) + row.rowTotal
    ensures SumRowTotalInclTax(rows + [row]) == SumRowTotalInclTax(rows) + row.rowTotalInclTax
    ensures SumRowTax(rows + [row]) == SumRowTax(rows) + row.rowTax
  {
    assert (rows + [row])[..|rows|] == rows;
  }

  lemma FoldsSnoc(totals: Totals, m: Entries<TaxDetailsItem>, rows: seq<TaxDetailsItem>, row: TaxDetailsItem)
    ensures AggregateAll(totals, rows + [row]) == Aggregate(AggregateAll(totals, rows), row)
    ensures PutRows(m, rows + [row]) == Put(PutRows(m, rows), row.code, row)
  {
    assert (rows + [row])[..|rows|] == rows;
  }

  /** The rows of the empty details, one per item. */
  function EmptyRows(items: seq<QuoteItem>): (rows: seq<TaxDetailsItem>)
    ensures |rows| == |items|
  {
    if |items| == 0 then [] else EmptyRows(items[..|items| - 1]) + [CreateEmptyDetailsTaxItem(items[|items| - 1])]
  }

  /** Details without any tax: every item's empty row, indexed by code, and their row
      totals as the subtotal. */
  method CreateEmptyDetails(quote: QuoteDetails) returns (details: TaxDetails)
    ensures fresh(details)
    ensures details.subtotal == SumRowTotal(EmptyRows(quote.items)) && details.taxAmount == 0.0
    ensures details.discountTaxCompensationAmount == Some(0.0) && details.appliedTaxes == map[]
    ensures details.items == PutRows([], EmptyRows(quote.items))
  {
    details := new TaxDetails();
    var subtotal, rows := EmptyItems(quote.items);
    details.subtotal := subtotal;
    details.taxAmount := 0.0;
    details.discountTaxCompensationAmount := Some(0.0);
    details.appliedTaxes := map[];
    details.items := rows;
  }

  /** The loop of `CreateEmptyDetails`: the empty rows keyed by code and their row total. */
  method EmptyItems(items: seq<QuoteItem>) returns (subtotal: real, rows: Entries<TaxDetailsItem>)
    ensures subtotal == SumRowTotal(EmptyRows(items))
    ensures rows == PutRows([], EmptyRows(items))
  {
    subtotal := 0.0;
    rows := [];
    var i := 0;
    while i < |items|
      invariant 0 <= i <= |items|
      invariant subtotal == SumRowTotal(EmptyRows(items[..i]))
      invariant rows == PutRows([], EmptyRows(items[..i]))
    {
      var taxItem := CreateEmptyDetailsTaxItem(items[i]);
      EmptyRowsSnoc(items, i);
      subtotal := subtotal + taxItem.rowTotal;
      rows := Put(rows, taxItem.code, taxItem);
      i := i + 1;
    }
    assert items[..i] == items;
  }


  lemma EmptyRowsSnoc(items: seq<QuoteItem>, i: nat)
    requires i < |items|
    ensures SumRowTotal(EmptyRows(items[..i + 1])) == SumRowTotal(EmptyRows(items[..i])) + CreateEmptyDetailsTaxItem(items[i]).rowTotal
    ensures PutRows([], EmptyRows(items[..i + 1])) ==
            Put(PutRows([], EmptyRows(items[..i])), items[i].code, CreateEmptyDetailsTaxItem(items[i]))
  {
    var row := CreateEmptyDetailsTaxItem(items[i]);
    assert items[..i + 1][..i] == items[..i];
    assert EmptyRows(items[..i + 1]) == EmptyRows(items[..i]) + [row];
    SumsSnoc(EmptyRows(items[..i]), row);
    FoldsSnoc(NoTotals, [], EmptyRows(items[..i]), row);
  }

  lemma AllDefinedPrefix(top: Entries<QuoteItem>, items: seq<QuoteItem>, index: map<string, TaxLine>, k: nat)
    requires k <= |top| && AllDefined(top, items, index)
    ensures AllDefined(top[..k], items, index)
  {
    forall j | 0 <= j < k ensures TopDefined(top[..k][j].1, items, index) {
      assert top[..k][j] == top[j];
    }
  }

  /** The children map holds exactly the parent codes that have children, each with its
      children in cart order. */
  ghost predicate ChildrenIndexed(childrenByParent: map<string, seq<QuoteItem>>, items: seq<QuoteItem>) {
    && (forall p :: p in childrenByParent <==> |Children(items, p)| > 0)
    && (forall p :: p in childrenByParent ==> childrenByParent[p] == Children(items, p))
  }

  /** The first loop: response lines by line number. */
  method IndexResultItems(lines: seq<TaxLine>) returns (resultItems: map<string, TaxLine>)
    ensures resultItems == IndexLines(lines)
  {
    resultItems := map[];
    var i := 0;
    while i < |lines|
      invariant 0 <= i <= |lines|
      invariant resultItems == IndexLines(lines[..i])
    {
      resultItems := resultItems[lines[i].lineNumber := lines[i]];
      assert lines[..i + 1][..i] == lines[..i];
      i := i + 1;
    }
    assert lines[..i] == lines;
  }

  /** The second loop: top-level items by code, children by parent code. */
  method SplitItems(items: seq<QuoteItem>)
    returns (processItems: Entries<QuoteItem>, childrenByParent: map<string, seq<QuoteItem>>)
    ensures processItems == TopItems(items)
    ensures ChildrenIndexed(childrenByParent, items)
  {
    processItems, childrenByParent := [], map[];
    var i := 0;
    while i < |items|
      invariant 0 <= i <= |items|
      invariant processItems == TopItems(items[..i])
      invariant forall p :: p in childrenByParent <==> |Children(items[..i], p)| > 0
      invariant forall p :: p in childrenByParent ==> childrenByParent[p] == Children(items[..i], p)
    {
      var item := items[i];
      assert items[..i + 1][..i] == items[..i];
      if Truthy(item.parentCode) {
        var siblings := if item.parentCode in childrenByParent then childrenByParent[item.parentCode] else [];
        childrenByParent := childrenByParent[item.parentCode := siblings + [item]];
      } else {
        processItems := Put(processItems, item.code, item);
      }
      i := i + 1;
    }
    assert items[..i] == items;
  }

  /** The loop over a bundle's children: each child's row is aggregated and stored. */
  method ProcessChildren(details: TaxDetails, kids: seq<QuoteItem>, index: map<string, TaxLine>,
                         round: bool, hostRound: real -> real, processedItems: Entries<TaxDetailsItem>)
    returns (processed: Entries<TaxDetailsItem>, processedChildren: seq<TaxDetailsItem>)
    requires RowsDefined(kids, index)
    modifies details
    ensures processedChildren == ItemRows(kids, index, round, hostRound)
    ensures details.Figures() == AggregateAll(old(details.Figures()), processedChildren)
    ensures processed == PutRows(processedItems, processedChildren)
    ensures details.discountTaxCompensationAmount == old(details.discountTaxCompensationAmount)
  {
    processed, processedChildren := processedItems, [];
    var j := 0;
    while j < |kids|
      invariant 0 <= j <= |kids|
      invariant RowsDefined(kids[..j], index)
      invariant processedChildren == ItemRows(kids[..j], index, round, hostRound)
      invariant details.Figures() == AggregateAll(old(details.Figures()), processedChildren)
      invariant processed == PutRows(processedItems, processedChildren)
      invariant details.discountTaxCompensationAmount == old(details.discountTaxCompensationAmount)
    {
      ItemRowsSnoc(kids, index, round, hostRound, j);
      var processedItem := ItemRow(kids[j], index, round, hostRound);
      AggregateTaxData(details, processedItem);
      processed := Put(processed, processedItem.code, processedItem);
      FoldsSnoc(old(details.Figures()), processedItems, processedChildren, processedItem);
      processedChildren := processedChildren + [processedItem];
      j := j + 1;
    }
    assert kids[..j] == kids;
  }

  lemma ItemRowsSnoc(kids: seq<QuoteItem>, index: map<string, TaxLine>, round: bool, hostRound: real -> real, j: nat)
    requires RowsDefined(kids, index) && j < |kids|
    ensures ItemRowDefined(kids[j], index) && RowsDefined(kids[..j + 1], index)
    ensures ItemRows(kids[..j + 1], index, round, hostRound) ==
            ItemRows(kids[..j], index, round, hostRound) + [ItemRow(kids[j], index, round, hostRound)]
  {
    assert kids[..j + 1][..j] == kids[..j];
  }

  /** The loop that combines a bundle's child rows. */
  method CombineChildren(rows: seq<TaxDetailsItem>) returns (rowTotal: real, rowTotalInclTax: real, rowTax: real)
    ensures rowTotal == SumRowTotal(rows) && rowTotalInclTax == SumRowTotalInclTax(rows) && rowTax == SumRowTax(rows)
  {
    rowTotal, rowTotalInclTax, rowTax := 0.0, 0.0, 0.0;
    var m := 0;
    while m < |rows|
      invariant 0 <= m <= |rows|
      invariant rowTotal == SumRowTotal(rows[..m])
      invariant rowTotalInclTax == SumRowTotalInclTax(rows[..m])
      invariant rowTax == SumRowTax(rows[..m])
    {
      var child := rows[m];
      assert rows[..m + 1] == rows[..m] + [child];
      SumsSnoc(rows[..m], child);
      rowTotal := rowTotal + child.rowTotal;
      rowTotalInclTax := rowTotalInclTax + child.rowTotalInclTax;
      rowTax := rowTax + child.rowTax;
      m := m + 1;
    }
    assert rows[..m] == rows;
  }

  lemma ProcessAllSnoc(top: Entries<QuoteItem>, items: seq<QuoteItem>, index: map<string, TaxLine>,
                       round: bool, hostRound: real -> real, k: nat)
    requires k < |top| && AllDefined(top, items, index)
    ensures AllDefined(top[..k], items, index) && AllDefined(top[..k + 1], items, index)
    ensures TopDefined(top[k].1, items, index)
    ensures ProcessAll(top[..k + 1], items, index, round, hostRound) ==
            ProcessTop(ProcessAll(top[..k], items, index, round, hostRound), top[k].1, items, index, round, hostRound)
  {
    AllDefinedPrefix(top, items, index, k);
    AllDefinedPrefix(top, items, index, k + 1);
    assert top[..k + 1][..k] == top[..k];
  }

  /** The body of the main loop: one top-level item, a bundle parent with its children or
      any other item on its own. */
  method ProcessItem(details: TaxDetails, item: QuoteItem, items: seq<QuoteItem>, index: map<string, TaxLine>,
                     childrenByParent: map<string, seq<QuoteItem>>, round: bool, hostRound: real -> real,
                     processedItems: Entries<TaxDetailsItem>)
    returns (processed: Entries<TaxDetailsItem>)
    requires TopDefined(item, items, index) && ChildrenIndexed(childrenByParent, items)
    modifies details
    ensures State(details.Figures(), processed) ==
            ProcessTop(State(old(details.Figures()), processedItems), item, items, index, round, hostRound)
    ensures details.discountTaxCompensationAmount == old(details.discountTaxCompensationAmount)
  {
    if item.code in childrenByParent {
      var processedChildren;
      processed, processedChildren :=
        ProcessChildren(details, childrenByParent[item.code], index, round, hostRound, processedItems);
      var rowTotal, rowTotalInclTax, rowTax := CombineChildren(processedChildren);
      var price := rowTotal / item.quantity;
      var priceInclTax := rowTotalInclTax / item.quantity;
      var processedItem := TaxDetailsItem(
        item.code, item.itemType,
        OptionalRound(price, round, hostRound), OptionalRound(priceInclTax, round, hostRound),
        OptionalRound(rowTotal, round, hostRound), OptionalRound(rowTotalInclTax, round, hostRound),
        OptionalRound(rowTax, round, hostRound),
        None, None, None, None, None);
      assert processedItem == BundleRow(item, processedChildren, round, hostRound);
      processed := Put(processed, item.code, processedItem);
    } else {
      var processedItem := ItemRow(item, index, round, hostRound);
      AggregateTaxData(details, processedItem);
      processed := Put(processedItems, item.code, processedItem);
    }
  }

  /** Indexes the lines, splits the items into top-level items and children by parent,
      then builds every row, adding each child and each non-bundle row to the cart
      figures. */
  method CalculateTax(quote: QuoteDetails, lines: seq<TaxLine>, round: bool, hostRound: real -> real)
    returns (details: TaxDetails)
    requires Computable(quote.items, lines)
    ensures fresh(details)
    ensures details.Figures() == Reconcile(quote.items, lines, round, hostRound).totals
    ensures details.items == Reconcile(quote.items, lines, round, hostRound).processed
    ensures details.discountTaxCompensationAmount.None?
  {
    var items := quote.items;
    var index := IndexResultItems(lines);
    details := new TaxDetails();
    var top, childrenByParent := SplitItems(items);
    var processedItems := ProcessTopItems(details, top, items, index, childrenByParent, round, hostRound);
    details.items := processedItems;
  }

  /** The main loop over the top-level items. */
  method ProcessTopItems(details: TaxDetails, top: Entries<QuoteItem>, items: seq<QuoteItem>, index: map<string, TaxLine>,
                         childrenByParent: map<string, seq<QuoteItem>>, round: bool, hostRound: real -> real)
    returns (processedItems: Entries<TaxDetailsItem>)
    requires AllDefined(top, items, index) && ChildrenIndexed(childrenByParent, items)
    requires details.Figures() == NoTotals && details.discountTaxCompensationAmount.None?
    modifies details
    ensures State(details.Figures(), processedItems) == ProcessAll(top, items, index, round, hostRound)
    ensures details.discountTaxCompensationAmount.None?
  {
    processedItems := [];
    for k := 0 to |top|
      invariant AllDefined(top[..k], items, index)
      invariant State(details.Figures(), processedItems) == ProcessAll(top[..k], items, index, round, hostRound)
      invariant details.discountTaxCompensationAmount.None?
    {
      ProcessAllSnoc(top, items, index, round, hostRound, k);
      processedItems := ProcessItem(details, top[k].1, items, index, childrenByParent, round, hostRound, processedItems);
    }
    assert top[..|top|] == top;
  }

}
