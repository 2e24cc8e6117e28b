/** What the reconciliation promises: the rows it builds, the keys of its output, the cart
    figures, and the fate of the cart-level applied taxes. */
module CalculatorProperties {
  import opened Wrappers
  import opened TaxifyConstants
  import opened QuoteData
  import opened PhpArray
  import opened Calculator
  import PriceForTax

  // ---------------------------------------------------------------------------
  // Single rows

  /** A matched row carries exactly one applied tax, keyed "shipping" with title
      "Shipping" for a FREIGHT line and "product_and_shipping" with title "Sales and Use"
      otherwise; its amount is the line's amount and its percent the line's rate times
      100, a missing rate counting as 0. */
  lemma AppliedTaxesOfLine(line: TaxLine)
    ensures var taxes := CreateAppliedTaxes(line);
      var key := if line.itemTaxabilityCode == "FREIGHT" then "shipping" else "product_and_shipping";
      && taxes.Keys == {key}
      && taxes[key].taxRateKey == key && taxes[key].amount == line.amount
      && taxes[key].percent == line.taxRate.GetOr(0.0) * 100.0
      && |taxes[key].rates| == 1
      && taxes[key].rates[0] == AppliedTaxRate(line.taxRate.GetOr(0.0) * 100.0,
                                               if key == "shipping" then "Shipping" else "Sales and Use", key)
  {
  }

  /** An item without a response line: no tax, no rate, no applied taxes, and its own
      price and discounted row value on both sides of the tax. */
  lemma EmptyRowFields(item: QuoteItem)
    ensures var row := CreateEmptyDetailsTaxItem(item);
      && row.code == item.code && row.rowTax == 0.0 && row.taxPercent == Some(0.0)
      && row.appliedTaxes == Some(map[])
      && row.price == item.unitPrice && row.priceInclTax == item.unitPrice
      && row.rowTotal == item.unitPrice * item.quantity - item.discountAmount
      && row.rowTotalInclTax == row.rowTotal
      && row.discountAmount == Some(item.discountAmount) && row.discountTaxCompensationAmount == Some(0.0)
  {
  }

  /** A matched item: the line's sales tax as row tax, the undiscounted quote value as row
      total, the per-unit tax added to the unit price, the rate in percent, each figure
      optionally rounded. */
  lemma MatchedRowFields(item: QuoteItem, line: TaxLine, round: bool, hostRound: real -> real)
    requires line.quantity != 0.0
    ensures var row := CreateTaxDetailsItem(item, line, round, hostRound);
      var original := PriceForTax.OriginalItemPriceOnQuote(item, hostRound);
      && row.code == line.lineNumber
      && row.rowTax == OptionalRound(line.salesTaxAmount, round, hostRound)
      && row.price == OptionalRound(item.unitPrice, round, hostRound)
      && row.priceInclTax == OptionalRound(item.unitPrice + line.salesTaxAmount / line.quantity, round, hostRound)
      && row.rowTotal == OptionalRound(original, round, hostRound)
      && row.rowTotalInclTax == OptionalRound(original + line.salesTaxAmount, round, hostRound)
      && row.taxPercent == Some(line.taxRate.GetOr(0.0) * 100.0)
      && row.appliedTaxes == Some(CreateAppliedTaxes(line))
      && row.discountAmount.None?
  {
  }

  /** The row's tax percent is its applied tax's percent. */
  lemma MatchedPercentAgrees(item: QuoteItem, line: TaxLine, round: bool, hostRound: real -> real)
    requires line.quantity != 0.0
    ensures var row := CreateTaxDetailsItem(item, line, round, hostRound);
            forall k :: k in AppliedOf(row) ==> Some(AppliedOf(row)[k].percent) == row.taxPercent
  {
  }

  /** Without rounding, a matched row's figures are the raw ones: the row total is the host-
      rounded quote value (rounding inside the price helper is not optional) and the row
      total including tax adds the sales tax exactly. */
  lemma MatchedRowUnrounded(item: QuoteItem, line: TaxLine, hostRound: real -> real)
    requires line.quantity != 0.0
    ensures var row := CreateTaxDetailsItem(item, line, false, hostRound);
      && row.rowTax == line.salesTaxAmount
      && row.rowTotalInclTax == row.rowTotal + line.salesTaxAmount
      && (row.priceInclTax - row.price) * line.quantity == line.salesTaxAmount
  {
  }

  /** A bundle parent's row: the optionally rounded sums of the child rows; without
      rounding its prices times its quantity give back its row totals. */
  lemma BundleRowFields(item: QuoteItem, rows: seq<TaxDetailsItem>, round: bool, hostRound: real -> real)
    requires item.quantity != 0.0
    ensures var row := BundleRow(item, rows, round, hostRound);
      && row.code == item.code
      && row.rowTotal == OptionalRound(SumRowTotal(rows), round, hostRound)
      && row.rowTotalInclTax == OptionalRound(SumRowTotalInclTax(rows), round, hostRound)
      && row.rowTax == OptionalRound(SumRowTax(rows), round, hostRound)
      && row.price == OptionalRound(SumRowTotal(rows) / item.quantity, round, hostRound)
      && row.priceInclTax == OptionalRound(SumRowTotalInclTax(rows) / item.quantity, round, hostRound)
      && (!round ==> row.price * item.quantity == row.rowTotal && row.priceInclTax * item.quantity == row.rowTotalInclTax)
      && row.appliedTaxes.None? && row.taxPercent.None?
  {
  }

  // ---------------------------------------------------------------------------
  // Matching lines to items

  /** The index holds a line number exactly when some line has it. */
  lemma {:induction false} IndexLinesHas(lines: seq<TaxLine>, k: string)
    ensures k in IndexLines(lines) <==> exists i :: 0 <= i < |lines| && lines[i].lineNumber == k
  {
    if |lines| > 0 {
      var n := |lines| - 1;
      var init := lines[..n];
      IndexLinesHas(init, k);
      if exists i :: 0 <= i < |lines| && lines[i].lineNumber == k {
        var i :| 0 <= i < |lines| && lines[i].lineNumber == k;
        if i < n { assert init[i] == lines[i]; }
      }
      if exists i :: 0 <= i < |init| && init[i].lineNumber == k {
        var i :| 0 <= i < |init| && init[i].lineNumber == k;
        assert lines[i] == init[i];
      }
    }
  }

  /** For a line number held by several lines, the index holds the last of them. */
  lemma {:induction false} IndexLinesLastWins(lines: seq<TaxLine>, i: nat)
    requires i < |lines|
    requires forall j :: i < j < |lines| ==> lines[j].lineNumber != lines[i].lineNumber
    ensures lines[i].lineNumber in IndexLines(lines) && IndexLines(lines)[lines[i].lineNumber] == lines[i]
  {
    var n := |lines| - 1;
    if i < n {
      var init := lines[..n];
      assert init[i] == lines[i];
      forall j | i < j < |init| ensures init[j].lineNumber != init[i].lineNumber {
        assert init[j] == lines[j];
      }
      IndexLinesLastWins(init, i);
    }
  }

  /** An item no line answers gets the empty row; an item answered gets the row built from
      the last line with its code. */
  lemma ItemRowFromLines(item: QuoteItem, lines: seq<TaxLine>, i: nat, round: bool, hostRound: real -> real)
    requires ItemRowDefined(item, IndexLines(lines))
    ensures (forall j :: 0 <= j < |lines| ==> lines[j].lineNumber != item.code) ==>
              ItemRow(item, IndexLines(lines), round, hostRound) == CreateEmptyDetailsTaxItem(item)
    ensures i < |lines| && lines[i].lineNumber == item.code &&
            (forall j :: i < j < |lines| ==> lines[j].lineNumber != item.code) ==>
              lines[i].quantity != 0.0 &&
              ItemRow(item, IndexLines(lines), round, hostRound) == CreateTaxDetailsItem(item, lines[i], round, hostRound)
  {
    IndexLinesHas(lines, item.code);
    if i < |lines| && lines[i].lineNumber == item.code &&
       (forall j :: i < j < |lines| ==> lines[j].lineNumber != item.code) {
      IndexLinesLastWins(lines, i);
    }
  }

  // ---------------------------------------------------------------------------
  // Which codes the output holds

  /** The codes of the top-level items. */
  function TopCodes(items: seq<QuoteItem>): set<string> {
    set x | x in items && !Truthy(x.parentCode) :: x.code
  }

  /** The codes of the children whose parent code is some top-level item's code. */
  function ChildCodesUnderTop(items: seq<QuoteItem>): set<string> {
    set x | x in items && Truthy(x.parentCode) && x.parentCode in TopCodes(items) :: x.code
  }

  /** Entries of a top-level map: each holds a top-level item of the cart under its code. */
  predicate WellShaped(top: Entries<QuoteItem>, items: seq<QuoteItem>) {
    forall j :: 0 <= j < |top| ==> top[j].1 in items && !Truthy(top[j].1.parentCode) && top[j].0 == top[j].1.code
  }

  predicate KeyedByLineNumber(index: map<string, TaxLine>) {
    forall k :: k in index ==> index[k].lineNumber == k
  }

  /** The children of a parent code are exactly the cart's items with that truthy parent
      code. */
  lemma {:induction false} ChildrenMembers(items: seq<QuoteItem>, p: string)
    ensures forall c :: c in Children(items, p) <==> c in items && Truthy(c.parentCode) && c.parentCode == p
  {
    if |items| > 0 {
      var n := |items| - 1;
      ChildrenMembers(items[..n], p);
      assert items == items[..n] + [items[n]];
    }
  }

  /** The top-level map holds every top-level code once, each with a top-level item of
      that code. */
  lemma {:induction false} TopItemsShape(items: seq<QuoteItem>)
    ensures Keys(TopItems(items)) == TopCodes(items)
    ensures WellShaped(TopItems(items), items)
    ensures UniqueKeys(TopItems(items))
  {
    if |items| > 0 {
      var n := |items| - 1;
      var init, last := items[..n], items[n];
      TopItemsShape(init);
      assert items == init + [last];
      var before := TopItems(init);
      forall j | 0 <= j < |before| ensures before[j].1 in items { }
      if Truthy(last.parentCode) {
        assert TopCodes(items) == TopCodes(init);
      } else {
        assert TopCodes(items) == TopCodes(init) + {last.code};
        PutEntries(before, last.code, last);
        PutKeepsUniqueKeys(before, last.code, last);
      }
    }
  }

  function ChildCodes(items: seq<QuoteItem>, p: string): set<string> {
    set c | c in Children(items, p) :: c.code
  }

  /** The codes the processing of `top` stores: each entry's code and its children's. */
  function OutKeys(top: Entries<QuoteItem>, items: seq<QuoteItem>): set<string> {
    if |top| == 0 then {}
    else OutKeys(top[..|top| - 1], items) + {top[|top| - 1].1.code} + ChildCodes(items, top[|top| - 1].1.code)
  }

  function RowCodes(rows: seq<TaxDetailsItem>): set<string> {
    set r | r in rows :: r.code
  }

  lemma ItemRowCode(item: QuoteItem, index: map<string, TaxLine>, round: bool, hostRound: real -> real)
    requires KeyedByLineNumber(index) && ItemRowDefined(item, index)
    ensures ItemRow(item, index, round, hostRound).code == item.code
  {
  }

  lemma {:induction false} ItemRowsCodes(kids: seq<QuoteItem>, index: map<string, TaxLine>,
                                         round: bool, hostRound: real -> real)
    requires KeyedByLineNumber(index) && RowsDefined(kids, index)
    ensures RowCodes(ItemRows(kids, index, round, hostRound)) == set c | c in kids :: c.code
  {
    if |kids| > 0 {
      var n := |kids| - 1;
      var init := kids[..n];
      assert RowsDefined(init, index) by {
        forall i | 0 <= i < |init| ensures ItemRowDefined(init[i], index) { assert init[i] == kids[i]; }
      }
      ItemRowsCodes(init, index, round, hostRound);
      ItemRowCode(kids[n], index, round, hostRound);
      assert kids == init + [kids[n]];
      var rows := ItemRows(kids, index, round, hostRound);
      var initRows := ItemRows(init, index, round, hostRound);
      assert rows == initRows + [ItemRow(kids[n], index, round, hostRound)];
      assert RowCodes(rows) == RowCodes(initRows) + {kids[n].code};
      assert (set c | c in kids :: c.code) == (set c | c in init :: c.code) + {kids[n].code};
    }
  }

  lemma RowCodesLast(rows: seq<TaxDetailsItem>)
    requires |rows| > 0
    ensures RowCodes(rows) == RowCodes(rows[..|rows| - 1]) + {rows[|rows| - 1].code}
  {
    var init := rows[..|rows| - 1];
    forall c | c in RowCodes(rows) ensures c in RowCodes(init) + {rows[|rows| - 1].code} {
      var i :| 0 <= i < |rows| && rows[i].code == c;
      if i < |init| { assert init[i] == rows[i]; }
    }
  }

  lemma {:induction false} KeysPutRows(m: Entries<TaxDetailsItem>, rows: seq<TaxDetailsItem>)
    ensures Keys(PutRows(m, rows)) == Keys(m) + RowCodes(rows)
  {
    if |rows| > 0 {
      KeysPutRows(m, rows[..|rows| - 1]);
      RowCodesLast(rows);
    }
  }

  lemma {:induction false} ProcessAllKeys(top: Entries<QuoteItem>, items: seq<QuoteItem>, index: map<string, TaxLine>,
                                          round: bool, hostRound: real -> real)
    requires AllDefined(top, items, index) && KeyedByLineNumber(index)
    ensures Keys(ProcessAll(top, items, index, round, hostRound).processed) == OutKeys(top, items)
  {
    if |top| > 0 {
      var n := |top| - 1;
      AllDefinedPrefix(top, items, index, n);
      ProcessAllKeys(top[..n], items, index, round, hostRound);
      var t := top[n].1;
      assert TopDefined(t, items, index);
      var s := ProcessAll(top[..n], items, index, round, hostRound);
      var kids := Children(items, t.code);
      if |kids| > 0 {
        var rows := ItemRows(kids, index, round, hostRound);
        KeysPutRows(s.processed, rows);
        ItemRowsCodes(kids, index, round, hostRound);
      } else {
        assert ChildCodes(items, t.code) == {};
      }
    }
  }

  lemma {:induction false} OutKeysShape(top: Entries<QuoteItem>, items: seq<QuoteItem>)
    requires WellShaped(top, items)
    ensures OutKeys(top, items) ==
            Keys(top) + set c | c in items && Truthy(c.parentCode) && c.parentCode in Keys(top) :: c.code
  {
    if |top| > 0 {
      var n := |top| - 1;
      var init, last := top[..n], top[n];
      assert WellShaped(init, items) by {
        forall j | 0 <= j < |init| ensures init[j] == top[j] { }
      }
      OutKeysShape(init, items);
      assert top == init + [last];
      KeysSnoc(init, last);
      ChildrenMembers(items, last.1.code);
      assert last.0 == last.1.code;
    }
  }

  /** The output's keys are exactly the top-level codes and the codes of children whose
      parent is a top-level item; children of anything else are dropped. */
  lemma ReconcileKeys(items: seq<QuoteItem>, lines: seq<TaxLine>, round: bool, hostRound: real -> real)
    requires Computable(items, lines)
    ensures Keys(Reconcile(items, lines, round, hostRound).processed) == TopCodes(items) + ChildCodesUnderTop(items)
  {
    TopItemsShape(items);
    ProcessAllKeys(TopItems(items), items, IndexLines(lines), round, hostRound);
    OutKeysShape(TopItems(items), items);
  }

  // ---------------------------------------------------------------------------
  // Cart figures

  /** The rows that reach the cart figures for one top-level item: a bundle parent's
      children, or the item's own row. */
  function TopRows(item: QuoteItem, items: seq<QuoteItem>, index: map<string, TaxLine>,
                   round: bool, hostRound: real -> real): seq<TaxDetailsItem>
    requires TopDefined(item, items, index)
  {
    var kids := Children(items, item.code);
    if |kids| > 0 then ItemRows(kids, index, round, hostRound) else [ItemRow(item, index, round, hostRound)]
  }

  /** The rows aggregated into the cart figures, in processing order. */
  function AggregatedRows(top: Entries<QuoteItem>, items: seq<QuoteItem>, index: map<string, TaxLine>,
                          round: bool, hostRound: real -> real): seq<TaxDetailsItem>
    requires AllDefined(top, items, index)
  {
    if |top| == 0 then []
    else
      AllDefinedPrefix(top, items, index, |top| - 1);
      AggregatedRows(top[..|top| - 1], items, index, round, hostRound) + TopRows(top[|top| - 1].1, items, index, round, hostRound)
  }

  lemma {:induction false} AggregateAllAppend(totals: Totals, a: seq<TaxDetailsItem>, b: seq<TaxDetailsItem>)
    ensures AggregateAll(totals, a + b) == AggregateAll(AggregateAll(totals, a), b)
  {
    if |b| > 0 {
      var n := |b| - 1;
      AggregateAllAppend(totals, a, b[..n]);
      assert (a + b)[..|a + b| - 1] == a + b[..n];
      assert (a + b)[|a + b| - 1] == b[n];
      assert AggregateAll(totals, a + b) == Aggregate(AggregateAll(totals, a + b[..n]), b[n]);
    } else {
      assert a + b == a;
    }
  }

  /** The cart figures are the fold of the aggregated rows. */
  lemma {:induction false} ProcessAllTotals(top: Entries<QuoteItem>, items: seq<QuoteItem>, index: map<string, TaxLine>,
                                            round: bool, hostRound: real -> real)
    requires AllDefined(top, items, index)
    ensures ProcessAll(top, items, index, round, hostRound).totals ==
            AggregateAll(NoTotals, AggregatedRows(top, items, index, round, hostRound))
  {
    if |top| > 0 {
      var n := |top| - 1;
      AllDefinedPrefix(top, items, index, n);
      ProcessAllTotals(top[..n], items, index, round, hostRound);
      var t := top[n].1;
      assert TopDefined(t, items, index);
      AggregateAllAppend(NoTotals, AggregatedRows(top[..n], items, index, round, hostRound),
                         TopRows(t, items, index, round, hostRound));
    }
  }

  /** Subtotal and tax amount grow by the rows' sums. */
  lemma {:induction false} AggregateAllSums(totals: Totals, rows: seq<TaxDetailsItem>)
    ensures AggregateAll(totals, rows).subtotal == totals.subtotal + SumRowTotal(rows)
    ensures AggregateAll(totals, rows).taxAmount == totals.taxAmount + SumRowTax(rows)
  {
    if |rows| > 0 {
      AggregateAllSums(totals, rows[..|rows| - 1]);
    }
  }

  /** Some row carries an applied tax under key `k`. */
  predicate CarriesTax(rows: seq<TaxDetailsItem>, k: string) {
    exists i :: 0 <= i < |rows| && k in AppliedOf(rows[i])
  }

  /** The total amount the rows carry under key `k`. */
  function AmountSum(rows: seq<TaxDetailsItem>, k: string): real {
    if |rows| == 0 then 0.0
    else AmountSum(rows[..|rows| - 1], k) + (if k in AppliedOf(rows[|rows| - 1]) then AppliedOf(rows[|rows| - 1])[k].amount else 0.0)
  }

  lemma {:induction false} CarriesTaxSnoc(rows: seq<TaxDetailsItem>, k: string)
    requires |rows| > 0
    ensures CarriesTax(rows, k) <==> CarriesTax(rows[..|rows| - 1], k) || k in AppliedOf(rows[|rows| - 1])
  {
    var init := rows[..|rows| - 1];
    if CarriesTax(rows, k) {
      var i :| 0 <= i < |rows| && k in AppliedOf(rows[i]);
      if i < |init| { assert init[i] == rows[i]; }
    }
    if CarriesTax(init, k) {
      var i :| 0 <= i < |init| && k in AppliedOf(init[i]);
      assert rows[i] == init[i];
    }
  }

  lemma {:induction false} AmountSumAbsent(rows: seq<TaxDetailsItem>, k: string)
    requires !CarriesTax(rows, k)
    ensures AmountSum(rows, k) == 0.0
  {
    if |rows| > 0 {
      CarriesTaxSnoc(rows, k);
      AmountSumAbsent(rows[..|rows| - 1], k);
    }
  }

  /** The cart-level applied taxes: a key is there when it was there before or some row
      carries it, and its amount is the earlier amount plus every row's amount under it. */
  lemma {:induction false} AggregateAllApplied(totals: Totals, rows: seq<TaxDetailsItem>, k: string)
    ensures var applied := AggregateAll(totals, rows).appliedTaxes;
      var earlier := if k in totals.appliedTaxes then totals.appliedTaxes[k].amount else 0.0;
      && (k in applied <==> k in totals.appliedTaxes || CarriesTax(rows, k))
      && (k in applied ==> applied[k].amount == earlier + AmountSum(rows, k))
  {
    if |rows| > 0 {
      var init := rows[..|rows| - 1];
      AggregateAllApplied(totals, init, k);
      CarriesTaxSnoc(rows, k);
      var before := AggregateAll(totals, init).appliedTaxes;
      if k !in before {
        AmountSumAbsent(init, k);
      }
    }
  }

  /** Subtotal and tax amount of the reconciliation are the sums over the aggregated rows,
      and every response category appears once with its amounts added up. */
  lemma ReconcileTotals(items: seq<QuoteItem>, lines: seq<TaxLine>, round: bool, hostRound: real -> real, k: string)
    requires Computable(items, lines)
    ensures var rows := AggregatedRows(TopItems(items), items, IndexLines(lines), round, hostRound);
      var totals := Reconcile(items, lines, round, hostRound).totals;
      && totals.subtotal == SumRowTotal(rows)
      && totals.taxAmount == SumRowTax(rows)
      && (k in totals.appliedTaxes <==> CarriesTax(rows, k))
      && (k in totals.appliedTaxes ==> totals.appliedTaxes[k].amount == AmountSum(rows, k))
  {
    var rows := AggregatedRows(TopItems(items), items, IndexLines(lines), round, hostRound);
    ProcessAllTotals(TopItems(items), items, IndexLines(lines), round, hostRound);
    AggregateAllSums(NoTotals, rows);
    AggregateAllApplied(NoTotals, rows, k);
  }

  lemma RowCodesAppend(a: seq<TaxDetailsItem>, b: seq<TaxDetailsItem>)
    ensures RowCodes(a + b) == RowCodes(a) + RowCodes(b)
  {
    forall c | c in RowCodes(a + b) ensures c in RowCodes(a) + RowCodes(b) {
      var r :| r in a + b && r.code == c;
    }
  }

  /** The codes of the entries whose code is nobody's parent code. */
  function LeafKeys(top: Entries<QuoteItem>, items: seq<QuoteItem>): set<string> {
    if |top| == 0 then {}
    else LeafKeys(top[..|top| - 1], items) + (if |Children(items, top[|top| - 1].0)| == 0 then {top[|top| - 1].0} else {})
  }

  lemma {:induction false} LeafKeysAt(top: Entries<QuoteItem>, items: seq<QuoteItem>, c: string)
    ensures c in LeafKeys(top, items) <==> exists j :: 0 <= j < |top| && top[j].0 == c && |Children(items, c)| == 0
  {
    if |top| > 0 {
      var n := |top| - 1;
      var init := top[..n];
      LeafKeysAt(init, items, c);
      if exists j :: 0 <= j < |top| && top[j].0 == c && |Children(items, c)| == 0 {
        var j :| 0 <= j < |top| && top[j].0 == c && |Children(items, c)| == 0;
        if j < n { assert init[j] == top[j]; }
      }
      if exists j :: 0 <= j < |init| && init[j].0 == c && |Children(items, c)| == 0 {
        var j :| 0 <= j < |init| && init[j].0 == c && |Children(items, c)| == 0;
        assert top[j] == init[j];
      }
    }
  }

  lemma TopRowsCodes(t: QuoteItem, items: seq<QuoteItem>, index: map<string, TaxLine>, round: bool, hostRound: real -> real)
    requires TopDefined(t, items, index) && KeyedByLineNumber(index)
    ensures RowCodes(TopRows(t, items, index, round, hostRound)) ==
            (if |Children(items, t.code)| == 0 then {t.code} else {}) + ChildCodes(items, t.code)
  {
    var kids := Children(items, t.code);
    if |kids| > 0 {
      ItemRowsCodes(kids, index, round, hostRound);
    } else {
      ItemRowCode(t, index, round, hostRound);
      assert RowCodes([ItemRow(t, index, round, hostRound)]) == {t.code};
    }
  }

  /** The codes of the children of the entries. */
  function UnderKeys(top: Entries<QuoteItem>, items: seq<QuoteItem>): set<string> {
    if |top| == 0 then {} else UnderKeys(top[..|top| - 1], items) + ChildCodes(items, top[|top| - 1].1.code)
  }

  lemma {:induction false} UnderKeysShape(top: Entries<QuoteItem>, items: seq<QuoteItem>)
    requires WellShaped(top, items)
    ensures UnderKeys(top, items) == set c | c in items && Truthy(c.parentCode) && c.parentCode in Keys(top) :: c.code
  {
    if |top| > 0 {
      var n := |top| - 1;
      var init, last := top[..n], top[n];
      assert WellShaped(init, items) by {
        forall j | 0 <= j < |init| ensures init[j] == top[j] { }
      }
      UnderKeysShape(init, items);
      assert top == init + [last];
      KeysSnoc(init, last);
      ChildrenMembers(items, last.1.code);
      assert last.0 == last.1.code;
    }
  }

  /** The codes of the rows that reach the cart figures, entry by entry. */
  lemma {:induction false} AggregatedRowsCodes(top: Entries<QuoteItem>, items: seq<QuoteItem>, index: map<string, TaxLine>,
                                               round: bool, hostRound: real -> real)
    requires AllDefined(top, items, index) && KeyedByLineNumber(index) && WellShaped(top, items)
    ensures RowCodes(AggregatedRows(top, items, index, round, hostRound)) == LeafKeys(top, items) + UnderKeys(top, items)
  {
    if |top| > 0 {
      var n := |top| - 1;
      var init := top[..n];
      AllDefinedPrefix(top, items, index, n);
      assert WellShaped(init, items) by {
        forall j | 0 <= j < |init| ensures init[j] == top[j] { }
      }
      AggregatedRowsCodes(init, items, index, round, hostRound);
      var t := top[n].1;
      assert TopDefined(t, items, index);
      assert top[n].0 == t.code;
      RowCodesAppend(AggregatedRows(init, items, index, round, hostRound), TopRows(t, items, index, round, hostRound));
      TopRowsCodes(t, items, index, round, hostRound);
    }
  }

  /** A top-level item without children whose code is some item's parent code. */
  function LeafCodes(items: seq<QuoteItem>): set<string> {
    set x | x in items && !Truthy(x.parentCode) && |Children(items, x.code)| == 0 :: x.code
  }

  /** Only rows of items with no children reach the cart figures: childless top-level
      items and children of top-level items; bundle parents are not aggregated twice. */
  lemma ReconcileAggregatesLeaves(items: seq<QuoteItem>, lines: seq<TaxLine>, round: bool, hostRound: real -> real)
    requires Computable(items, lines)
    ensures RowCodes(AggregatedRows(TopItems(items), items, IndexLines(lines), round, hostRound)) ==
            LeafCodes(items) + ChildCodesUnderTop(items)
  {
    var top := TopItems(items);
    TopItemsShape(items);
    AggregatedRowsCodes(top, items, IndexLines(lines), round, hostRound);
    UnderKeysShape(top, items);
    forall c | c in LeafCodes(items) ensures c in LeafKeys(top, items) {
      var x :| x in items && !Truthy(x.parentCode) && |Children(items, x.code)| == 0 && x.code == c;
      assert c in TopCodes(items);
      var j :| 0 <= j < |top| && top[j].0 == c;
      LeafKeysAt(top, items, c);
    }
    forall c | c in LeafKeys(top, items) ensures c in LeafCodes(items) {
      LeafKeysAt(top, items, c);
      var j :| 0 <= j < |top| && top[j].0 == c && |Children(items, c)| == 0;
      assert top[j].1 in items && top[j].1.code == c;
    }
  }

  // ---------------------------------------------------------------------------
  // The cart-level applied taxes as written

  /** The aggregation step as written: merged taxes are built but only updates of keys the
      cart already holds survive. */
  function AggregateAsWritten(totals: Totals, row: TaxDetailsItem): Totals {
    Totals(totals.subtotal + row.rowTotal, totals.taxAmount + row.rowTax,
           MergeAsWritten(totals.appliedTaxes, AppliedOf(row)))
  }

  function AggregateAllAsWritten(totals: Totals, rows: seq<TaxDetailsItem>): Totals {
    if |rows| == 0 then totals else AggregateAsWritten(AggregateAllAsWritten(totals, rows[..|rows| - 1]), rows[|rows| - 1])
  }

  /** Starting from the empty list the reconciliation sets, the cart-level applied taxes as
      written stay empty whatever the rows carry, while subtotal and tax amount agree. */
  lemma {:induction false} AsWrittenStaysEmpty(rows: seq<TaxDetailsItem>)
    ensures AggregateAllAsWritten(NoTotals, rows).appliedTaxes == map[]
    ensures AggregateAllAsWritten(NoTotals, rows).subtotal == AggregateAll(NoTotals, rows).subtotal
    ensures AggregateAllAsWritten(NoTotals, rows).taxAmount == AggregateAll(NoTotals, rows).taxAmount
  {
    if |rows| > 0 {
      AsWrittenStaysEmpty(rows[..|rows| - 1]);
    }
  }

  /** Every category a row carries is lost as written and kept by the intended merge. */
  lemma AsWrittenLosesCategories(rows: seq<TaxDetailsItem>, i: nat, k: string)
    requires i < |rows| && k in AppliedOf(rows[i])
    ensures k !in AggregateAllAsWritten(NoTotals, rows).appliedTaxes
    ensures k in AggregateAll(NoTotals, rows).appliedTaxes
  {
    AsWrittenStaysEmpty(rows);
    AggregateAllApplied(NoTotals, rows, k);
  }

  // ---------------------------------------------------------------------------
  // The row stored for each item

  /** `row` is what the reconciliation stores for item `x`: a top-level item with
      children gets the combination of its children's rows, any other item its own row. */
  predicate Produces(x: QuoteItem, row: TaxDetailsItem, items: seq<QuoteItem>, index: map<string, TaxLine>,
                     round: bool, hostRound: real -> real)
  {
    var kids := Children(items, x.code);
    if !Truthy(x.parentCode) && |kids| > 0 then
      x.quantity != 0.0 && RowsDefined(kids, index) && row == BundleRow(x, ItemRows(kids, index, round, hostRound), round, hostRound)
    else
      ItemRowDefined(x, index) && row == ItemRow(x, index, round, hostRound)
  }

  /** Every stored row is what some item of that code produces. */
  predicate StoredRows(m: Entries<TaxDetailsItem>, items: seq<QuoteItem>, index: map<string, TaxLine>,
                       round: bool, hostRound: real -> real)
  {
    forall j :: 0 <= j < |m| ==> exists x :: x in items && x.code == m[j].0 && Produces(x, m[j].1, items, index, round, hostRound)
  }

  lemma PutStored(m: Entries<TaxDetailsItem>, x: QuoteItem, row: TaxDetailsItem, items: seq<QuoteItem>,
                  index: map<string, TaxLine>, round: bool, hostRound: real -> real)
    requires StoredRows(m, items, index, round, hostRound)
    requires x in items && Produces(x, row, items, index, round, hostRound)
    ensures StoredRows(Put(m, x.code, row), items, index, round, hostRound)
  {
    var r := Put(m, x.code, row);
    PutEntries(m, x.code, row);
    forall j | 0 <= j < |r|
      ensures exists y :: y in items && y.code == r[j].0 && Produces(y, r[j].1, items, index, round, hostRound)
    {
      if r[j] != (x.code, row) {
        var i :| 0 <= i < |m| && m[i] == r[j];
      }
    }
  }

  lemma {:induction false} PutChildRowsStored(m: Entries<TaxDetailsItem>, kids: seq<QuoteItem>, items: seq<QuoteItem>,
                                              index: map<string, TaxLine>, round: bool, hostRound: real -> real)
    requires StoredRows(m, items, index, round, hostRound) && KeyedByLineNumber(index) && RowsDefined(kids, index)
    requires forall c :: c in kids ==> c in items && Truthy(c.parentCode)
    ensures StoredRows(PutRows(m, ItemRows(kids, index, round, hostRound)), items, index, round, hostRound)
  {
    if |kids| > 0 {
      var n := |kids| - 1;
      var init := kids[..n];
      assert RowsDefined(init, index) by {
        forall i | 0 <= i < |init| ensures ItemRowDefined(init[i], index) { assert init[i] == kids[i]; }
      }
      PutChildRowsStored(m, init, items, index, round, hostRound);
      var c := kids[n];
      var row := ItemRow(c, index, round, hostRound);
      ItemRowCode(c, index, round, hostRound);
      FoldsSnoc(NoTotals, m, ItemRows(init, index, round, hostRound), row);
      PutStored(PutRows(m, ItemRows(init, index, round, hostRound)), c, row, items, index, round, hostRound);
    }
  }

  lemma {:induction false} ProcessAllStored(top: Entries<QuoteItem>, items: seq<QuoteItem>, index: map<string, TaxLine>,
                                            round: bool, hostRound: real -> real)
    requires AllDefined(top, items, index) && KeyedByLineNumber(index) && WellShaped(top, items)
    ensures StoredRows(ProcessAll(top, items, index, round, hostRound).processed, items, index, round, hostRound)
  {
    if |top| > 0 {
      var n := |top| - 1;
      var init := top[..n];
      AllDefinedPrefix(top, items, index, n);
      assert WellShaped(init, items) by {
        forall j | 0 <= j < |init| ensures init[j] == top[j] { }
      }
      ProcessAllStored(init, items, index, round, hostRound);
      var t := top[n].1;
      assert TopDefined(t, items, index) && t in items && !Truthy(t.parentCode);
      var s := ProcessAll(init, items, index, round, hostRound);
      var kids := Children(items, t.code);
      ChildrenMembers(items, t.code);
      if |kids| > 0 {
        var rows := ItemRows(kids, index, round, hostRound);
        PutChildRowsStored(s.processed, kids, items, index, round, hostRound);
        PutStored(PutRows(s.processed, rows), t, BundleRow(t, rows, round, hostRound), items, index, round, hostRound);
      } else {
        PutStored(s.processed, t, ItemRow(t, index, round, hostRound), items, index, round, hostRound);
      }
    }
  }

  /** No two items share a code. */
  predicate UniqueCodes(items: seq<QuoteItem>) {
    forall i, j :: 0 <= i < j < |items| ==> items[i].code != items[j].code
  }

  /** With distinct codes, the output holds an item exactly when it is top-level or its
      parent is a top-level item, and then holds the row that item produces: a matched or
      empty row of its own, or for a bundle parent the combination of its children's. */
  lemma ReconcileRow(items: seq<QuoteItem>, lines: seq<TaxLine>, round: bool, hostRound: real -> real, i: nat)
    requires Computable(items, lines) && UniqueCodes(items) && i < |items|
    ensures var processed := Reconcile(items, lines, round, hostRound).processed;
      var x := items[i];
      && (x.code in Keys(processed) <==> !Truthy(x.parentCode) || x.parentCode in TopCodes(items))
      && (x.code in Keys(processed) ==> Produces(x, Get(processed, x.code).value, items, IndexLines(lines), round, hostRound))
  {
    var processed := Reconcile(items, lines, round, hostRound).processed;
    var x := items[i];
    ReconcileKeys(items, lines, round, hostRound);
    if x.code in TopCodes(items) {
      var y :| y in items && !Truthy(y.parentCode) && y.code == x.code;
    }
    if x.code in ChildCodesUnderTop(items) {
      var y :| y in items && Truthy(y.parentCode) && y.parentCode in TopCodes(items) && y.code == x.code;
    }
    if x.code in Keys(processed) {
      TopItemsShape(items);
      ProcessAllStored(TopItems(items), items, IndexLines(lines), round, hostRound);
      GetEntry(processed, x.code);
      var j :| 0 <= j < |processed| && processed[j] == (x.code, Get(processed, x.code).value);
      var y :| y in items && y.code == processed[j].0 && Produces(y, processed[j].1, items, IndexLines(lines), round, hostRound);
    }
  }

  // ---------------------------------------------------------------------------
  // The details without tax

  /** The discounted quote value of the items. */
  function DiscountedValue(items: seq<QuoteItem>): real {
    if |items| == 0 then 0.0
    else DiscountedValue(items[..|items| - 1]) + (RowValue(items[|items| - 1]) - items[|items| - 1].discountAmount)
  }

  /** Every entry is the empty row of an item of its code. */
  predicate EmptyStored(m: Entries<TaxDetailsItem>, items: seq<QuoteItem>) {
    forall j :: 0 <= j < |m| ==> exists x :: x in items && x.code == m[j].0 && m[j].1 == CreateEmptyDetailsTaxItem(x)
  }

  lemma {:induction false} EmptyRowsCodes(items: seq<QuoteItem>)
    ensures RowCodes(EmptyRows(items)) == set x | x in items :: x.code
  {
    if |items| > 0 {
      var n := |items| - 1;
      var init, last := items[..n], items[n];
      EmptyRowsCodes(init);
      assert items == init + [last];
      assert EmptyRows(items) == EmptyRows(init) + [CreateEmptyDetailsTaxItem(last)];
      assert RowCodes(EmptyRows(items)) == RowCodes(EmptyRows(init)) + {last.code};
      assert (set x | x in items :: x.code) == (set x | x in init :: x.code) + {last.code};
    }
  }

  lemma {:induction false} EmptyRowsSums(items: seq<QuoteItem>)
    ensures SumRowTotal(EmptyRows(items)) == DiscountedValue(items)
    ensures SumRowTax(EmptyRows(items)) == 0.0
  {
    if |items| > 0 {
      var n := |items| - 1;
      EmptyRowsSums(items[..n]);
      SumsSnoc(EmptyRows(items[..n]), CreateEmptyDetailsTaxItem(items[n]));
    }
  }

  lemma PutEmptyStored(m: Entries<TaxDetailsItem>, x: QuoteItem, all: seq<QuoteItem>)
    requires EmptyStored(m, all) && x in all
    ensures EmptyStored(Put(m, x.code, CreateEmptyDetailsTaxItem(x)), all)
  {
    var row := CreateEmptyDetailsTaxItem(x);
    var r := Put(m, x.code, row);
    PutEntries(m, x.code, row);
    forall j | 0 <= j < |r|
      ensures exists y :: y in all && y.code == r[j].0 && r[j].1 == CreateEmptyDetailsTaxItem(y)
    {
      if r[j] != (x.code, row) {
        var i :| 0 <= i < |m| && m[i] == r[j];
      }
    }
  }

  lemma {:induction false} EmptyRowsStored(items: seq<QuoteItem>, all: seq<QuoteItem>)
    requires forall x :: x in items ==> x in all
    ensures EmptyStored(PutRows([], EmptyRows(items)), all)
  {
    if |items| > 0 {
      var n := |items| - 1;
      var init, last := items[..n], items[n];
      assert forall x :: x in init ==> x in items;
      EmptyRowsStored(init, all);
      FoldsSnoc(NoTotals, [], EmptyRows(init), CreateEmptyDetailsTaxItem(last));
      PutEmptyStored(PutRows([], EmptyRows(init)), last, all);
    }
  }

  /** The details without tax hold every item's code, a subtotal that is the discounted
      quote value and no tax, and each stored row is the empty row of an item of its code. */
  lemma EmptyDetailsShape(items: seq<QuoteItem>)
    ensures Keys(PutRows([], EmptyRows(items))) == set x | x in items :: x.code
    ensures SumRowTotal(EmptyRows(items)) == DiscountedValue(items)
    ensures SumRowTax(EmptyRows(items)) == 0.0
    ensures EmptyStored(PutRows([], EmptyRows(items)), items)
  {
    KeysPutRows([], EmptyRows(items));
    EmptyRowsCodes(items);
    EmptyRowsSums(items);
    EmptyRowsStored(items, items);
  }

  /** With distinct codes, each item's code holds exactly its empty row. */
  lemma EmptyDetailsRow(items: seq<QuoteItem>, i: nat)
    requires UniqueCodes(items) && i < |items|
    ensures Get(PutRows([], EmptyRows(items)), items[i].code) == Some(CreateEmptyDetailsTaxItem(items[i]))
  {
    var m := PutRows([], EmptyRows(items));
    KeysPutRows([], EmptyRows(items));
    EmptyRowsCodes(items);
    EmptyRowsStored(items, items);
    assert items[i].code in Keys(m);
    GetEntry(m, items[i].code);
    var j :| 0 <= j < |m| && m[j] == (items[i].code, Get(m, items[i].code).value);
    var x :| x in items && x.code == m[j].0 && m[j].1 == CreateEmptyDetailsTaxItem(x);
  }
}
