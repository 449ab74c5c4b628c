/** Saved quotes: the record snapshot taken when the operator saves the
    current quote, and the list operations on the session's saved list. */
module Quotes {
  import opened Numeric
  import opened Rates
  import opened Pricing
  import opened Text

  /** A saved quote. `id` comes from the clock in the application and is
      passed in here. */
  datatype SavedQuote = SavedQuote(
    id: int,
    clientName: string,
    sizeCm: int,
    qty: nat,
    finish: Finish,
    finishLabel: string,
    marginRate: real,
    totalNoShippingRounded: int,
    totalWithIncludedRounded: int,
    profitIncluded: real,
    ivaIncluded: real,
    includedFee: real)

  /** The record `onSaveQuote` builds: the reference total without shipping
      and the total with the standard included fee, with the profit and IVA
      parts of the latter. */
  function MakeQuote(id: int, clientName: string, sizeCm: int, qty: nat, finish: Finish): (q: SavedQuote)
    ensures q.id == id && q.sizeCm == sizeCm && q.qty == qty && q.finish == finish
    ensures q.clientName == Trim(clientName) && q.finishLabel == FinishLabel(finish)
    ensures q.marginRate == Margin(sizeCm) && q.includedFee == INCLUDED_FEE_PER_QUOTE
    ensures q.totalNoShippingRounded == QuoteTotalNoShipping(qty, sizeCm, finish)
    ensures q.totalWithIncludedRounded == QuoteTotalWithIncludedFee(qty, sizeCm, finish, INCLUDED_FEE_PER_QUOTE)
    ensures var t := ComputeTotals(OperariosWithoutShipping(qty, sizeCm, finish) + INCLUDED_FEE_PER_QUOTE, Margin(sizeCm), IVA_RATE);
            q.profitIncluded == t.profit && q.ivaIncluded == t.iva
  {
    var totalNoShip := QuoteTotalNoShipping(qty, sizeCm, finish);
    var operariosNoShip := OperariosWithoutShipping(qty, sizeCm, finish);
    var baseIncl := operariosNoShip + INCLUDED_FEE_PER_QUOTE;
    var t := ComputeTotals(baseIncl, Margin(sizeCm), IVA_RATE);
    SavedQuote(id, Trim(clientName), sizeCm, qty, finish, FinishLabel(finish), Margin(sizeCm),
               totalNoShip, Ceil(t.total), t.profit, t.iva, INCLUDED_FEE_PER_QUOTE)
  }

  /** In a saved quote the included-fee total is at least the no-shipping
      total, and it is the cost base with the fee plus its profit and IVA,
      rounded up. */
  lemma MakeQuoteTotals(id: int, clientName: string, sizeCm: int, qty: nat, finish: Finish)
    ensures var q := MakeQuote(id, clientName, sizeCm, qty, finish);
            var cost := OperariosWithoutShipping(qty, sizeCm, finish) + q.includedFee;
            && q.totalWithIncludedRounded >= q.totalNoShippingRounded
            && cost + q.profitIncluded + q.ivaIncluded <= q.totalWithIncludedRounded as real
            && q.totalWithIncludedRounded as real < cost + q.profitIncluded + q.ivaIncluded + 1.0
  {
  }

  /** The benefit parts of a saved quote: the margin on the cost base with
      the fee, and the IVA on that base plus the margin; together they are
      the unrounded price minus the base. */
  lemma MakeQuoteBenefit(id: int, clientName: string, sizeCm: int, qty: nat, finish: Finish)
    ensures var q := MakeQuote(id, clientName, sizeCm, qty, finish);
            var cost := OperariosWithoutShipping(qty, sizeCm, finish) + INCLUDED_FEE_PER_QUOTE;
            && q.profitIncluded == cost * Margin(sizeCm)
            && q.ivaIncluded == (cost + cost * Margin(sizeCm)) * IVA_RATE
            && q.profitIncluded + q.ivaIncluded == PriceBeforeRounding(cost, sizeCm) - cost
  {
    // Only the cost base's value matters here, not how it is made up.
    hide *;
    var cost := OperariosWithoutShipping(qty, sizeCm, finish) + INCLUDED_FEE_PER_QUOTE;
    TotalsProduct(cost, Margin(sizeCm), IVA_RATE);
    PriceBeforeRoundingIsTotal(cost, sizeCm);
  }

  /** The included-fee totals of a list of saved quotes, in order. */
  function TotalsOf(quotes: seq<SavedQuote>): (totals: seq<int>)
    ensures |totals| == |quotes|
    ensures forall k :: 0 <= k < |quotes| ==> totals[k] == quotes[k].totalWithIncludedRounded
  {
    seq(|quotes|, k requires 0 <= k < |quotes| => quotes[k].totalWithIncludedRounded)
  }

  lemma TotalsOfAppend(quotes: seq<SavedQuote>, q: SavedQuote)
    ensures TotalsOf(quotes + [q]) == TotalsOf(quotes) + [q.totalWithIncludedRounded]
  {
  }

  /** Benefit (profit plus IVA) summed over saved quotes, left to right. */
  function SumBenefit(quotes: seq<SavedQuote>): (base: real)
    ensures (forall k :: 0 <= k < |quotes| ==> quotes[k].profitIncluded + quotes[k].ivaIncluded >= 0.0) ==> base >= 0.0
  {
    if quotes == [] then 0.0
    else SumBenefit(quotes[..|quotes| - 1]) + quotes[|quotes| - 1].profitIncluded + quotes[|quotes| - 1].ivaIncluded
  }

  /** The list without the records carrying `id` (the `filter` in
      `removeQuote`). */
  function WithoutId(quotes: seq<SavedQuote>, id: int): (kept: seq<SavedQuote>)
    ensures |kept| <= |quotes|
    ensures forall q :: q in kept <==> q in quotes && q.id != id
  {
    if quotes == [] then []
    else (if quotes[0].id != id then [quotes[0]] else []) + WithoutId(quotes[1..], id)
  }

  /** Filtering distributes over concatenation, so the kept records stay in
      their order. */
  lemma {:induction false} WithoutIdAppend(a: seq<SavedQuote>, b: seq<SavedQuote>, id: int)
    ensures WithoutId(a + b, id) == WithoutId(a, id) + WithoutId(b, id)
  {
    if a == [] {
      assert a + b == b;
    } else {
      assert (a + b)[1..] == a[1..] + b;
      WithoutIdAppend(a[1..], b, id);
    }
  }

  /** Removing an id no record carries leaves the list as it is. */
  lemma {:induction false} WithoutAbsentId(quotes: seq<SavedQuote>, id: int)
    requires forall k :: 0 <= k < |quotes| ==> quotes[k].id != id
    ensures WithoutId(quotes, id) == quotes
  {
    if quotes != [] {
      WithoutAbsentId(quotes[1..], id);
    }
  }

  /** Saving a quote under a fresh id and then removing that id restores the
      list. */
  lemma SaveThenRemove(quotes: seq<SavedQuote>, q: SavedQuote)
    requires forall k :: 0 <= k < |quotes| ==> quotes[k].id != q.id
    ensures WithoutId(quotes + [q], q.id) == quotes
  {
    WithoutIdAppend(quotes, [q], q.id);
    WithoutAbsentId(quotes, q.id);
    assert [q][1..] == [];
  }
}
