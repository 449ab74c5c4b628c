/** The quote calculator: sheets needed, the cost base of one quote, margin
    and IVA on top of it, the three rounded totals (no shipping, with the
    flat included fee, and the live total with the real shipping), the
    aggregation of several saved quotes against one shared shipping cost,
    and the split of the benefit between the two partners. */
module Pricing {
  import opened Numeric
  import opened Rates

  // ---------------------------------------------------------------------
  // Production quantities and cost components
  // ---------------------------------------------------------------------

  /** Sheets to print `qty` stickers of a size: the rounded-up quotient of
      the quantity by the sheet capacity, and 0 when either is 0. */
  function SheetsNeeded(qty: nat, sizeCm: int): (sheets: nat)
    ensures sheets == 0 <==> qty == 0 || StickersPerSheet(sizeCm) == 0
    ensures StickersPerSheet(sizeCm) > 0 ==>
              sheets * StickersPerSheet(sizeCm) >= qty && (sheets - 1) * StickersPerSheet(sizeCm) < qty
  {
    var per := StickersPerSheet(sizeCm);
    if qty == 0 || per == 0 then 0
    else
      CeilDiv(qty, per);
      Ceil(qty as real / per as real)
  }

  /** No smaller number of sheets holds the order. */
  lemma SheetsNeededLeast(qty: nat, sizeCm: int, k: int)
    requires k >= 0 && k * StickersPerSheet(sizeCm) >= qty
    ensures SheetsNeeded(qty, sizeCm) <= k
  {
    var per := StickersPerSheet(sizeCm);
    var s := SheetsNeeded(qty, sizeCm);
    if per > 0 && qty > 0 {
      MulIntCancel(s - 1, k, per);
    }
  }

  /** More stickers never need fewer sheets. */
  lemma SheetsNeededMonotone(q1: nat, q2: nat, sizeCm: int)
    requires q1 <= q2
    ensures SheetsNeeded(q1, sizeCm) <= SheetsNeeded(q2, sizeCm)
  {
    if StickersPerSheet(sizeCm) > 0 {
      SheetsNeededLeast(q1, sizeCm, SheetsNeeded(q2, sizeCm));
    }
  }

  /** Per-sheet variable costs: ink, cutting, special tape, and their sum. */
  datatype VariableCosts = VariableCosts(tinta: real, corte: real, cinta: real, total: real)

  function VariableCostsBySheet(sheets: nat): (v: VariableCosts)
    ensures v.total == v.tinta + v.corte + v.cinta
    ensures v.total == sheets as real * 1.08
  {
    var tinta := sheets as real * TINTA_RATE;
    var corte := sheets as real * CORTE_RATE;
    var cinta := sheets as real * CINTA_MAGICA_RATE;
    VariableCosts(tinta, corte, cinta, tinta + corte + cinta)
  }

  /** Wrapping plastic: 2.1 for every started block of 100 stickers. */
  function PackagingCost(qty: int): (cost: real)
    ensures cost >= 0.0
    ensures cost == 0.0 <==> qty <= 0
  {
    if qty <= 0 then 0.0
    else
      var blocks := Ceil(qty as real / 100.0);
      blocks as real * 2.1
  }

  /** The packaging step function: `k` blocks of 2.1 for any quantity in
      the `k`-th hundred. */
  lemma PackagingStep(qty: int, k: int)
    requires k >= 1 && (k - 1) * 100 < qty <= k * 100
    ensures PackagingCost(qty) == 2.1 * k as real
  {
    CeilDivUnique(qty, 100, k);
  }

  lemma PackagingMonotone(q1: int, q2: int)
    requires q1 <= q2
    ensures PackagingCost(q1) <= PackagingCost(q2)
  {
    if q1 > 0 {
      CeilMonotone(q1 as real / 100.0, q2 as real / 100.0);
    }
  }

  // ---------------------------------------------------------------------
  // Margin, tax and the benefit split
  // ---------------------------------------------------------------------

  /** Profit, subtotal, IVA and total for a cost base (`computeTotals`). */
  datatype Totals = Totals(profit: real, subtotal: real, iva: real, total: real)

  function ComputeTotals(operarios: real, marginRate: real, ivaRate: real): (t: Totals)
    ensures t.subtotal == operarios + t.profit
    ensures t.total == t.subtotal + t.iva
    ensures t.profit + t.iva == t.total - operarios
  {
    var profit := operarios * marginRate;
    var subtotal := operarios + profit;
    var iva := subtotal * ivaRate;
    Totals(profit, subtotal, iva, subtotal + iva)
  }

  /** The total is the cost base scaled by the margin and then by IVA. */
  lemma TotalsProduct(operarios: real, marginRate: real, ivaRate: real)
    ensures ComputeTotals(operarios, marginRate, ivaRate).profit == operarios * marginRate
    ensures ComputeTotals(operarios, marginRate, ivaRate).iva == (operarios + operarios * marginRate) * ivaRate
    ensures ComputeTotals(operarios, marginRate, ivaRate).total == operarios * (1.0 + marginRate) * (1.0 + ivaRate)
  {
    var t := ComputeTotals(operarios, marginRate, ivaRate);
    assert t.subtotal == operarios * (1.0 + marginRate);
    assert t.total == t.subtotal * (1.0 + ivaRate);
  }

  /** With non-negative rates a larger cost base never gives a smaller
      total. */
  lemma TotalsMonotone(o1: real, o2: real, marginRate: real, ivaRate: real)
    requires o1 <= o2 && marginRate >= 0.0 && ivaRate >= 0.0
    ensures ComputeTotals(o1, marginRate, ivaRate).total <= ComputeTotals(o2, marginRate, ivaRate).total
  {
    TotalsProduct(o1, marginRate, ivaRate);
    TotalsProduct(o2, marginRate, ivaRate);
    var k := (1.0 + marginRate) * (1.0 + ivaRate);
    assert k >= 1.0 by { MulRealMonotone(1.0, 1.0 + marginRate, 1.0 + ivaRate); }
    assert o1 * (1.0 + marginRate) * (1.0 + ivaRate) == o1 * k;
    assert o2 * (1.0 + marginRate) * (1.0 + ivaRate) == o2 * k;
    MulRealMonotone(o1, o2, k);
  }

  /** The two partners' shares of a benefit amount. */
  datatype Split = Split(aleli: real, pepe: real)

  function BenefitSplit(base: real): (s: Split)
    ensures s.aleli + s.pepe == base
    ensures base >= 0.0 ==> 0.0 <= s.pepe <= s.aleli
    ensures s.aleli * PEPE_RATE == s.pepe * ALELI_RATE
  {
    Split(base * ALELI_RATE, base * PEPE_RATE)
  }

  // ---------------------------------------------------------------------
  // Single-quote totals
  // ---------------------------------------------------------------------

  /** Cost base of one quote without shipping: vinyl, fixed costs,
      per-sheet variable costs and packaging. */
  function OperariosWithoutShipping(qty: nat, sizeCm: int, finish: Finish): (cost: real)
    ensures cost >= 25.06
    ensures qty == 0 ==> cost == 25.06
  {
    var sheets := SheetsNeeded(qty, sizeCm);
    var costPer := CostPerSheet(finish);
    var vinyl := sheets as real * costPer;
    var fixed := FixedTotal();
    var vars := VariableCostsBySheet(sheets).total;
    var pack := PackagingCost(qty);
    FixedTotalValue();
    vinyl + fixed + vars + pack
  }

  /** More stickers of the same size and finish never cost less to make. */
  lemma OperariosMonotone(q1: nat, q2: nat, sizeCm: int, finish: Finish)
    requires q1 <= q2
    ensures OperariosWithoutShipping(q1, sizeCm, finish) <= OperariosWithoutShipping(q2, sizeCm, finish)
  {
    var s1 := SheetsNeeded(q1, sizeCm);
    var s2 := SheetsNeeded(q2, sizeCm);
    var c := CostPerSheet(finish);
    SheetsNeededMonotone(q1, q2, sizeCm);
    MulRealMonotone(s1 as real, s2 as real, c);
    assert VariableCostsBySheet(s1).total <= VariableCostsBySheet(s2).total;
    PackagingMonotone(q1, q2);
  }

  /** The unrounded price of a cost base at a size's margin band. */
  function PriceBeforeRounding(base: real, sizeCm: int): real
  {
    ComputeTotals(base, Margin(sizeCm), IVA_RATE).total
  }

  /** The definition of `PriceBeforeRounding`, stated as a lemma so that a
      proof which hides definitions can still use it; it is not a property. */
  lemma PriceBeforeRoundingIsTotal(base: real, sizeCm: int)
    ensures PriceBeforeRounding(base, sizeCm) == ComputeTotals(base, Margin(sizeCm), IVA_RATE).total
  {
  }

  /** Reference price without shipping, always rounded up. */
  function QuoteTotalNoShipping(qty: nat, sizeCm: int, finish: Finish): (total: int)
    ensures PriceBeforeRounding(OperariosWithoutShipping(qty, sizeCm, finish), sizeCm) <= total as real
    ensures (total as real) < PriceBeforeRounding(OperariosWithoutShipping(qty, sizeCm, finish), sizeCm) + 1.0
  {
    var operariosNoShip := OperariosWithoutShipping(qty, sizeCm, finish);
    var margin := Margin(sizeCm);
    var t := ComputeTotals(operariosNoShip, margin, IVA_RATE);
    Ceil(t.total)
  }

  /** Price with the flat included fee added to the cost base before margin
      and IVA; a non-positive fee counts as no fee. */
  function QuoteTotalWithIncludedFee(qty: nat, sizeCm: int, finish: Finish, fee: real): (total: int)
    ensures fee <= 0.0 ==> total == QuoteTotalNoShipping(qty, sizeCm, finish)
    ensures total >= QuoteTotalNoShipping(qty, sizeCm, finish)
    ensures PriceBeforeRounding(OperariosWithoutShipping(qty, sizeCm, finish) + Max(0.0, fee), sizeCm) <= total as real
  {
    var operariosNoShip := OperariosWithoutShipping(qty, sizeCm, finish);
    var base := operariosNoShip + Max(0.0, fee);
    var margin := Margin(sizeCm);
    var t := ComputeTotals(base, margin, IVA_RATE);
    TotalsMonotone(operariosNoShip, base, margin, IVA_RATE);
    CeilMonotone(ComputeTotals(operariosNoShip, margin, IVA_RATE).total, t.total);
    Ceil(t.total)
  }

  /** The rounded totals never decrease with the quantity. */
  lemma QuoteTotalNoShippingMonotone(q1: nat, q2: nat, sizeCm: int, finish: Finish)
    requires q1 <= q2
    ensures QuoteTotalNoShipping(q1, sizeCm, finish) <= QuoteTotalNoShipping(q2, sizeCm, finish)
  {
    var o1 := OperariosWithoutShipping(q1, sizeCm, finish);
    var o2 := OperariosWithoutShipping(q2, sizeCm, finish);
    OperariosMonotone(q1, q2, sizeCm, finish);
    TotalsMonotone(o1, o2, Margin(sizeCm), IVA_RATE);
    CeilMonotone(ComputeTotals(o1, Margin(sizeCm), IVA_RATE).total, ComputeTotals(o2, Margin(sizeCm), IVA_RATE).total);
  }

  /** A larger included fee never gives a smaller quote. */
  lemma IncludedFeeMonotone(qty: nat, sizeCm: int, finish: Finish, fee1: real, fee2: real)
    requires fee1 <= fee2
    ensures QuoteTotalWithIncludedFee(qty, sizeCm, finish, fee1) <= QuoteTotalWithIncludedFee(qty, sizeCm, finish, fee2)
  {
    var o := OperariosWithoutShipping(qty, sizeCm, finish);
    var m := Margin(sizeCm);
    TotalsMonotone(o + Max(0.0, fee1), o + Max(0.0, fee2), m, IVA_RATE);
    CeilMonotone(ComputeTotals(o + Max(0.0, fee1), m, IVA_RATE).total, ComputeTotals(o + Max(0.0, fee2), m, IVA_RATE).total);
  }

  /** The live on-screen breakdown: the real shipping goes into the cost base
      before margin and IVA. */
  function LiveQuote(qty: nat, sizeCm: int, finish: Finish, shipping: real): (t: Totals)
    ensures t.total - t.profit - t.iva == OperariosWithoutShipping(qty, sizeCm, finish) + shipping
  {
    var margin := Margin(sizeCm);
    var sheetsNeeded := SheetsNeeded(qty, sizeCm);
    var costPerSheet := CostPerSheet(finish);
    var totalVinylCost := sheetsNeeded as real * costPerSheet;
    var fixedTotal := FixedTotal();
    var variableBySheet := VariableCostsBySheet(sheetsNeeded);
    var packaging := PackagingCost(qty);
    var variablesTotal := variableBySheet.total + packaging;
    var operariosTotal := totalVinylCost + fixedTotal + variablesTotal + shipping;
    ComputeTotals(operariosTotal, margin, IVA_RATE)
  }

  /** The live total as shown: rounded up. */
  function LiveTotalRounded(qty: nat, sizeCm: int, finish: Finish, shipping: real): (total: int)
    ensures LiveQuote(qty, sizeCm, finish, shipping).total <= total as real < LiveQuote(qty, sizeCm, finish, shipping).total + 1.0
  {
    Ceil(LiveQuote(qty, sizeCm, finish, shipping).total)
  }

  /** The live breakdown is the common calculation on the cost base plus the
      real shipping. */
  lemma LiveQuoteIsShippingInBase(qty: nat, sizeCm: int, finish: Finish, shipping: real)
    ensures LiveQuote(qty, sizeCm, finish, shipping)
         == ComputeTotals(OperariosWithoutShipping(qty, sizeCm, finish) + shipping, Margin(sizeCm), IVA_RATE)
  {
  }

  /** With no shipping the live total is the no-shipping reference total. */
  lemma LiveTotalWithoutShipping(qty: nat, sizeCm: int, finish: Finish)
    ensures LiveTotalRounded(qty, sizeCm, finish, 0.0) == QuoteTotalNoShipping(qty, sizeCm, finish)
  {
    LiveQuoteIsShippingInBase(qty, sizeCm, finish, 0.0);
  }

  /** With shipping equal to a non-negative fee, the live total is the
      included-fee total: the three totals differ only in what the cost
      base gets on top of production. */
  lemma LiveTotalAtIncludedFee(qty: nat, sizeCm: int, finish: Finish, fee: real)
    requires fee >= 0.0
    ensures LiveTotalRounded(qty, sizeCm, finish, fee) == QuoteTotalWithIncludedFee(qty, sizeCm, finish, fee)
  {
    LiveQuoteIsShippingInBase(qty, sizeCm, finish, fee);
  }

  /** The price of one sticker: the rounded total over the quantity, 0 when
      there are no stickers. */
  function PricePerSticker(totalRounded: int, qty: nat): (price: real)
    ensures qty > 0 ==> price * qty as real == totalRounded as real
    ensures qty > 0 && totalRounded >= 0 ==> 0.0 <= price <= totalRounded as real
    ensures qty == 0 ==> price == 0.0
  {
    if qty > 0 then
      DivTimes(totalRounded as real, qty as real);
      totalRounded as real / qty as real
    else 0.0
  }

  // ---------------------------------------------------------------------
  // Several saved quotes sharing one shipment
  // ---------------------------------------------------------------------

  /** Left-to-right sum of whole amounts (the `reduce` with `a + b` from 0). */
  function SumInts(xs: seq<int>): (sum: int)
    ensures (forall k :: 0 <= k < |xs| ==> xs[k] >= 0) ==> sum >= 0
  {
    if xs == [] then 0 else SumInts(xs[..|xs| - 1]) + xs[|xs| - 1]
  }

  lemma SumIntsAppend(xs: seq<int>, x: int)
    ensures SumInts(xs + [x]) == SumInts(xs) + x
  {
    assert (xs + [x])[..|xs|] == xs;
  }

  /** Shipping still to charge after the fees already bundled into `count`
      quotes; a negative shipping counts as none. */
  function Remainder(shipping: real, feePerQuote: real, count: nat): (rem: real)
    ensures rem >= 0.0
    ensures rem >= shipping - feePerQuote * count as real
    ensures rem == 0.0 <==> Max(0.0, shipping) <= feePerQuote * count as real
    ensures rem > 0.0 ==> rem == Max(0.0, shipping) - feePerQuote * count as real
  {
    Max(0.0, Max(0.0, shipping) - feePerQuote * count as real)
  }

  /** Combined total of several saved quotes and one shared shipping cost. */
  function CombinedTotalIncluded(totalsWithFee: seq<int>, shipping: real, feePerQuote: real): (total: int)
    ensures total >= SumInts(totalsWithFee)
    ensures total as real >= SumInts(totalsWithFee) as real + shipping - feePerQuote * |totalsWithFee| as real
    ensures SumInts(totalsWithFee) as real + Remainder(shipping, feePerQuote, |totalsWithFee|) <= total as real
    ensures (total as real) < SumInts(totalsWithFee) as real + Remainder(shipping, feePerQuote, |totalsWithFee|) + 1.0
    ensures Max(0.0, shipping) <= feePerQuote * |totalsWithFee| as real ==> total == SumInts(totalsWithFee)
  {
    var sum := SumInts(totalsWithFee);
    var remainder := Remainder(shipping, feePerQuote, |totalsWithFee|);
    CeilShift(sum, remainder);
    Ceil(sum as real + remainder)
  }

  /** The remaining shipping as the multi-quote panel and message compute it
      (`Math.max(0, shipping - fee * n)`), without first clamping the
      shipping at 0. */
  function NetRemaining(shipping: real, feePerQuote: real, count: nat): (rem: real)
    ensures rem >= 0.0
    ensures rem >= shipping - feePerQuote * count as real
    ensures rem > 0.0 ==> rem == shipping - feePerQuote * count as real
  {
    Max(0.0, shipping - feePerQuote * count as real)
  }

  /** The two remainder formulas agree unless both the shipping and the fee
      are negative. */
  lemma NetRemainingAgrees(shipping: real, feePerQuote: real, count: nat)
    requires shipping >= 0.0 || feePerQuote >= 0.0
    ensures NetRemaining(shipping, feePerQuote, count) == Remainder(shipping, feePerQuote, count)
  {
    if shipping < 0.0 {
      MulRealMonotone(0.0, feePerQuote, count as real);
    }
  }

  /** A negative shipping with a negative fee makes them differ. */
  lemma NetRemainingDiffers()
    ensures NetRemaining(-10.0, -20.0, 1) == 10.0
    ensures Remainder(-10.0, -20.0, 1) == 20.0
  {
  }
}
