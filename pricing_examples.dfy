/** The concrete values the calculator is checked against (the console
    assertions at the end of `app/page.tsx`), proved on the exact-arithmetic
    model. */
module PricingExamples {
  import opened Numeric
  import opened Rates
  import opened Pricing

  lemma SheetExamples()
    ensures StickersPerSheet(7) == 6
    ensures SheetsNeeded(51, 1) == 2
    ensures SheetsNeeded(100, 3) == 4
  {
    CeilDivUnique(51, 50, 2);
    CeilDivUnique(100, 30, 4);
  }

  lemma MarginAndVariableExamples()
    ensures Margin(7) == 0.46 && Margin(8) == 0.33
    ensures VariableCostsBySheet(10).total == 10.0 * 0.25 + 10.0 * 0.13 + 10.0 * 0.7
  {
  }

  lemma PackagingExamples()
    ensures PackagingCost(0) == 0.0
    ensures PackagingCost(1) == 2.1
    ensures PackagingCost(100) == 2.1
    ensures PackagingCost(101) == 4.2
  {
    PackagingStep(1, 1);
    PackagingStep(100, 1);
    PackagingStep(101, 2);
  }

  lemma TotalsExample()
    ensures ComputeTotals(100.0, 0.46, 0.16) == Totals(46.0, 146.0, 23.36, 169.36)
    ensures Ceil(169.36) == 170
    ensures BenefitSplit(46.0 + 23.36).aleli + BenefitSplit(46.0 + 23.36).pepe == 69.36
  {
  }

  /** 100 stickers of 1 cm in plain vinyl: 2 sheets, cost base 41.12,
      price 69.640832, quoted 70. */
  lemma NoShippingExample1()
    ensures QuoteTotalNoShipping(100, 1, VinilBlanco) == 70
  {
    CeilDivUnique(100, 50, 2);
    PackagingStep(100, 1);
    FixedTotalValue();
    assert OperariosWithoutShipping(100, 1, VinilBlanco) == 41.12;
  }

  /** 45 stickers of 7 cm in classic holographic: 8 sheets, cost base 99,
      price 167.6664, quoted 168. */
  lemma NoShippingExample2()
    ensures QuoteTotalNoShipping(45, 7, HoloClasico) == 168
  {
    CeilDivUnique(45, 6, 8);
    PackagingStep(45, 1);
    FixedTotalValue();
    assert OperariosWithoutShipping(45, 7, HoloClasico) == 99.0;
  }

  /** 100 stickers of 5 cm with the 80 fee: 8 sheets, cost base 83 + 80,
      price 276.0568, quoted 277. */
  lemma IncludedFeeExample1()
    ensures QuoteTotalWithIncludedFee(100, 5, VinilBlanco, 80.0) == 277
  {
    CeilDivUnique(100, 13, 8);
    PackagingStep(100, 1);
    FixedTotalValue();
    assert OperariosWithoutShipping(100, 5, VinilBlanco) == 83.0;
  }

  /** 100 stickers of 7 cm with the 80 fee: 17 sheets, cost base
      145.82 + 80, price 382.448752, quoted 383. */
  lemma IncludedFeeExample2()
    ensures QuoteTotalWithIncludedFee(100, 7, VinilBlanco, 80.0) == 383
  {
    CeilDivUnique(100, 6, 17);
    PackagingStep(100, 1);
    FixedTotalValue();
    assert OperariosWithoutShipping(100, 7, VinilBlanco) == 145.82;
  }

  lemma CombinedExamples()
    ensures CombinedTotalIncluded([70, 168], 159.0, 0.0) == 397
    ensures CombinedTotalIncluded([277, 383], 159.0, 80.0) == 660
    ensures CombinedTotalIncluded([277], 159.0, 80.0) == 356
  {
    assert SumInts([70, 168]) == 238 by { assert [70, 168][..1] == [70]; }
    assert SumInts([277, 383]) == 660 by { assert [277, 383][..1] == [277]; }
    assert SumInts([277]) == 277 by { assert [277][..0] == []; }
  }
}
