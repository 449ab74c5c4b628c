# Sticker price calculator — verified model

This project models the pricing core of a single-page sticker quote
calculator (`app/page.tsx`). The calculator sells printed stickers in sizes
of 1 to 10 cm and in five vinyl finishes, with prices in Mexican pesos.

For one quote it computes:

- the sheets needed, from a per-size capacity table;
- the cost base ("operarios"): vinyl per sheet, four fixed costs, per-sheet
  ink, cutting and tape, and packaging charged per started block of 100
  stickers;
- a margin of 46% up to 7 cm and 33% above;
- IVA (Mexican value-added tax, 16%) on the subtotal;
- three totals, each rounded up: without shipping, with a flat 80 fee in the
  cost base, and the live total with the real shipping in the cost base;
- a 55/45 split of margin plus IVA between the two partners.

The page keeps a session list of saved quotes. It can combine the saved
quotes against one shared shipping cost, netting the 80 already bundled into
each quote. It also builds WhatsApp messages for one quote or for the whole
list.

Modules:

- `Numeric` (`numeric.dfy`): `Math.ceil`, `Math.floor`, `Math.round` and
  `Math.max` on exact reals, the page's `clamp`, and the arithmetic lemmas
  behind ceiling division.
- `Rates` (`rates.dfy`): the rate tables, the finish catalogue and the
  lookups.
- `Pricing` (`pricing.dfy`): the pure calculator, the aggregator and the
  split.
- `PricingExamples` (`pricing_examples.dfy`): the page's own console
  assertions, proved on the model.
- `Text` (`text.dfy`): decimal rendering of integers, template literals,
  `join("\n")` with its inverse, substring inclusion and JavaScript `trim`.
- `Quotes` (`quotes.dfy`): the saved-quote record and the list operations.
- `Messages` (`messages.dfy`): the two message builders. Each is a method
  with the page's loop and pushes, proved against a function giving the
  message's lines.
- `Session` (`session.dfy`): the page's state as a class
  `StickerCalculator`, with its handlers and the values derived from its
  fields.

Modelling decisions:

- Money is exact `real`. `Math.ceil(x)` is the least integer not below `x`.
- A finish is a five-constructor datatype.
- The currency formatter `formatCurrencyInt` is a function parameter `fmt`.
- The clock's `Date.now()` id is a parameter of `SaveQuote`.
- A parsed input that is not a number (`NaN`), or for shipping not finite,
  is `Option.None`.
- The size and shipping fields have subset types, `SizeCm` (1..10) and
  `Shipping` (non-negative). So every handler is proved to keep them in
  range.

Two details of the code the model keeps:

- For an empty list, `buildMultiText` writes the greeting header and then
  "— Sin cotizaciones guardadas —". Both lines are modelled.
- `buildMultiText` and the page's combined-total panel compute the remaining
  shipping as `max(0, shipping - fee * n)`. `computeCombinedTotalIncluded`
  computes `max(0, max(0, shipping) - fee * n)` instead. The model keeps
  both (`NetRemaining`, `Remainder`) and proves when they agree.

## Model

| member | source | states |
|---|---|---|
| Rates.StickersPerSheet | app/page.tsx:77 | capacity is positive exactly for the sizes 1..10 of the table at lines 22-33, at most 50; a size with no entry holds 0 (the `?? 0` fallback) |
| Rates.CostPerSheet | app/page.tsx:46-52 | every finish costs between 5.9 and 17 per sheet |
| Rates.FinishKey | app/page.tsx:37-41 | every finish key is a snake_case word (it contains `_`), which no display label does |
| Rates.FinishKeyInjective | app/page.tsx:37-41 | different finishes have different keys |
| Rates.FindLabel | app/page.tsx:80 | a finish missing from the catalogue gets its key (the `?? value` fallback) |
| Rates.FinishLabel | app/page.tsx:80 | `getFinishLabel` finds every finish in the catalogue, so the label is never the key fallback |
| Rates.FindLabelFirst | app/page.tsx:80 | a finish in the catalogue gets the label of its first entry (`find`) |
| Rates.FinishLabelFromCatalogue | app/page.tsx:35-41 | every finish has a catalogue entry whose label is its `getFinishLabel` |
| Rates.SumFixed | app/page.tsx:126 | the left fold `reduce((acc, c) => acc + c.value, 0)` over the fixed costs is non-negative when every cost is |
| Rates.FixedTotal | app/page.tsx:279 | the fixed costs of one quote add to a non-negative amount; its exact value is `FixedTotalValue` |
| Rates.FixedTotalValue | app/page.tsx:56-61 | the fixed costs reduce to 25.06 |
| Rates.Margin | app/page.tsx:78 | the margin is 0.46 exactly for sizes up to 7 and 0.33 exactly above |
| Numeric.Max | app/page.tsx:142 | `Math.max`: at least both arguments, and one of them |
| Numeric.Floor | app/page.tsx:309 | `Math.floor`: the integer `f` with `f <= x < f + 1` |
| Numeric.Ceil | app/page.tsx:136 | `Math.ceil`: the integer `c` with `x <= c < x + 1` |
| Numeric.CeilLeast | app/page.tsx:136 | no integer at or above `x` is below `Ceil(x)` |
| Numeric.CeilShift | app/page.tsx:151 | adding an integer commutes with rounding up |
| Numeric.CeilMonotone | app/page.tsx:145 | rounding up is monotone |
| Numeric.CeilDiv | app/page.tsx:85 | `Math.ceil(a / b)` is the least block count covering `a` |
| Numeric.CeilDivUnique | app/page.tsx:99 | any count with the least-blocks property is `Math.ceil(a / b)` |
| Numeric.Round | app/page.tsx:295 | `Math.round` is within half a unit of its argument |
| Numeric.Clamp | app/page.tsx:154-156 | in range for ordered bounds, identity inside, the bound hit outside, the lower bound when the bounds are inverted |
| Numeric.ClampIdempotent | app/page.tsx:154-156 | clamping twice equals clamping once |
| Pricing.SheetsNeeded | app/page.tsx:82-86 | 0 exactly when the quantity or the capacity is 0; otherwise `s * per >= qty > (s - 1) * per` |
| Pricing.SheetsNeededLeast | app/page.tsx:82-86 | no smaller number of sheets holds the order |
| Pricing.SheetsNeededMonotone | app/page.tsx:82-86 | more stickers never need fewer sheets |
| Pricing.VariableCostsBySheet | app/page.tsx:88-94 | the total is ink plus cutting plus tape, 1.08 per sheet |
| Pricing.PackagingCost | app/page.tsx:97-101 | never negative, and 0 exactly when the quantity is at most 0 |
| Pricing.PackagingStep | app/page.tsx:97-101 | any quantity in the k-th hundred costs k blocks of 2.1 |
| Pricing.PackagingMonotone | app/page.tsx:97-101 | more stickers never cost less packaging |
| Pricing.ComputeTotals | app/page.tsx:104-111 | subtotal is base plus profit, total is subtotal plus IVA, profit plus IVA is total minus base |
| Pricing.TotalsProduct | app/page.tsx:104-111 | profit is base × margin, IVA is (base + profit) × IVA rate, and the total is base × (1 + margin) × (1 + IVA rate) |
| Pricing.TotalsMonotone | app/page.tsx:104-111 | with non-negative rates a larger base never gives a smaller total |
| Pricing.BenefitSplit | app/page.tsx:114-119 | the two shares add back to the base; for a non-negative base both are non-negative and the 55% share is the larger; the shares stand in the ratio 55:45 |
| Pricing.OperariosWithoutShipping | app/page.tsx:122-130 | the cost base is at least the fixed 25.06, and exactly that for 0 stickers |
| Pricing.OperariosMonotone | app/page.tsx:122-130 | more stickers never give a smaller cost base |
| Pricing.QuoteTotalNoShipping | app/page.tsx:132-137 | the price of the base without shipping, rounded up: at or above it, less than one above |
| Pricing.QuoteTotalWithIncludedFee | app/page.tsx:139-146 | a fee at most 0 gives the no-shipping total; never below it; at or above the price of the base plus the fee |
| Pricing.QuoteTotalNoShippingMonotone | app/page.tsx:132-137 | the no-shipping total never decreases with the quantity |
| Pricing.IncludedFeeMonotone | app/page.tsx:139-146 | a larger fee never gives a smaller total |
| Pricing.LiveQuote | app/page.tsx:273-287 | the live total minus profit and IVA is the cost base plus the shipping |
| Pricing.LiveTotalRounded | app/page.tsx:288 | the displayed total is the live total rounded up |
| Pricing.LiveQuoteIsShippingInBase | app/page.tsx:273-287 | the live breakdown is `computeTotals` on the no-shipping base plus the shipping |
| Pricing.LiveTotalWithoutShipping | app/page.tsx:273-288 | with shipping 0 the live total is the no-shipping total |
| Pricing.LiveTotalAtIncludedFee | app/page.tsx:273-288 | with shipping equal to a non-negative fee the live total is the included-fee total |
| Pricing.PricePerSticker | app/page.tsx:292 | for a positive quantity, price × quantity is the rounded total, between 0 and the total; 0 for no stickers |
| Pricing.SumInts | app/page.tsx:149 | a sum of non-negative totals is non-negative |
| Pricing.SumIntsAppend | app/page.tsx:149 | the left fold grows by the appended element |
| Pricing.Remainder | app/page.tsx:150 | never negative; 0 exactly when the fees cover the (non-negative) shipping; otherwise exactly the non-negative shipping minus the fees |
| Pricing.CombinedTotalIncluded | app/page.tsx:148-152 | the sum plus the remainder rounded up (at or above it, less than one above); at least the sum; exactly the sum when the fees cover the shipping |
| Pricing.NetRemaining | app/page.tsx:245 | never negative; when positive, exactly the shipping minus the fees |
| Pricing.NetRemainingAgrees | app/page.tsx:245 | equals the aggregator's remainder when shipping or fee is non-negative |
| Pricing.NetRemainingDiffers | app/page.tsx:150 | with shipping -10 and fee -20 the two remainders are 10 and 20 |
| PricingExamples.SheetExamples | app/page.tsx:785-787 | 7 cm holds 6; 51 at 1 cm need 2 sheets; 100 at 3 cm need 4 |
| PricingExamples.MarginAndVariableExamples | app/page.tsx:788-791 | margins 0.46 and 0.33; variable costs of 10 sheets |
| PricingExamples.PackagingExamples | app/page.tsx:793-796 | packaging of 0, 1, 100 and 101 stickers is 0, 2.1, 2.1 and 4.2 |
| PricingExamples.TotalsExample | app/page.tsx:798-807 | totals of base 100 at 46% are 46, 146, 23.36, 169.36, rounded 170; the split sums to 69.36 |
| PricingExamples.NoShippingExample1 | app/page.tsx:809-810 | 100 at 1 cm, plain vinyl, quoted 70 |
| PricingExamples.NoShippingExample2 | app/page.tsx:812-813 | 45 at 7 cm, classic holographic, quoted 168 |
| PricingExamples.IncludedFeeExample1 | app/page.tsx:818-819 | 100 at 5 cm with the fee, quoted 277 |
| PricingExamples.IncludedFeeExample2 | app/page.tsx:820-821 | 100 at 7 cm with the fee, quoted 383 |
| PricingExamples.CombinedExamples | app/page.tsx:815-826 | combined totals 397, 660 and 356 |
| Text.NatToString | app/page.tsx:243 | the decimal rendering is non-empty digits without a leading zero |
| Text.IntToString | app/page.tsx:243 | non-empty, starting with '-' exactly for negatives |
| Text.NatToStringRoundTrip | app/page.tsx:243 | parsing the rendering gives the number back |
| Text.IntToStringInjective | app/page.tsx:243 | different integers render differently |
| Text.Concat | app/page.tsx:243 | a template literal starts with its first piece |
| Text.ConcatEndsWith | app/page.tsx:243 | a template literal ends with its last piece |
| Text.JoinLines | app/page.tsx:250 | joining one line gives that line |
| Text.SplitJoin | app/page.tsx:250 | splitting the joined lines at breaks gives them back |
| Text.JoinLinesIncludes | app/page.tsx:250 | the joined text contains every line |
| Text.Includes | app/page.tsx:832-838 | `includes` holds for the empty string and for any prefix, and never for a string longer than the text |
| Text.IncludesTransitive | app/page.tsx:832-835 | inclusion is transitive |
| Text.TrimStart | app/page.tsx:326 | a suffix starting with a non-space, everything cut being white space |
| Text.TrimEnd | app/page.tsx:326 | a prefix ending with a non-space, everything cut being white space |
| Text.Trim | app/page.tsx:326 | the trimmed name starts and ends with a non-space |
| Text.TrimIdempotent | app/page.tsx:326 | trimming twice equals trimming once |
| Quotes.MakeQuote | app/page.tsx:317-337 | the record copies id, size, quantity and finish, trims the name, and holds the finish label, the margin, the fee 80, both rounded totals, and the profit and IVA of the cost base with the fee |
| Quotes.MakeQuoteTotals | app/page.tsx:318-333 | the included-fee total is at least the no-shipping total and is the base plus fee plus profit plus IVA, rounded up |
| Quotes.MakeQuoteBenefit | app/page.tsx:320-331 | the saved profit is the margin on the base with the fee, the saved IVA the tax on base plus profit, and together they are the unrounded price minus that base |
| Quotes.TotalsOf | app/page.tsx:353 | the k-th total is the k-th record's included-fee total |
| Quotes.SumBenefit | app/page.tsx:357 | non-negative when every record's profit plus IVA is |
| Quotes.WithoutId | app/page.tsx:341-343 | keeps exactly the records whose id differs, never more records |
| Quotes.WithoutIdAppend | app/page.tsx:341-343 | the filter distributes over concatenation, so order is kept |
| Quotes.WithoutAbsentId | app/page.tsx:341-343 | removing an id no record carries changes nothing |
| Quotes.SaveThenRemove | app/page.tsx:317-343 | saving under a fresh id and then removing it restores the list |
| Messages.ItemLine | app/page.tsx:243 | an item line is non-empty and starts with '-' |
| Messages.QuoteLines | app/page.tsx:241-244 | one line per saved quote |
| Messages.QuoteLinesAt | app/page.tsx:241-244 | the k-th item line is the k-th quote's line |
| Messages.TotalLine | app/page.tsx:247 | the total line starts with `T` and carries the amount right after the `Total por todo: ` prefix, with nothing after it |
| Messages.MultiTotal | app/page.tsx:245-246 | the message's total is at least the sum of the saved totals |
| Messages.Notice | app/page.tsx:248 | the free-shipping line appears exactly when nothing is left to charge |
| Messages.MultiLines | app/page.tsx:234-251 | starts with the header; an empty list gives the header and the no-quotes line |
| Messages.BuildMultiText | app/page.tsx:234-251 | the loop builds and joins exactly the message's lines |
| Messages.MultiLinesShape | app/page.tsx:234-251 | header, the quotes in order, the total line, then the free-shipping line exactly when the remaining shipping is 0 |
| Messages.MultiTotalAgrees | app/page.tsx:245-246 | for a non-negative shipping or fee the message total is `computeCombinedTotalIncluded` |
| Messages.MultiTotalIsCombined | app/page.tsx:234-251 | the total line carries the combined total; free shipping is announced exactly when the fees cover the shipping |
| Messages.MultiTextIncludesAmounts | app/page.tsx:830-835 | the text includes the header, each quote's amount and the combined total |
| Messages.SingleLines | app/page.tsx:254-260 | header and item line, then the free-shipping line exactly when shipping is at most 0 |
| Messages.BuildSingleText | app/page.tsx:254-260 | the pushes build and join exactly those lines |
| Messages.SingleTextFreeShipping | app/page.tsx:837-838 | with shipping at most 0 the text includes "Envío gratis" |
| Session.StickerCalculator.constructor | app/page.tsx:263-269 | the initial state: no name, 5 cm, 100 stickers, the first finish, shipping 159, no quotes |
| Session.StickerCalculator.SetClientName | app/page.tsx:263 | sets the name, nothing else |
| Session.StickerCalculator.SetFinish | app/page.tsx:266 | sets the finish, nothing else |
| Session.StickerCalculator.HandleSizeSlider | app/page.tsx:294-297 | the first value, or the current size, rounded and clamped to 1..10; within half a unit of an in-range value |
| Session.StickerCalculator.HandleSizeInput | app/page.tsx:299-303 | not a number gives 1; otherwise clamped to 1..10, and an in-range value is kept |
| Session.StickerCalculator.HandleQtyInput | app/page.tsx:305-310 | not a number or negative gives 0; otherwise the value rounded down |
| Session.StickerCalculator.HandleShippingInput | app/page.tsx:312-315 | a finite value is taken, never below 0; anything else changes nothing |
| Session.StickerCalculator.SaveQuote | app/page.tsx:317-339 | appends exactly the snapshot of the current quote; the earlier records and the other fields are unchanged |
| Session.StickerCalculator.RemoveQuote | app/page.tsx:341-343 | the list becomes the filter by id: a record stays exactly when it was there and carries another id |
| Session.StickerCalculator.Reset | app/page.tsx:345-351 | the current quote returns to its initial values; the saved list and the text stay |
| Session.StickerCalculator.LiveTotals | app/page.tsx:285-287 | the live total minus profit and IVA is the cost base plus the shipping |
| Session.StickerCalculator.TotalRounded | app/page.tsx:288 | the live total rounded up; with shipping 0 it is the no-shipping total |
| Session.StickerCalculator.LiveSplit | app/page.tsx:290-291 | the partners' shares add up to profit plus IVA |
| Session.StickerCalculator.CombinedTotal | app/page.tsx:353-355 | the panel's total is `computeCombinedTotalIncluded` of the saved totals with fee 80, at least their sum |
| Session.StickerCalculator.MultiSplit | app/page.tsx:357-358 | the shares add up to the summed profit plus IVA of the saved quotes |
| Session.StickerCalculator.GeneratePrintTextMulti | app/page.tsx:360-364 | the text becomes the multi-quote message for the saved list; nothing else changes |
| Session.StickerCalculator.GeneratePrintTextSingle | app/page.tsx:366-370 | the text becomes the single-quote message for the live total; nothing else changes |

## Left out

- The React rendering, layout, animations and the `useState`/`useRef`
  plumbing: each state setter is a field assignment in a method.
- `tapFeedback` (vibration and Web Audio) and `handleCopy` (clipboard, DOM
  fallback, timers): side effects outside the calculation. So is the
  `copied` flag the two message handlers reset.
- `formatCurrency`, `formatCurrencyInt` and `formatPercent`: locale
  formatting through `Intl.NumberFormat`. `formatCurrencyInt` is the
  parameter `fmt`; the other two only feed the display.
- The string parsing in the three input handlers (the regex stripping,
  `parseInt`, `Number`): JavaScript coercion rules. The handlers take the
  parsed value, with `None` for `NaN` or, for shipping, a non-finite value.
- HandleQtyInput: an infinite quantity cannot be represented, because the
  parsed value is a finite real.
- IEEE-754 floating point: amounts are exact reals. Float error that could
  move a `Math.ceil` across an integer is not modelled.
- `Date.now()`: the saved quote's id is a parameter.
- The fallback of the table lookup `COST_PER_SHEET[finish] ?? 0`: the
  finish is a closed datatype with an entry for every value, so the
  fallback cannot be reached. (The finish's key string is modelled, as
  `Rates.FinishKey`, for the label lookup's fallback.)
- Text.IntToString: above 2^53 a JavaScript template literal prints the
  shortest digits that read back to the same double, padded with zeros
  (2^64 prints as 18446744073709552000), and at 10^21 or more it prints the
  exponent form (`1e+21`). The model always prints every digit, so an item
  line for such a quantity (reachable through `Number` and `Math.floor` in
  the quantity handler) differs.
