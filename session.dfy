/** The calculator page's state: the current quote being edited, the list of
    saved quotes and the generated message text, with the handlers that
    change them and the values the page derives from them. */
module Session {
  import opened Numeric
  import opened Rates
  import opened Pricing
  import opened Quotes
  import opened Messages
  import opened Text

  /** A parsed input: `None` stands for a value the page reads as not a
      number (or, for shipping, not finite). */
  datatype Option<T> = None | Some(value: T)

  const DEFAULT_SIZE_CM: int := 5
  const DEFAULT_QTY: nat := 100
  const DEFAULT_SHIPPING: real := 159.0
  const MIN_SIZE_CM: int := 1
  const MAX_SIZE_CM: int := 10

  /** The sizes the page can hold: every handler clamps to the slider's
      range. */
  type SizeCm = n: int | MIN_SIZE_CM <= n <= MAX_SIZE_CM witness DEFAULT_SIZE_CM

  /** Shipping as the page holds it: every handler keeps it non-negative. */
  type Shipping = r: real | r >= 0.0 witness DEFAULT_SHIPPING

  class StickerCalculator {
    var clientName: string
    var sizeCm: SizeCm
    var qty: nat
    var finish: Finish
    var shipping: Shipping
    var savedQuotes: seq<SavedQuote>
    var printText: string

    /** The initial state: no name, 5 cm, 100 stickers, the first finish of
        the catalogue, 159 of shipping, nothing saved. */
    constructor ()
      ensures clientName == "" && sizeCm == DEFAULT_SIZE_CM && qty == DEFAULT_QTY
      ensures finish == ACABADOS[0].value && shipping == DEFAULT_SHIPPING
      ensures savedQuotes == [] && printText == ""
    {
      clientName := "";
      sizeCm := DEFAULT_SIZE_CM;
      qty := DEFAULT_QTY;
      finish := ACABADOS[0].value;
      shipping := DEFAULT_SHIPPING;
      savedQuotes := [];
      printText := "";
    }

    method SetClientName(name: string)
      modifies this
      ensures clientName == name
      ensures sizeCm == old(sizeCm) && qty == old(qty) && finish == old(finish) && shipping == old(shipping)
      ensures savedQuotes == old(savedQuotes) && printText == old(printText)
    {
      clientName := name;
    }

    method SetFinish(f: Finish)
      modifies this
      ensures finish == f
      ensures clientName == old(clientName) && sizeCm == old(sizeCm) && qty == old(qty) && shipping == old(shipping)
      ensures savedQuotes == old(savedQuotes) && printText == old(printText)
    {
      finish := f;
    }

    /** `handleSizeSlider`: the first slider value (the current size when
        there is none), rounded and clamped to 1..10. */
    method HandleSizeSlider(values: seq<real>)
      modifies this
      ensures sizeCm == Clamp(Round(if |values| > 0 then values[0] else old(sizeCm) as real), MIN_SIZE_CM, MAX_SIZE_CM)
      ensures |values| > 0 && MIN_SIZE_CM as real <= values[0] <= MAX_SIZE_CM as real
              ==> values[0] - 0.5 < sizeCm as real <= values[0] + 0.5
      ensures |values| == 0 ==> sizeCm == old(sizeCm)
      ensures clientName == old(clientName) && qty == old(qty) && finish == old(finish) && shipping == old(shipping)
      ensures savedQuotes == old(savedQuotes) && printText == old(printText)
    {
      var v := Clamp(Round(if |values| > 0 then values[0] else sizeCm as real), MIN_SIZE_CM, MAX_SIZE_CM);
      sizeCm := v;
    }

    /** `handleSizeInput`: the digits typed, parsed as an integer and
        clamped to 1..10; an entry that is not a number gives 1. */
    method HandleSizeInput(raw: Option<int>)
      modifies this
      ensures raw.None? ==> sizeCm == MIN_SIZE_CM
      ensures raw.Some? ==> sizeCm == Clamp(raw.value, MIN_SIZE_CM, MAX_SIZE_CM)
      ensures raw.Some? && MIN_SIZE_CM <= raw.value <= MAX_SIZE_CM ==> sizeCm == raw.value
      ensures clientName == old(clientName) && qty == old(qty) && finish == old(finish) && shipping == old(shipping)
      ensures savedQuotes == old(savedQuotes) && printText == old(printText)
    {
      if raw.None? {
        sizeCm := MIN_SIZE_CM;
        return;
      }
      sizeCm := Clamp(raw.value, MIN_SIZE_CM, MAX_SIZE_CM);
    }

    /** `handleQtyInput`: the number typed, rounded down and never below 0;
        an entry that is not a number gives 0. */
    method HandleQtyInput(n: Option<real>)
      modifies this
      ensures n.None? ==> qty == 0
      ensures n.Some? && n.value < 0.0 ==> qty == 0
      ensures n.Some? && n.value >= 0.0 ==> qty as real <= n.value < qty as real + 1.0
      ensures clientName == old(clientName) && sizeCm == old(sizeCm) && finish == old(finish) && shipping == old(shipping)
      ensures savedQuotes == old(savedQuotes) && printText == old(printText)
    {
      if n.None? {
        qty := 0;
        return;
      }
      var f := Floor(n.value);
      qty := if f < 0 then 0 else f;
    }

    /** `handleShippingInput`: a finite number is taken, never below 0; any
        other entry leaves the shipping as it was. */
    method HandleShippingInput(n: Option<real>)
      modifies this
      ensures n.None? ==> shipping == old(shipping)
      ensures n.Some? ==> shipping == Max(0.0, n.value)
      ensures clientName == old(clientName) && sizeCm == old(sizeCm) && qty == old(qty) && finish == old(finish)
      ensures savedQuotes == old(savedQuotes) && printText == old(printText)
    {
      if n.Some? {
        shipping := Max(0.0, n.value);
      }
    }

    /** `onSaveQuote`: appends a snapshot of the current quote under the
        given id (the clock's time in the application). */
    method SaveQuote(id: int)
      modifies this
      ensures savedQuotes == old(savedQuotes) + [MakeQuote(id, old(clientName), old(sizeCm), old(qty), old(finish))]
      ensures clientName == old(clientName) && sizeCm == old(sizeCm) && qty == old(qty)
      ensures finish == old(finish) && shipping == old(shipping) && printText == old(printText)
    {
      // Only the record's identity matters here, not how its totals are computed.
      hide *;
      var item := MakeQuote(id, clientName, sizeCm, qty, finish);
      savedQuotes := savedQuotes + [item];
    }

    /** `removeQuote`: drops the saved quotes carrying `id`. */
    method RemoveQuote(id: int)
      modifies this
      ensures savedQuotes == WithoutId(old(savedQuotes), id)
      ensures forall q :: q in savedQuotes <==> q in old(savedQuotes) && q.id != id
      ensures clientName == old(clientName) && sizeCm == old(sizeCm) && qty == old(qty)
      ensures finish == old(finish) && shipping == old(shipping) && printText == old(printText)
    {
      savedQuotes := WithoutId(savedQuotes, id);
    }

    /** `reset`: the current quote goes back to its initial values; the
        saved list and the message text stay. */
    method Reset()
      modifies this
      ensures clientName == "" && sizeCm == DEFAULT_SIZE_CM && qty == DEFAULT_QTY
      ensures finish == ACABADOS[0].value && shipping == DEFAULT_SHIPPING
      ensures savedQuotes == old(savedQuotes) && printText == old(printText)
    {
      clientName := "";
      sizeCm := DEFAULT_SIZE_CM;
      qty := DEFAULT_QTY;
      finish := ACABADOS[0].value;
      shipping := DEFAULT_SHIPPING;
    }

    /** The live breakdown of the current quote, with the real shipping in
        the cost base. */
    function LiveTotals(): (t: Totals)
      reads this
      ensures t.total - t.profit - t.iva == OperariosWithoutShipping(qty, sizeCm, finish) + shipping
    {
      LiveQuote(qty, sizeCm, finish, shipping)
    }

    /** The live total as displayed. */
    function TotalRounded(): (total: int)
      reads this
      ensures LiveTotals().total <= total as real < LiveTotals().total + 1.0
      ensures shipping == 0.0 ==> total == QuoteTotalNoShipping(qty, sizeCm, finish)
    {
      LiveTotalWithoutShipping(qty, sizeCm, finish);
      LiveTotalRounded(qty, sizeCm, finish, shipping)
    }

    /** The live benefit (profit plus IVA) split between the two partners. */
    function LiveSplit(): (s: Split)
      reads this
      ensures s.aleli + s.pepe == LiveTotals().profit + LiveTotals().iva
    {
      BenefitSplit(LiveTotals().profit + LiveTotals().iva)
    }

    /** The multi-quote panel's combined total (saved totals plus the
        shipping not covered by the included fees, rounded up); with the
        session's non-negative shipping it is the aggregator's combined
        total. */
    function CombinedTotal(): (total: int)
      reads this
      ensures total == CombinedTotalIncluded(TotalsOf(savedQuotes), shipping, INCLUDED_FEE_PER_QUOTE)
      ensures total >= SumInts(TotalsOf(savedQuotes))
    {
      var sumWithFee := SumInts(TotalsOf(savedQuotes));
      var remainingShipping := NetRemaining(shipping, INCLUDED_FEE_PER_QUOTE, |savedQuotes|);
      NetRemainingAgrees(shipping, INCLUDED_FEE_PER_QUOTE, |savedQuotes|);
      Ceil(sumWithFee as real + remainingShipping)
    }

    /** The multi-quote panel's benefit split over the saved quotes. */
    function MultiSplit(): (s: Split)
      reads this
      ensures s.aleli + s.pepe == SumBenefit(savedQuotes)
    {
      BenefitSplit(SumBenefit(savedQuotes))
    }

    /** `handleGeneratePrintTextMulti`: the message for the saved quotes. */
    method GeneratePrintTextMulti(fmt: int -> string)
      modifies this
      ensures printText == JoinLines(MultiLines(savedQuotes, shipping, INCLUDED_FEE_PER_QUOTE, fmt))
      ensures clientName == old(clientName) && sizeCm == old(sizeCm) && qty == old(qty)
      ensures finish == old(finish) && shipping == old(shipping) && savedQuotes == old(savedQuotes)
    {
      var txt := BuildMultiText(savedQuotes, shipping, INCLUDED_FEE_PER_QUOTE, fmt);
      printText := txt;
    }

    /** `handleGeneratePrintTextSingle`: the message for the current quote. */
    method GeneratePrintTextSingle(fmt: int -> string)
      modifies this
      ensures printText == JoinLines(SingleLines(sizeCm, qty, FinishLabel(finish), TotalRounded(), shipping, fmt))
      ensures clientName == old(clientName) && sizeCm == old(sizeCm) && qty == old(qty)
      ensures finish == old(finish) && shipping == old(shipping) && savedQuotes == old(savedQuotes)
    {
      var txt := BuildSingleText(sizeCm, qty, FinishLabel(finish), TotalRounded(), shipping, fmt);
      printText := txt;
    }
  }
}
