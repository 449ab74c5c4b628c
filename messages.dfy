/** The WhatsApp messages: one for the current quote and one for the list
    of saved quotes. Amounts are shown through the locale currency
    formatter, which is a parameter `fmt` here. */
module Messages {
  import opened Numeric
  import opened Pricing
  import opened Quotes
  import opened Text

  const HEADER: string := "Perfecto, ya tenemos tu cotización:"
  const NO_QUOTES_LINE: string := "— Sin cotizaciones guardadas —"
  const FREE_SHIPPING_LINE: string := "Envío gratis 🙌"
  const TOTAL_PREFIX: string := "Total por todo: "

  /** One item line: size, quantity, finish and formatted amount. */
  function ItemLine(sizeCm: int, qty: int, finishLabel: string, amount: string): (line: string)
    ensures |line| > 0 && line[0] == '-'
  {
    ConcatStartsWith(ItemHead(sizeCm, qty, finishLabel) + [amount]);
    Concat(ItemHead(sizeCm, qty, finishLabel) + [amount])
  }

  /** The pieces of an item line before the amount. */
  function ItemHead(sizeCm: int, qty: int, finishLabel: string): seq<string>
  {
    ["- ", IntToString(sizeCm), " cm · ", IntToString(qty), " stickers · ", finishLabel, " — "]
  }

  function QuoteLine(q: SavedQuote, fmt: int -> string): string
  {
    ItemLine(q.sizeCm, q.qty, q.finishLabel, fmt(q.totalWithIncludedRounded))
  }

  /** One item line per saved quote, in order. */
  function QuoteLines(quotes: seq<SavedQuote>, fmt: int -> string): (lines: seq<string>)
    ensures |lines| == |quotes|
  {
    if quotes == [] then [] else QuoteLines(quotes[..|quotes| - 1], fmt) + [QuoteLine(quotes[|quotes| - 1], fmt)]
  }

  /** The k-th item line is the line of the k-th saved quote. */
  lemma {:induction false} QuoteLinesAt(quotes: seq<SavedQuote>, fmt: int -> string)
    ensures forall k :: 0 <= k < |quotes| ==> QuoteLines(quotes, fmt)[k] == QuoteLine(quotes[k], fmt)
  {
    if quotes != [] {
      var init := quotes[..|quotes| - 1];
      QuoteLinesAt(init, fmt);
      assert forall k :: 0 <= k < |init| ==> init[k] == quotes[k];
    }
  }

  lemma QuoteLinesAppend(quotes: seq<SavedQuote>, q: SavedQuote, fmt: int -> string)
    ensures QuoteLines(quotes + [q], fmt) == QuoteLines(quotes, fmt) + [QuoteLine(q, fmt)]
  {
    assert (quotes + [q])[..|quotes|] == quotes;
  }

  /** The total line: the amount right after the `Total por todo: ` prefix. */
  function TotalLine(amount: string): (line: string)
    ensures |line| > 0 && line[0] == 'T'
    ensures IncludesAt(line, amount, |TOTAL_PREFIX|) && |line| == |TOTAL_PREFIX| + |amount|
  {
    TOTAL_PREFIX + amount
  }

  /** The amount on the total line: the saved totals plus the shipping
      still owed, rounded up. */
  function MultiTotal(quotes: seq<SavedQuote>, shipping: real, feePerQuote: real): (total: int)
    ensures total >= SumInts(TotalsOf(quotes))
  {
    var remaining := NetRemaining(shipping, feePerQuote, |quotes|);
    CeilMonotone(SumInts(TotalsOf(quotes)) as real, SumInts(TotalsOf(quotes)) as real + remaining);
    CeilOfInt(SumInts(TotalsOf(quotes)));
    Ceil(SumInts(TotalsOf(quotes)) as real + remaining)
  }

  /** The free-shipping notice, present when nothing is left to charge. */
  function Notice(remaining: real): (notice: seq<string>)
    ensures |notice| <= 1
    ensures |notice| == 1 <==> remaining <= 0.0
    ensures |notice| == 1 ==> notice[0] == FREE_SHIPPING_LINE
  {
    if remaining <= 0.0 then [FREE_SHIPPING_LINE] else []
  }

  /** Header, one line per quote and the total line. */
  function MultiBody(quotes: seq<SavedQuote>, total: int, fmt: int -> string): seq<string>
  {
    [HEADER] + QuoteLines(quotes, fmt) + [TotalLine(fmt(total))]
  }

  lemma MultiBodyShape(quotes: seq<SavedQuote>, total: int, fmt: int -> string)
    ensures var lines := MultiBody(quotes, total, fmt);
            && |lines| == |quotes| + 2 && lines[0] == HEADER
            && (forall k :: 0 <= k < |quotes| ==> lines[k + 1] == QuoteLine(quotes[k], fmt))
            && lines[|quotes| + 1] == TotalLine(fmt(total))
  {
    QuoteLinesAt(quotes, fmt);
  }

  /** The lines of the multi-quote message. The shipping still owed is
      `NetRemaining`; free shipping is announced when it is 0. */
  function MultiLines(quotes: seq<SavedQuote>, shipping: real, feePerQuote: real, fmt: int -> string): (lines: seq<string>)
    ensures |lines| >= 2 && lines[0] == HEADER
    ensures quotes == [] ==> lines == [HEADER, NO_QUOTES_LINE]
  {
    if |quotes| == 0 then [HEADER, NO_QUOTES_LINE]
    else
      MultiBody(quotes, MultiTotal(quotes, shipping, feePerQuote), fmt)
      + Notice(NetRemaining(shipping, feePerQuote, |quotes|))
  }

  /** The rounded total computed from a running sum of the saved totals. */
  lemma MultiTotalFromSum(quotes: seq<SavedQuote>, shipping: real, feePerQuote: real,
                          suma: int, remaining: real, totalFinal: int)
    requires suma == SumInts(TotalsOf(quotes))
    requires remaining == Max(0.0, shipping - feePerQuote * |quotes| as real)
    requires totalFinal == Ceil(suma as real + remaining)
    ensures totalFinal == MultiTotal(quotes, shipping, feePerQuote)
    ensures remaining == NetRemaining(shipping, feePerQuote, |quotes|)
  {
  }

  lemma MultiLinesParts(quotes: seq<SavedQuote>, shipping: real, feePerQuote: real, fmt: int -> string)
    requires quotes != []
    ensures MultiLines(quotes, shipping, feePerQuote, fmt)
            == [HEADER] + QuoteLines(quotes, fmt) + [TotalLine(fmt(MultiTotal(quotes, shipping, feePerQuote)))]
               + Notice(NetRemaining(shipping, feePerQuote, |quotes|))
  {
  }

  /** A non-empty multi-quote message written out line by line, from the
      running sum, the remaining shipping and the rounded total. */
  lemma MultiLinesUnfold(quotes: seq<SavedQuote>, shipping: real, feePerQuote: real, fmt: int -> string,
                         suma: int, remaining: real, totalFinal: int)
    requires quotes != []
    requires suma == SumInts(TotalsOf(quotes))
    requires remaining == Max(0.0, shipping - feePerQuote * |quotes| as real)
    requires totalFinal == Ceil(suma as real + remaining)
    ensures MultiLines(quotes, shipping, feePerQuote, fmt)
            == [HEADER] + QuoteLines(quotes, fmt) + [TotalLine(fmt(totalFinal))] + Notice(remaining)
  {
    MultiTotalFromSum(quotes, shipping, feePerQuote, suma, remaining, totalFinal);
    MultiLinesParts(quotes, shipping, feePerQuote, fmt);
  }

  /** One turn of the loop over the saved quotes: the running sum and the
      item lines each grow by the next quote. */
  lemma MultiLoopStep(quotes: seq<SavedQuote>, i: nat, fmt: int -> string)
    requires i < |quotes|
    ensures SumInts(TotalsOf(quotes[..i + 1])) == SumInts(TotalsOf(quotes[..i])) + quotes[i].totalWithIncludedRounded
    ensures QuoteLines(quotes[..i + 1], fmt) == QuoteLines(quotes[..i], fmt) + [QuoteLine(quotes[i], fmt)]
  {
    assert quotes[..i + 1] == quotes[..i] + [quotes[i]];
    TotalsOfAppend(quotes[..i], quotes[i]);
    SumIntsAppend(TotalsOf(quotes[..i]), quotes[i].totalWithIncludedRounded);
    QuoteLinesAppend(quotes[..i], quotes[i], fmt);
  }

  /** `buildMultiText`: pushes the header, then one line per quote while
      adding up their totals, then the total line and the free-shipping
      notice, and joins the lines. */
  method BuildMultiText(quotes: seq<SavedQuote>, shipping: real, feePerQuote: real, fmt: int -> string)
    returns (text: string)
    ensures text == JoinLines(MultiLines(quotes, shipping, feePerQuote, fmt))
  {
    var lines: seq<string> := [];
    lines := lines + [HEADER];
    if |quotes| == 0 {
      lines := lines + [NO_QUOTES_LINE];
    } else {
      var suma := 0;
      for i := 0 to |quotes|
        invariant suma == SumInts(TotalsOf(quotes[..i]))
        invariant lines == [HEADER] + QuoteLines(quotes[..i], fmt)
      {
        MultiLoopStep(quotes, i, fmt);
        suma := suma + quotes[i].totalWithIncludedRounded;
        lines := lines + [QuoteLine(quotes[i], fmt)];
      }
      assert quotes[..|quotes|] == quotes;
      var remaining := Max(0.0, shipping - feePerQuote * |quotes| as real);
      var totalFinal := Ceil(suma as real + remaining);
      lines := lines + [TotalLine(fmt(totalFinal))];
      ghost var beforeNotice := lines;
      if remaining <= 0.0 {
        lines := lines + [FREE_SHIPPING_LINE];
      }
      assert lines == beforeNotice + Notice(remaining);
      MultiLinesUnfold(quotes, shipping, feePerQuote, fmt, suma, remaining, totalFinal);
    }
    text := JoinLines(lines);
  }

  lemma TotalLineIsNotNotice(amount: string)
    ensures TotalLine(amount) != FREE_SHIPPING_LINE
  {
    assert TotalLine(amount)[0] != FREE_SHIPPING_LINE[0];
  }

  /** Shape of a non-empty multi-quote message: the header, the quotes in
      order, the total line, then the notice exactly when nothing of the
      shipping is left to charge. */
  lemma MultiLinesShape(quotes: seq<SavedQuote>, shipping: real, feePerQuote: real, fmt: int -> string)
    requires quotes != []
    ensures var lines := MultiLines(quotes, shipping, feePerQuote, fmt);
            var free := NetRemaining(shipping, feePerQuote, |quotes|) == 0.0;
            && |lines| == |quotes| + (if free then 3 else 2)
            && (forall k :: 0 <= k < |quotes| ==> lines[k + 1] == QuoteLine(quotes[k], fmt))
            && lines[|quotes| + 1] == TotalLine(fmt(MultiTotal(quotes, shipping, feePerQuote)))
            && (lines[|lines| - 1] == FREE_SHIPPING_LINE <==> free)
  {
    var remaining := NetRemaining(shipping, feePerQuote, |quotes|);
    var body := MultiBody(quotes, MultiTotal(quotes, shipping, feePerQuote), fmt);
    var notice := Notice(remaining);
    var lines := body + notice;
    MultiBodyShape(quotes, MultiTotal(quotes, shipping, feePerQuote), fmt);
    assert lines == MultiLines(quotes, shipping, feePerQuote, fmt);
    assert forall k :: 0 <= k < |body| ==> lines[k] == body[k];
    if remaining != 0.0 {
      assert lines[|lines| - 1] == body[|quotes| + 1];
      TotalLineIsNotNotice(fmt(MultiTotal(quotes, shipping, feePerQuote)));
    }
  }

  /** When shipping or fee is non-negative, the message's amount is the
      combined total of the saved quotes. */
  lemma MultiTotalAgrees(quotes: seq<SavedQuote>, shipping: real, feePerQuote: real)
    requires shipping >= 0.0 || feePerQuote >= 0.0
    ensures MultiTotal(quotes, shipping, feePerQuote) == CombinedTotalIncluded(TotalsOf(quotes), shipping, feePerQuote)
  {
    NetRemainingAgrees(shipping, feePerQuote, |quotes|);
  }

  /** When shipping or fee is non-negative (as in the session, where both
      are), the message's total line carries the combined total of the saved
      quotes, and free shipping is announced exactly when the fees cover the
      shipping. */
  lemma MultiTotalIsCombined(quotes: seq<SavedQuote>, shipping: real, feePerQuote: real, fmt: int -> string)
    requires quotes != []
    requires shipping >= 0.0 || feePerQuote >= 0.0
    ensures var lines := MultiLines(quotes, shipping, feePerQuote, fmt);
            && lines[|quotes| + 1] == TotalLine(fmt(CombinedTotalIncluded(TotalsOf(quotes), shipping, feePerQuote)))
            && (lines[|lines| - 1] == FREE_SHIPPING_LINE <==> Max(0.0, shipping) <= feePerQuote * |quotes| as real)
  {
    NetRemainingAgrees(shipping, feePerQuote, |quotes|);
    MultiTotalAgrees(quotes, shipping, feePerQuote);
    MultiLinesShape(quotes, shipping, feePerQuote, fmt);
  }

  /** The joined message shows every quote's amount and the combined total
      (what the page's own checks look for). */
  lemma MultiTextIncludesAmounts(quotes: seq<SavedQuote>, shipping: real, feePerQuote: real, fmt: int -> string, k: nat)
    requires k < |quotes|
    requires shipping >= 0.0 || feePerQuote >= 0.0
    ensures var text := JoinLines(MultiLines(quotes, shipping, feePerQuote, fmt));
            && Includes(text, HEADER)
            && Includes(text, fmt(quotes[k].totalWithIncludedRounded))
            && Includes(text, fmt(CombinedTotalIncluded(TotalsOf(quotes), shipping, feePerQuote)))
  {
    var lines := MultiLines(quotes, shipping, feePerQuote, fmt);
    MultiLinesShape(quotes, shipping, feePerQuote, fmt);
    MultiTotalIsCombined(quotes, shipping, feePerQuote, fmt);
    JoinLinesIncludes(lines, 0);
    JoinLinesIncludes(lines, k + 1);
    JoinLinesIncludes(lines, |quotes| + 1);
    var q := quotes[k];
    var itemHead := Concat(ItemHead(q.sizeCm, q.qty, q.finishLabel));
    ConcatEndsWith(ItemHead(q.sizeCm, q.qty, q.finishLabel), fmt(q.totalWithIncludedRounded));
    assert lines[k + 1] == itemHead + fmt(q.totalWithIncludedRounded);
    IncludesSuffix(itemHead, fmt(q.totalWithIncludedRounded));
    IncludesTransitive(JoinLines(lines), lines[k + 1], fmt(q.totalWithIncludedRounded));
    var total := fmt(CombinedTotalIncluded(TotalsOf(quotes), shipping, feePerQuote));
    IncludesSuffix(TOTAL_PREFIX, total);
    IncludesTransitive(JoinLines(lines), lines[|quotes| + 1], total);
  }

  /** The lines of the single-quote message. */
  function SingleLines(sizeCm: int, qty: int, finishLabel: string, totalRounded: int, shipping: real, fmt: int -> string)
    : (lines: seq<string>)
    ensures |lines| == (if shipping <= 0.0 then 3 else 2)
    ensures lines[0] == HEADER && lines[1] == ItemLine(sizeCm, qty, finishLabel, fmt(totalRounded))
    ensures lines[|lines| - 1] == FREE_SHIPPING_LINE <==> shipping <= 0.0
  {
    assert FREE_SHIPPING_LINE[0] == 'E';
    [HEADER, ItemLine(sizeCm, qty, finishLabel, fmt(totalRounded))]
    + (if shipping <= 0.0 then [FREE_SHIPPING_LINE] else [])
  }

  /** `buildSingleText`. */
  method BuildSingleText(sizeCm: int, qty: int, finishLabel: string, totalRounded: int, shipping: real, fmt: int -> string)
    returns (text: string)
    ensures text == JoinLines(SingleLines(sizeCm, qty, finishLabel, totalRounded, shipping, fmt))
  {
    var lines: seq<string> := [];
    lines := lines + [HEADER];
    lines := lines + [ItemLine(sizeCm, qty, finishLabel, fmt(totalRounded))];
    if shipping <= 0.0 {
      lines := lines + [FREE_SHIPPING_LINE];
    }
    assert lines == SingleLines(sizeCm, qty, finishLabel, totalRounded, shipping, fmt);
    text := JoinLines(lines);
  }

  /** With no shipping the single message announces free shipping. */
  lemma SingleTextFreeShipping(sizeCm: int, qty: int, finishLabel: string, totalRounded: int, shipping: real, fmt: int -> string)
    requires shipping <= 0.0
    ensures Includes(JoinLines(SingleLines(sizeCm, qty, finishLabel, totalRounded, shipping, fmt)), "Envío gratis")
  {
    var lines := SingleLines(sizeCm, qty, finishLabel, totalRounded, shipping, fmt);
    JoinLinesIncludes(lines, 2);
    assert IncludesAt(FREE_SHIPPING_LINE, "Envío gratis", 0);
    IncludesTransitive(JoinLines(lines), FREE_SHIPPING_LINE, "Envío gratis");
  }
}
