/** The static rate tables of the sticker calculator: sheet capacity by
    size, cost per sheet by finish, fixed costs, per-sheet variable rates,
    the margin bands, the tax rate, the flat fee bundled into a saved quote
    and the profit-split ratios. All amounts are in Mexican pesos. */
module Rates {

  /** The five finishes offered (`acabados`). */
  datatype Finish = VinilBlanco | HoloClasico | HoloPuntos | HoloArena | VinilBlancoLaminado

  /** One entry of the finish catalogue: its key and its display label. */
  datatype FinishOption = FinishOption(value: Finish, title: string)

  /** The catalogue in display order. */
  const ACABADOS: seq<FinishOption> := [
    FinishOption(VinilBlanco, "Vinil blanco"),
    FinishOption(HoloClasico, "Holo clásico"),
    FinishOption(HoloPuntos, "Holo puntos"),
    FinishOption(HoloArena, "Holo arena"),
    FinishOption(VinilBlancoLaminado, "Vinil blanco laminado")
  ]

  /** The key string each finish is stored under: a snake_case word, unlike
      the display labels. */
  function FinishKey(f: Finish): (key: string)
    ensures '_' in key
  {
    match f
    case VinilBlanco => "vinil_blanco"
    case HoloClasico => "holo_clasico"
    case HoloPuntos => "holo_puntos"
    case HoloArena => "holo_arena"
    case VinilBlancoLaminado => "vinil_blanco_laminado"
  }

  /** Different finishes are stored under different keys. */
  lemma FinishKeyInjective(f: Finish, g: Finish)
    ensures FinishKey(f) == FinishKey(g) ==> f == g
  {
  }

  /** Stickers that fit on one sheet, by sticker size in centimetres. */
  const PER_SHEET: map<int, nat> := map[1 := 50, 2 := 50, 3 := 30, 4 := 18, 5 := 13,
                                        6 := 7, 7 := 6, 8 := 5, 9 := 2, 10 := 2]

  /** Sheet capacity for a size; a size with no table entry holds nothing. */
  function StickersPerSheet(sizeCm: int): (per: nat)
    ensures per > 0 <==> 1 <= sizeCm <= 10
    ensures per <= 50
  {
    if sizeCm in PER_SHEET then PER_SHEET[sizeCm] else 0
  }

  /** Cost of one sheet of each finish. */
  function CostPerSheet(f: Finish): (c: real)
    ensures 5.9 <= c <= 17.0
  {
    match f
    case VinilBlanco => 5.9
    case HoloClasico => 7.9
    case HoloPuntos => 7.9
    case HoloArena => 10.0
    case VinilBlancoLaminado => 17.0
  }

  /** Label lookup in a catalogue: the first entry for the finish, or the
      finish's key when the catalogue has none. */
  function FindLabel(options: seq<FinishOption>, f: Finish): (name: string)
    ensures (forall k :: 0 <= k < |options| ==> options[k].value != f) ==> name == FinishKey(f)
  {
    if options == [] then FinishKey(f)
    else if options[0].value == f then options[0].title
    else
      assert forall k :: 1 <= k < |options| ==> options[1..][k - 1] == options[k];
      FindLabel(options[1..], f)
  }

  /** When the catalogue lists the finish, the lookup gives the label of its
      first entry. */
  lemma {:induction false} FindLabelFirst(options: seq<FinishOption>, f: Finish, k: nat)
    requires k < |options| && options[k].value == f
    requires forall j :: 0 <= j < k ==> options[j].value != f
    ensures FindLabel(options, f) == options[k].title
  {
    if k > 0 {
      FindLabelFirst(options[1..], f, k - 1);
    }
  }

  /** The display label of a finish (`getFinishLabel`). */
  function FinishLabel(f: Finish): (name: string)
    ensures name != FinishKey(f)
  {
    var k := match f
      case VinilBlanco => 0
      case HoloClasico => 1
      case HoloPuntos => 2
      case HoloArena => 3
      case VinilBlancoLaminado => 4;
    FindLabelFirst(ACABADOS, f, k);
    FindLabel(ACABADOS, f)
  }

  /** Every finish has its own catalogue label, so the key fallback is never
      taken. */
  lemma FinishLabelFromCatalogue(f: Finish)
    ensures exists k :: 0 <= k < |ACABADOS| && ACABADOS[k].value == f && ACABADOS[k].title == FinishLabel(f)
  {
    match f
    case VinilBlanco => assert ACABADOS[0].title == FinishLabel(f);
    case HoloClasico => assert ACABADOS[1].title == FinishLabel(f);
    case HoloPuntos => assert ACABADOS[2].title == FinishLabel(f);
    case HoloArena => assert ACABADOS[3].title == FinishLabel(f);
    case VinilBlancoLaminado => assert ACABADOS[4].title == FinishLabel(f);
  }

  /** A fixed cost charged once per quote. */
  datatype FixedCost = FixedCost(key: string, title: string, value: real)

  const FIXED_COSTS: seq<FixedCost> := [
    FixedCost("caja_envio", "Caja de envío", 20.0),
    FixedCost("tapete_corte", "Tapete de corte", 0.76),
    FixedCost("cinta_kraft", "Cinta kraft", 4.0),
    FixedCost("guia_envio", "Guía de envío", 0.3)
  ]

  /** Left-to-right sum of the fixed costs (the `reduce` over the list). */
  function SumFixed(costs: seq<FixedCost>): (total: real)
    ensures (forall k :: 0 <= k < |costs| ==> costs[k].value >= 0.0) ==> total >= 0.0
  {
    if costs == [] then 0.0
    else SumFixed(costs[..|costs| - 1]) + costs[|costs| - 1].value
  }

  /** The fixed costs of one quote, summed as the page does. */
  function FixedTotal(): (total: real)
    ensures total >= 0.0
  {
    SumFixed(FIXED_COSTS)
  }

  /** The fixed costs come to 25.06 per quote. */
  lemma FixedTotalValue()
    ensures FixedTotal() == 25.06
  {
    var c := FIXED_COSTS;
    assert c[..1][..0] == [];
    assert SumFixed(c[..1]) == 20.0;
    assert c[..2][..1] == c[..1];
    assert SumFixed(c[..2]) == 20.76;
    assert c[..3][..2] == c[..2];
    assert SumFixed(c[..3]) == 24.76;
    assert c[..4][..3] == c[..3] && c[..4] == c;
  }

  /** Variable rates per sheet: ink, cutting and special tape. */
  const TINTA_RATE: real := 0.25
  const CORTE_RATE: real := 0.13
  const CINTA_MAGICA_RATE: real := 0.7

  /** Mexican value-added tax (IVA). */
  const IVA_RATE: real := 0.16

  /** Flat amount bundled into each saved quote as a stand-in for shipping. */
  const INCLUDED_FEE_PER_QUOTE: real := 80.0

  /** Shares of the benefit (margin plus tax) for the two partners. */
  const ALELI_RATE: real := 0.55
  const PEPE_RATE: real := 0.45

  /** Margin rate: 46% up to 7 cm, 33% above. */
  function Margin(sizeCm: int): (m: real)
    ensures m == 0.46 <==> sizeCm <= 7
    ensures m == 0.33 <==> sizeCm > 7
  {
    if sizeCm <= 7 then 0.46 else 0.33
  }
}
