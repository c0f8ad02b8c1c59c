/**
 * The pallet figures of a sale order (`models/sale_order.py`): its pallet
 * count and totals, and the palletizing summary per order line.
 */
module SaleOrders {
  import opened Common
  import Text
  import P = Pallets

  /** `_compute_pallet_count`. */
  function PalletCount(pallets: seq<P.Pallet>): nat
  {
    |pallets|
  }

  /** `_compute_pallet_totals`: the weight of the order's pallets. */
  function TotalPalletKg(pallets: seq<P.Pallet>): real
    decreases |pallets|
  {
    if pallets == [] then 0.0 else TotalPalletKg(P.Init(pallets)) + P.TotalKg(P.Last(pallets).lines)
  }

  /** `_compute_pallet_totals`: the boxes of the order's pallets. */
  function TotalPalletBoxes(pallets: seq<P.Pallet>): int
    decreases |pallets|
  {
    if pallets == [] then 0 else TotalPalletBoxes(P.Init(pallets)) + P.TotalBoxes(P.Last(pallets).lines)
  }

  /** `pallet_ids.mapped('line_ids')`: every line of every pallet, pallet by pallet. */
  function AllLines(pallets: seq<P.Pallet>): seq<P.PalletLine>
    decreases |pallets|
  {
    if pallets == [] then [] else AllLines(P.Init(pallets)) + P.Last(pallets).lines
  }

  /** The order's totals are those of all its pallet lines taken together. */
  lemma {:induction false} TotalsOverAllLines(pallets: seq<P.Pallet>)
    ensures TotalPalletKg(pallets) == P.TotalKg(AllLines(pallets))
    ensures TotalPalletBoxes(pallets) == P.TotalBoxes(AllLines(pallets))
    decreases |pallets|
  {
    if pallets != [] {
      TotalsOverAllLines(P.Init(pallets));
      P.TotalsConcat(AllLines(P.Init(pallets)), P.Last(pallets).lines);
    }
  }

  /**
   * A pallet added to the order is counted, and one created with the
   * default name is numbered one past the pallets the order had.
   */
  lemma NewPalletNumber(pallets: seq<P.Pallet>, order: OrderId, added: P.Pallet)
    requires added.name == P.PalletName(None, Some(order), PalletCount(pallets))
    ensures PalletCount(pallets + [added]) == PalletCount(pallets) + 1
    ensures Text.ParseDigits(added.name[|P.NumberedPrefix|..]) == PalletCount(pallets + [added])
  {
    P.NumberedName(None, Some(order), PalletCount(pallets));
  }

  /** One entry of `get_pallet_progress_summary`. */
  datatype SummaryEntry = SummaryEntry(
    product: ProductId,
    ordered: real,
    palletized: real,
    remaining: real,
    percent: real,
    isComplete: bool,
    isOver: bool)

  /** The weight palletized of a product, over every line of every pallet. */
  function Palletized(pallets: seq<P.Pallet>, product: ProductId): real
  {
    P.CurrentSubtotal(AllLines(pallets), product)
  }

  /** The summary entry of one order line. */
  function EntryFor(line: P.SaleLine, pallets: seq<P.Pallet>): SummaryEntry
  {
    var ordered := line.quantity;
    var palletized := Palletized(pallets, line.product);
    SummaryEntry(line.product, ordered, palletized,
                 if ordered - palletized > 0.0 then ordered - palletized else 0.0,
                 if ordered > 0.0 then palletized / ordered * 100.0 else 0.0,
                 palletized >= ordered,
                 palletized > ordered)
  }

  /**
   * The figures of an entry: the remaining quantity is never negative and is
   * 0 exactly when the entry is complete; over implies complete. Unlike a
   * pallet line's figures, completeness has no guard on the ordered
   * quantity: an order line of quantity 0 is complete.
   */
  lemma EntryMeaning(line: P.SaleLine, pallets: seq<P.Pallet>)
    ensures var e := EntryFor(line, pallets);
            e.product == line.product && e.ordered == line.quantity &&
            e.remaining >= 0.0 && e.remaining >= e.ordered - e.palletized &&
            (e.remaining == 0.0 <==> e.isComplete) &&
            (e.isOver ==> e.isComplete) &&
            (e.ordered <= 0.0 ==> e.percent == 0.0) &&
            (e.ordered > 0.0 ==> e.percent * e.ordered == e.palletized * 100.0)
    ensures line.quantity == 0.0 && Palletized(pallets, line.product) >= 0.0 ==> EntryFor(line, pallets).isComplete
  {
    var e := EntryFor(line, pallets);
    if e.ordered > 0.0 {
      assert e.percent == e.palletized / e.ordered * 100.0;
    }
  }

  /**
   * The palletized weight of a product over the order's pallets is the sum
   * of its weight on each pallet.
   */
  lemma {:induction false} PalletizedPerPallet(pallets: seq<P.Pallet>, product: ProductId)
    ensures pallets == [] ==> Palletized(pallets, product) == 0.0
    ensures pallets != [] ==>
              Palletized(pallets, product) == Palletized(P.Init(pallets), product) + P.CurrentSubtotal(P.Last(pallets).lines, product)
  {
    if pallets != [] {
      P.CurrentAppend(AllLines(P.Init(pallets)), P.Last(pallets).lines, product);
    }
  }

  /** `get_pallet_progress_summary`: one entry per order line, in order-line order. */
  method ProgressSummary(saleLines: seq<P.SaleLine>, pallets: seq<P.Pallet>) returns (summary: seq<SummaryEntry>)
    ensures |summary| == |saleLines|
    ensures forall i :: 0 <= i < |saleLines| ==> summary[i] == EntryFor(saleLines[i], pallets)
  {
    summary := [];
    var i := 0;
    while i < |saleLines|
      invariant 0 <= i <= |saleLines| && |summary| == i
      invariant forall k :: 0 <= k < i ==> summary[k] == EntryFor(saleLines[k], pallets)
    {
      summary := summary + [EntryFor(saleLines[i], pallets)];
      i := i + 1;
    }
  }
}
