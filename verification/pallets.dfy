/**
 * Pallets of a sale order (`models/sale_order_pallet.py`): each pallet holds
 * boxes of the order's products; each pallet line shows how far the order's
 * quantity of its product has been palletized, over this pallet as it is
 * being edited and the saved lines of the order's other pallets.
 */
module Pallets {
  import opened Common
  import Text
  import Partner

  type PalletId = nat
  type PalletLineId = nat

  /**
   * A pallet line as the form holds it; `origin` is the id of the saved
   * record it edits, absent for a line not saved yet.
   */
  datatype PalletLine = PalletLine(product: ProductId, boxWeight: real, boxQuantity: int, origin: Option<PalletLineId>)

  datatype Pallet = Pallet(id: PalletId, name: string, order: OrderId, lines: seq<PalletLine>)

  /** A sale-order line: its product and `product_uom_qty`. */
  datatype SaleLine = SaleLine(product: ProductId, quantity: real)

  /** A saved pallet line, as the database search sees it. */
  datatype StoredLine = StoredLine(id: PalletLineId, pallet: PalletId, order: OrderId, product: ProductId, boxWeight: real, boxQuantity: int)

  /** The progress figures of a pallet line. */
  datatype Progress = Progress(ordered: real, palletized: real, remaining: real, percent: real, isComplete: bool, isOver: bool)

  function Init<T>(s: seq<T>): seq<T>
    requires s != []
  {
    s[..|s| - 1]
  }

  function Last<T>(s: seq<T>): T
    requires s != []
  {
    s[|s| - 1]
  }

  // ----- weights and totals -----

  /** `_compute_subtotal`: the weight of the line's boxes. */
  function SubtotalKg(l: PalletLine): real
  {
    l.boxWeight * l.boxQuantity as real
  }

  /** `_compute_totals`: the pallet's weight. */
  function TotalKg(lines: seq<PalletLine>): real
    decreases |lines|
  {
    if lines == [] then 0.0 else TotalKg(Init(lines)) + SubtotalKg(Last(lines))
  }

  /** `_compute_totals`: the pallet's number of boxes. */
  function TotalBoxes(lines: seq<PalletLine>): int
    decreases |lines|
  {
    if lines == [] then 0 else TotalBoxes(Init(lines)) + Last(lines).boxQuantity
  }

  /** The totals of lines split in two are the sums of the totals of the parts. */
  lemma {:induction false} TotalsConcat(a: seq<PalletLine>, b: seq<PalletLine>)
    ensures TotalKg(a + b) == TotalKg(a) + TotalKg(b)
    ensures TotalBoxes(a + b) == TotalBoxes(a) + TotalBoxes(b)
    decreases |b|
  {
    if b == [] {
      assert a + b == a;
    } else {
      assert Init(a + b) == a + Init(b) && Last(a + b) == Last(b);
      TotalsConcat(a, Init(b));
    }
  }

  // ----- naming (`create`) -----

  /** The `name` default, "new". */
  const DefaultName: string := "جديد"

  /** The numbered name's prefix, "pallet ". */
  const NumberedPrefix: string := "باليت "

  /**
   * The name a pallet is created with: one left at the default on an order is
   * numbered after the pallets the order already has.
   */
  function PalletName(name: Option<string>, order: Option<OrderId>, existing: nat): string
  {
    var n := if name.Some? then name.value else DefaultName;
    if n == DefaultName && order.Some? then NumberedPrefix + Text.Decimal(existing + 1) else n
  }

  /**
   * A numbered name is the prefix followed by the decimal number one past the
   * existing pallets; any other name is kept.
   */
  lemma NumberedName(name: Option<string>, order: Option<OrderId>, existing: nat)
    ensures var r := PalletName(name, order, existing);
            if (name.None? || name.value == DefaultName) && order.Some? then
              |r| > |NumberedPrefix| && r[..|NumberedPrefix|] == NumberedPrefix &&
              Text.AllDigits(r[|NumberedPrefix|..]) && Text.ParseDigits(r[|NumberedPrefix|..]) == existing + 1
            else r == (if name.Some? then name.value else DefaultName)
  {
    var r := PalletName(name, order, existing);
    if (name.None? || name.value == DefaultName) && order.Some? {
      assert r[|NumberedPrefix|..] == Text.Decimal(existing + 1);
      Text.ParseDecimal(existing + 1);
    }
  }

  /** What `create` is given for one pallet. */
  datatype NewPallet = NewPallet(name: Option<string>, order: Option<OrderId>)

  /**
   * `create`: the batch's pallets are named one by one, each against the
   * number of pallets its order had before the batch (`existing`).
   */
  method NameBatch(batch: seq<NewPallet>, existing: map<OrderId, nat>) returns (names: seq<string>)
    requires forall v :: v in batch && v.order.Some? ==> v.order.value in existing
    ensures |names| == |batch|
    ensures forall i :: 0 <= i < |batch| ==>
              names[i] == PalletName(batch[i].name, batch[i].order, if batch[i].order.Some? then existing[batch[i].order.value] else 0)
  {
    names := [];
    var i := 0;
    while i < |batch|
      invariant 0 <= i <= |batch| && |names| == i
      invariant forall k :: 0 <= k < i ==>
                  names[k] == PalletName(batch[k].name, batch[k].order, if batch[k].order.Some? then existing[batch[k].order.value] else 0)
    {
      var v := batch[i];
      var count := if v.order.Some? then existing[v.order.value] else 0;
      names := names + [PalletName(v.name, v.order, count)];
      i := i + 1;
    }
  }

  /**
   * Two default pallets of the same order created in one batch get the same
   * number: the count is read before any of them exists.
   */
  lemma BatchSharesNumber(order: OrderId, existing: map<OrderId, nat>)
    requires order in existing
    ensures var batch := [NewPallet(None, Some(order)), NewPallet(None, Some(order))];
            PalletName(batch[0].name, batch[0].order, existing[order]) ==
            PalletName(batch[1].name, batch[1].order, existing[order])
  {
  }

  // ----- order progress (`_update_order_progress`) -----

  /** The quantity the order asks for of a product. */
  function OrderedQty(saleLines: seq<SaleLine>, product: ProductId): real
    decreases |saleLines|
  {
    if saleLines == [] then 0.0
    else OrderedQty(Init(saleLines), product) + (if Last(saleLines).product == product then Last(saleLines).quantity else 0.0)
  }

  /** The weight of the pallet's lines of a product, as the form holds them. */
  function CurrentSubtotal(lines: seq<PalletLine>, product: ProductId): real
    decreases |lines|
  {
    if lines == [] then 0.0
    else CurrentSubtotal(Init(lines), product) + (if Last(lines).product == product then SubtotalKg(Last(lines)) else 0.0)
  }

  /** The saved records behind the pallet's lines of a product. */
  function CurrentIds(lines: seq<PalletLine>, product: ProductId): set<PalletLineId>
    decreases |lines|
  {
    if lines == [] then {}
    else CurrentIds(Init(lines), product) +
         (if Last(lines).product == product && Last(lines).origin.Some? then {Last(lines).origin.value} else {})
  }

  function StoredSubtotal(s: StoredLine): real
  {
    s.boxWeight * s.boxQuantity as real
  }

  /** The saved lines of the order for the product, other than those already counted. */
  function OtherSubtotal(stored: seq<StoredLine>, order: OrderId, product: ProductId, counted: set<PalletLineId>): real
    decreases |stored|
  {
    if stored == [] then 0.0
    else
      var s := Last(stored);
      OtherSubtotal(Init(stored), order, product, counted) +
      (if s.order == order && s.product == product && s.id !in counted then StoredSubtotal(s) else 0.0)
  }

  /** The figures derived from the ordered and palletized quantities. */
  function ProgressOf(ordered: real, palletized: real): (r: Progress)
    ensures r.ordered == ordered && r.palletized == palletized
    ensures r.remaining >= 0.0 && r.remaining >= ordered - palletized
    ensures r.remaining == 0.0 <==> palletized >= ordered
    ensures r.isOver ==> r.isComplete
    ensures ordered <= 0.0 ==> r.percent == 0.0 && !r.isComplete && !r.isOver
    ensures ordered > 0.0 ==> (r.isComplete <==> r.remaining == 0.0) && r.percent * ordered == palletized * 100.0
  {
    Progress(ordered, palletized,
             if ordered - palletized > 0.0 then ordered - palletized else 0.0,
             if ordered > 0.0 then palletized / ordered * 100.0 else 0.0,
             if ordered > 0.0 then palletized >= ordered else false,
             if ordered > 0.0 then palletized > ordered else false)
  }

  /**
   * The loop over the pallet's lines: the weight of those of the product and
   * the saved records behind them.
   */
  method CurrentPallet(lines: seq<PalletLine>, product: ProductId) returns (subtotal: real, counted: set<PalletLineId>)
    ensures subtotal == CurrentSubtotal(lines, product) && counted == CurrentIds(lines, product)
  {
    subtotal, counted := 0.0, {};
    var i := 0;
    while i < |lines|
      invariant 0 <= i <= |lines|
      invariant subtotal == CurrentSubtotal(lines[..i], product) && counted == CurrentIds(lines[..i], product)
    {
      var l := lines[i];
      assert Init(lines[..i + 1]) == lines[..i] && Last(lines[..i + 1]) == l;
      if l.product == product {
        subtotal := subtotal + l.boxWeight * l.boxQuantity as real;
        if l.origin.Some? {
          counted := counted + {l.origin.value};
        }
      }
      i := i + 1;
    }
    assert lines[..i] == lines;
  }

  /**
   * `_update_order_progress` for a line of product `product` on a pallet of
   * order `order` whose lines the form holds as `current`; without a product
   * or an order every figure is 0.
   */
  method LineProgress(product: Option<ProductId>, order: Option<OrderId>, saleLines: seq<SaleLine>,
                      current: seq<PalletLine>, stored: seq<StoredLine>) returns (r: Progress)
    ensures product.None? || order.None? ==> r == ProgressOf(0.0, 0.0)
    ensures product.Some? && order.Some? ==>
              r == ProgressOf(OrderedQty(saleLines, product.value),
                              CurrentSubtotal(current, product.value) +
                              OtherSubtotal(stored, order.value, product.value, CurrentIds(current, product.value)))
  {
    if product.None? || order.None? {
      return ProgressOf(0.0, 0.0);
    }
    var ordered := OrderedQty(saleLines, product.value);
    var subtotal, counted := CurrentPallet(current, product.value);
    var other := OtherSubtotal(stored, order.value, product.value, counted);
    r := ProgressOf(ordered, subtotal + other);
  }

  /** The saved lines of the order for the product, every one of them. */
  function SavedTotal(stored: seq<StoredLine>, order: OrderId, product: ProductId): real
    decreases |stored|
  {
    if stored == [] then 0.0
    else SavedTotal(Init(stored), order, product) +
         (if Last(stored).order == order && Last(stored).product == product then StoredSubtotal(Last(stored)) else 0.0)
  }

  /** The saved lines of one pallet, as the form shows them before any edit. */
  function FormOf(stored: seq<StoredLine>, pallet: PalletId): seq<PalletLine>
    decreases |stored|
  {
    if stored == [] then []
    else
      var s := Last(stored);
      FormOf(Init(stored), pallet) +
      (if s.pallet == pallet then [PalletLine(s.product, s.boxWeight, s.boxQuantity, Some(s.id))] else [])
  }

  /** The saved lines of one pallet for the product. */
  function PalletSubtotal(stored: seq<StoredLine>, pallet: PalletId, product: ProductId): real
    decreases |stored|
  {
    if stored == [] then 0.0
    else PalletSubtotal(Init(stored), pallet, product) +
         (if Last(stored).pallet == pallet && Last(stored).product == product then StoredSubtotal(Last(stored)) else 0.0)
  }

  lemma {:induction false} CurrentAppend(lines: seq<PalletLine>, more: seq<PalletLine>, product: ProductId)
    ensures CurrentSubtotal(lines + more, product) == CurrentSubtotal(lines, product) + CurrentSubtotal(more, product)
    ensures CurrentIds(lines + more, product) == CurrentIds(lines, product) + CurrentIds(more, product)
    decreases |more|
  {
    if more == [] {
      assert lines + more == lines;
    } else {
      assert Init(lines + more) == lines + Init(more) && Last(lines + more) == Last(more);
      CurrentAppend(lines, Init(more), product);
    }
  }

  /** The unedited form of a pallet weighs what its saved lines weigh and points at exactly them. */
  lemma {:induction false} FormMeaning(stored: seq<StoredLine>, pallet: PalletId, product: ProductId)
    ensures CurrentSubtotal(FormOf(stored, pallet), product) == PalletSubtotal(stored, pallet, product)
    ensures forall id :: id in CurrentIds(FormOf(stored, pallet), product) <==>
              exists s :: s in stored && s.pallet == pallet && s.product == product && s.id == id
    decreases |stored|
  {
    if stored != [] {
      var s := Last(stored);
      var init := Init(stored);
      FormMeaning(init, pallet, product);
      var more := if s.pallet == pallet then [PalletLine(s.product, s.boxWeight, s.boxQuantity, Some(s.id))] else [];
      CurrentAppend(FormOf(init, pallet), more, product);
      if s.pallet == pallet {
        assert Init(more) == [] && Last(more) == more[0];
      }
      assert stored == init + [s];
    }
  }

  /**
   * The lines of the pallet `pallet` are split off: the pallet's own part plus
   * the rest of the order's part make up the order's part, when membership in
   * `counted` picks out exactly the pallet's lines of the product.
   */
  lemma {:induction false} SplitSaved(stored: seq<StoredLine>, pallet: PalletId, order: OrderId, product: ProductId, counted: set<PalletLineId>)
    requires forall s :: s in stored ==> (s.pallet == pallet ==> s.order == order)
    requires forall s :: s in stored && s.order == order && s.product == product ==> (s.id in counted <==> s.pallet == pallet)
    ensures PalletSubtotal(stored, pallet, product) + OtherSubtotal(stored, order, product, counted) == SavedTotal(stored, order, product)
    decreases |stored|
  {
    if stored != [] {
      assert forall s :: s in Init(stored) ==> s in stored;
      SplitSaved(Init(stored), pallet, order, product, counted);
    }
  }

  /**
   * No saved line is counted twice: while the pallet's form shows its saved
   * lines unedited, and saved lines have distinct ids, the palletized
   * quantity is the weight of all the order's saved lines of the product.
   */
  lemma NoDoubleCount(stored: seq<StoredLine>, pallet: PalletId, order: OrderId, product: ProductId)
    requires forall i, j :: 0 <= i < j < |stored| ==> stored[i].id != stored[j].id
    requires forall s :: s in stored ==> (s.pallet == pallet ==> s.order == order)
    ensures var form := FormOf(stored, pallet);
            CurrentSubtotal(form, product) + OtherSubtotal(stored, order, product, CurrentIds(form, product)) ==
            SavedTotal(stored, order, product)
  {
    var form := FormOf(stored, pallet);
    var counted := CurrentIds(form, product);
    FormMeaning(stored, pallet, product);
    forall s | s in stored && s.order == order && s.product == product
      ensures s.id in counted <==> s.pallet == pallet
    {
      if s.id in counted {
        var t :| t in stored && t.pallet == pallet && t.product == product && t.id == s.id;
        SameId(stored, s, t);
      }
    }
    SplitSaved(stored, pallet, order, product, counted);
  }

  lemma SameId(stored: seq<StoredLine>, s: StoredLine, t: StoredLine)
    requires forall i, j :: 0 <= i < j < |stored| ==> stored[i].id != stored[j].id
    requires s in stored && t in stored && s.id == t.id
    ensures s == t
  {
    var i :| 0 <= i < |stored| && stored[i] == s;
    var j :| 0 <= j < |stored| && stored[j] == t;
  }

  // ----- labels (`get_barcode`) -----

  /**
   * The barcode printed for a pallet line: the customer's code for the
   * product when the order has a customer, else the product's reference.
   */
  function LineBarcode(partner: Option<Partner.PartnerId>, codes: seq<Partner.CustomCode>, product: Partner.Product): string
  {
    if partner.Some? then Partner.ProductBarcode(codes, partner.value, product) else Partner.DefaultBarcode(product)
  }

  /** Without a customer code for the product, the label shows the product's reference. */
  lemma LineBarcodeMeaning(partner: Option<Partner.PartnerId>, codes: seq<Partner.CustomCode>, product: Partner.Product)
    requires Partner.UniquePairs(codes)
    ensures partner.Some? ==>
              forall c :: c in codes && c.partner == partner.value && c.product == product.id ==>
                LineBarcode(partner, codes, product) == c.code
    ensures (partner.None? || forall c :: c in codes ==> c.partner != partner.value || c.product != product.id) ==>
              LineBarcode(partner, codes, product) == Partner.DefaultBarcode(product)
  {
    if partner.Some? {
      Partner.BarcodeMeaning(codes, partner.value, product);
    }
  }
}
