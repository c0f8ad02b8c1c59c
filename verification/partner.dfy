/**
 * Customer product codes (`models/res_partner.py`): a customer may have its
 * own barcode for a product; the pallet labels print that code, else the
 * product's internal reference.
 */
module Partner {
  import opened Common

  type PartnerId = nat

  /** A product with its internal reference (`default_code`), which may be unset. */
  datatype Product = Product(id: ProductId, defaultCode: Option<string>)

  /** A `res.partner.product.code` record. */
  datatype CustomCode = CustomCode(partner: PartnerId, product: ProductId, code: string)

  /** The `partner_product_unique` constraint: one code per customer and product. */
  predicate UniquePairs(codes: seq<CustomCode>)
  {
    forall i, j :: 0 <= i < j < |codes| ==> codes[i].partner != codes[j].partner || codes[i].product != codes[j].product
  }

  /** `product_code_ids`: the codes of one customer, in table order. */
  function CodesOf(codes: seq<CustomCode>, partner: PartnerId): (r: seq<CustomCode>)
    ensures forall c :: c in r <==> c in codes && c.partner == partner
    ensures |r| <= |codes|
  {
    if codes == [] then []
    else (if codes[0].partner == partner then [codes[0]] else []) + CodesOf(codes[1..], partner)
  }

  /** `custom = product_code_ids.filtered(...)`: the codes for one product. */
  function ForProduct(codes: seq<CustomCode>, product: ProductId): (r: seq<CustomCode>)
    ensures forall c :: c in r <==> c in codes && c.product == product
  {
    if codes == [] then []
    else (if codes[0].product == product then [codes[0]] else []) + ForProduct(codes[1..], product)
  }

  /** `product.default_code or ''`. */
  function DefaultBarcode(product: Product): string
  {
    if product.defaultCode.Some? then product.defaultCode.value else ""
  }

  /** `get_product_barcode`: the first matching custom code, else the product's reference. */
  function ProductBarcode(codes: seq<CustomCode>, partner: PartnerId, product: Product): string
  {
    var custom := ForProduct(CodesOf(codes, partner), product.id);
    if custom != [] then custom[0].code else DefaultBarcode(product)
  }

  /**
   * With codes unique per customer and product, the barcode is the customer's
   * code for the product whenever there is one, and the product's reference
   * otherwise.
   */
  lemma BarcodeMeaning(codes: seq<CustomCode>, partner: PartnerId, product: Product)
    requires UniquePairs(codes)
    ensures forall c :: c in codes && c.partner == partner && c.product == product.id ==> ProductBarcode(codes, partner, product) == c.code
    ensures (forall c :: c in codes ==> c.partner != partner || c.product != product.id) ==>
              ProductBarcode(codes, partner, product) == DefaultBarcode(product)
  {
    var custom := ForProduct(CodesOf(codes, partner), product.id);
    forall c | c in codes && c.partner == partner && c.product == product.id
      ensures ProductBarcode(codes, partner, product) == c.code
    {
      assert c in custom;
      var first := custom[0];
      assert first in codes && first.partner == partner && first.product == product.id;
      SamePairSameCode(codes, first, c);
    }
  }

  /** Two codes of the table with the same customer and product are the same record. */
  lemma SamePairSameCode(codes: seq<CustomCode>, a: CustomCode, b: CustomCode)
    requires UniquePairs(codes) && a in codes && b in codes
    requires a.partner == b.partner && a.product == b.product
    ensures a == b
  {
    var i :| 0 <= i < |codes| && codes[i] == a;
    var j :| 0 <= j < |codes| && codes[j] == b;
  }

  /** `_compute_product_code_count`. */
  function ProductCodeCount(codes: seq<CustomCode>, partner: PartnerId): nat
  {
    |CodesOf(codes, partner)|
  }

  /** A new code counts for its own customer and for no other. */
  lemma {:induction false} CodesOfAppend(codes: seq<CustomCode>, c: CustomCode, partner: PartnerId)
    ensures CodesOf(codes + [c], partner) == CodesOf(codes, partner) + (if c.partner == partner then [c] else [])
    ensures ProductCodeCount(codes + [c], partner) == ProductCodeCount(codes, partner) + (if c.partner == partner then 1 else 0)
  {
    if codes == [] {
      assert codes + [c] == [c];
    } else {
      var rest := codes[1..];
      var head := if codes[0].partner == partner then [codes[0]] else [];
      var tail := if c.partner == partner then [c] else [];
      CodesOfAppend(rest, c, partner);
      ConsSplit(codes, [c]);
      CodesOfCons(codes[0], rest, partner);
      CodesOfCons(codes[0], rest + [c], partner);
      ConcatAssoc(head, CodesOf(rest, partner), tail);
    }
  }

  lemma CodesOfCons(x: CustomCode, rest: seq<CustomCode>, partner: PartnerId)
    ensures CodesOf([x] + rest, partner) == (if x.partner == partner then [x] else []) + CodesOf(rest, partner)
  {
    assert ([x] + rest)[1..] == rest;
  }

  /** The table of customer codes. */
  class CodeTable {
    var codes: seq<CustomCode>

    predicate Valid()
      reads this
    {
      UniquePairs(codes)
    }

    constructor ()
      ensures codes == [] && Valid()
    {
      codes := [];
    }

    /** Creating a code, refused when the customer already has one for the product. */
    method Add(c: CustomCode) returns (r: Outcome)
      requires Valid()
      modifies this
      ensures Valid()
      ensures r.Fail? <==> exists d :: d in old(codes) && d.partner == c.partner && d.product == c.product
      ensures r.Fail? ==> r.error == DuplicateCustomerCode && codes == old(codes)
      ensures r.Pass? ==> codes == old(codes) + [c]
      ensures r.Pass? ==> forall p :: ProductCodeCount(codes, p) == ProductCodeCount(old(codes), p) + (if p == c.partner then 1 else 0)
    {
      var i := 0;
      while i < |codes|
        invariant 0 <= i <= |codes|
        invariant forall k :: 0 <= k < i ==> codes[k].partner != c.partner || codes[k].product != c.product
      {
        if codes[i].partner == c.partner && codes[i].product == c.product {
          return Fail(DuplicateCustomerCode);
        }
        i := i + 1;
      }
      forall p {
        CodesOfAppend(codes, c, p);
      }
      codes := codes + [c];
      r := Pass;
    }
  }
}
