/**
 * Quick product creation wizard (`wizard/product_quick_add_wizard.py`):
 * the product code `inventory(2) + category(3) + colour(2) + sequence(4)`,
 * the next free sequence number for a prefix, and the creation guards.
 *
 * The product catalogue is the list of existing product codes (`""` for a
 * product without one), in the order the product search returns them.
 */
module QuickAdd {
  import opened Common
  import opened Text
  import InventoryConfig

  /** The wizard's selections, each as the code text of the chosen record. */
  datatype Selection = Selection(
    warehouseCode: Option<string>,      // the warehouse's short code, when a warehouse is chosen
    categoryCode: Option<string>,       // the category's farm code, when a category is chosen
    colorCode: Option<string>)          // the colour's code, when a colour is chosen

  datatype Codes = Codes(inventory: string, category: string, color: string)

  /** `_compute_codes`: each part of the code, with its default when nothing is chosen. */
  function ComputeCodes(s: Selection): (r: Codes)
    ensures |r.inventory| == 2 && AllDigits(r.inventory)
    ensures r.category != "" && r.color != ""
    ensures s.categoryCode.None? ==> r.category == "000"
    ensures s.colorCode.None? ==> r.color == "00"
  {
    Codes(
      if s.warehouseCode.Some? then InventoryConfig.InventoryCode(s.warehouseCode.value) else "00",
      if s.categoryCode.Some? then InventoryConfig.CategoryCode(s.categoryCode.value) else "000",
      if s.colorCode.Some? && s.colorCode.value != "" then s.colorCode.value else "00")
  }

  /** The `=like prefix%` search: codes that start with the prefix. */
  function WithPrefix(codes: seq<string>, prefix: string): (r: seq<string>)
    ensures forall c :: c in r <==> c in codes && prefix <= c
  {
    if codes == [] then []
    else (if prefix <= codes[0] then [codes[0]] else []) + WithPrefix(codes[1..], prefix)
  }

  /**
   * The sequence number a code carries after the prefix: the four characters
   * following it, when the code is long enough and they read as a number.
   */
  function SequenceOf(code: string, prefix: string): Option<nat>
  {
    var p := |prefix|;
    if |code| >= p + 4 && AllDigits(code[p..p + 4]) then Some(ParseDigits(code[p..p + 4])) else None
  }

  /** The largest sequence number among the codes, never below 1000. */
  function MaxSequence(codes: seq<string>, prefix: string): nat
  {
    if codes == [] then 1000
    else
      var m := MaxSequence(codes[..|codes| - 1], prefix);
      var s := SequenceOf(codes[|codes| - 1], prefix);
      if s.Some? && s.value > m then s.value else m
  }

  lemma {:induction false} MaxSequenceBounds(codes: seq<string>, prefix: string)
    ensures MaxSequence(codes, prefix) >= 1000
    ensures forall c :: c in codes && SequenceOf(c, prefix).Some? ==>
              SequenceOf(c, prefix).value <= MaxSequence(codes, prefix)
    ensures MaxSequence(codes, prefix) == 1000 ||
            exists c :: c in codes && SequenceOf(c, prefix) == Some(MaxSequence(codes, prefix))
  {
    if codes != [] {
      var init := codes[..|codes| - 1];
      MaxSequenceBounds(init, prefix);
      assert codes == init + [codes[|codes| - 1]];
    }
  }

  /**
   * `_get_next_sequence`: one more than the largest sequence number used by
   * a product whose code starts with the prefix, and 1001 when there is none.
   */
  method NextSequence(codes: seq<string>, prefix: string) returns (n: nat)
    ensures n >= 1001
    ensures forall c :: c in codes && prefix <= c && SequenceOf(c, prefix).Some? ==>
              SequenceOf(c, prefix).value < n
    ensures n == 1001 || exists c :: c in codes && prefix <= c && SequenceOf(c, prefix) == Some(n - 1)
    ensures n == MaxSequence(WithPrefix(codes, prefix), prefix) + 1
  {
    var products := WithPrefix(codes, prefix);
    if products == [] {
      return 1001;
    }
    var maxSeq := 1000;
    var i := 0;
    while i < |products|
      invariant 0 <= i <= |products|
      invariant maxSeq == MaxSequence(products[..i], prefix)
    {
      var code := products[i];
      var p := |prefix|;
      if code != "" && |code| >= p + 4 && AllDigits(code[p..p + 4]) {
        var s := ParseDigits(code[p..p + 4]);
        if s > maxSeq {
          maxSeq := s;
        }
      }
      assert products[..i + 1][..i] == products[..i];
      i := i + 1;
    }
    assert products[..i] == products;
    MaxSequenceBounds(products, prefix);
    n := maxSeq + 1;
  }

  function Prefix(c: Codes): string
  {
    c.inventory + c.category + c.color
  }

  /** The sequence number the wizard proposes for a prefix. */
  function ProposedSequence(codes: seq<string>, prefix: string): nat
  {
    MaxSequence(WithPrefix(codes, prefix), prefix) + 1
  }

  /**
   * `_compute_generated_code`: the prefix followed by the four-digit
   * sequence; no code when a part of the prefix is empty.
   */
  function GeneratedCode(c: Codes, codes: seq<string>): (r: Option<string>)
    ensures r.Some? <==> c.inventory != "" && c.category != "" && c.color != ""
    ensures r.Some? ==> Prefix(c) <= r.value
  {
    if c.inventory != "" && c.category != "" && c.color != "" then
      var prefix := Prefix(c);
      Some(prefix + ZFill(Decimal(ProposedSequence(codes, prefix)), 4))
    else None
  }

  /** `action_create_product`: the catalogue after creating the product. */
  function CreateProduct(generated: Option<string>, codes: seq<string>): (r: Result<seq<string>>)
    ensures generated.None? ==> r == Err(NoGeneratedCode)
    ensures generated.Some? && generated.value in codes ==> r == Err(DuplicateCode)
    ensures r.Ok? ==> generated.Some? && r.value == codes + [generated.value]
  {
    if generated.None? then Err(NoGeneratedCode)
    else if generated.value in codes then Err(DuplicateCode)
    else Ok(codes + [generated.value])
  }

  /** The wizard always has a code to propose: every part of the prefix has a default. */
  lemma AlwaysGenerated(s: Selection, codes: seq<string>)
    ensures GeneratedCode(ComputeCodes(s), codes).Some?
  {
  }

  /**
   * The proposed code reads back as its sequence number, so it is not yet
   * used and creation succeeds — as long as the sequence still fits in four
   * digits.
   */
  lemma {:induction false} GeneratedCodeIsFresh(c: Codes, codes: seq<string>)
    requires c.inventory != "" && c.category != "" && c.color != ""
    requires ProposedSequence(codes, Prefix(c)) < 10000
    ensures GeneratedCode(c, codes).Some?
    ensures SequenceOf(GeneratedCode(c, codes).value, Prefix(c)) == Some(ProposedSequence(codes, Prefix(c)))
    ensures CreateProduct(GeneratedCode(c, codes), codes).Ok?
  {
    var prefix := Prefix(c);
    var n := ProposedSequence(codes, prefix);
    var g := GeneratedCode(c, codes).value;
    var tail := ZFill(Decimal(n), 4);
    assert Pow10(4) == 10000;
    PaddedDecimal(n, 4);
    assert g == prefix + tail;
    assert g[|prefix|..|prefix| + 4] == tail;
    var found := WithPrefix(codes, prefix);
    MaxSequenceBounds(found, prefix);
    assert g !in found;
  }

  /**
   * Creating the proposed product moves the next proposal on by exactly one,
   * so two products created in a row never share a code.
   */
  lemma {:induction false} CreationAdvancesSequence(c: Codes, codes: seq<string>)
    requires c.inventory != "" && c.category != "" && c.color != ""
    requires ProposedSequence(codes, Prefix(c)) < 10000
    ensures CreateProduct(GeneratedCode(c, codes), codes).Ok?
    ensures ProposedSequence(CreateProduct(GeneratedCode(c, codes), codes).value, Prefix(c))
            == ProposedSequence(codes, Prefix(c)) + 1
  {
    var prefix := Prefix(c);
    GeneratedCodeIsFresh(c, codes);
    var g := GeneratedCode(c, codes).value;
    WithPrefixAppend(codes, g, prefix);
    var found := WithPrefix(codes, prefix);
    assert (found + [g])[..|found|] == found;
    MaxSequenceBounds(found, prefix);
  }

  /**
   * Once the proposal reaches 10000 it stays there: the five-digit code
   * reads back as 1000 through its first four digits, so creating it does
   * not raise the maximum, the same code is proposed again and its second
   * creation is refused as a duplicate.
   */
  lemma {:induction false} SequenceSticksAtTenThousand(c: Codes, codes: seq<string>)
    requires c.inventory != "" && c.category != "" && c.color != ""
    requires ProposedSequence(codes, Prefix(c)) == 10000
    ensures GeneratedCode(c, codes) == Some(Prefix(c) + "10000")
    ensures var r := CreateProduct(GeneratedCode(c, codes), codes);
            r.Ok? ==> ProposedSequence(r.value, Prefix(c)) == 10000 &&
                      CreateProduct(GeneratedCode(c, r.value), r.value) == Err(DuplicateCode)
  {
    var prefix := Prefix(c);
    TenThousandDigits();
    var g := prefix + "10000";
    assert GeneratedCode(c, codes) == Some(g);
    var r := CreateProduct(GeneratedCode(c, codes), codes);
    if r.Ok? {
      WithPrefixAppend(codes, g, prefix);
      var found := WithPrefix(codes, prefix);
      assert (found + [g])[..|found|] == found;
      assert g[|prefix|..|prefix| + 4] == "1000";
      assert SequenceOf(g, prefix) == Some(1000);
      assert ProposedSequence(r.value, prefix) == 10000;
      assert GeneratedCode(c, r.value) == Some(g);
      assert g in r.value;
    }
  }

  /** 10000 is written with five digits, and its first four read as 1000. */
  lemma TenThousandDigits()
    ensures Decimal(10000) == "10000"
    ensures AllDigits("1000") && ParseDigits("1000") == 1000
  {
    assert Decimal(1) == "1";
    assert Decimal(10) == Decimal(1) + "0";
    assert Decimal(100) == Decimal(10) + "0";
    assert Decimal(1000) == Decimal(100) + "0";
    assert "1000"[..3] == "100" && "100"[..2] == "10" && "10"[..1] == "1" && "1"[..0] == "";
  }

  lemma {:induction false} WithPrefixAppend(codes: seq<string>, g: string, prefix: string)
    requires prefix <= g
    ensures WithPrefix(codes + [g], prefix) == WithPrefix(codes, prefix) + [g]
    decreases |codes|
  {
    if codes == [] {
      assert WithPrefix([g], prefix) == [g] + WithPrefix([], prefix);
    } else {
      assert (codes + [g])[1..] == codes[1..] + [g];
      WithPrefixAppend(codes[1..], g, prefix);
    }
  }

  /**
   * `_onchange_warehouse`: the categories offered for a warehouse are those
   * with a farm code starting with the first digit of its inventory code;
   * without a warehouse, every category with a farm code.
   */
  function CategoryOffered(warehouseCode: Option<string>, farmCategoryCode: string): (r: bool)
    ensures r ==> farmCategoryCode != ""
    ensures r && warehouseCode.Some? ==>
              farmCategoryCode[0] == InventoryConfig.InventoryCode(warehouseCode.value)[0]
  {
    if warehouseCode.Some? then
      var inv := InventoryConfig.InventoryCode(warehouseCode.value);
      if |inv| >= 1 then farmCategoryCode != "" && farmCategoryCode[0] == inv[0]
      else farmCategoryCode != ""
    else farmCategoryCode != ""
  }
}
