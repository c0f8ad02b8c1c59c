/**
 * Inventory code configuration (`models/farm_inventory_config.py`): the
 * two-digit colour codes, the warehouse inventory code extracted from the
 * warehouse's short code, and the three-digit farm category code.
 *
 * Odoo's empty `Char` (`False`) is the empty string here.
 */
module InventoryConfig {
  import opened Common
  import opened Text

  /** `farm.product.color._check_code`: a colour code is exactly two digits. */
  predicate ValidColorCode(code: string)
  {
    IsDigitText(code) && |code| == 2
  }

  /** Colour constraint as the create/write validation it performs. */
  function CheckColorCode(code: string): (r: Outcome)
    ensures r.Pass? <==> |code| == 2 && AllDigits(code)
  {
    if !IsDigitText(code) || |code| != 2 then Fail(InvalidCode) else Pass
  }

  /**
   * `stock.warehouse.get_inventory_code`: the digits of the warehouse code,
   * zero-padded and cut to two characters; "00" when the code has no digit.
   */
  function InventoryCode(warehouseCode: string): (r: string)
    ensures |r| == 2 && AllDigits(r)
    ensures |DigitsOf(warehouseCode)| >= 2 ==> r == DigitsOf(warehouseCode)[..2]
    ensures |DigitsOf(warehouseCode)| == 1 ==> r == "0" + DigitsOf(warehouseCode)
    ensures DigitsOf(warehouseCode) == [] ==> r == "00"
  {
    var digits := DigitsOf(warehouseCode);
    if warehouseCode != "" && digits != [] then ZFill(digits, 2)[..2] else "00"
  }

  /** `product.category._check_farm_category_code`: when set, three digits. */
  function CheckCategoryCode(code: string): (r: Outcome)
    ensures r.Pass? <==> code == "" || (|code| == 3 && AllDigits(code))
  {
    if code != "" && (!IsDigitText(code) || |code| != 3) then Fail(InvalidCode) else Pass
  }

  /** `product.category.get_category_code`: the farm code, or "000" when unset. */
  function CategoryCode(farmCategoryCode: string): string
  {
    if farmCategoryCode != "" then farmCategoryCode else "000"
  }

  /** Every category that passes its constraint yields a three-digit code. */
  lemma ValidCategoryYieldsThreeDigits(farmCategoryCode: string)
    requires CheckCategoryCode(farmCategoryCode).Pass?
    ensures |CategoryCode(farmCategoryCode)| == 3
    ensures AllDigits(CategoryCode(farmCategoryCode))
  {
  }
}
