/**
 * Shared vocabulary of the farm-management model: optional values, the
 * outcome of an action that may be refused, and the record identifiers.
 *
 * Every Odoo `UserError` / `ValidationError` of the modelled code becomes an
 * `Err` / `Fail` carrying one of the `Error` reasons below; an action that
 * fails leaves the state as it was, as the database transaction is rolled back.
 */
module Common {

  datatype Option<+T> = None | Some(value: T)

  /** The reasons for which the modelled actions refuse to proceed. */
  datatype Error =
    | WrongState            // an action called from a state that does not allow it
    | DeletionRefused       // records that can never be deleted
    | MissingPaymentAccount
    | MissingCostAccount    // direct/indirect cost account missing on a cost
    | MissingLineAccount    // source or destination account missing on an order line
    | MissingJournal
    | MissingSource         // a direct cost without any sector, unit or house
    | MissingMove           // a direct order without its journal entry
    | NoLines
    | NoTargets
    | Unavailable           // an order line whose quantity is not on hand
    | StockConfiguration    // stock locations or operation type not configured
    | TransferFailed        // the stock transfer of a harvest could not be cancelled
    | InvalidQuantity
    | MissingProduct
    | MissingExpectedQuantity
    | EmptyReason
    | NoGeneratedCode
    | DuplicateCode
    | InvalidCode
    | DuplicateAssignment   // a house assigned twice to the same project
    | DuplicateCustomerCode // a second custom code for the same customer and product

  /** Outcome of an action whose effect is on the state. */
  datatype Outcome = Pass | Fail(error: Error)

  /** Outcome of an action that also returns a value. */
  datatype Result<+T> = Ok(value: T) | Err(error: Error)

  type FarmId = nat
  type SectorId = nat
  type UnitId = nat
  type HouseId = nat
  type ProjectId = nat
  type ProductId = nat
  type AccountId = nat
  type OrderId = nat
  type EntryId = nat
  /** Costs are numbered by creation; a cost's id is its index in the cost table. */
  type CostId = nat
  /** Calendar days, numbered consecutively. */
  type Date = int

  /** Duplicate-free sequence: the shape of an Odoo recordset. */
  predicate NoDup<T(==)>(s: seq<T>)
  {
    forall i, j :: 0 <= i < j < |s| ==> s[i] != s[j]
  }

  /** A nonempty sequence is its first element followed by the rest. */
  lemma ConsSplit<T>(a: seq<T>, b: seq<T>)
    requires a != []
    ensures a == [a[0]] + a[1..]
    ensures a + b == [a[0]] + (a[1..] + b)
  {
  }

  lemma ConcatAssoc<T>(a: seq<T>, b: seq<T>, c: seq<T>)
    ensures a + (b + c) == (a + b) + c
  {
  }
}
