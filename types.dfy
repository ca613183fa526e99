/**
 * The records of the inventory domain: catalog products and the stock ledger's
 * movements, alerts, adjustments and per-product settings.
 *
 * Identifiers are strings (UUIDs in the application). A `Time` is the number of
 * milliseconds since the epoch, which is what comparing two JavaScript `Date`s
 * compares. Stock quantities are integers; prices are reals (the application's
 * floating-point rounding is not modelled).
 */
module Types {
  import opened Wrappers

  type Id = string
  type Time = int

  datatype Category = Organicos | Aromaticos | Wellness
  datatype UnitOfMeasure = Litro | Gramo
  datatype ProductStatus = Active | Inactive | OutOfStock

  datatype Product = Product(
    id: Id,
    name: string,
    barcode: string,
    category: Category,
    price: real,
    costPrice: real,
    stock: int,
    unitOfMeasure: UnitOfMeasure,
    image: string,
    description: string,
    status: ProductStatus,
    createdAt: Time,
    updatedAt: Time)

  /** `entrada` and `salida` are deltas; an `ajuste` sets the stock to its `newStock`. */
  datatype MovementType = Entrada | Salida | Ajuste

  datatype StockMovement = StockMovement(
    id: Id,
    productId: Id,
    kind: MovementType,
    quantity: int,
    reason: string,
    reference: Option<string>,
    userId: Id,
    createdAt: Time,
    previousStock: int,
    newStock: int)

  datatype AlertType = StockBajo | StockCritico | SinStock

  datatype StockAlert = StockAlert(
    id: Id,
    productId: Id,
    kind: AlertType,
    threshold: real,
    currentStock: int,
    isActive: bool,
    createdAt: Time,
    resolvedAt: Option<Time>)

  datatype StockAdjustment = StockAdjustment(
    id: Id,
    productId: Id,
    oldQuantity: int,
    newQuantity: int,
    difference: int,
    reason: string,
    notes: Option<string>,
    userId: Id,
    createdAt: Time)

  datatype StockSettings = StockSettings(
    productId: Id,
    minStock: int,
    maxStock: Option<int>,
    reorderPoint: int,
    alertEnabled: bool)

  /** The request status every store carries beside its data. */
  datatype LoadStatus = Idle | Loading | Success | Error

  /** JavaScript truthiness of a `string | null`: the empty string is falsy. */
  predicate Truthy(s: Option<string>) {
    s.Some? && s.value != ""
  }

  /** Every character is in the Basic Multilingual Plane, so is one UTF-16 code unit. */
  predicate InBmp(s: string) {
    forall i :: 0 <= i < |s| ==> (s[i] as int) < 0x10000
  }

  /**
   * JavaScript's `length`: the number of UTF-16 code units, two for a
   * character outside the Basic Multilingual Plane and one for any other.
   */
  function Utf16Length(s: string): (n: nat)
    ensures |s| <= n <= 2 * |s|
    ensures InBmp(s) ==> n == |s|
  {
    if s == [] then 0
    else (if (s[0] as int) < 0x10000 then 1 else 2) + Utf16Length(s[1..])
  }

  /** Lengths in code units add up over concatenation. */
  lemma {:induction false} Utf16LengthConcat(a: string, b: string)
    ensures Utf16Length(a + b) == Utf16Length(a) + Utf16Length(b)
  {
    if a != [] {
      assert (a + b)[0] == a[0];
      assert (a + b)[1..] == a[1..] + b;
      Utf16LengthConcat(a[1..], b);
    } else {
      assert a + b == b;
    }
  }
}
