/**
 * The product catalog: a list of products, newest first, with a request
 * status, and the three stock operations that read a product, write its new
 * stock back and, when a stock ledger is registered, record the movement and
 * re-check the product's alerts.
 */
module Products {
  import opened Wrappers
  import opened Seqs
  import opened Types
  import StockUtils
  import Stock
  import Activities

  /** A product as callers hand it to `addProduct`: without id and timestamps. */
  datatype ProductDraft = ProductDraft(
    name: string,
    barcode: string,
    category: Category,
    price: real,
    costPrice: real,
    stock: int,
    unitOfMeasure: UnitOfMeasure,
    image: string,
    description: string,
    status: ProductStatus)

  function NewProduct(d: ProductDraft, id: Id, now: Time): (p: Product)
    ensures p.id == id && p.createdAt == now && p.updatedAt == now
    ensures p.name == d.name && p.barcode == d.barcode && p.category == d.category
    ensures p.price == d.price && p.costPrice == d.costPrice && p.stock == d.stock
    ensures p.unitOfMeasure == d.unitOfMeasure && p.image == d.image && p.description == d.description
    ensures p.status == d.status
  {
    Product(id, d.name, d.barcode, d.category, d.price, d.costPrice, d.stock, d.unitOfMeasure,
            d.image, d.description, d.status, now, now)
  }

  /**
   * A `Partial<Product>`: the fields an update overwrites. `updatedAt` is
   * absent because `updateProduct` always stamps it with the current time.
   */
  datatype ProductPatch = ProductPatch(
    id: Option<Id>,
    name: Option<string>,
    barcode: Option<string>,
    category: Option<Category>,
    price: Option<real>,
    costPrice: Option<real>,
    stock: Option<int>,
    unitOfMeasure: Option<UnitOfMeasure>,
    image: Option<string>,
    description: Option<string>,
    status: Option<ProductStatus>,
    createdAt: Option<Time>)

  const EmptyPatch := ProductPatch(None, None, None, None, None, None, None, None, None, None, None, None)

  /** The `{ stock: n }` update the stock operations send. */
  function StockPatch(n: int): ProductPatch {
    EmptyPatch.(stock := Some(n))
  }

  /** `{ ...product, ...updates, updatedAt: now }`. */
  function ApplyPatch(p: Product, u: ProductPatch, now: Time): (r: Product)
    ensures r.updatedAt == now
    ensures u == EmptyPatch ==> r == p.(updatedAt := now)
    ensures (u.id.Some? ==> r.id == u.id.value) && (u.id.None? ==> r.id == p.id)
    ensures (u.name.Some? ==> r.name == u.name.value) && (u.name.None? ==> r.name == p.name)
    ensures (u.barcode.Some? ==> r.barcode == u.barcode.value) && (u.barcode.None? ==> r.barcode == p.barcode)
    ensures (u.category.Some? ==> r.category == u.category.value) && (u.category.None? ==> r.category == p.category)
    ensures (u.price.Some? ==> r.price == u.price.value) && (u.price.None? ==> r.price == p.price)
    ensures (u.costPrice.Some? ==> r.costPrice == u.costPrice.value) && (u.costPrice.None? ==> r.costPrice == p.costPrice)
    ensures (u.stock.Some? ==> r.stock == u.stock.value) && (u.stock.None? ==> r.stock == p.stock)
    ensures (u.unitOfMeasure.Some? ==> r.unitOfMeasure == u.unitOfMeasure.value)
      && (u.unitOfMeasure.None? ==> r.unitOfMeasure == p.unitOfMeasure)
    ensures (u.image.Some? ==> r.image == u.image.value) && (u.image.None? ==> r.image == p.image)
    ensures (u.description.Some? ==> r.description == u.description.value)
      && (u.description.None? ==> r.description == p.description)
    ensures (u.status.Some? ==> r.status == u.status.value) && (u.status.None? ==> r.status == p.status)
    ensures (u.createdAt.Some? ==> r.createdAt == u.createdAt.value) && (u.createdAt.None? ==> r.createdAt == p.createdAt)
  {
    Product(
      u.id.GetOr(p.id), u.name.GetOr(p.name), u.barcode.GetOr(p.barcode), u.category.GetOr(p.category),
      u.price.GetOr(p.price), u.costPrice.GetOr(p.costPrice), u.stock.GetOr(p.stock),
      u.unitOfMeasure.GetOr(p.unitOfMeasure), u.image.GetOr(p.image), u.description.GetOr(p.description),
      u.status.GetOr(p.status), u.createdAt.GetOr(p.createdAt), now)
  }

  /** A stock update changes the stock and the update time and nothing else. */
  lemma StockPatchChangesOnlyStock(p: Product, n: int, now: Time)
    ensures ApplyPatch(p, StockPatch(n), now) == p.(stock := n, updatedAt := now)
  {
  }

  /** The catalog after `updateProduct(id, u)`: products with that id are patched, in place. */
  function PatchWhere(ps: seq<Product>, id: Id, u: ProductPatch, now: Time): (r: seq<Product>)
    ensures |r| == |ps|
  {
    seq(|ps|, k requires 0 <= k < |ps| => if ps[k].id == id then ApplyPatch(ps[k], u, now) else ps[k])
  }

  /** An update keeps length and order, patches the products with the id and leaves every other product as it was. */
  lemma PatchWhereChangesOnlyMatches(ps: seq<Product>, id: Id, u: ProductPatch, now: Time)
    ensures forall k :: 0 <= k < |ps| && ps[k].id != id ==> PatchWhere(ps, id, u, now)[k] == ps[k]
    ensures forall k :: 0 <= k < |ps| && ps[k].id == id ==> PatchWhere(ps, id, u, now)[k] == ApplyPatch(ps[k], u, now)
  {
  }

  /** Updating an id no product has changes nothing. */
  lemma PatchUnknownIdIsNoop(ps: seq<Product>, id: Id, u: ProductPatch, now: Time)
    requires forall p :: p in ps ==> p.id != id
    ensures PatchWhere(ps, id, u, now) == ps
  {
    PatchWhereChangesOnlyMatches(ps, id, u, now);
    assert forall k :: 0 <= k < |ps| ==> ps[k] in ps;
  }

  /** After a stock update every product with that id carries the new stock. */
  lemma PatchStockSetsStock(ps: seq<Product>, id: Id, n: int, now: Time)
    ensures forall p :: p in PatchWhere(ps, id, StockPatch(n), now) && p.id == id ==> p.stock == n
  {
    var r := PatchWhere(ps, id, StockPatch(n), now);
    PatchWhereChangesOnlyMatches(ps, id, StockPatch(n), now);
    forall p | p in r && p.id == id ensures p.stock == n {
      var k :| 0 <= k < |r| && r[k] == p;
    }
  }

  /**
   * The guard of `reduceStock` keeps stock non-negative: when the quantity is
   * at most the stock of the product found, every product with that id ends
   * up with a non-negative stock.
   */
  lemma ReducedStockIsNonNegative(ps: seq<Product>, id: Id, quantity: int, now: Time)
    requires FindProduct(ps, id).Some? && quantity <= FindProduct(ps, id).value.stock
    ensures var n := FindProduct(ps, id).value.stock - quantity;
      forall p :: p in PatchWhere(ps, id, StockPatch(n), now) && p.id == id ==> p.stock == n >= 0
  {
    PatchStockSetsStock(ps, id, FindProduct(ps, id).value.stock - quantity, now);
  }

  /** The catalog after `deleteProduct(id)`. */
  function WithoutProduct(ps: seq<Product>, id: Id): (r: seq<Product>)
    ensures forall p :: p in r <==> p in ps && p.id != id
    ensures (forall p :: p in ps ==> p.id != id) ==> r == ps
  {
    Filter(ps, (p: Product) => p.id != id)
  }

  /** `getProductById`: the first product with that id. */
  function FindProduct(ps: seq<Product>, id: Id): (r: Option<Product>)
    ensures r.None? <==> forall p :: p in ps ==> p.id != id
    ensures r.Some? ==> r.value in ps && r.value.id == id
    ensures r.Some? ==> (exists i :: 0 <= i < |ps| && ps[i] == r.value && forall j :: 0 <= j < i ==> ps[j].id != id)
  {
    Find(ps, (p: Product) => p.id == id)
  }

  /** A deleted product can no longer be found. */
  lemma DeletedProductIsGone(ps: seq<Product>, id: Id)
    ensures FindProduct(WithoutProduct(ps, id), id) == None
  {
  }

  predicate IsActiveProduct(p: Product) {
    p.status == Active
  }

  predicate IsOutOfStockProduct(p: Product) {
    p.status == OutOfStock
  }

  /** The threshold `getLowStockProducts` uses by default and `getProductStats` always uses. */
  const DefaultLowStockThreshold := 10

  /** Products with some stock left, but no more than `threshold`, in catalog order. */
  function LowStock(ps: seq<Product>, threshold: int): (r: seq<Product>)
    ensures forall p :: p in r <==> p in ps && 0 < p.stock <= threshold
    ensures threshold <= 0 ==> r == []
  {
    Filter(ps, (p: Product) => p.stock <= threshold && p.stock > 0)
  }

  datatype ProductStats = ProductStats(total: nat, active: nat, outOfStock: nat, lowStock: nat)

  datatype StockOpResult = Done | Failed(message: string)

  const ProductNotFoundMessage := "Product not found"
  const InsufficientStockMessage := "Insufficient stock"
  /** The user id stock operations record when the caller gives none. */
  const SystemUser := "system"

  /** The movement `updateStock` records: an `ajuste` to the new stock. */
  function UpdateStockMovement(productId: Id, previousStock: int, newStock: int, reason: string, userId: Id)
    : (d: Stock.MovementDraft)
    ensures d.productId == productId && d.kind == Ajuste
    ensures d.reason == reason && d.reference == None && d.userId == userId
    ensures d.previousStock == previousStock && d.newStock == newStock
    ensures d.quantity == newStock - previousStock || d.quantity == previousStock - newStock
    ensures 0 <= d.quantity
  {
    Stock.MovementDraft(productId, Ajuste,
      if newStock < previousStock then previousStock - newStock else newStock - previousStock,
      reason, None, userId, previousStock, newStock)
  }

  /** The movement `reduceStock` records: a `salida` of `quantity`. */
  function ReduceStockMovement(productId: Id, previousStock: int, quantity: int, reason: string,
                               reference: Option<string>, userId: Id): (d: Stock.MovementDraft)
    ensures d.productId == productId && d.kind == Salida && d.quantity == quantity
    ensures d.reason == reason && d.reference == reference && d.userId == userId
    ensures d.previousStock == previousStock && d.newStock == previousStock - quantity
  {
    Stock.MovementDraft(productId, Salida, quantity, reason, reference, userId, previousStock, previousStock - quantity)
  }

  /** The movement `addStock` records: an `entrada` of `quantity`. */
  function AddStockMovement(productId: Id, previousStock: int, quantity: int, reason: string,
                            reference: Option<string>, userId: Id): (d: Stock.MovementDraft)
    ensures d.productId == productId && d.kind == Entrada && d.quantity == quantity
    ensures d.reason == reason && d.reference == reference && d.userId == userId
    ensures d.previousStock == previousStock && d.newStock == previousStock + quantity
  {
    Stock.MovementDraft(productId, Entrada, quantity, reason, reference, userId, previousStock, previousStock + quantity)
  }

  /**
   * Each recorded movement agrees with the ledger's own arithmetic: if a
   * chronological history (the ledger's list read oldest first) folds to the
   * product's previous stock, that history followed by the new movement folds
   * to the stock the catalog now holds.
   */
  lemma RecordedMovementReplays(history: seq<StockMovement>, d: Stock.MovementDraft, id: Id, now: Time)
    requires StockUtils.CalculateCurrentStock(history) == d.previousStock
    requires d.kind == Entrada ==> d.newStock == d.previousStock + d.quantity
    requires d.kind == Salida ==> d.newStock == d.previousStock - d.quantity
    ensures StockUtils.CalculateCurrentStock(history + [Stock.StampMovement(d, id, now)]) == d.newStock
  {
    StockUtils.CurrentStockSnoc(history, Stock.StampMovement(d, id, now));
  }

  /** A stock ledger a stock operation may write to, with an alert id it has not used yet. */
  ghost predicate LedgerReady(ledger: Stock.StockStore?, alertId: Id)
    reads ledger
  {
    ledger != null ==> ledger.Valid() && alertId !in Stock.AlertIds(ledger.alerts)
  }

  /**
   * What a stock operation leaves in a registered ledger: the movement
   * prepended and the product's alerts re-checked against the new stock.
   */
  twostate predicate Recorded(ledger: Stock.StockStore?, d: Stock.MovementDraft, movementId: Id, alertId: Id, now: Time)
    reads ledger
  {
    ledger != null ==>
      ledger.Valid()
      && ledger.movements == [Stock.StampMovement(d, movementId, now)] + old(ledger.movements)
      && ledger.alerts == Stock.AlertsAfterCheck(old(ledger.alerts), old(ledger.settings), d.productId, d.newStock, alertId, now)
      && ledger.adjustments == old(ledger.adjustments)
      && ledger.settings == old(ledger.settings)
  }

  /**
   * What a stock operation does to the activity log: with a ledger, the
   * ledger's `addMovement` prepends the movement's activity and reports
   * success; without one, nothing touches the log.
   */
  twostate predicate Logged(ledger: Stock.StockStore?, log: Activities.ActivityStore?, d: Stock.MovementDraft,
                            movementId: Id, activityId: Id, now: Time)
    reads log
  {
    log != null ==>
      if ledger == null then unchanged(log)
      else
        log.activities == [Activities.StampActivity(Stock.ActivityForMovement(Stock.StampMovement(d, movementId, now)), activityId, now)]
          + old(log.activities)
        && log.status == Success && log.error == None
  }

  class ProductStore {
    var products: seq<Product>
    var status: LoadStatus
    var error: Option<string>

    constructor ()
      ensures products == [] && status == Idle && error == None
    {
      products := [];
      status := Idle;
      error := None;
    }

    /** Prepends the product with a fresh id and timestamps; the store reports success. */
    method AddProduct(d: ProductDraft, id: Id, now: Time)
      modifies this
      ensures products == [NewProduct(d, id, now)] + old(products)
      ensures status == Success && error == None
    {
      products := [NewProduct(d, id, now)] + products;
      status := Success;
      error := None;
    }

    /** Patches every product with the id, in place; the store reports success. */
    method UpdateProduct(id: Id, u: ProductPatch, now: Time)
      modifies this
      ensures products == PatchWhere(old(products), id, u, now)
      ensures status == Success && error == None
    {
      products := PatchWhere(products, id, u, now);
      status := Success;
      error := None;
    }

    /** Removes every product with the id; the store reports success. */
    method DeleteProduct(id: Id)
      modifies this
      ensures products == WithoutProduct(old(products), id)
      ensures status == Success && error == None
    {
      products := WithoutProduct(products, id);
      status := Success;
      error := None;
    }

    function GetProductById(id: Id): (r: Option<Product>)
      reads this
      ensures r.None? <==> forall p :: p in products ==> p.id != id
      ensures r.Some? ==> r.value in products && r.value.id == id
      ensures r.Some? ==> (exists i :: 0 <= i < |products| && products[i] == r.value
                                   && forall j :: 0 <= j < i ==> products[j].id != id)
    {
      FindProduct(products, id)
    }

    function GetProductsByCategory(category: Category): (r: seq<Product>)
      reads this
      ensures forall p :: p in r <==> p in products && p.category == category
    {
      Filter(products, (p: Product) => p.category == category)
    }

    function GetProductStats(): (r: ProductStats)
      reads this
      ensures r.total == |products|
      ensures r.active == Count(products, IsActiveProduct)
      ensures r.outOfStock == Count(products, IsOutOfStockProduct)
      ensures r.active + r.outOfStock <= r.total
      ensures r.lowStock == |LowStock(products, DefaultLowStockThreshold)|
    {
      CountDisjoint(products, IsActiveProduct, IsOutOfStockProduct);
      ProductStats(|products|, Count(products, IsActiveProduct), Count(products, IsOutOfStockProduct),
                   |LowStock(products, DefaultLowStockThreshold)|)
    }

    function GetLowStockProducts(threshold: Option<int>): (r: seq<Product>)
      reads this
      ensures forall p :: p in r <==> p in products && 0 < p.stock <= threshold.GetOr(DefaultLowStockThreshold)
    {
      LowStock(products, threshold.GetOr(DefaultLowStockThreshold))
    }

    /** Loading clears the error; leaving the loading state keeps it. */
    method SetLoading(loading: bool)
      modifies this
      ensures products == old(products)
      ensures loading ==> status == Loading && error == None
      ensures !loading ==> status == Idle && error == old(error)
    {
      status := if loading then Loading else Idle;
      error := if loading then None else error;
    }

    /** A non-empty message is an error; null or the empty string reads as success. */
    method SetError(e: Option<string>)
      modifies this
      ensures products == old(products)
      ensures error == e
      ensures status == if Truthy(e) then Error else Success
    {
      status := if Truthy(e) then Error else Success;
      error := e;
    }

    /**
     * The common tail of the stock operations: writes the movement's new stock
     * to every product with its id, then records the movement in the ledger,
     * if one is registered, and re-checks the product's alerts.
     */
    method CommitStock(d: Stock.MovementDraft, ledger: Stock.StockStore?, log: Activities.ActivityStore?,
                       movementId: Id, alertId: Id, activityId: Id, now: Time)
      requires LedgerReady(ledger, alertId)
      modifies this, ledger, log
      ensures products == PatchWhere(old(products), d.productId, StockPatch(d.newStock), now)
      ensures status == Success && error == None
      ensures Recorded(ledger, d, movementId, alertId, now)
      ensures Logged(ledger, log, d, movementId, activityId, now)
    {
      UpdateProduct(d.productId, StockPatch(d.newStock), now);
      if ledger != null {
        ledger.AddMovement(d, movementId, now, log, activityId);
        ledger.CheckStockAlerts(d.productId, d.newStock, alertId, now);
      }
    }

    /**
     * Sets the product's stock to `newStock` and records an `ajuste` for the
     * difference; an unknown id fails before anything changes.
     */
    method UpdateStock(productId: Id, newStock: int, reason: string, userId: Option<Id>,
                       ledger: Stock.StockStore?, log: Activities.ActivityStore?,
                       movementId: Id, alertId: Id, activityId: Id, now: Time)
      returns (r: StockOpResult)
      requires LedgerReady(ledger, alertId)
      modifies this, ledger, log
      ensures FindProduct(old(products), productId).None? ==>
        r == Failed(ProductNotFoundMessage) && unchanged(this) && (ledger != null ==> unchanged(ledger))
        && (log != null ==> unchanged(log))
      ensures FindProduct(old(products), productId).Some? ==>
        var previous := FindProduct(old(products), productId).value.stock;
        r == Done && status == Success && error == None
        && products == PatchWhere(old(products), productId, StockPatch(newStock), now)
        && Recorded(ledger, UpdateStockMovement(productId, previous, newStock, reason, userId.GetOr(SystemUser)), movementId, alertId, now)
        && Logged(ledger, log, UpdateStockMovement(productId, previous, newStock, reason, userId.GetOr(SystemUser)), movementId, activityId, now)
    {
      var product := GetProductById(productId);
      assert product == FindProduct(old(products), productId);
      if product.None? {
        return Failed(ProductNotFoundMessage);
      }
      var previous := product.value.stock;
      var d := UpdateStockMovement(productId, previous, newStock, reason, userId.GetOr(SystemUser));
      assert d.productId == productId && d.newStock == newStock;
      assert FindProduct(old(products), productId).value.stock == previous;
      CommitStock(d, ledger, log, movementId, alertId, activityId, now);
      r := Done;
    }

    /**
     * Takes `quantity` out of the product's stock and records a `salida`; an
     * unknown id or a stock below `quantity` fails before anything changes.
     */
    method ReduceStock(productId: Id, quantity: int, reason: string, reference: Option<string>, userId: Option<Id>,
                       ledger: Stock.StockStore?, log: Activities.ActivityStore?,
                       movementId: Id, alertId: Id, activityId: Id, now: Time)
      returns (r: StockOpResult)
      requires LedgerReady(ledger, alertId)
      modifies this, ledger, log
      ensures FindProduct(old(products), productId).None? ==>
        r == Failed(ProductNotFoundMessage) && unchanged(this) && (ledger != null ==> unchanged(ledger))
        && (log != null ==> unchanged(log))
      ensures (FindProduct(old(products), productId).Some?
        && FindProduct(old(products), productId).value.stock < quantity) ==>
        r == Failed(InsufficientStockMessage) && unchanged(this) && (ledger != null ==> unchanged(ledger))
        && (log != null ==> unchanged(log))
      ensures (FindProduct(old(products), productId).Some?
        && quantity <= FindProduct(old(products), productId).value.stock) ==>
        var previous := FindProduct(old(products), productId).value.stock;
        r == Done && status == Success && error == None
        && products == PatchWhere(old(products), productId, StockPatch(previous - quantity), now)
        && Recorded(ledger, ReduceStockMovement(productId, previous, quantity, reason, reference, userId.GetOr(SystemUser)), movementId, alertId, now)
        && Logged(ledger, log, ReduceStockMovement(productId, previous, quantity, reason, reference, userId.GetOr(SystemUser)), movementId, activityId, now)
    {
      var product := GetProductById(productId);
      assert product == FindProduct(old(products), productId);
      if product.None? {
        r := Failed(ProductNotFoundMessage);
      } else if product.value.stock < quantity {
        r := Failed(InsufficientStockMessage);
      } else {
        var previous := product.value.stock;
        var d := ReduceStockMovement(productId, previous, quantity, reason, reference, userId.GetOr(SystemUser));
        assert d.productId == productId && d.newStock == previous - quantity;
        assert FindProduct(old(products), productId).value.stock == previous;
        CommitStock(d, ledger, log, movementId, alertId, activityId, now);
        assert products == PatchWhere(old(products), d.productId, StockPatch(d.newStock), now);
        r := Done;
      }
    }

    /**
     * Adds `quantity` to the product's stock and records an `entrada`; an
     * unknown id fails before anything changes.
     */
    method AddStock(productId: Id, quantity: int, reason: string, reference: Option<string>, userId: Option<Id>,
                    ledger: Stock.StockStore?, log: Activities.ActivityStore?,
                    movementId: Id, alertId: Id, activityId: Id, now: Time)
      returns (r: StockOpResult)
      requires LedgerReady(ledger, alertId)
      modifies this, ledger, log
      ensures FindProduct(old(products), productId).None? ==>
        r == Failed(ProductNotFoundMessage) && unchanged(this) && (ledger != null ==> unchanged(ledger))
        && (log != null ==> unchanged(log))
      ensures FindProduct(old(products), productId).Some? ==>
        var previous := FindProduct(old(products), productId).value.stock;
        r == Done && status == Success && error == None
        && products == PatchWhere(old(products), productId, StockPatch(previous + quantity), now)
        && Recorded(ledger, AddStockMovement(productId, previous, quantity, reason, reference, userId.GetOr(SystemUser)), movementId, alertId, now)
        && Logged(ledger, log, AddStockMovement(productId, previous, quantity, reason, reference, userId.GetOr(SystemUser)), movementId, activityId, now)
    {
      var product := GetProductById(productId);
      assert product == FindProduct(old(products), productId);
      if product.None? {
        return Failed(ProductNotFoundMessage);
      }
      var previous := product.value.stock;
      var d := AddStockMovement(productId, previous, quantity, reason, reference, userId.GetOr(SystemUser));
      assert d.productId == productId && d.newStock == previous + quantity;
      assert FindProduct(old(products), productId).value.stock == previous;
      CommitStock(d, ledger, log, movementId, alertId, activityId, now);
      r := Done;
    }
  }
}
