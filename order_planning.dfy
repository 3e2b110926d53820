/**
 * The pure part of order creation: matching each requested product against
 * the catalog snapshot returned by one batch lookup, validating it, pricing
 * the order line from the catalog and computing the product's new stock
 * quantity. `Plan` is the whole `products.map(...)` pass of `execute`, with
 * the first thrown error as a `Failure`.
 */
module OrderPlanning {
  import opened Wrappers

  type Id = string

  /** A price is only copied from the catalog, never computed. */
  type Price = int

  /**
   * `{ id, quantity }`: the shape of a requested item and, reused by the
   * service, of a stock update (`quantity` is then the new stock level).
   * Quantities are whatever number the caller sent: the service does not
   * check that they are positive.
   */
  datatype ProductQuantity = ProductQuantity(id: Id, quantity: int)

  /** A catalog entry as the batch lookup returns it. */
  datatype Product = Product(id: Id, price: Price, quantity: int)

  /** An order line as handed to the order store. */
  datatype OrderLine = OrderLine(productId: Id, quantity: int, price: Price)

  /** What one validated request line contributes. */
  datatype Reserved = Reserved(line: OrderLine, update: ProductQuantity)

  /** The two parallel lists built by the pass over the request. */
  datatype Planned = Planned(lines: seq<OrderLine>, updates: seq<ProductQuantity>)

  /** The three `AppError`s the service throws. */
  datatype Failure = CustomerNotFound | InvalidProduct | InvalidProductQuantity
  {
    function Message(): string
    {
      match this
      case CustomerNotFound => "Customer not found."
      case InvalidProduct => "Invalid product."
      case InvalidProductQuantity => "Invalid product quantity."
    }

    /** The status code given where the error is thrown; None leaves it to AppError's default. */
    function StatusCode(): Option<nat>
    {
      match this
      case CustomerNotFound => Some(400)
      case _ => None
    }
  }

  /** The message and status code of each error, as thrown. */
  lemma FailureMessages()
    ensures CustomerNotFound.Message() == "Customer not found." && CustomerNotFound.StatusCode() == Some(400)
    ensures InvalidProduct.Message() == "Invalid product." && InvalidProduct.StatusCode() == None
    ensures InvalidProductQuantity.Message() == "Invalid product quantity." && InvalidProductQuantity.StatusCode() == None
  {
  }

  /** `ids` of the request, in request order (the argument of the batch lookup). */
  function Ids(products: seq<ProductQuantity>): (ids: seq<Id>)
    ensures |ids| == |products|
    ensures forall k :: 0 <= k < |products| ==> ids[k] == products[k].id
  {
    if products == [] then [] else [products[0].id] + Ids(products[1..])
  }

  /** Index of the first snapshot entry with the given id, as `Array.prototype.find` scans. */
  function FindIndex(snapshot: seq<Product>, id: Id): (r: Option<nat>)
    ensures r.Some? ==> r.value < |snapshot| && snapshot[r.value].id == id
    ensures r.Some? ==> forall j :: 0 <= j < r.value ==> snapshot[j].id != id
    ensures r.None? ==> forall j :: 0 <= j < |snapshot| ==> snapshot[j].id != id
  {
    if snapshot == [] then None
    else if snapshot[0].id == id then Some(0)
    else match FindIndex(snapshot[1..], id)
      case None => None
      case Some(k) => Some(k + 1)
  }

  /** The first snapshot entry with the given id, or None. */
  function Find(snapshot: seq<Product>, id: Id): (r: Option<Product>)
    ensures r.None? <==> forall p :: p in snapshot ==> p.id != id
    ensures r.Some? ==> r.value.id == id && exists k :: 0 <= k < |snapshot| && snapshot[k] == r.value
                                                      && forall j :: 0 <= j < k ==> snapshot[j].id != id
  {
    match FindIndex(snapshot, id)
    case None => None
    case Some(k) => Some(snapshot[k])
  }

  /**
   * One request line: missing product first, then insufficient stock;
   * otherwise the line priced from the catalog and the stock update.
   */
  function LineOutcome(snapshot: seq<Product>, item: ProductQuantity): (r: Result<Reserved, Failure>)
    ensures r == Failure(InvalidProduct) <==> Find(snapshot, item.id).None?
    ensures r == Failure(InvalidProductQuantity) <==>
              Find(snapshot, item.id).Some? && Find(snapshot, item.id).value.quantity < item.quantity
    ensures r.Success? ==>
              var p := Find(snapshot, item.id).value;
              && r.value.line == OrderLine(item.id, item.quantity, p.price)
              && r.value.update == ProductQuantity(item.id, p.quantity - item.quantity)
              && 0 <= r.value.update.quantity
  {
    match Find(snapshot, item.id)
    case None => Failure(InvalidProduct)
    case Some(p) =>
      if p.quantity < item.quantity then Failure(InvalidProductQuantity)
      else Success(Reserved(OrderLine(item.id, item.quantity, p.price),
                            ProductQuantity(item.id, p.quantity - item.quantity)))
  }

  /** The pass over the request in order; the first failing line ends it. */
  function Plan(snapshot: seq<Product>, items: seq<ProductQuantity>): (r: Result<Planned, Failure>)
    ensures r.Success? ==> |r.value.lines| == |items| && |r.value.updates| == |items|
  {
    if items == [] then Success(Planned([], []))
    else
      match Plan(snapshot, items[..|items| - 1])
      case Failure(e) => Failure(e)
      case Success(done) =>
        match LineOutcome(snapshot, items[|items| - 1])
        case Failure(e) => Failure(e)
        case Success(res) => Success(Planned(done.lines + [res.line], done.updates + [res.update]))
  }

  /** Plan one more line on top of a successful prefix. */
  lemma PlanStep(snapshot: seq<Product>, items: seq<ProductQuantity>, i: nat)
    requires i < |items|
    ensures Plan(snapshot, items[..i + 1]) ==
              match Plan(snapshot, items[..i])
              case Failure(e) => Failure(e)
              case Success(done) =>
                match LineOutcome(snapshot, items[i])
                case Failure(e) => Failure(e)
                case Success(res) => Success(Planned(done.lines + [res.line], done.updates + [res.update]))
  {
    assert items[..i + 1][..i] == items[..i];
  }

  /** Once a prefix of the request fails, the whole request fails with the same error. */
  lemma {:induction false} FailurePersists(snapshot: seq<Product>, items: seq<ProductQuantity>, i: nat)
    requires i <= |items|
    requires Plan(snapshot, items[..i]).Failure?
    ensures Plan(snapshot, items) == Plan(snapshot, items[..i])
  {
    if i < |items| {
      var n := |items| - 1;
      assert items[..n][..i] == items[..i];
      FailurePersists(snapshot, items[..n], i);
      assert items[..|items|] == items;
    } else {
      assert items[..i] == items;
    }
  }

  /** The request is accepted exactly when every line passes both checks. */
  lemma {:induction false} PlanSucceedsIff(snapshot: seq<Product>, items: seq<ProductQuantity>)
    ensures Plan(snapshot, items).Success? <==>
              forall k :: 0 <= k < |items| ==> LineOutcome(snapshot, items[k]).Success?
  {
    if items != [] {
      var n := |items| - 1;
      PlanSucceedsIff(snapshot, items[..n]);
      assert forall k :: 0 <= k < n ==> items[..n][k] == items[k];
    }
  }

  /** On success, line k and update k come from request line k and its catalog entry. */
  lemma {:induction false} PlanAt(snapshot: seq<Product>, items: seq<ProductQuantity>, k: nat)
    requires Plan(snapshot, items).Success?
    requires k < |items|
    ensures LineOutcome(snapshot, items[k]).Success?
    ensures Plan(snapshot, items).value.lines[k] == LineOutcome(snapshot, items[k]).value.line
    ensures Plan(snapshot, items).value.updates[k] == LineOutcome(snapshot, items[k]).value.update
  {
    var n := |items| - 1;
    if k < n {
      PlanAt(snapshot, items[..n], k);
      assert items[..n][k] == items[k];
    }
  }

  /** On success, line k and update k both name the product of request line k. */
  lemma UpdatesNameRequestedIds(snapshot: seq<Product>, items: seq<ProductQuantity>)
    requires Plan(snapshot, items).Success?
    ensures forall k :: 0 <= k < |items| ==>
              && Plan(snapshot, items).value.lines[k].productId == items[k].id
              && Plan(snapshot, items).value.updates[k].id == items[k].id
  {
    forall k | 0 <= k < |items|
      ensures && Plan(snapshot, items).value.lines[k].productId == items[k].id
              && Plan(snapshot, items).value.updates[k].id == items[k].id
    {
      PlanAt(snapshot, items, k);
    }
  }

  /**
   * On success: one line per request line, in request order, duplicates kept,
   * with the requested id and quantity and the price of the first catalog
   * entry with that id; one update per line, to the snapshot quantity minus
   * the requested quantity.
   */
  lemma OrderLinesFollowRequest(snapshot: seq<Product>, items: seq<ProductQuantity>)
    requires Plan(snapshot, items).Success?
    ensures var p := Plan(snapshot, items).value;
            && |p.lines| == |items| && |p.updates| == |items|
            && forall k :: 0 <= k < |items| ==>
                 && Find(snapshot, items[k].id).Some?
                 && items[k].quantity <= Find(snapshot, items[k].id).value.quantity
                 && p.lines[k] == OrderLine(items[k].id, items[k].quantity, Find(snapshot, items[k].id).value.price)
                 && p.updates[k] == ProductQuantity(items[k].id, Find(snapshot, items[k].id).value.quantity - items[k].quantity)
  {
    forall k | 0 <= k < |items|
      ensures var p := Plan(snapshot, items).value;
              && Find(snapshot, items[k].id).Some?
              && items[k].quantity <= Find(snapshot, items[k].id).value.quantity
              && p.lines[k] == OrderLine(items[k].id, items[k].quantity, Find(snapshot, items[k].id).value.price)
              && p.updates[k] == ProductQuantity(items[k].id, Find(snapshot, items[k].id).value.quantity - items[k].quantity)
    {
      PlanAt(snapshot, items, k);
    }
  }

  /**
   * The first failing line decides: if every earlier line passes and line k
   * fails, the request fails with line k's error.
   */
  lemma FirstFailureDecides(snapshot: seq<Product>, items: seq<ProductQuantity>, k: nat)
    requires k < |items|
    requires forall j :: 0 <= j < k ==> LineOutcome(snapshot, items[j]).Success?
    requires LineOutcome(snapshot, items[k]).Failure?
    ensures Plan(snapshot, items) == Failure(LineOutcome(snapshot, items[k]).error)
  {
    PlanSucceedsIff(snapshot, items[..k]);
    assert forall j :: 0 <= j < k ==> items[..k][j] == items[j];
    PlanStep(snapshot, items, k);
    FailurePersists(snapshot, items, k + 1);
  }

  /** A failed request has a first failing line, whose error it reports. */
  lemma {:induction false} FailureHasFirstBadLine(snapshot: seq<Product>, items: seq<ProductQuantity>)
    requires Plan(snapshot, items).Failure?
    ensures exists k :: 0 <= k < |items|
              && (forall j :: 0 <= j < k ==> LineOutcome(snapshot, items[j]).Success?)
              && LineOutcome(snapshot, items[k]) == Failure(Plan(snapshot, items).error)
  {
    var n := |items| - 1;
    assert forall j :: 0 <= j < n ==> items[..n][j] == items[j];
    if Plan(snapshot, items[..n]).Failure? {
      FailureHasFirstBadLine(snapshot, items[..n]);
      var k :| 0 <= k < n
              && (forall j :: 0 <= j < k ==> LineOutcome(snapshot, items[..n][j]).Success?)
              && LineOutcome(snapshot, items[..n][k]) == Failure(Plan(snapshot, items[..n]).error);
      assert LineOutcome(snapshot, items[k]) == Failure(Plan(snapshot, items).error);
    } else {
      PlanSucceedsIff(snapshot, items[..n]);
      assert LineOutcome(snapshot, items[n]) == Failure(Plan(snapshot, items).error);
    }
  }

  /**
   * Each new stock quantity lies between 0 and the snapshot quantity, given
   * that the requested quantity is not negative (nothing in the service checks that).
   */
  lemma UpdateWithinSnapshot(snapshot: seq<Product>, items: seq<ProductQuantity>, k: nat)
    requires Plan(snapshot, items).Success?
    requires k < |items|
    requires 0 <= items[k].quantity
    ensures Find(snapshot, items[k].id).Some?
    ensures 0 <= Plan(snapshot, items).value.updates[k].quantity <= Find(snapshot, items[k].id).value.quantity
  {
    PlanAt(snapshot, items, k);
  }

  /**
   * Lines naming the same product are checked against, and subtract from,
   * the same snapshot quantity: no running total is kept.
   */
  lemma DuplicatesUseSnapshot(snapshot: seq<Product>, items: seq<ProductQuantity>, j: nat, k: nat)
    requires Plan(snapshot, items).Success?
    requires j < |items| && k < |items|
    requires items[j].id == items[k].id
    ensures var u := Plan(snapshot, items).value.updates;
            u[j].quantity + items[j].quantity == u[k].quantity + items[k].quantity
  {
    PlanAt(snapshot, items, j);
    PlanAt(snapshot, items, k);
  }

  /** An empty request is accepted with no lines and no stock updates. */
  lemma EmptyRequestAccepted(snapshot: seq<Product>)
    ensures Plan(snapshot, []) == Success(Planned([], []))
  {
  }

  /**
   * Two lines of 3 units of a product with 5 in stock are both accepted,
   * and both set the stock to 2: 6 units are sold out of 5.
   */
  lemma DuplicateLinesOversell()
    ensures var snapshot := [Product("P1", 1000, 5)];
            var items := [ProductQuantity("P1", 3), ProductQuantity("P1", 3)];
            Plan(snapshot, items) ==
              Success(Planned([OrderLine("P1", 3, 1000), OrderLine("P1", 3, 1000)],
                              [ProductQuantity("P1", 2), ProductQuantity("P1", 2)]))
  {
    var snapshot := [Product("P1", 1000, 5)];
    var items := [ProductQuantity("P1", 3), ProductQuantity("P1", 3)];
    assert Find(snapshot, "P1") == Some(snapshot[0]);
    var res := Reserved(OrderLine("P1", 3, 1000), ProductQuantity("P1", 2));
    assert LineOutcome(snapshot, items[0]) == Success(res);
    assert LineOutcome(snapshot, items[1]) == Success(res);
    assert items[..0] == [];
    assert Plan(snapshot, items[..0]) == Success(Planned([], []));
    assert [] + [res.line] == [res.line] && [] + [res.update] == [res.update];
    PlanStep(snapshot, items, 0);
    PlanStep(snapshot, items, 1);
    assert Plan(snapshot, items[..1]) == Success(Planned([OrderLine("P1", 3, 1000)], [ProductQuantity("P1", 2)]));
    assert items[..2] == items;
    assert Plan(snapshot, items) == Success(Planned([res.line] + [res.line], [res.update] + [res.update]));
    assert [res.line] + [res.line] == [OrderLine("P1", 3, 1000), OrderLine("P1", 3, 1000)];
    assert [res.update] + [res.update] == [ProductQuantity("P1", 2), ProductQuantity("P1", 2)];
  }
}
