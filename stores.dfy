/**
 * The products repository's two operations used by order creation, over a
 * catalog held as a map from product id to price and stock. The repository
 * implementations are not part of this model: `Lookup` and `ApplyUpdates`
 * are the behaviour assumed of `findAllById` and `updateQuantity`.
 */
module Stores {
  import opened Wrappers
  import opened OrderPlanning

  /** A product's row in the catalog. */
  datatype Stock = Stock(price: Price, quantity: int)

  /** The catalog row of `id`, in the shape the batch lookup returns. */
  function Entry(catalog: map<Id, Stock>, id: Id): Product
    requires id in catalog
  {
    Product(id, catalog[id].price, catalog[id].quantity)
  }

  /**
   * What is assumed of a `findAllById` result: its entries are exactly the
   * catalog rows of requested ids, and every requested id the catalog holds
   * has its row among them. Order and repetition are left open.
   */
  predicate IsLookupResult(catalog: map<Id, Stock>, ids: seq<Id>, snapshot: seq<Product>)
  {
    && (forall p :: p in snapshot ==> p.id in ids && p.id in catalog && p == Entry(catalog, p.id))
    && (forall id :: id in ids && id in catalog ==> Entry(catalog, id) in snapshot)
  }

  /**
   * One such result: for each requested id that the catalog holds, in
   * request order, its row; ids the catalog does not hold are absent.
   */
  function Lookup(catalog: map<Id, Stock>, ids: seq<Id>): (snapshot: seq<Product>)
    ensures IsLookupResult(catalog, ids, snapshot)
  {
    if ids == [] then []
    else
      var rest := Lookup(catalog, ids[1..]);
      if ids[0] in catalog then [Entry(catalog, ids[0])] + rest else rest
  }

  /** Searching any lookup result finds exactly the catalog row of a requested id. */
  lemma FindInLookup(catalog: map<Id, Stock>, ids: seq<Id>, snapshot: seq<Product>, id: Id)
    requires IsLookupResult(catalog, ids, snapshot)
    ensures Find(snapshot, id) == if id in ids && id in catalog then Some(Entry(catalog, id)) else None
  {
    if id in ids && id in catalog {
      assert Entry(catalog, id) in snapshot;
    }
  }

  /** Two snapshots in which every id finds the same entry give the same plan. */
  lemma {:induction false} PlanDependsOnlyOnFind(s1: seq<Product>, s2: seq<Product>, items: seq<ProductQuantity>)
    requires forall id :: Find(s1, id) == Find(s2, id)
    ensures Plan(s1, items) == Plan(s2, items)
  {
    if items != [] {
      PlanDependsOnlyOnFind(s1, s2, items[..|items| - 1]);
      assert LineOutcome(s1, items[|items| - 1]) == LineOutcome(s2, items[|items| - 1]);
    }
  }

  /**
   * Whatever order or repetition `findAllById` returns its rows in, the
   * request is planned as over `Lookup`.
   */
  lemma AnyLookupResultPlansAlike(catalog: map<Id, Stock>, snapshot: seq<Product>, items: seq<ProductQuantity>)
    requires IsLookupResult(catalog, Ids(items), snapshot)
    ensures Plan(snapshot, items) == Plan(Lookup(catalog, Ids(items)), items)
  {
    var canonical := Lookup(catalog, Ids(items));
    forall id ensures Find(snapshot, id) == Find(canonical, id) {
      FindInLookup(catalog, Ids(items), snapshot, id);
      FindInLookup(catalog, Ids(items), canonical, id);
    }
    PlanDependsOnlyOnFind(snapshot, canonical, items);
  }

  /** One stock update: the product's quantity becomes the given one; other rows and prices stay. */
  function SetQuantity(catalog: map<Id, Stock>, update: ProductQuantity): (r: map<Id, Stock>)
    ensures r.Keys == catalog.Keys
    ensures forall id :: id in catalog && id != update.id ==> r[id] == catalog[id]
    ensures update.id in catalog ==> r[update.id] == Stock(catalog[update.id].price, update.quantity)
  {
    if update.id in catalog then catalog[update.id := catalog[update.id].(quantity := update.quantity)]
    else catalog
  }

  /**
   * Assumed `updateQuantity`: the updates applied in list order, so that for
   * an id listed twice the later entry wins; unknown ids are ignored.
   */
  function ApplyUpdates(catalog: map<Id, Stock>, updates: seq<ProductQuantity>): (r: map<Id, Stock>)
    ensures r.Keys == catalog.Keys
    ensures forall id :: id in catalog ==> r[id].price == catalog[id].price
  {
    if updates == [] then catalog
    else SetQuantity(ApplyUpdates(catalog, updates[..|updates| - 1]), updates[|updates| - 1])
  }

  /** A row that no update names is left as it was. */
  lemma {:induction false} UntouchedRow(catalog: map<Id, Stock>, updates: seq<ProductQuantity>, id: Id)
    requires id in catalog
    requires forall k :: 0 <= k < |updates| ==> updates[k].id != id
    ensures ApplyUpdates(catalog, updates)[id] == catalog[id]
  {
    if updates != [] {
      var n := |updates| - 1;
      UntouchedRow(catalog, updates[..n], id);
    }
  }

  /** For an id listed more than once, the last update naming it decides its quantity. */
  lemma {:induction false} LastUpdateWins(catalog: map<Id, Stock>, updates: seq<ProductQuantity>, id: Id, k: nat)
    requires id in catalog
    requires k < |updates| && updates[k].id == id
    requires forall j :: k < j < |updates| ==> updates[j].id != id
    ensures ApplyUpdates(catalog, updates)[id] == Stock(catalog[id].price, updates[k].quantity)
  {
    var n := |updates| - 1;
    if k < n {
      LastUpdateWins(catalog, updates[..n], id, k);
    }
  }

  /**
   * Against the catalog itself: the request passes exactly when every
   * requested id is in the catalog with at least the requested quantity,
   * and each line is then priced at the catalog price of its product.
   */
  lemma PlanOverCatalog(catalog: map<Id, Stock>, items: seq<ProductQuantity>)
    ensures var r := Plan(Lookup(catalog, Ids(items)), items);
            && (r.Success? <==> forall k :: 0 <= k < |items| ==>
                                   items[k].id in catalog && items[k].quantity <= catalog[items[k].id].quantity)
            && (r.Success? ==> forall k :: 0 <= k < |items| ==>
                                 && r.value.lines[k] == OrderLine(items[k].id, items[k].quantity, catalog[items[k].id].price)
                                 && r.value.updates[k] ==
                                      ProductQuantity(items[k].id, catalog[items[k].id].quantity - items[k].quantity))
  {
    var snapshot := Lookup(catalog, Ids(items));
    forall k | 0 <= k < |items|
      ensures Find(snapshot, items[k].id) ==
                if items[k].id in catalog then Some(Entry(catalog, items[k].id)) else None
    {
      assert Ids(items)[k] == items[k].id;
      FindInLookup(catalog, Ids(items), snapshot, items[k].id);
    }
    PlanSucceedsIff(snapshot, items);
    if Plan(snapshot, items).Success? {
      OrderLinesFollowRequest(snapshot, items);
    }
  }

  /** After a successful order, a product the request does not name keeps its row. */
  lemma UnnamedProductUnchanged(catalog: map<Id, Stock>, snapshot: seq<Product>,
                                                   items: seq<ProductQuantity>, id: Id)
    requires Plan(snapshot, items).Success?
    requires id in catalog
    requires forall k :: 0 <= k < |items| ==> items[k].id != id
    ensures ApplyUpdates(catalog, Plan(snapshot, items).value.updates)[id] == catalog[id]
  {
    var updates := Plan(snapshot, items).value.updates;
    UpdatesNameRequestedIds(snapshot, items);
    UntouchedRow(catalog, updates, id);
  }

  /**
   * After a successful order, a product the request names has its catalog
   * quantity minus the quantity of the LAST line naming it, not minus the
   * total requested. (Automatic induction is switched off only because the
   * hypothesis it adds makes this direct proof run out of resource.)
   */
  lemma {:induction false} NamedProductFromLastLine(catalog: map<Id, Stock>, items: seq<ProductQuantity>, k: nat)
    requires Plan(Lookup(catalog, Ids(items)), items).Success?
    requires k < |items|
    requires forall j :: k < j < |items| ==> items[j].id != items[k].id
    ensures items[k].id in catalog
    ensures ApplyUpdates(catalog, Plan(Lookup(catalog, Ids(items)), items).value.updates)[items[k].id] ==
              Stock(catalog[items[k].id].price, catalog[items[k].id].quantity - items[k].quantity)
  {
    var snapshot := Lookup(catalog, Ids(items));
    var updates := Plan(snapshot, items).value.updates;
    var id := items[k].id;
    assert Ids(items)[k] == id;
    PlanAt(snapshot, items, k);
    FindInLookup(catalog, Ids(items), snapshot, id);
    assert updates[k] == ProductQuantity(id, catalog[id].quantity - items[k].quantity);
    UpdatesNameRequestedIds(snapshot, items);
    LastUpdateWins(catalog, updates, id, k);
  }
}
