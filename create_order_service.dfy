/**
 * `CreateOrderService.execute`: check the customer, look up every requested
 * product in one batch, validate and price each request line in order, then
 * write the stock updates and create the order. The state of the three
 * repositories the service is given (customers, products, orders) is held in
 * the fields of the service object; a ghost log records every repository
 * call, in order, with its argument.
 */
module Orders {
  import opened Wrappers
  import opened OrderPlanning
  import opened Stores

  /** A customer as the customers repository returns it. */
  datatype Customer = Customer(id: Id)

  /** An order as the orders repository creates it. */
  datatype Order = Order(id: nat, customer: Customer, products: seq<OrderLine>)

  /** A call the service makes on one of its repositories. */
  datatype Call =
    | CustomerLookup(customerId: Id)
    | ProductLookup(ids: seq<Id>)
    | StockUpdate(updates: seq<ProductQuantity>)
    | OrderCreation(customer: Customer, products: seq<OrderLine>)

  class CreateOrderService {
    /** Ids of the customers the customers repository knows. */
    var customers: set<Id>
    /** The products repository: price and stock per product id. */
    var catalog: map<Id, Stock>
    /** The orders repository, in creation order. */
    var orders: seq<Order>
    /** Every repository call made so far, in order. */
    ghost var calls: seq<Call>

    constructor (customers: set<Id>, catalog: map<Id, Stock>)
      ensures this.customers == customers && this.catalog == catalog
      ensures orders == [] && calls == []
    {
      this.customers := customers;
      this.catalog := catalog;
      orders := [];
      calls := [];
    }

    /** `customersRepository.findById`. */
    method FindCustomerById(customerId: Id) returns (customer: Option<Customer>)
      modifies this`calls
      ensures customer == if customerId in customers then Some(Customer(customerId)) else None
      ensures calls == old(calls) + [CustomerLookup(customerId)]
    {
      customer := if customerId in customers then Some(Customer(customerId)) else None;
      calls := calls + [CustomerLookup(customerId)];
    }

    /** `productsRepository.findAllById`: some result with the assumed `IsLookupResult` property. */
    method FindAllById(ids: seq<Id>) returns (snapshot: seq<Product>)
      modifies this`calls
      ensures IsLookupResult(catalog, ids, snapshot)
      ensures calls == old(calls) + [ProductLookup(ids)]
    {
      snapshot := Lookup(catalog, ids);
      calls := calls + [ProductLookup(ids)];
    }

    /** `productsRepository.updateQuantity`, with the assumed behaviour `ApplyUpdates`. */
    method UpdateQuantity(updates: seq<ProductQuantity>)
      modifies this`catalog, this`calls
      ensures catalog == ApplyUpdates(old(catalog), updates)
      ensures calls == old(calls) + [StockUpdate(updates)]
    {
      catalog := ApplyUpdates(catalog, updates);
      calls := calls + [StockUpdate(updates)];
    }

    /** `ordersRepository.create`: stores the order under the next id and returns it. */
    method CreateOrder(customer: Customer, products: seq<OrderLine>) returns (order: Order)
      modifies this`orders, this`calls
      ensures order == Order(|old(orders)| + 1, customer, products)
      ensures orders == old(orders) + [order]
      ensures calls == old(calls) + [OrderCreation(customer, products)]
    {
      order := Order(|orders| + 1, customer, products);
      orders := orders + [order];
      calls := calls + [OrderCreation(customer, products)];
    }

    /**
     * An unknown customer fails after the customer lookup alone. A failing
     * request line fails after the two lookups, with the error of the first
     * failing line and nothing written. Otherwise the stock updates are
     * written in one call and then the order is created, holding the planned
     * lines, and returned.
     */
    method Execute(customerId: Id, products: seq<ProductQuantity>) returns (r: Result<Order, Failure>)
      modifies this
      ensures customers == old(customers)
      ensures customerId !in customers ==>
                && r == Failure(CustomerNotFound)
                && catalog == old(catalog) && orders == old(orders)
                && calls == old(calls) + [CustomerLookup(customerId)]
      ensures customerId in customers ==>
                match Plan(Lookup(old(catalog), Ids(products)), products)
                case Failure(e) =>
                  && r == Failure(e)
                  && catalog == old(catalog) && orders == old(orders)
                  && calls == old(calls) + [CustomerLookup(customerId), ProductLookup(Ids(products))]
                case Success(p) =>
                  && r == Success(Order(|old(orders)| + 1, Customer(customerId), p.lines))
                  && orders == old(orders) + [r.value]
                  && catalog == ApplyUpdates(old(catalog), p.updates)
                  && calls == old(calls) + [CustomerLookup(customerId), ProductLookup(Ids(products)),
                                            StockUpdate(p.updates), OrderCreation(Customer(customerId), p.lines)]
    {
      var customer := FindCustomerById(customerId);
      if customer.None? {
        return Failure(CustomerNotFound);
      }

      var productsId := Ids(products);
      var productsForPrice := FindAllById(productsId);
      AnyLookupResultPlansAlike(catalog, productsForPrice, products);
      var planned := ValidateAndPrice(productsForPrice, products);
      if planned.Failure? {
        return Failure(planned.error);
      }
      var productsToUpdateQuantity := planned.value.updates;
      var productsToSave := planned.value.lines;

      UpdateQuantity(productsToUpdateQuantity);
      var order := CreateOrder(customer.value, productsToSave);
      return Success(order);
    }
  }

  /**
   * The `products.map(...)` pass of `execute`: for each request line in
   * order, find its catalog entry, reject a missing product and then a
   * quantity above stock, push the new stock quantity onto the update list
   * and build the priced order line. The result is exactly `Plan`.
   */
  method ValidateAndPrice(productsForPrice: seq<Product>, products: seq<ProductQuantity>)
    returns (r: Result<Planned, Failure>)
    ensures r == Plan(productsForPrice, products)
  {
    var productsToUpdateQuantity: seq<ProductQuantity> := [];
    var productsToSave: seq<OrderLine> := [];
    var i := 0;
    while i < |products|
      invariant i <= |products|
      invariant Plan(productsForPrice, products[..i]) == Success(Planned(productsToSave, productsToUpdateQuantity))
    {
      var product := products[i];
      PlanStep(productsForPrice, products, i);
      var productForPrice := Find(productsForPrice, product.id);
      if productForPrice.None? {
        FailurePersists(productsForPrice, products, i + 1);
        return Failure(InvalidProduct);
      }
      if productForPrice.value.quantity < product.quantity {
        FailurePersists(productsForPrice, products, i + 1);
        return Failure(InvalidProductQuantity);
      }
      productsToUpdateQuantity := productsToUpdateQuantity +
        [ProductQuantity(product.id, productForPrice.value.quantity - product.quantity)];
      productsToSave := productsToSave + [OrderLine(product.id, product.quantity, productForPrice.value.price)];
      i := i + 1;
    }
    assert products[..|products|] == products;
    return Success(Planned(productsToSave, productsToUpdateQuantity));
  }

  /**
   * A customer orders 3 of a product priced 1000 with 5 in stock: the order
   * has the one line at the catalog price and the stock drops to 2.
   */
  method ScenarioReserveStock()
  {
    var service := new CreateOrderService({"C1"}, map["P1" := Stock(1000, 5)]);
    var items := [ProductQuantity("P1", 3)];
    PlanOverCatalog(service.catalog, items);
    NamedProductFromLastLine(service.catalog, items, 0);
    var r := service.Execute("C1", items);
    assert r.Success? && r.value.products == [OrderLine("P1", 3, 1000)];
    assert service.catalog["P1"] == Stock(1000, 2);
  }

  /**
   * Ordering 10 of a product with 5 in stock fails with the quantity error,
   * writes nothing, and fails the same way when repeated.
   */
  method ScenarioInsufficientStock()
  {
    var service := new CreateOrderService({"C1"}, map["P1" := Stock(1000, 5)]);
    var items := [ProductQuantity("P1", 10)];
    FindInLookup(service.catalog, Ids(items), Lookup(service.catalog, Ids(items)), "P1");
    FirstFailureDecides(Lookup(service.catalog, Ids(items)), items, 0);
    var r := service.Execute("C1", items);
    assert r == Failure(InvalidProductQuantity) && service.orders == [];
    assert service.catalog == map["P1" := Stock(1000, 5)];
    var again := service.Execute("C1", items);
    assert again == r && service.orders == [];
  }

  /** An unknown customer fails before any product lookup or write. */
  method ScenarioUnknownCustomer()
  {
    var service := new CreateOrderService({"C1"}, map["P1" := Stock(1000, 5)]);
    var r := service.Execute("C2", [ProductQuantity("P1", 3)]);
    assert r == Failure(CustomerNotFound) && r.error.Message() == "Customer not found.";
    assert service.calls == [CustomerLookup("C2")];
    assert service.catalog == map["P1" := Stock(1000, 5)] && service.orders == [];
  }
}
