/** The order service: the date-range guard, order creation with its
    referential checks and derived total, partial update, payment and
    deletion. */
module Orders {
  import opened Common
  import opened Entities
  import opened Storage

  // ---------------------------------------------------------------------
  // Date-range guard

  /** The error the date-range query reports, if any. */
  function DateRangeError(from: Timestamp, to: Timestamp): (r: Option<Error>)
    ensures r == Some(DateBlank) <==> from == ZeroTime || to == ZeroTime
    ensures r == Some(FromAfterTo) <==> from != ZeroTime && to != ZeroTime && from > to
    ensures r.None? <==> from != ZeroTime && to != ZeroTime && from <= to
  {
    if from == ZeroTime || to == ZeroTime then Some(DateBlank)
    else if from > to then Some(FromAfterTo)
    else None
  }

  function DateRangeRules(from: Timestamp, to: Timestamp): seq<Rule>
  {
    [Rule(from != ZeroTime && to != ZeroTime, DateBlank),
     Rule(!(from > to), FromAfterTo)]
  }

  /** The guard is the fail-fast check of its two rules, in order. */
  lemma {:induction false} DateRangeIsFailFast(from: Timestamp, to: Timestamp)
    ensures DateRangeError(from, to) == FirstFailure(DateRangeRules(from, to))
  {
    var rules := DateRangeRules(from, to);
    if from == ZeroTime || to == ZeroTime {
      FirstFailureAt(rules, 0);
    } else if from > to {
      FirstFailureAt(rules, 1);
    } else {
      assert FirstFailure(rules) == None;
    }
  }

  // ---------------------------------------------------------------------
  // Order creation

  /** A stored order respects the create and update rules: both references
      set and a quantity of at least one. */
  predicate WellFormed(o: Order)
  {
    o.userId != 0 && o.productId != 0 && o.quantity >= 1
  }

  /** What creating an order decides, given the products and users storage
      holds: the error, or the order to persist (id and date still unset). */
  function NewOrder(req: OrderRequest, products: map<int, Product>, users: map<int, User>): (r: Result<Order>)
    ensures r.Success? <==>
              req.userId != 0 && req.productId != 0 && req.quantity >= 1 &&
              req.productId in products && req.userId in users
    ensures r.Success? ==>
              && r.value.userId == req.userId
              && r.value.productId == req.productId
              && r.value.quantity == req.quantity
              && r.value.status == Pending
              && r.value.totalPrice == req.quantity * products[req.productId].price
              && WellFormed(r.value)
  {
    if req.userId == 0 || req.productId == 0 then Failure(OrderIdsBlank)
    else if req.quantity == 0 then Failure(QuantityBlank)
    else if req.productId !in products then Failure(ProductNotFound)
    else if req.userId !in users then Failure(UserNotFound)
    else if req.quantity <= 0 then Failure(MinimumQuantity)
    else
      var price := products[req.productId].price;
      Success(Order(0, req.userId, req.productId, req.quantity, Pending, req.quantity * price, ZeroTime))
  }

  /** The checks of order creation, in the order they run. */
  function CreateOrderRules(req: OrderRequest, products: map<int, Product>, users: map<int, User>): seq<Rule>
  {
    [Rule(req.userId != 0 && req.productId != 0, OrderIdsBlank),
     Rule(req.quantity != 0, QuantityBlank),
     Rule(req.productId in products, ProductNotFound),
     Rule(req.userId in users, UserNotFound),
     Rule(req.quantity > 0, MinimumQuantity)]
  }

  /** Order creation reports exactly the first of its checks that fails. */
  lemma {:induction false} NewOrderIsFailFast(req: OrderRequest, products: map<int, Product>, users: map<int, User>)
    ensures NewOrder(req, products, users).Failure? ==>
              FirstFailure(CreateOrderRules(req, products, users)) == Some(NewOrder(req, products, users).error)
    ensures NewOrder(req, products, users).Success? ==>
              FirstFailure(CreateOrderRules(req, products, users)) == None
  {
    var rules := CreateOrderRules(req, products, users);
    if req.userId == 0 || req.productId == 0 {
      FirstFailureAt(rules, 0);
    } else if req.quantity == 0 {
      FirstFailureAt(rules, 1);
    } else if req.productId !in products {
      FirstFailureAt(rules, 2);
    } else if req.userId !in users {
      FirstFailureAt(rules, 3);
    } else if req.quantity <= 0 {
      FirstFailureAt(rules, 4);
    } else {
      assert FirstFailure(rules) == None;
    }
  }

  /** "minimum quantity is 1" is only ever reported for a negative quantity:
      a zero quantity is stopped earlier as blank. */
  lemma MinimumQuantityOnlyWhenNegative(req: OrderRequest, products: map<int, Product>, users: map<int, User>)
    ensures NewOrder(req, products, users) == Failure(MinimumQuantity) ==> req.quantity < 0
    ensures req.quantity == 0 ==> NewOrder(req, products, users).Failure? &&
                                  NewOrder(req, products, users).error in {OrderIdsBlank, QuantityBlank}
  {
  }

  /** One order of three units of a product priced 1000: a pending order
      totalling 3000. */
  lemma CreateOrderExample(buyer: User)
    ensures NewOrder(OrderRequest(1, 2, 3, ""), map[2 := Product(2, 1000)], map[1 := buyer]) ==
              Success(Order(0, 1, 2, 3, Pending, 3000, ZeroTime))
  {
  }

  /** The product is looked up before the user: a missing product is reported
      whatever the user. */
  lemma ProductCheckedBeforeUser(req: OrderRequest, products: map<int, Product>, users: map<int, User>)
    requires req.userId != 0 && req.productId != 0 && req.quantity != 0
    requires req.productId !in products
    ensures NewOrder(req, products, users) == Failure(ProductNotFound)
  {
  }

  // ---------------------------------------------------------------------
  // Order update

  /** What updating `current` with `req` decides: the error, or the order to
      write back. A non-zero quantity replaces the quantity and reprices the
      order at the product's current price; a non-empty status replaces the
      status, whatever it was. */
  function UpdatedOrder(current: Order, req: OrderRequest, products: map<int, Product>): (r: Result<Order>)
    ensures r.Failure? <==> req.quantity < 0 || (req.quantity > 0 && current.productId !in products)
    ensures r.Failure? ==> r.error == if req.quantity < 0 then QuantityBelowOne else ProductNotFound
    ensures r.Success? ==>
              && r.value.id == current.id
              && r.value.userId == current.userId
              && r.value.productId == current.productId
              && r.value.createdAt == current.createdAt
              && r.value.quantity == (if req.quantity == 0 then current.quantity else req.quantity)
              && r.value.totalPrice == (if req.quantity == 0 then current.totalPrice
                                        else req.quantity * products[current.productId].price)
              && r.value.status == (if req.status == "" then current.status else req.status)
    ensures r.Success? && WellFormed(current) ==> WellFormed(r.value)
  {
    var repriced :=
      if req.quantity == 0 then Success(current)
      else if req.quantity <= 0 then Failure(QuantityBelowOne)
      else if current.productId !in products then Failure(ProductNotFound)
      else Success(current.(quantity := req.quantity,
                            totalPrice := req.quantity * products[current.productId].price));
    if repriced.Failure? then repriced
    else if req.status != "" then Success(repriced.value.(status := req.status))
    else repriced
  }

  function UpdateOrderRules(current: Order, req: OrderRequest, products: map<int, Product>): seq<Rule>
  {
    [Rule(req.quantity == 0 || req.quantity > 0, QuantityBelowOne),
     Rule(req.quantity == 0 || current.productId in products, ProductNotFound)]
  }

  /** Order update reports exactly the first of its checks that fails. */
  lemma {:induction false} UpdatedOrderIsFailFast(current: Order, req: OrderRequest, products: map<int, Product>)
    ensures UpdatedOrder(current, req, products).Failure? ==>
              FirstFailure(UpdateOrderRules(current, req, products)) == Some(UpdatedOrder(current, req, products).error)
    ensures UpdatedOrder(current, req, products).Success? ==>
              FirstFailure(UpdateOrderRules(current, req, products)) == None
  {
    var rules := UpdateOrderRules(current, req, products);
    if req.quantity < 0 {
      FirstFailureAt(rules, 0);
    } else if req.quantity > 0 && current.productId !in products {
      FirstFailureAt(rules, 1);
    } else {
      assert FirstFailure(rules) == None;
    }
  }

  /** Repricing uses the product's price at update time, not the one the
      order was created with. */
  lemma UpdateRepricesAtCurrentPrice(
    req: OrderRequest, products: map<int, Product>, users: map<int, User>,
    newPrice: Money, update: OrderRequest)
    requires NewOrder(req, products, users).Success?
    requires update.quantity > 0
    ensures var created := NewOrder(req, products, users).value;
            var later := products[req.productId := Product(req.productId, newPrice)];
            UpdatedOrder(created, update, later) ==
              Success(created.(quantity := update.quantity,
                               totalPrice := update.quantity * newPrice,
                               status := if update.status == "" then created.status else update.status))
  {
  }

  // ---------------------------------------------------------------------
  // The service

  class OrderService {
    const orders: OrderStore
    const users: UserStore
    const products: ProductStore

    /** Storage is consistent and every stored order is well formed. */
    ghost predicate Valid()
      reads this, orders
    {
      orders.Valid() &&
      forall id :: id in orders.orders ==> WellFormed(orders.orders[id])
    }

    constructor (orders: OrderStore, users: UserStore, products: ProductStore)
      requires orders.Valid()
      requires forall id :: id in orders.orders ==> WellFormed(orders.orders[id])
      ensures Valid()
      ensures this.orders == orders && this.users == users && this.products == products
    {
      this.orders := orders;
      this.users := users;
      this.products := products;
    }

    method GetOrderByID(id: int) returns (r: Result<Order>)
      ensures id in orders.orders ==> r == Success(orders.orders[id])
      ensures id !in orders.orders ==> r == Failure(RecordNotFound)
    {
      r := orders.GetOrderByID(id);
    }

    /** The orders created between `from` and `to` inclusive, once both bounds
        are set and in order. */
    method GetOrderByDate(from: Timestamp, to: Timestamp) returns (r: Result<set<Order>>)
      ensures r.Failure? <==> DateRangeError(from, to).Some?
      ensures r.Failure? ==> r.error == DateRangeError(from, to).value
      ensures r.Success? ==>
                forall o :: o in r.value <==> o in orders.orders.Values && from <= o.createdAt <= to
    {
      if from == ZeroTime || to == ZeroTime {
        return Failure(DateBlank);
      }
      if from > to {
        return Failure(FromAfterTo);
      }
      var found := orders.GetOrderByDate(from, to);
      r := Success(found);
    }

    /** Creates a pending order priced at the product's price, or reports the
        first failed check and writes nothing. */
    method CreateOrder(req: OrderRequest, now: Timestamp) returns (r: Result<Order>)
      requires Valid()
      modifies orders
      ensures Valid()
      ensures NewOrder(req, products.products, users.users).Failure? ==>
                && r == Failure(NewOrder(req, products.products, users.users).error)
                && orders.orders == old(orders.orders)
                && orders.nextId == old(orders.nextId)
      ensures NewOrder(req, products.products, users.users).Success? ==>
                && r == Success(NewOrder(req, products.products, users.users).value.(id := old(orders.nextId), createdAt := now))
                && old(orders.nextId) !in old(orders.orders)
                && orders.orders == old(orders.orders)[old(orders.nextId) := r.value]
      ensures orders.payments == old(orders.payments)
    {
      if req.userId == 0 || req.productId == 0 {
        return Failure(OrderIdsBlank);
      }
      if req.quantity == 0 {
        return Failure(QuantityBlank);
      }
      var product := products.GetProductByID(req.productId);
      if product.Failure? {
        return Failure(ProductNotFound);
      }
      var user := users.GetUserByID(req.userId);
      if user.Failure? {
        return Failure(UserNotFound);
      }
      if req.quantity <= 0 {
        return Failure(MinimumQuantity);
      }
      var order := Order(0, req.userId, req.productId, req.quantity, Pending,
                         req.quantity * product.value.price, ZeroTime);
      var stored := orders.CreateOrder(order, now);
      r := Success(stored);
    }

    /** Fetches the order, applies the request to it field by field and
        writes it back; on any failure nothing is written. */
    method UpdateOrder(id: int, req: OrderRequest) returns (r: Result<Order>)
      requires Valid()
      modifies orders
      ensures Valid()
      ensures id !in old(orders.orders) ==> r == Failure(RecordNotFound) && orders.orders == old(orders.orders)
      ensures id in old(orders.orders) ==>
                var decided := UpdatedOrder(old(orders.orders)[id], req, products.products);
                r == decided &&
                orders.orders == if decided.Success? then old(orders.orders)[id := decided.value]
                                 else old(orders.orders)
      ensures orders.nextId == old(orders.nextId) && orders.payments == old(orders.payments)
    {
      var fetched := orders.GetOrderByID(id);
      if fetched.Failure? {
        return Failure(fetched.error);
      }
      var order := fetched.value;
      if req.quantity != 0 {
        if req.quantity <= 0 {
          return Failure(QuantityBelowOne);
        }
        order := order.(quantity := req.quantity);
        var product := products.GetProductByID(order.productId);
        if product.Failure? {
          return Failure(ProductNotFound);
        }
        order := order.(totalPrice := order.quantity * product.value.price);
      }
      if req.status != "" {
        order := order.(status := req.status);
      }
      r := orders.UpdateOrder(order);
    }

    /** Fetches the order and hands its id, user and product to storage's
        payment; a missing order is reported without calling it. */
    method PaidOrder(id: int) returns (r: Result<Order>)
      requires Valid()
      modifies orders
      ensures Valid()
      ensures id !in old(orders.orders) ==>
                && r == Failure(RecordNotFound)
                && orders.orders == old(orders.orders)
                && orders.payments == old(orders.payments)
      ensures id in old(orders.orders) ==>
                var order := old(orders.orders)[id];
                && orders.payments == old(orders.payments) + [Payment(id, order.userId, order.productId)]
                && r == Success(order.(status := Paid))
                && orders.orders == old(orders.orders)[id := order.(status := Paid)]
      ensures orders.nextId == old(orders.nextId)
    {
      var fetched := GetOrderByID(id);
      if fetched.Failure? {
        return Failure(fetched.error);
      }
      r := orders.PaidOrder(id, fetched.value.userId, fetched.value.productId);
    }

    /** Fetches the order and deletes exactly it. */
    method DeleteOrder(id: int) returns (r: Result<Order>)
      requires Valid()
      modifies orders
      ensures Valid()
      ensures id !in old(orders.orders) ==> r == Failure(OrderNotFound) && orders.orders == old(orders.orders)
      ensures id in old(orders.orders) ==>
                r == Success(old(orders.orders)[id]) && orders.orders == old(orders.orders) - {id}
      ensures orders.nextId == old(orders.nextId) && orders.payments == old(orders.payments)
    {
      var fetched := orders.GetOrderByID(id);
      if fetched.Failure? {
        return Failure(OrderNotFound);
      }
      r := orders.DeleteOrder(fetched.value);
    }
  }
}
