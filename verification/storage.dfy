/** In-memory stand-ins for the three repositories the services call. Each
    holds its records in a map keyed by id; creation assigns the next free id.
    Lookups of an absent id fail with the storage's own `RecordNotFound`. */
module Storage {
  import opened Common
  import opened Entities

  /** One call of the storage-level "pay" operation, as it was received. */
  datatype Payment = Payment(orderId: int, userId: int, productId: int)

  class ProductStore {
    var products: map<int, Product>

    constructor (products: map<int, Product>)
      ensures this.products == products
    {
      this.products := products;
    }

    method GetProductByID(id: int) returns (r: Result<Product>)
      ensures id in products ==> r == Success(products[id])
      ensures id !in products ==> r == Failure(RecordNotFound)
    {
      if id in products {
        r := Success(products[id]);
      } else {
        r := Failure(RecordNotFound);
      }
    }
  }

  class OrderStore {
    var orders: map<int, Order>
    var nextId: int
    /** Every call of PaidOrder, in order. */
    var payments: seq<Payment>

    /** Keys are the stored orders' ids, all below the next id to assign. */
    ghost predicate Valid()
      reads this
    {
      1 <= nextId &&
      forall id :: id in orders ==> 1 <= id < nextId && orders[id].id == id
    }

    constructor ()
      ensures Valid()
      ensures orders == map[] && payments == []
    {
      orders, nextId, payments := map[], 1, [];
    }

    method GetOrderByID(id: int) returns (r: Result<Order>)
      ensures id in orders ==> r == Success(orders[id])
      ensures id !in orders ==> r == Failure(RecordNotFound)
    {
      if id in orders {
        r := Success(orders[id]);
      } else {
        r := Failure(RecordNotFound);
      }
    }

    /** The orders created within the inclusive range [from, to]. */
    method GetOrderByDate(from: Timestamp, to: Timestamp) returns (r: set<Order>)
      ensures forall o :: o in r <==> o in orders.Values && from <= o.createdAt <= to
    {
      r := set o | o in orders.Values && from <= o.createdAt <= to;
    }

    method CreateOrder(order: Order, now: Timestamp) returns (stored: Order)
      requires Valid()
      modifies this
      ensures Valid()
      ensures stored == order.(id := old(nextId), createdAt := now)
      ensures orders == old(orders)[stored.id := stored]
      ensures old(nextId) !in old(orders) && nextId == old(nextId) + 1
      ensures payments == old(payments)
    {
      stored := order.(id := nextId, createdAt := now);
      orders := orders[nextId := stored];
      nextId := nextId + 1;
    }

    /** Writes `order` over the stored order with the same id. */
    method UpdateOrder(order: Order) returns (r: Result<Order>)
      requires Valid()
      modifies this
      ensures Valid()
      ensures order.id in old(orders) ==> r == Success(order) && orders == old(orders)[order.id := order]
      ensures order.id !in old(orders) ==> r == Failure(RecordNotFound) && orders == old(orders)
      ensures nextId == old(nextId) && payments == old(payments)
    {
      if order.id in orders {
        orders := orders[order.id := order];
        r := Success(order);
      } else {
        r := Failure(RecordNotFound);
      }
    }

    /** The storage-level payment: logs the call and marks the order paid. */
    method PaidOrder(id: int, userId: int, productId: int) returns (r: Result<Order>)
      requires Valid()
      modifies this
      ensures Valid()
      ensures payments == old(payments) + [Payment(id, userId, productId)]
      ensures id in old(orders) ==>
                r == Success(old(orders)[id].(status := Paid)) && orders == old(orders)[id := r.value]
      ensures id !in old(orders) ==> r == Failure(RecordNotFound) && orders == old(orders)
      ensures nextId == old(nextId)
    {
      payments := payments + [Payment(id, userId, productId)];
      if id in orders {
        var paid := orders[id].(status := Paid);
        orders := orders[id := paid];
        r := Success(paid);
      } else {
        r := Failure(RecordNotFound);
      }
    }

    method DeleteOrder(order: Order) returns (r: Result<Order>)
      requires Valid()
      modifies this
      ensures Valid()
      ensures order.id in old(orders) ==> r == Success(order) && orders == old(orders) - {order.id}
      ensures order.id !in old(orders) ==> r == Failure(RecordNotFound) && orders == old(orders)
      ensures nextId == old(nextId) && payments == old(payments)
    {
      if order.id in orders {
        orders := orders - {order.id};
        r := Success(order);
      } else {
        r := Failure(RecordNotFound);
      }
    }
  }

  /** True when some stored user has this username. */
  ghost predicate Taken(users: map<int, User>, username: string)
  {
    exists id :: id in users && users[id].username == username
  }

  class UserStore {
    var users: map<int, User>
    var nextId: int

    ghost predicate Valid()
      reads this
    {
      1 <= nextId &&
      forall id :: id in users ==> 1 <= id < nextId && users[id].id == id
    }

    constructor ()
      ensures Valid()
      ensures users == map[]
    {
      users, nextId := map[], 1;
    }

    method GetUserByID(id: int) returns (r: Result<User>)
      ensures id in users ==> r == Success(users[id])
      ensures id !in users ==> r == Failure(RecordNotFound)
    {
      if id in users {
        r := Success(users[id]);
      } else {
        r := Failure(RecordNotFound);
      }
    }

    method GetUserByUsername(username: string) returns (r: Result<User>)
      ensures r.Success? <==> Taken(users, username)
      ensures r.Success? ==> r.value in users.Values && r.value.username == username
      ensures r.Failure? ==> r.error == RecordNotFound
    {
      if id :| id in users && users[id].username == username {
        r := Success(users[id]);
      } else {
        r := Failure(RecordNotFound);
      }
    }

    method CreateUser(user: User) returns (stored: User)
      requires Valid()
      modifies this
      ensures Valid()
      ensures stored == user.(id := old(nextId))
      ensures users == old(users)[stored.id := stored]
      ensures old(nextId) !in old(users) && nextId == old(nextId) + 1
    {
      stored := user.(id := nextId);
      users := users[nextId := stored];
      nextId := nextId + 1;
    }

    method UpdateUser(user: User) returns (r: Result<User>)
      requires Valid()
      modifies this
      ensures Valid()
      ensures user.id in old(users) ==> r == Success(user) && users == old(users)[user.id := user]
      ensures user.id !in old(users) ==> r == Failure(RecordNotFound) && users == old(users)
      ensures nextId == old(nextId)
    {
      if user.id in users {
        users := users[user.id := user];
        r := Success(user);
      } else {
        r := Failure(RecordNotFound);
      }
    }

    method DeleteUser(user: User) returns (r: Result<User>)
      requires Valid()
      modifies this
      ensures Valid()
      ensures user.id in old(users) ==> r == Success(user) && users == old(users) - {user.id}
      ensures user.id !in old(users) ==> r == Failure(RecordNotFound) && users == old(users)
      ensures nextId == old(nextId)
    {
      if user.id in users {
        users := users - {user.id};
        r := Success(user);
      } else {
        r := Failure(RecordNotFound);
      }
    }
  }
}
