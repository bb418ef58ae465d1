/** The records the services read, build and hand to storage. */
module Entities {

  /** A point in time; 0 stands for the unset (zero) timestamp. */
  type Timestamp = int
  const ZeroTime: Timestamp := 0

  /** Money in the smallest currency unit, so that totals are exact. */
  type Money = int

  const Pending := "pending"
  const Paid := "paid"
  const DefaultRole := "user"

  datatype Product = Product(id: int, price: Money)

  /** A stored order. `createdAt` is the date column the date-range query
      filters on; storage sets it, as it sets `id`. */
  datatype Order = Order(
    id: int,
    userId: int,
    productId: int,
    quantity: int,
    status: string,
    totalPrice: Money,
    createdAt: Timestamp)

  /** Request payload for creating or updating an order; a zero or empty field
      means "not given". */
  datatype OrderRequest = OrderRequest(userId: int, productId: int, quantity: int, status: string)

  datatype User = User(
    id: int,
    username: string,
    fullname: string,
    email: string,
    password: string,
    role: string)

  /** Request payload for creating or updating a user; an empty field means
      "not given". */
  datatype UserRequest = UserRequest(username: string, fullname: string, email: string, password: string)
}
