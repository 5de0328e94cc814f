/**
 * The rows the shop's database keeps, reduced to the columns the order
 * ledger and the product views read or write. Prices are integer cents;
 * stock is an unbounded integer because order placement can drive it
 * below zero.
 */
module Models {

  type ProductId = nat
  type CategoryId = nat
  type UserId = nat
  type OrderId = nat

  /** A catalog row. `createdAt` is the creation timestamp the listing sorts by. */
  datatype Product = Product(name: string, price: int, stock: int, category: CategoryId, createdAt: int)

  /** The authenticated account behind a request. */
  datatype User = User(id: UserId, isStaff: bool)

  /** An order row: its owner and its total in cents. */
  datatype Order = Order(id: OrderId, user: UserId, totalPrice: int)

  /** A line of an order; `price` is the line price frozen when the item is created. */
  datatype OrderItem = OrderItem(order: OrderId, product: ProductId, quantity: int, price: int)
}
