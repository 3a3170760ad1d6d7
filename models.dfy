/** The records shared by the catalog, the mock backend, the wishlist and
    checkout (src/models/ProductModel.ts, UserModel.ts, OrderModel.ts),
    restricted to the fields the modelled code reads or writes. */
module Models {

  datatype Option<T> = None | Some(value: T)

  /** `{ success: true, data }` or `{ success: false, error }`. */
  datatype Result<T> = Ok(data: T) | Err(error: string)

  /** How an awaited API call ended: with a response, or by throwing. */
  datatype ApiOutcome<T> = Returned(response: Result<T>) | Threw

  /** A catalog entry. `category` is one of 'eyeglasses', 'sunglasses',
      'contacts' in the fixtures, but every filter compares it as a string. */
  datatype Product = Product(
    id: string,
    name: string,
    category: string,
    price: real,
    brand: string,
    frameType: string,
    shape: string,
    rating: real,
    image: string)

  datatype Address = Address(street: string, city: string, state: string, zip: string, country: string)

  datatype OrderItem = OrderItem(productId: string, name: string, price: real, quantity: int, image: string)

  datatype OrderStatus = Processing | Shipped | Delivered | Cancelled

  datatype TimelineStep = TimelineStep(step: string, date: string, completed: bool)

  datatype Order = Order(
    id: string,
    userId: string,
    orderNumber: string,
    date: string,
    total: real,
    status: OrderStatus,
    items: seq<OrderItem>,
    shippingAddress: Address,
    timeline: seq<TimelineStep>,
    estimatedDelivery: string,
    trackingNumber: string)

  /** The user record handed to clients: it has no password field. */
  datatype User = User(
    id: string,
    email: string,
    name: string,
    phone: Option<string>,
    address: Option<Address>,
    wishlist: seq<string>,
    orders: seq<string>)
}
