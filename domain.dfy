/** Values shared by the layers of the café back end: menu rows, order lines,
    orders, user rows, and the errors the layers report to one another. */
module Domain {

  /** A `created_at` value as the database returns it; never inspected here. */
  type Timestamp = string

  /** Money in kopecks. The back end keeps prices and totals as floating-point
      roubles; whole kopecks make `total = Σ price · quantity` exact. */
  type Kopecks = int

  datatype Option<+T> = None | Some(value: T)

  datatype Result<+T> = Ok(value: T) | Err(error: Error)

  /** The errors the store and the account logic report. */
  datatype Error =
    | StorageError                      // any failure the database driver reports
    | NoRows                            // a single-row query matched nothing
    | OrderInsertFailed                 // the order header could not be inserted
    | PriceLookupFailed(menuItemId: int) // the price of a line could not be read
    | OrderItemInsertFailed             // an order line could not be inserted
    | TotalUpdateFailed                 // the order total could not be written back
    | InvalidPeriod                     // an analytics period outside day/week/month/year
    | UserNotFound
    | UserAlreadyExists
    | HashFailed                        // the password hasher refused the password
    | InvalidCredentials

  /** A row of the menu table. */
  datatype MenuItem = MenuItem(id: int, name: string, description: string, price: Kopecks, createdAt: Timestamp)

  /** One requested line of an order: which menu item, how many. */
  datatype OrderItem = OrderItem(menuItemId: int, quantity: int)

  /** An order as the store hands it back; `items` is filled only by order placement. */
  datatype Order = Order(id: int, total: Kopecks, status: string, createdAt: Timestamp, items: seq<OrderItem>)

  /** A row of the users table; `password` holds the password hash. */
  datatype User = User(name: string, email: string, password: string)

  /** The order statuses the back end writes. */
  const InProgress: string := "В работе"
  const Completed: string := "Выполнен"
  const Canceled: string := "Отменен"
}
