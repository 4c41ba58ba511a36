/** The record shapes the application stores and passes around. Optional
    TypeScript fields are `Option`s; amounts of money are `real`, counts `int`. */
module Types {
  import opened Common

  type Id = string
  /** An ISO-8601 timestamp as the backend stores it. */
  type Timestamp = string

  /** The three user roles; there are no others. */
  datatype Role = Admin | Manager | Cashier

  datatype Profile = Profile(id: Id, username: Option<string>, role: Role)

  datatype Product = Product(
    id: Id,
    name: string,
    description: Option<string>,
    barcode: Option<string>,
    price: real,
    cost: Option<real>,
    category: Option<string>,
    imageUrl: Option<string>,
    isActive: bool)

  /** A stock record, linked to its product by `productId`. */
  datatype Inventory = Inventory(
    productId: Id,
    quantity: int,
    minQuantity: int,
    lastRestockedAt: Option<Timestamp>)

  /** An inventory record joined with its product, as the inventory list loads it. */
  datatype InventoryRow = InventoryRow(stock: Inventory, product: Option<Product>)

  datatype Customer = Customer(
    id: Id,
    name: string,
    email: Option<string>,
    phone: Option<string>,
    loyaltyPoints: int,
    totalPurchases: real)

  /** The columns of a sale header other than the generated id and creation
      time. `paymentMethod` and `status` are free strings in the schema. */
  datatype SaleRecord = SaleRecord(
    invoiceNumber: string,
    customerId: Option<Id>,
    cashierId: Option<Id>,
    subtotal: real,
    discount: real,
    tax: real,
    total: real,
    paymentMethod: string,
    amountReceived: Option<real>,
    changeAmount: Option<real>,
    status: string)

  /** A stored sale header. */
  datatype Sale = Sale(id: Id, createdAt: Option<Timestamp>, record: SaleRecord)

  /** One line of a sale: a snapshot of the product's name and price at the time
      of sale, so later product edits do not reach it. */
  datatype LineRecord = LineRecord(
    productId: Id,
    productName: string,
    quantity: int,
    unitPrice: real,
    subtotal: real)

  /** A stored sale line, tagged with the sale it belongs to. */
  datatype SaleItem = SaleItem(saleId: Id, line: LineRecord)

  /** A sale as a query with joins returns it: header, customer, cashier and lines. */
  datatype SaleView = SaleView(
    sale: Sale,
    customer: Option<Customer>,
    cashier: Option<Profile>,
    items: Option<seq<SaleItem>>)

  /** A cart line pairs a whole product record with a quantity. */
  datatype CartItem = CartItem(product: Product, quantity: int)

  datatype Expense = Expense(
    id: Id,
    category: string,
    amount: real,
    description: Option<string>,
    recordedBy: Option<Id>,
    expenseDate: string)

  /** A row of the key/value settings table. */
  datatype Setting = Setting(key: string, value: Option<string>)
}
