/**
 * Record shapes of the resources the back office reads and writes, as the
 * REST API delivers them. Identifiers are opaque strings; JavaScript numbers
 * are integers; a field that may be missing is an `Option`.
 */
module Types {
  import opened Wrappers

  /** A calendar month as `Date.getMonth()` numbers it: January is 0, December is 11. */
  type Month = m: int | 0 <= m < 12

  /** The part of an order's date that the statistics look at. */
  datatype OrderDate = OrderDate(year: int, month: Month)

  /** A product; `categoryId`/`supplyId` are the ids inside the embedded category and supplier objects. */
  datatype Product = Product(
    id: string,
    name: string,
    price: int,
    quantity: int,
    images: Option<seq<string>>,
    categoryId: string,
    supplyId: string,
    description: string,
    discount: int)

  datatype Category = Category(id: string, name: string, brand: string, image: seq<string>)

  datatype Supplier = Supplier(id: string, name: string)

  /** A customer; `createAt` is kept as the server sends it, `carts` may be missing. */
  datatype Customer = Customer(
    id: string,
    email: string,
    username: string,
    carts: Option<seq<string>>,
    createAt: string)

  /** The product and user that a feedback embeds. */
  datatype ProductRef = ProductRef(id: string, name: string)
  datatype UserRef = UserRef(id: string, name: string)

  /** A feedback as the server sends it. */
  datatype Feedback = Feedback(
    id: string,
    product: ProductRef,
    user: UserRef,
    rating: int,
    content: string,
    createdAt: string)

  /** An order (a checked-out cart); status "1" means completed. */
  datatype Order = Order(
    id: string,
    user: UserRef,
    date: OrderDate,
    total: int,
    status: string,
    products: seq<string>)

  /** A voucher; `startDate`/`endDate` are held as the ISO-8601 text of the instant. */
  datatype Voucher = Voucher(
    id: string,
    code: string,
    description: string,
    discountValue: int,
    minimumOrder: int,
    usageLimit: int,
    usedCount: int,
    startDate: string,
    endDate: string,
    status: string)
}
