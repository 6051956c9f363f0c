/**
 * The records of the point-of-sale store that the sale-creation workflow
 * reads and writes: customers, products, sales and sale items, the body of a
 * sale request and its line items, and the outcome of an operation.
 *
 * Monetary amounts and quantities are integers. Customer and product ids are
 * the store's string keys; a sale (and a sale item) is identified by its
 * position in the store's list of sales (sale items), so every id the store
 * hands out is fresh.
 */
module SaleTypes {

  type Id = string

  /** A customer: the credit still available and the credit outstanding. */
  datatype Customer = Customer(
    id: Id,
    name: string,
    maxCreditLimit: int,
    unpaidCreditAmount: int)

  /** A product and the quantity the shop holds. */
  datatype Product = Product(id: Id, name: string, stockQty: int)

  /** One line of a sale request. */
  datatype LineItem = LineItem(
    productId: Id,
    qty: int,
    productPrice: int,
    productName: string,
    productImage: string)

  /** The body of a request to create a sale. */
  datatype SaleRequest = SaleRequest(
    customerId: Id,
    customerName: string,
    customerEmail: string,
    saleAmount: int,
    balanceAmount: int,
    paidAmount: int,
    saleType: string,
    paymentMethod: string,
    transactionCode: string,
    saleItems: seq<LineItem>,
    shopId: Id)

  /** A persisted sale. */
  datatype Sale = Sale(
    id: nat,
    saleNumber: string,
    customerId: Id,
    customerName: string,
    customerEmail: string,
    paymentMethod: string,
    saleAmount: int,
    saleType: string,
    balanceAmount: int,
    paidAmount: int,
    transactionCode: string,
    shopId: Id)

  /** A persisted sale item, linked to its sale by `saleId`. */
  datatype SaleItem = SaleItem(
    id: nat,
    saleId: nat,
    productId: Id,
    qty: int,
    productPrice: int,
    productName: string,
    productImage: string)

  /** The error kinds a sale operation reports (HTTP 404, 403 and 500). */
  datatype ErrorKind = NotFound | Forbidden | Internal

  datatype Result<T> = Ok(value: T) | Err(error: ErrorKind)

  datatype Option<T> = None | Some(value: T)
}
