/**
 * The records that the sales-statistics routine reads, builds and returns.
 *
 * Money and quantities are exact `real`s (the routine works on JavaScript
 * numbers; rounding is not modelled). Seller ids and product skus are
 * strings, which is what the routine's dictionary keys become.
 */
module SalesTypes {

  /** A seller of the input collection `sellers`. */
  datatype Seller = Seller(id: string, first_name: string, last_name: string)

  /** A catalogue entry of the input collection `products`. */
  datatype Product = Product(sku: string, purchase_price: real)

  /** One line of a purchase record. */
  datatype Item = Item(sku: string, quantity: real, sale_price: real, discount: real)

  /** One sales transaction of the input collection `purchase_records`. */
  datatype PurchaseRecord = PurchaseRecord(seller_id: string, total_amount: real, items: seq<Item>)

  /**
   * The input object. Each field is `None` when it is not an array
   * (missing, or a value of another type) and `Some(elements)` when it is.
   */
  datatype Input = Input(
    sellers: Option<seq<Seller>>,
    products: Option<seq<Product>>,
    purchase_records: Option<seq<PurchaseRecord>>)

  /**
   * The per-seller accumulator: running revenue and profit, number of
   * records, and the quantity sold of each sku.
   */
  datatype SellerStats = SellerStats(
    id: string,
    name: string,
    revenue: real,
    profit: real,
    sales_count: nat,
    products_sold: map<string, real>)

  /** One entry of a seller's top products list. */
  datatype ProductSold = ProductSold(sku: string, quantity: real)

  /** One entry of the routine's result. */
  datatype SellerResult = SellerResult(
    seller_id: string,
    name: string,
    revenue: real,
    profit: real,
    sales_count: nat,
    top_products: seq<ProductSold>,
    bonus: real)

  datatype Option<+T> = None | Some(value: T)

  /** The only error the routine raises: its input has the wrong shape. */
  datatype AnalysisError = InvalidInput

  datatype Result<+T> = Success(value: T) | Failure(error: AnalysisError)

  /** The quantity recorded for `sku` in a `products_sold` dictionary, 0 when absent. */
  function Sold(m: map<string, real>, sku: string): real
  {
    if sku in m then m[sku] else 0.0
  }
}
