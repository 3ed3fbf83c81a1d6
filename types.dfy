/** The record shapes shared by every part of the scanner app. */
module Types {

  /** An optional value (the source's `T | null` and `find`'s `undefined`). */
  datatype Option<+T> = None | Some(value: T)

  /** A catalog entry. `stock` and `threshold` are whole numbers of units. */
  datatype Product = Product(
    id: int,
    name: string,
    sku: string,
    barcode: string,
    stock: int,
    location: string,
    threshold: int)

  /** One history entry: a snapshot of a product taken when it was scanned. */
  datatype ScanRecord = ScanRecord(
    id: string,
    productId: int,
    productName: string,
    sku: string,
    timestamp: string,
    stockAtScan: int)

  /** The user's settings: who reports, and whom to alert. */
  datatype AppSettings = AppSettings(managerPhone: string, workerName: string)

  /** The four screens of the app. */
  datatype AppView = DASHBOARD | SCANNER | SETTINGS | PRODUCT_DETAIL

  /** The three display tiers of a stock count. */
  datatype StockStatus = HEALTHY | MONITOR | LOW

  /** The string value each enum member carries (what is serialised). */
  function StatusName(s: StockStatus): (name: string)
    ensures name != []
  {
    match s
    case HEALTHY => "HEALTHY"
    case MONITOR => "MONITOR"
    case LOW => "LOW"
  }

  lemma StatusNameInjective(a: StockStatus, b: StockStatus)
    requires StatusName(a) == StatusName(b)
    ensures a == b
  {
  }
}
