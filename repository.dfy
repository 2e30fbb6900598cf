/** repository/models.go: the rows of the `user`, `session` and `product`
    tables, the `product.size` enum, and the SQL scanning of nullable sizes. */
module Repository {
  import opened Prelude

  /** `ProductSize`: the column is an enum, but the Go type is any string. */
  type ProductSize = string

  const ProductSizeSmall: ProductSize := "small"
  const ProductSizeLarge: ProductSize := "large"

  /** The dynamic value a SQL driver hands to `Scan`, by Go type. A byte slice
      is taken as the text its bytes spell. */
  datatype ScanSource =
    | NilSource
    | BytesSource(bytes: string)
    | StringSource(text: string)
    | Int64Source(i: int)
    | Float64Source
    | BoolSource(b: bool)
    | TimeSource(t: Time)

  /** What `%T` prints for each kind of source. */
  function TypeName(src: ScanSource): string
  {
    match src
    case NilSource => "<nil>"
    case BytesSource(_) => "[]uint8"
    case StringSource(_) => "string"
    case Int64Source(_) => "int64"
    case Float64Source => "float64"
    case BoolSource(_) => "bool"
    case TimeSource(_) => "time.Time"
  }

  /** What `(*ProductSize).Scan` does with a source: takes the text of a string
      or byte slice verbatim (any text, not only "small" and "large") and
      refuses every other kind, `nil` included. */
  function ScanProductSize(src: ScanSource): (r: Result<ProductSize, Error>)
    ensures src.StringSource? ==> r == Ok(src.text)
    ensures src.BytesSource? ==> r == Ok(src.bytes)
    ensures r.Err? <==> !(src.StringSource? || src.BytesSource?)
    ensures r.Err? ==> r.error == Msg("unsupported scan type for ProductSize: " + TypeName(src))
  {
    match src
    case BytesSource(b) => Ok(b)
    case StringSource(s) => Ok(s)
    case _ => Err(Msg("unsupported scan type for ProductSize: " + TypeName(src)))
  }

  /** A `ProductSize` variable that a row scan writes into (`*e = ...`). */
  class ProductSizeVar {
    var value: ProductSize

    constructor(v: ProductSize)
      ensures value == v
    {
      value := v;
    }

    /** `(*ProductSize).Scan`: on success the variable holds the scanned text;
        on failure it is left as it was. */
    method Scan(src: ScanSource) returns (err: Error)
      modifies this
      ensures ScanProductSize(src).Ok? ==> err == Nil && value == ScanProductSize(src).value
      ensures ScanProductSize(src).Err? ==> err == ScanProductSize(src).error && value == old(value)
    {
      match ScanProductSize(src)
      case Ok(s) =>
        value := s;
        err := Nil;
      case Err(e) =>
        err := e;
    }
  }

  /** The value `Value` hands back to the driver. */
  datatype DriverValue = NilValue | StringValue(s: string)

  /** `NullProductSize`: a size that may be SQL NULL. The size is a variable of
      its own so that `Scan` can delegate to it in place. */
  class NullProductSize {
    const productSize: ProductSizeVar
    var valid: bool

    constructor(size: ProductSize, valid: bool)
      ensures productSize.value == size && this.valid == valid
      ensures fresh(productSize)
    {
      productSize := new ProductSizeVar(size);
      this.valid := valid;
    }

    /** `Scan`: NULL clears the size and marks it invalid without error; any
        other value marks it valid first and then delegates, so a failed
        delegate still leaves `valid` true and the size untouched. */
    method Scan(value: ScanSource) returns (err: Error)
      modifies this, productSize
      ensures value.NilSource? ==> err == Nil && productSize.value == "" && !valid
      ensures !value.NilSource? ==> valid
      ensures !value.NilSource? && ScanProductSize(value).Ok? ==>
                err == Nil && productSize.value == ScanProductSize(value).value
      ensures !value.NilSource? && ScanProductSize(value).Err? ==>
                err == ScanProductSize(value).error && productSize.value == old(productSize.value)
    {
      if value.NilSource? {
        productSize.value, valid := "", false;
        return Nil;
      }
      valid := true;
      err := productSize.Scan(value);
    }

    /** `Value`: NULL when not valid, otherwise the size as a string; it never fails. */
    function Value(): (r: DriverValue)
      reads this, productSize
      ensures r == NilValue <==> !valid
      ensures r.StringValue? ==> r.s == productSize.value
    {
      if !valid then NilValue else StringValue(productSize.value)
    }
  }

  /** Round trip: scanning a string or byte slice and handing it back gives
      the same text; scanning NULL gives NULL back. */
  method ScanThenValue(src: ScanSource) returns (r: DriverValue)
    ensures src.NilSource? ==> r == NilValue
    ensures src.StringSource? ==> r == StringValue(src.text)
    ensures src.BytesSource? ==> r == StringValue(src.bytes)
    ensures !(src.NilSource? || src.StringSource? || src.BytesSource?) ==> r == StringValue(ProductSizeSmall)
  {
    var ns := new NullProductSize(ProductSizeSmall, false);
    var _ := ns.Scan(src);
    r := ns.Value();
  }

  /** A row of `product`. */
  datatype Product = Product(
    id: int, userId: int, category: string, price: int, cost: int, name: string,
    description: string, barcode: string, expirationDate: Time, size: ProductSize,
    createdAt: Time, updatedAt: Time)

  /** A row of `session`: one per login, keyed by the refresh token's id. */
  datatype Session = Session(
    id: string, userId: int, refreshToken: string, userAgent: string, clientIp: string,
    isBlocked: bool, expiredAt: Time, createdAt: Time)

  /** A row of `user`. */
  datatype User = User(id: int, phoneNumber: string, hashedPassword: string, createdAt: Time)

  /** The error a query returns: `sql.ErrNoRows`, a `*mysql.MySQLError`, or any
      other driver or connection failure. */
  datatype DbError = NoRows | MySqlError(number: int, message: string) | DriverError(message: string)

  /** MySQL's numbers for a duplicate key (ER_DUP_ENTRY) and for a missing
      parent row (ER_NO_REFERENCED_ROW_2). */
  const DbDuplicateError: int := 1062
  const DbFkError: int := 1452

  /** The same error as a Go `error`, for logging. */
  function AsError(e: DbError): Error
  {
    match e
    case NoRows => Msg("sql: no rows in result set")
    case MySqlError(_, m) => Msg(m)
    case DriverError(m) => Msg(m)
  }
}
