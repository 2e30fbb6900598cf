/** The database behind `repository.Querier`, as maps: users by phone number,
    sessions by id, products by id. The generated queries of the repository package become
    lookups and updates of those maps; the constraints of the schema (unique
    phone number, unique barcode, session primary key, the `user_id` foreign
    keys and the `size` enum) produce the MySQL errors the services inspect.
    A failure unrelated to the data (a lost connection, a cancelled context)
    is a `fault` parameter of each call. */
module Store {
  import opened Prelude
  import opened Repository

  datatype CreateUserParams = CreateUserParams(phoneNumber: string, hashedPassword: string)

  datatype CreateSessionParams = CreateSessionParams(
    id: string, userId: int, refreshToken: string, userAgent: string, clientIp: string,
    isBlocked: bool, expiredAt: Time)

  datatype CreateProductParams = CreateProductParams(
    userId: int, category: string, price: int, cost: int, name: string, description: string,
    barcode: string, expirationDate: Time, size: ProductSize)

  datatype UpdateProductParams = UpdateProductParams(
    category: string, price: int, cost: int, name: string, description: string,
    barcode: string, expirationDate: Time, size: ProductSize, id: int)

  /** MySQL's message for a duplicate key. */
  function DuplicateEntryMessage(value: string, key: string): string
  {
    "Duplicate entry '" + value + "' for key '" + key + "'"
  }

  /** MySQL's message for a child row whose parent is missing. */
  function ForeignKeyMessage(table: string, column: string): string
  {
    "Cannot add or update a child row: a foreign key constraint fails (`" + table
      + "`, FOREIGN KEY (`" + column + "`) REFERENCES `user` (`id`))"
  }

  /** MySQL's number and message for a value outside an enum column. */
  const DbDataTruncated: int := 1265
  const SizeTruncatedMessage: string := "Data truncated for column 'size' at row 1"

  predicate IsEnumSize(size: ProductSize)
  {
    size == ProductSizeSmall || size == ProductSizeLarge
  }

  /** Some user has id `id`. */
  predicate HasUserId(users: map<string, User>, id: int)
  {
    exists p :: p in users && users[p].id == id
  }

  /** Some product other than `id` has barcode `barcode`. */
  predicate BarcodeTaken(products: map<int, Product>, barcode: string, except: int)
  {
    exists i :: i in products && i != except && products[i].barcode == barcode
  }

  /** A single-row `SELECT ... WHERE key = ? LIMIT 1`, as `GetUser` (by
      phone number), `GetSession` and `GetProduct` (by id) run it: the row
      under the key, `sql.ErrNoRows` when there is none, and the driver's
      error when the connection fails. */
  function LookupRow<K, V>(table: map<K, V>, key: K, fault: Option<string>): (r: Result<V, DbError>)
    ensures fault.Some? ==> r == Err(DriverError(fault.value))
    ensures fault.None? ==> (r.Ok? <==> key in table)
    ensures r.Ok? ==> r.value == table[key]
    ensures r.Err? && fault.None? ==> r.error == NoRows
  {
    if fault.Some? then Err(DriverError(fault.value))
    else if key in table then Ok(table[key])
    else Err(NoRows)
  }

  /** Why `CreateUser` would be refused, if it would. */
  function CreateUserError(users: map<string, User>, arg: CreateUserParams, fault: Option<string>): (r: Option<DbError>)
    ensures r.None? <==> fault.None? && arg.phoneNumber !in users
  {
    if fault.Some? then Some(DriverError(fault.value))
    else if arg.phoneNumber in users then
      Some(MySqlError(DbDuplicateError, DuplicateEntryMessage(arg.phoneNumber, "user.phone_number")))
    else None
  }

  /** Why `CreateSession` would be refused, if it would. */
  function CreateSessionError(users: map<string, User>, sessions: map<string, Session>,
                              arg: CreateSessionParams, fault: Option<string>): (r: Option<DbError>)
    ensures r.None? <==> fault.None? && arg.id !in sessions && HasUserId(users, arg.userId)
  {
    if fault.Some? then Some(DriverError(fault.value))
    else if arg.id in sessions then Some(MySqlError(DbDuplicateError, DuplicateEntryMessage(arg.id, "session.PRIMARY")))
    else if !HasUserId(users, arg.userId) then Some(MySqlError(DbFkError, ForeignKeyMessage("session", "user_id")))
    else None
  }

  /** Why `CreateProduct` would be refused, if it would. The enum is checked
      when the value is converted, before any key; the missing owner before
      the duplicate barcode. */
  function CreateProductError(users: map<string, User>, products: map<int, Product>,
                              arg: CreateProductParams, fault: Option<string>, newId: int): (r: Option<DbError>)
    ensures r.None? <==>
              fault.None? && IsEnumSize(arg.size) && HasUserId(users, arg.userId)
              && !BarcodeTaken(products, arg.barcode, newId)
  {
    if fault.Some? then Some(DriverError(fault.value))
    else if !IsEnumSize(arg.size) then Some(MySqlError(DbDataTruncated, SizeTruncatedMessage))
    else if !HasUserId(users, arg.userId) then Some(MySqlError(DbFkError, ForeignKeyMessage("product", "user_id")))
    else if BarcodeTaken(products, arg.barcode, newId) then
      Some(MySqlError(DbDuplicateError, DuplicateEntryMessage(arg.barcode, "product.barcode")))
    else None
  }

  /** Why `UpdateProduct` would be refused, if it would. An update whose
      `WHERE id = ?` matches no row writes nothing and so breaks no constraint. */
  function UpdateProductError(products: map<int, Product>, arg: UpdateProductParams, fault: Option<string>): (r: Option<DbError>)
    ensures r.None? <==>
              fault.None? && (arg.id !in products || (IsEnumSize(arg.size) && !BarcodeTaken(products, arg.barcode, arg.id)))
  {
    if fault.Some? then Some(DriverError(fault.value))
    else if arg.id !in products then None
    else if !IsEnumSize(arg.size) then Some(MySqlError(DbDataTruncated, SizeTruncatedMessage))
    else if BarcodeTaken(products, arg.barcode, arg.id) then
      Some(MySqlError(DbDuplicateError, DuplicateEntryMessage(arg.barcode, "product.barcode")))
    else None
  }

  /** The row an update leaves behind: every column from `arg`, the id, the
      owner and the creation time kept, the update time refreshed. */
  function Updated(p: Product, arg: UpdateProductParams, now: Time): (q: Product)
    ensures q.id == p.id && q.userId == p.userId && q.createdAt == p.createdAt && q.updatedAt == now
    ensures q.category == arg.category && q.price == arg.price && q.cost == arg.cost && q.name == arg.name
    ensures q.description == arg.description && q.barcode == arg.barcode
    ensures q.expirationDate == arg.expirationDate && q.size == arg.size
  {
    p.(category := arg.category, price := arg.price, cost := arg.cost, name := arg.name,
       description := arg.description, barcode := arg.barcode, expirationDate := arg.expirationDate,
       size := arg.size, updatedAt := now)
  }

  /** The database. */
  class Store {
    var users: map<string, User>
    var sessions: map<string, Session>
    var products: map<int, Product>
    var nextUserId: int
    var nextProductId: int

    /** The schema's keys and constraints hold. */
    ghost predicate Valid()
      reads this
    {
      && nextUserId >= 1 && nextProductId >= 1
      && (forall p :: p in users ==> users[p].phoneNumber == p && 1 <= users[p].id < nextUserId)
      && (forall p, q :: p in users && q in users && p != q ==> users[p].id != users[q].id)
      && (forall s :: s in sessions ==> sessions[s].id == s && HasUserId(users, sessions[s].userId))
      && (forall i :: i in products ==> products[i].id == i && 1 <= i < nextProductId)
      && (forall i :: i in products ==> HasUserId(users, products[i].userId))
      && (forall i, j :: i in products && j in products && i != j ==> products[i].barcode != products[j].barcode)
    }

    /** An empty database. */
    constructor()
      ensures Valid()
      ensures users == map[] && sessions == map[] && products == map[]
    {
      users, sessions, products := map[], map[], map[];
      nextUserId, nextProductId := 1, 1;
    }

    /** `CreateUser`: inserts a user with the next id, unless refused. */
    method CreateUser(arg: CreateUserParams, fault: Option<string>, now: Time) returns (err: Option<DbError>)
      requires Valid()
      modifies this
      ensures Valid()
      ensures err == CreateUserError(old(users), arg, fault)
      ensures err.Some? ==> users == old(users) && nextUserId == old(nextUserId)
      ensures err.None? ==>
                users == old(users)[arg.phoneNumber := User(old(nextUserId), arg.phoneNumber, arg.hashedPassword, now)]
                && nextUserId == old(nextUserId) + 1
      ensures sessions == old(sessions) && products == old(products) && nextProductId == old(nextProductId)
    {
      err := CreateUserError(users, arg, fault);
      if err.None? {
        var u := User(nextUserId, arg.phoneNumber, arg.hashedPassword, now);
        ghost var oldUsers := users;
        users := users[arg.phoneNumber := u];
        nextUserId := nextUserId + 1;
        forall id | HasUserId(oldUsers, id) ensures HasUserId(users, id) {
          var p :| p in oldUsers && oldUsers[p].id == id;
          assert users[p] == oldUsers[p];
        }
      }
    }

    /** `CreateSession`: inserts the session as given, unless refused. */
    method CreateSession(arg: CreateSessionParams, fault: Option<string>, now: Time) returns (err: Option<DbError>)
      requires Valid()
      modifies this
      ensures Valid()
      ensures err == CreateSessionError(old(users), old(sessions), arg, fault)
      ensures err.Some? ==> sessions == old(sessions)
      ensures err.None? ==>
                sessions == old(sessions)[arg.id := Session(arg.id, arg.userId, arg.refreshToken, arg.userAgent,
                                                            arg.clientIp, arg.isBlocked, arg.expiredAt, now)]
      ensures users == old(users) && products == old(products)
      ensures nextUserId == old(nextUserId) && nextProductId == old(nextProductId)
    {
      err := CreateSessionError(users, sessions, arg, fault);
      if err.None? {
        sessions := sessions[arg.id := Session(arg.id, arg.userId, arg.refreshToken, arg.userAgent,
                                               arg.clientIp, arg.isBlocked, arg.expiredAt, now)];
      }
    }

    /** `CreateProduct`: inserts a product with the next id, unless refused. */
    method CreateProduct(arg: CreateProductParams, fault: Option<string>, now: Time) returns (err: Option<DbError>)
      requires Valid()
      modifies this
      ensures Valid()
      ensures err == CreateProductError(old(users), old(products), arg, fault, old(nextProductId))
      ensures err.Some? ==> products == old(products) && nextProductId == old(nextProductId)
      ensures err.None? ==>
                products == old(products)[old(nextProductId) := Product(
                  old(nextProductId), arg.userId, arg.category, arg.price, arg.cost, arg.name,
                  arg.description, arg.barcode, arg.expirationDate, arg.size, now, now)]
                && nextProductId == old(nextProductId) + 1
      ensures users == old(users) && sessions == old(sessions) && nextUserId == old(nextUserId)
    {
      err := CreateProductError(users, products, arg, fault, nextProductId);
      if err.None? {
        var p := Product(nextProductId, arg.userId, arg.category, arg.price, arg.cost, arg.name,
                         arg.description, arg.barcode, arg.expirationDate, arg.size, now, now);
        products := products[nextProductId := p];
        nextProductId := nextProductId + 1;
      }
    }

    /** `UpdateProduct`: rewrites the row with this id, if there is one. */
    method UpdateProduct(arg: UpdateProductParams, fault: Option<string>, now: Time) returns (err: Option<DbError>)
      requires Valid()
      modifies this
      ensures Valid()
      ensures err == UpdateProductError(old(products), arg, fault)
      ensures err.Some? || arg.id !in old(products) ==> products == old(products)
      ensures err.None? && arg.id in old(products) ==>
                products == old(products)[arg.id := Updated(old(products)[arg.id], arg, now)]
      ensures users == old(users) && sessions == old(sessions)
      ensures nextUserId == old(nextUserId) && nextProductId == old(nextProductId)
    {
      err := UpdateProductError(products, arg, fault);
      if err.None? && arg.id in products {
        products := products[arg.id := Updated(products[arg.id], arg, now)];
      }
    }

    /** `DeleteProduct`: removes the row with this id; deleting a missing row is no error. */
    method DeleteProduct(id: int, fault: Option<string>) returns (err: Option<DbError>)
      requires Valid()
      modifies this
      ensures Valid()
      ensures fault.Some? <==> err.Some?
      ensures fault.Some? ==> err == Some(DriverError(fault.value)) && products == old(products)
      ensures fault.None? ==> products == old(products) - {id}
      ensures users == old(users) && sessions == old(sessions)
      ensures nextUserId == old(nextUserId) && nextProductId == old(nextProductId)
    {
      if fault.Some? {
        return Some(DriverError(fault.value));
      }
      products := products - {id};
      err := None;
    }
  }
}
