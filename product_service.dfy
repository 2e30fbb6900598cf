/** service/product.go: creating, listing, reading, updating and deleting the
    products of the signed-in user. A product is visible and changeable only
    by the user who registered it. */
module ProductService {
  import opened Prelude
  import opened GoStrings
  import opened ServiceError
  import opened Repository
  import Store
  import opened Dto
  import Validator

  /** The signed-in user with the creation body. */
  datatype CreateProductParams = CreateProductParams(userId: int, body: CreateProductRequestBody)

  /** The signed-in user with the list query. */
  datatype GetProductListParams = GetProductListParams(userId: int, query: GetProductListRequestQuery)

  /** The signed-in user with the product id of the path. */
  datatype GetProductParams = GetProductParams(userId: int, path: GetProductRequestPath)

  /** The signed-in user, the product id of the path and the update body. */
  datatype UpdateProductParams = UpdateProductParams(userId: int, path: UpdateProductRequestPath, body: UpdateProductRequestBody)

  /** The signed-in user with the product id of the path. */
  datatype DeleteProductParams = DeleteProductParams(userId: int, path: DeleteProductRequestPath)

  /** The insert `CreateProduct` issues once the date is parsed: the body's
      fields as they are, the size converted without any check. */
  function CreateArgs(userId: int, body: CreateProductRequestBody, date: Time): (a: Store.CreateProductParams)
    ensures a.userId == userId && a.expirationDate == date && a.size == body.size
    ensures a.category == body.category && a.price == body.price && a.cost == body.cost
    ensures a.name == body.name && a.description == body.description && a.barcode == body.barcode
  {
    Store.CreateProductParams(userId, body.category, body.price, body.cost, body.name,
                              body.description, body.barcode, date, body.size)
  }

  /** How a refused insert is reported: a duplicate key naming the barcode, a
      foreign key naming `user_id`, or else the opaque internal error. */
  function CreateProductFailure(e: DbError): (r: CustomErr)
    ensures r == ErrDuplicateBarcode || r == ErrNotFoundUser || r == NewErrInternalServer(AsError(e))
  {
    match e
    case MySqlError(n, m) =>
      if n == DbDuplicateError && Contains(m, "barcode") then ErrDuplicateBarcode
      else if n == DbFkError && Contains(m, "user_id") then ErrNotFoundUser
      else NewErrInternalServer(AsError(e))
    case _ => NewErrInternalServer(AsError(e))
  }

  /** How a refused update is reported: only a duplicate barcode has an error of its own. */
  function UpdateProductFailure(e: DbError): (r: CustomErr)
    ensures r == ErrDuplicateBarcode || r == NewErrInternalServer(AsError(e))
  {
    match e
    case MySqlError(n, m) =>
      if n == DbDuplicateError && Contains(m, "barcode") then ErrDuplicateBarcode
      else NewErrInternalServer(AsError(e))
    case _ => NewErrInternalServer(AsError(e))
  }

  /** MySQL's duplicate-key message names the column of the key. */
  lemma DuplicateKeyNamesColumn(v: string, table: string, column: string)
    ensures Contains(Store.DuplicateEntryMessage(v, table + "." + column), column)
  {
    var a := "Duplicate entry '" + v + "' for key '" + table + ".";
    assert Store.DuplicateEntryMessage(v, table + "." + column) == a + column + "'";
    ContainsMiddle(a, column, "'");
  }

  /** MySQL's foreign-key message names the referencing column. */
  lemma ForeignKeyNamesColumn(table: string, column: string)
    ensures Contains(Store.ForeignKeyMessage(table, column), column)
  {
    var a := "Cannot add or update a child row: a foreign key constraint fails (`" + table + "`, FOREIGN KEY (`";
    var z := "`) REFERENCES `user` (`id`))";
    assert Store.ForeignKeyMessage(table, column) == a + column + z;
    ContainsMiddle(a, column, z);
  }

  lemma ProductBarcodeKey()
    ensures "product.barcode" == "product" + "." + "barcode"
  {
  }

  /** What each refusal of the insert tells the client: a taken barcode and a
      missing owner have their own errors; a failed connection and a size
      outside the enum are internal errors. */
  lemma CreateProductRefusal(users: map<string, User>, products: map<int, Product>,
                             arg: Store.CreateProductParams, fault: Option<string>, newId: int)
    requires Store.CreateProductError(users, products, arg, fault, newId).Some?
    ensures var r := CreateProductFailure(Store.CreateProductError(users, products, arg, fault, newId).value);
      && (r == ErrDuplicateBarcode <==>
            fault.None? && Store.IsEnumSize(arg.size) && Store.HasUserId(users, arg.userId)
            && Store.BarcodeTaken(products, arg.barcode, newId))
      && (r == ErrNotFoundUser <==>
            fault.None? && Store.IsEnumSize(arg.size) && !Store.HasUserId(users, arg.userId))
      && (fault.Some? || !Store.IsEnumSize(arg.size) ==> r == NewErrInternalServer(Nil))
  {
    DuplicateKeyNamesColumn(arg.barcode, "product", "barcode");
    ProductBarcodeKey();
    ForeignKeyNamesColumn("product", "user_id");
  }

  /** What each refusal of the update tells the client. */
  lemma UpdateProductRefusal(products: map<int, Product>, arg: Store.UpdateProductParams, fault: Option<string>)
    requires Store.UpdateProductError(products, arg, fault).Some?
    ensures var r := UpdateProductFailure(Store.UpdateProductError(products, arg, fault).value);
      && (r == ErrDuplicateBarcode <==>
            fault.None? && Store.IsEnumSize(arg.size) && Store.BarcodeTaken(products, arg.barcode, arg.id))
      && (r != ErrDuplicateBarcode ==> r == NewErrInternalServer(Nil))
  {
    DuplicateKeyNamesColumn(arg.barcode, "product", "barcode");
    ProductBarcodeKey();
  }

  /** A size the `product_size` binding rule accepts is a value of the column's
      enum, so a bound request never meets the truncation error. */
  lemma BoundSizeFitsEnum(size: string)
    requires Validator.ValidateProductSize(Validator.GoString(size))
    ensures Store.IsEnumSize(size)
  {
  }

  /** The lookup and ownership check that reading, updating and deleting share:
      the product must exist and belong to the caller. */
  function OwnedProduct(products: map<int, Product>, userId: int, id: int, fault: Option<string>): (r: Result<Product, CustomErr>)
    ensures r.Ok? <==> fault.None? && id in products && products[id].userId == userId
    ensures r.Ok? ==> r.value == products[id]
    ensures r == Err(ErrNotFoundProduct) <==> fault.None? && id !in products
    ensures r == Err(ErrForbiddenProduct) <==> fault.None? && id in products && products[id].userId != userId
    ensures fault.Some? ==> r == Err(NewErrInternalServer(Msg(fault.value)))
  {
    match Store.LookupRow(products, id, fault)
    case Err(NoRows) => Err(ErrNotFoundProduct)
    case Err(e) => Err(NewErrInternalServer(AsError(e)))
    case Ok(p) => if p.userId != userId then Err(ErrForbiddenProduct) else Ok(p)
  }

  /** `GetProduct`: the caller's own product, rendered; never anyone else's. */
  function GetProduct(products: map<int, Product>, params: GetProductParams, fault: Option<string>,
                      layout: DateLayout): (r: Result<GetProductResponse, CustomErr>)
    ensures r.Ok? <==> OwnedProduct(products, params.userId, params.path.id, fault).Ok?
    ensures r.Ok? ==> r.value == NewGetProductResponse(products[params.path.id], layout)
    ensures r.Ok? ==> r.value.userId == params.userId
    ensures r.Err? ==> r.error == OwnedProduct(products, params.userId, params.path.id, fault).error
  {
    match OwnedProduct(products, params.userId, params.path.id, fault)
    case Err(e) => Err(e)
    case Ok(p) => Ok(NewGetProductResponse(p, layout))
  }

  /** The page size of the list query (`LIMIT 10`). */
  const PageSize: int := 10

  /** The offset of a page, as intended: ten rows per page, pages counted
      from 1, so that consecutive pages are adjacent windows. */
  function ListOffset(page: int): (r: int)
    ensures page >= 1 ==> r >= 0
    ensures r % PageSize == 0 && r / PageSize == page - 1
  {
    PageSize * (page - 1)
  }

  /** The offset as service/product.go computes it: in int32, where the
      product overflows for large pages. */
  function ListOffsetAsWritten(page: int): (r: int)
    ensures Int32Min <= r <= Int32Max
  {
    WrapInt32(PageSize * WrapInt32(page - 1))
  }

  /** The two offsets agree on exactly the pages up to 214748365: from the next
      page on, every page the binding accepts gets a wrapped offset. */
  lemma ListOffsetAgreement(q: GetProductListRequestQuery)
    requires ValidListQuery(q)
    ensures ListOffsetAsWritten(q.page) == ListOffset(q.page) <==> q.page <= 214748365
  {
    assert WrapInt32(q.page - 1) == q.page - 1;
  }

  /** The first page the binding accepts whose offset comes out negative. */
  lemma ListOffsetOverflows()
    ensures ListOffsetAsWritten(214748366) == -2147483646
    ensures ListOffset(214748366) == 2147483650
  {
  }

  /** The repository's list query, by owner, search keyword and offset. */
  type ListQuery = (int, string, int) -> Result<seq<Product>, DbError>

  /** The `WHERE user_id = ?` and `LIMIT 10` of the query: only the given
      owner's rows, at most a page of them. */
  ghost predicate OwnRowsOnly(query: ListQuery)
  {
    forall u, k, o :: query(u, k, o).Ok? ==>
      |query(u, k, o).value| <= PageSize
      && forall i :: 0 <= i < |query(u, k, o).value| ==> query(u, k, o).value[i].userId == u
  }

  /** `GetProductList`: the page the query returns at the int32 offset the
      service computes, rendered in order; a failed query is an internal error
      with an empty response. */
  method GetProductList(params: GetProductListParams, query: ListQuery, layout: DateLayout)
    returns (result: GetProductListResponse, cErr: CustomErr)
    ensures query(params.userId, params.query.keyword, ListOffsetAsWritten(params.query.page)).Err? ==>
              cErr == NewErrInternalServer(Nil) && result == GetProductListResponse([], true)
    ensures query(params.userId, params.query.keyword, ListOffsetAsWritten(params.query.page)).Ok? ==>
              var rows := query(params.userId, params.query.keyword, ListOffsetAsWritten(params.query.page)).value;
              && cErr == NoErr && |result.list| == |rows|
              && (forall i :: 0 <= i < |rows| ==> result.list[i] == NewGetProductResponse(rows[i], layout))
              && (result.listIsNil <==> rows == [])
    ensures OwnRowsOnly(query) ==>
              |result.list| <= PageSize && forall i :: 0 <= i < |result.list| ==> result.list[i].userId == params.userId
  {
    var offset := ListOffsetAsWritten(params.query.page);
    match query(params.userId, params.query.keyword, offset)
    case Err(e) =>
      result, cErr := GetProductListResponse([], true), NewErrInternalServer(AsError(e));
    case Ok(rows) =>
      result := NewGetProductListResponse(rows, layout);
      cErr := NoErr;
  }

  /** The update a product would receive from an empty body: every column as it is. */
  function CurrentArgs(p: Product): (a: Store.UpdateProductParams)
    ensures a.id == p.id && a.category == p.category && a.price == p.price && a.cost == p.cost
    ensures a.name == p.name && a.description == p.description && a.barcode == p.barcode
    ensures a.expirationDate == p.expirationDate && a.size == p.size
  {
    Store.UpdateProductParams(p.category, p.price, p.cost, p.name, p.description, p.barcode,
                              p.expirationDate, p.size, p.id)
  }

  /** The value a pointer field contributes: its target if given, else the fallback. */
  function Coalesce<T>(o: Option<T>, fallback: T): T
  {
    if o.Some? then o.value else fallback
  }

  /** The expiration date the body asks for, parsed: `None` when it gives one
      that does not parse. */
  function BodyDate(p: Product, body: UpdateProductRequestBody, layout: DateLayout): Option<Time>
  {
    if body.expirationDate.Some? then layout.parse(body.expirationDate.value) else Some(p.expirationDate)
  }

  /** Every field the body gives is in `a`. */
  predicate Sets(body: UpdateProductRequestBody, layout: DateLayout, a: Store.UpdateProductParams)
  {
    && (body.category.Some? ==> a.category == body.category.value)
    && (body.price.Some? ==> a.price == body.price.value)
    && (body.cost.Some? ==> a.cost == body.cost.value)
    && (body.name.Some? ==> a.name == body.name.value)
    && (body.description.Some? ==> a.description == body.description.value)
    && (body.barcode.Some? ==> a.barcode == body.barcode.value)
    && (body.expirationDate.Some? ==> layout.parse(body.expirationDate.value) == Some(a.expirationDate))
    && (body.size.Some? ==> a.size == body.size.value)
  }

  /** Every field the body leaves out keeps the product's value in `a`. */
  predicate Keeps(body: UpdateProductRequestBody, p: Product, a: Store.UpdateProductParams)
  {
    && (body.category.None? ==> a.category == p.category)
    && (body.price.None? ==> a.price == p.price)
    && (body.cost.None? ==> a.cost == p.cost)
    && (body.name.None? ==> a.name == p.name)
    && (body.description.None? ==> a.description == p.description)
    && (body.barcode.None? ==> a.barcode == p.barcode)
    && (body.expirationDate.None? ==> a.expirationDate == p.expirationDate)
    && (body.size.None? ==> a.size == p.size)
  }

  /** The intended update of `p` by `body` (the `COALESCE` the service
      emulates): the given fields replace the product's, the others stay; a
      date that does not parse refuses the update. */
  function MergeUpdate(p: Product, body: UpdateProductRequestBody, layout: DateLayout): (r: Result<Store.UpdateProductParams, CustomErr>)
    ensures r.Err? <==> body.expirationDate.Some? && layout.parse(body.expirationDate.value).None?
    ensures r.Err? ==> r.error == ErrParseDate
    ensures r.Ok? ==> r.value.id == p.id && Sets(body, layout, r.value) && Keeps(body, p, r.value)
  {
    match BodyDate(p, body, layout)
    case None => Err(ErrParseDate)
    case Some(date) =>
      Ok(Store.UpdateProductParams(
        Coalesce(body.category, p.category), Coalesce(body.price, p.price), Coalesce(body.cost, p.cost),
        Coalesce(body.name, p.name), Coalesce(body.description, p.description),
        Coalesce(body.barcode, p.barcode), date, Coalesce(body.size, p.size), p.id))
  }

  /** The update service/product.go builds: the same, except that the body's
      cost is never copied. */
  function MergeUpdateAsWritten(p: Product, body: UpdateProductRequestBody, layout: DateLayout): (r: Result<Store.UpdateProductParams, CustomErr>)
    ensures r.Err? <==> MergeUpdate(p, body, layout).Err?
    ensures r.Err? ==> r.error == ErrParseDate
    ensures r.Ok? ==> r.value.cost == p.cost
    ensures r.Ok? ==> MergeUpdate(p, body, layout) == Ok(r.value.(cost := Coalesce(body.cost, p.cost)))
  {
    match BodyDate(p, body, layout)
    case None => Err(ErrParseDate)
    case Some(date) =>
      Ok(Store.UpdateProductParams(
        Coalesce(body.category, p.category), Coalesce(body.price, p.price), p.cost,
        Coalesce(body.name, p.name), Coalesce(body.description, p.description),
        Coalesce(body.barcode, p.barcode), date, Coalesce(body.size, p.size), p.id))
  }

  /** A body that only changes the cost: the update succeeds and the cost
      stays what it was. */
  lemma CostUpdateIsLost(p: Product, layout: DateLayout, cost: int)
    requires cost != p.cost
    ensures var body := UpdateProductRequestBody(None, None, Some(cost), None, None, None, None, None);
      && MergeUpdateAsWritten(p, body, layout).Ok?
      && !Sets(body, layout, MergeUpdateAsWritten(p, body, layout).value)
      && MergeUpdate(p, body, layout).Ok? && MergeUpdate(p, body, layout).value.cost == cost
  {
  }

  /** What the service does with a body is what it should do with the same
      body without its cost. */
  lemma MergeUpdateAsWrittenDropsCost(p: Product, body: UpdateProductRequestBody, layout: DateLayout)
    ensures MergeUpdateAsWritten(p, body, layout) == MergeUpdate(p, body.(cost := None), layout)
  {
  }

  /** An update is determined by what it must set and keep: `MergeUpdate` is
      the only such update. */
  lemma MergeUpdateUnique(p: Product, body: UpdateProductRequestBody, layout: DateLayout, a: Store.UpdateProductParams)
    requires a.id == p.id && Sets(body, layout, a) && Keeps(body, p, a)
    ensures MergeUpdate(p, body, layout) == Ok(a)
  {
  }

  /** An empty body rewrites the row with its own values. */
  lemma EmptyUpdateChangesNothing(p: Product, layout: DateLayout, now: Time)
    ensures var body := UpdateProductRequestBody(None, None, None, None, None, None, None, None);
      && MergeUpdate(p, body, layout) == Ok(CurrentArgs(p))
      && Store.Updated(p, CurrentArgs(p), now) == p.(updatedAt := now)
  {
  }

  /** Applying the same body twice is applying it once. */
  lemma {:induction false} MergeUpdateIdempotent(p: Product, body: UpdateProductRequestBody, layout: DateLayout, now: Time)
    requires MergeUpdate(p, body, layout).Ok?
    ensures var q := Store.Updated(p, MergeUpdate(p, body, layout).value, now);
      MergeUpdate(q, body, layout) == MergeUpdate(p, body, layout)
  {
    var a := MergeUpdate(p, body, layout).value;
    var q := Store.Updated(p, a, now);
    MergeUpdateUnique(q, body, layout, a);
  }

  /** The coalescing of service/product.go, field by field: start from the
      current row and overwrite each column the body gives. */
  method BuildUpdateArgs(product: Product, body: UpdateProductRequestBody, layout: DateLayout)
    returns (r: Result<Store.UpdateProductParams, CustomErr>)
    ensures r == MergeUpdate(product, body, layout)
  {
    var arg := CurrentArgs(product);
    if body.category.Some? {
      arg := arg.(category := body.category.value);
    }
    if body.price.Some? {
      arg := arg.(price := body.price.value);
    }
    if body.cost.Some? {
      arg := arg.(cost := body.cost.value);
    }
    if body.name.Some? {
      arg := arg.(name := body.name.value);
    }
    if body.description.Some? {
      arg := arg.(description := body.description.value);
    }
    if body.barcode.Some? {
      arg := arg.(barcode := body.barcode.value);
    }
    if body.expirationDate.Some? {
      var parsed := layout.parse(body.expirationDate.value);
      if parsed.None? {
        return Err(ErrParseDate);
      }
      arg := arg.(expirationDate := parsed.value);
    }
    if body.size.Some? {
      arg := arg.(size := body.size.value);
    }
    MergeUpdateUnique(product, body, layout, arg);
    r := Ok(arg);
  }

  /** The coalescing as service/product.go writes it: the same steps, with
      no step for the cost, so the body's cost is as good as absent. */
  method BuildUpdateArgsAsWritten(product: Product, body: UpdateProductRequestBody, layout: DateLayout)
    returns (r: Result<Store.UpdateProductParams, CustomErr>)
    ensures r == MergeUpdateAsWritten(product, body, layout)
  {
    var given := body.(cost := None);
    var arg := CurrentArgs(product);
    if given.category.Some? {
      arg := arg.(category := given.category.value);
    }
    if given.price.Some? {
      arg := arg.(price := given.price.value);
    }
    if given.name.Some? {
      arg := arg.(name := given.name.value);
    }
    if given.description.Some? {
      arg := arg.(description := given.description.value);
    }
    if given.barcode.Some? {
      arg := arg.(barcode := given.barcode.value);
    }
    if given.expirationDate.Some? {
      var parsed := layout.parse(given.expirationDate.value);
      if parsed.None? {
        return Err(ErrParseDate);
      }
      arg := arg.(expirationDate := parsed.value);
    }
    if given.size.Some? {
      arg := arg.(size := given.size.value);
    }
    MergeUpdateUnique(product, given, layout, arg);
    MergeUpdateAsWrittenDropsCost(product, body, layout);
    r := Ok(arg);
  }

  /** The service, over the database it writes. */
  class ProductService {
    const store: Store.Store
    const layout: DateLayout

    constructor(store: Store.Store, layout: DateLayout)
      ensures this.store == store && this.layout == layout
    {
      this.store := store;
      this.layout := layout;
    }

    /** `CreateProduct`: a date that does not parse is refused before the
        database is touched; otherwise the insert's refusal is reported as
        `CreateProductFailure` says, and a success adds exactly the new row. */
    method CreateProduct(params: CreateProductParams, fault: Option<string>, now: Time) returns (cErr: CustomErr)
      requires store.Valid()
      modifies store
      ensures store.Valid()
      ensures layout.parse(params.body.expirationDate).None? ==>
                cErr == ErrParseDate && store.products == old(store.products)
      ensures layout.parse(params.body.expirationDate).Some? ==>
                var arg := CreateArgs(params.userId, params.body, layout.parse(params.body.expirationDate).value);
                var refusal := Store.CreateProductError(old(store.users), old(store.products), arg, fault, old(store.nextProductId));
                && (refusal.Some? ==> cErr == CreateProductFailure(refusal.value) && store.products == old(store.products))
                && (refusal.None? ==>
                      cErr == NoErr
                      && store.products == old(store.products)[old(store.nextProductId) := Product(
                           old(store.nextProductId), arg.userId, arg.category, arg.price, arg.cost, arg.name,
                           arg.description, arg.barcode, arg.expirationDate, arg.size, now, now)])
      ensures store.users == old(store.users) && store.sessions == old(store.sessions)
    {
      var parsed := layout.parse(params.body.expirationDate);
      if parsed.None? {
        return ErrParseDate;
      }
      var arg := CreateArgs(params.userId, params.body, parsed.value);
      var err := store.CreateProduct(arg, fault, now);
      if err.Some? {
        return CreateProductFailure(err.value);
      }
      cErr := NoErr;
    }

    /** `UpdateProduct`: only the owner's product changes, and it changes into
        `MergeUpdateAsWritten` of its current row; every refusal leaves the table as it was. */
    method UpdateProduct(params: UpdateProductParams, lookupFault: Option<string>, updateFault: Option<string>, now: Time)
      returns (cErr: CustomErr)
      requires store.Valid()
      modifies store
      ensures store.Valid()
      ensures var owned := OwnedProduct(old(store.products), params.userId, params.path.id, lookupFault);
              && (owned.Err? ==> cErr == owned.error && store.products == old(store.products))
              && (owned.Ok? && MergeUpdateAsWritten(owned.value, params.body, layout).Err? ==>
                    cErr == ErrParseDate && store.products == old(store.products))
              && (owned.Ok? && MergeUpdateAsWritten(owned.value, params.body, layout).Ok? ==>
                    var arg := MergeUpdateAsWritten(owned.value, params.body, layout).value;
                    var refusal := Store.UpdateProductError(old(store.products), arg, updateFault);
                    && (refusal.Some? ==> cErr == UpdateProductFailure(refusal.value) && store.products == old(store.products))
                    && (refusal.None? ==>
                          cErr == NoErr
                          && store.products == old(store.products)[params.path.id := Store.Updated(owned.value, arg, now)]))
      ensures store.users == old(store.users) && store.sessions == old(store.sessions)
    {
      var owned := OwnedProduct(store.products, params.userId, params.path.id, lookupFault);
      if owned.Err? {
        return owned.error;
      }
      var merged := BuildUpdateArgsAsWritten(owned.value, params.body, layout);
      if merged.Err? {
        return merged.error;
      }
      var arg := merged.value;
      var err := store.UpdateProduct(arg, updateFault, now);
      if err.Some? {
        return UpdateProductFailure(err.value);
      }
      cErr := NoErr;
    }

    /** `DeleteProduct`: only the owner's product goes, and nothing else does. */
    method DeleteProduct(params: DeleteProductParams, lookupFault: Option<string>, deleteFault: Option<string>)
      returns (cErr: CustomErr)
      requires store.Valid()
      modifies store
      ensures store.Valid()
      ensures var owned := OwnedProduct(old(store.products), params.userId, params.path.id, lookupFault);
              && (owned.Err? ==> cErr == owned.error && store.products == old(store.products))
              && (owned.Ok? && deleteFault.Some? ==>
                    cErr == NewErrInternalServer(Msg(deleteFault.value)) && store.products == old(store.products))
              && (owned.Ok? && deleteFault.None? ==>
                    cErr == NoErr && store.products == old(store.products) - {params.path.id})
      ensures store.users == old(store.users) && store.sessions == old(store.sessions)
    {
      var owned := OwnedProduct(store.products, params.userId, params.path.id, lookupFault);
      if owned.Err? {
        return owned.error;
      }
      var err := store.DeleteProduct(params.path.id, deleteFault);
      if err.Some? {
        return NewErrInternalServer(AsError(err.value));
      }
      cErr := NoErr;
    }
  }
}
