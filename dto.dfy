/** dto/product.go, with the request and response bodies of dto/auth.go that
    the auth service passes around. */
module Dto {
  import opened Prelude
  import opened Repository

  /** Body of product creation; every field is required by binding. */
  datatype CreateProductRequestBody = CreateProductRequestBody(
    category: string, price: int, cost: int, name: string, description: string,
    barcode: string, expirationDate: string, size: string)

  /** Query of the product list. */
  datatype GetProductListRequestQuery = GetProductListRequestQuery(page: int, keyword: string)

  /** What binding lets through: `page` is an int32, `required,gte=1`. */
  predicate ValidListQuery(q: GetProductListRequestQuery)
  {
    1 <= q.page <= Int32Max
  }

  /** Path of get, update and delete. */
  datatype GetProductRequestPath = GetProductRequestPath(id: int)

  type UpdateProductRequestPath = GetProductRequestPath
  type DeleteProductRequestPath = GetProductRequestPath

  /** Body of product update: every field is a pointer, `None` where the
      client left it out. */
  datatype UpdateProductRequestBody = UpdateProductRequestBody(
    category: Option<string>, price: Option<int>, cost: Option<int>, name: Option<string>,
    description: Option<string>, barcode: Option<string>, expirationDate: Option<string>,
    size: Option<string>)

  /** One product as the API returns it. */
  datatype GetProductResponse = GetProductResponse(
    id: int, userId: int, category: string, price: int, cost: int, name: string,
    description: string, barcode: string, expirationDate: string, size: ProductSize,
    createdAt: Time, updatedAt: Time)

  /** A page of products. `listIsNil` is Go's nil slice, which JSON renders as
      `null` rather than `[]`. */
  datatype GetProductListResponse = GetProductListResponse(list: seq<GetProductResponse>, listIsNil: bool)

  /** `NewGetProductResponse`: every column copied, the expiration date
      rendered with the date layout. */
  function NewGetProductResponse(p: Product, layout: DateLayout): (r: GetProductResponse)
    ensures r.id == p.id && r.userId == p.userId && r.category == p.category
    ensures r.price == p.price && r.cost == p.cost && r.name == p.name
    ensures r.description == p.description && r.barcode == p.barcode && r.size == p.size
    ensures r.createdAt == p.createdAt && r.updatedAt == p.updatedAt
    ensures r.expirationDate == layout.format(p.expirationDate)
  {
    GetProductResponse(p.id, p.userId, p.category, p.price, p.cost, p.name, p.description,
                       p.barcode, layout.format(p.expirationDate), p.size, p.createdAt, p.updatedAt)
  }

  /** The layout reads back every date it writes, for the dates it can read:
      a date-only layout loses the time of day of other instants, but not of
      the ones it parsed. */
  ghost predicate LayoutRoundTrips(layout: DateLayout)
  {
    forall s :: layout.parse(s).Some? ==> layout.parse(layout.format(layout.parse(s).value)) == layout.parse(s)
  }

  /** An instant the layout can produce by parsing, such as a date the service
      stored from a request. */
  ghost predicate ParsedDate(layout: DateLayout, t: Time)
  {
    exists s :: layout.parse(s) == Some(t)
  }

  /** Nothing is lost: when the layout reads back what it writes, a product
      whose expiration date came from a parse can be rebuilt from its response. */
  lemma ResponseDeterminesProduct(p: Product, q: Product, layout: DateLayout)
    requires LayoutRoundTrips(layout)
    requires ParsedDate(layout, p.expirationDate) && ParsedDate(layout, q.expirationDate)
    requires NewGetProductResponse(p, layout) == NewGetProductResponse(q, layout)
    ensures p == q
  {
    var sp :| layout.parse(sp) == Some(p.expirationDate);
    var sq :| layout.parse(sq) == Some(q.expirationDate);
    assert layout.parse(layout.format(p.expirationDate)) == Some(p.expirationDate);
    assert layout.parse(layout.format(q.expirationDate)) == Some(q.expirationDate);
  }

  /** `NewGetProductListResponse`: appends one response per product, in
      order. The list stays nil when there is nothing to append. */
  method NewGetProductListResponse(productList: seq<Product>, layout: DateLayout) returns (res: GetProductListResponse)
    ensures |res.list| == |productList|
    ensures forall i :: 0 <= i < |productList| ==> res.list[i] == NewGetProductResponse(productList[i], layout)
    ensures res.listIsNil <==> productList == []
  {
    res := GetProductListResponse([], true);
    for i := 0 to |productList|
      invariant |res.list| == i
      invariant forall k :: 0 <= k < i ==> res.list[k] == NewGetProductResponse(productList[k], layout)
      invariant res.listIsNil <==> i == 0
    {
      res := res.(list := res.list + [NewGetProductResponse(productList[i], layout)], listIsNil := false);
    }
  }

  /** dto/auth.go: registration and login share one body. */
  datatype RegisterRequestBody = RegisterRequestBody(phoneNumber: string, password: string)

  type LoginRequestBody = RegisterRequestBody

  /** dto/auth.go: the token pair of a login, and of a renewal. */
  datatype LoginResponseBody = LoginResponseBody(accessToken: string, refreshToken: string)

  type RenewAccessTokenResponse = LoginResponseBody

  /** The zero value Go returns beside an error. */
  const EmptyLoginResponse: LoginResponseBody := LoginResponseBody("", "")

  /** dto/auth.go: body of a renewal. */
  datatype RenewAccessTokenRequestBody = RenewAccessTokenRequestBody(refreshToken: string)
}
