# pha: an inventory API with session authentication, modelled in Dafny

pha is a small HTTP service. A shop owner registers with a mobile phone number and a
password. Logging in yields a short-lived access token and a long-lived refresh token;
each login records a session row keyed by the refresh token's id. The access token is
renewed from the refresh token and its session. With the access token, the owner
creates, lists, reads, updates and deletes their own products.

This project models the core of that service:
- the JSON Web Token helpers (HS256; RFC 7519 claims, RFC 7515 signatures);
- the bearer-token middleware;
- the three custom binding rules and the message builder for validation errors;
- the service error values;
- the database rows and the nullable product-size scanner;
- the response builders;
- the auth and product services.

It proves that the model keeps the service's promises:
- tokens round-trip and expire at the right instant;
- the middleware lets through exactly the well-formed, signed, unexpired bearer tokens;
- validation messages name the JSON path of the failed field;
- every store refusal becomes the right client error;
- a product is only ever read, changed or removed by its owner;
- a login's refresh token renews until it expires.

## Structure

| file | module | models |
|---|---|---|
| prelude.dfy | Prelude | Go's `error`, options and results, time as integers, the configuration, int32 wrap-around |
| go_strings.dfy | GoStrings | `strings.Fields`, `ToLower`, `Contains`, `Split`, `Join`, and the `\[[0-9]*\]` replacement |
| service_error.dfy | ServiceError | service/error.go |
| jwt.dfy | Jwt | util/jwt/token.go and util/jwt/error.go |
| middleware.dfy | Middleware | middleware/authorization.go and middleware/error.go |
| validator.dfy | Validator | util/validator/validator.go |
| validator_error.dfy | ValidatorError | util/validator/error.go, over a small model of `reflect.Type` |
| repository.dfy | Repository | repository/models.go |
| store.dfy | Store | the database behind the generated queries, as maps with the schema's constraints |
| dto.dfy | Dto | dto/product.go and the records of dto/auth.go |
| product_service.dfy | ProductService | service/product.go |
| auth_service.dfy | AuthService | service/auth.go |

The nondeterministic inputs of the Go code become parameters:
- each reading of the clock;
- the uuid drawn for a token id, or its failure;
- the bcrypt salt;
- per query, an optional connection fault.

The cryptographic and encoding libraries become function-typed values:
- a `TokenCodec` for golang-jwt;
- a `PasswordHasher` for bcrypt;
- a `DateLayout` for `time.Parse` and `Format` with `util.DateLayout`.

Lemmas state their requirements on these values as predicates:
- `Jwt.RoundTrips`: a signed token decodes to what was signed and checks under its key;
- `Jwt.KeyBound`: a signature never checks under another key;
- `AuthService.Sound`: a password matches the hash made from it;
- `Dto.LayoutRoundTrips`: a date the layout parsed, formatted again, parses back to itself.

## Model

| member | source | states |
|---|---|---|
| Prelude.WrapInt32 | service/product.go:80 | int32 arithmetic wraps: the result is in range, congruent to the exact value modulo 2^32, and equal to it when it fits |
| GoStrings.Fields | middleware/authorization.go:28 | the fields of a header are non-empty and hold no white space |
| GoStrings.FieldsAtSpace | middleware/authorization.go:28 | a white-space rune splits the fields: the fields of `x + [c] + y` are those of `x` then those of `y` |
| GoStrings.TwoFields | middleware/authorization.go:28-42 | `a`, a space, `b` has exactly the two fields `a` and `b` |
| GoStrings.FieldsOfWord | middleware/authorization.go:28-33 | a single word is its own only field |
| GoStrings.ToLower | middleware/authorization.go:35 | lower-casing keeps the length and lowers each rune |
| GoStrings.Contains | service/product.go:49 | `Contains` holds exactly when the substring occurs at some position |
| GoStrings.ContainsMiddle | service/product.go:49 | a message built around a word contains the word |
| GoStrings.Split | util/validator/error.go:58 | splitting gives at least one piece and no piece holds the separator |
| GoStrings.SplitJoin | util/validator/error.go:58 | splitting undoes joining when no part holds the separator |
| GoStrings.RemoveIndexesSkipsText | util/validator/error.go:57-58 | the index replacement leaves text without `[` untouched |
| GoStrings.RemoveIndexesDropsSuffix | util/validator/error.go:57-58 | the replacement removes every `[digits]` group a namespace writes |
| ServiceError.NewErrInternalServer | service/error.go:31-34 | the caller gets a fixed 500 "internal server error" whatever the cause |
| ServiceError.NewErrBadRequest | service/error.go:36-38 | a 400 that carries the given error unchanged |
| Jwt.NewPayload | util/jwt/token.go:63-79 | a payload fails only when no uuid was drawn; it carries the uuid and the user, is issued now and lasts the duration |
| Jwt.Valid | util/jwt/token.go:82-88 | a payload is expired exactly when now is strictly after its expiry |
| Jwt.CreateToken | util/jwt/token.go:12-23 | creation fails exactly when the payload does; the token is the HS256 signature of the returned payload |
| Jwt.VerifyToken | util/jwt/token.go:26-53 | only a decodable, HMAC-signed token whose signature checks and whose expiry has not passed verifies, to its claims; a correctly signed, expired token gives ErrExpiredToken; everything else gives ErrInvalidToken |
| Jwt.VerifyCreatedToken | util/jwt/token.go:12-53 | round trip: a created token verifies before its expiry to the payload it was created with |
| Jwt.VerifyCreatedTokenLate | util/jwt/token.go:26-88 | the same token after its expiry is expired, not invalid |
| Jwt.VerifyWithOtherSecret | util/jwt/token.go:26-53 | a token checked against another secret is invalid |
| Jwt.DistinctIdsDistinctTokens | util/jwt/token.go:12-79 | payloads with different ids give different tokens |
| Middleware.ErrToken | middleware/error.go:16-18 | a token error becomes a 401 carrying the same error |
| Middleware.Authorize | middleware/authorization.go:18-53 | each abort happens exactly in its case: empty header; fewer than two fields; a scheme other than bearer in any case; a token that fails to verify, which aborts with a 401 carrying the verifier's own error unchanged. Otherwise the payload is stored under "user" |
| Middleware.BearerInAnyCase | middleware/authorization.go:35-37 | the scheme is accepted in any mix of letter cases |
| Middleware.BearerHeaderFields | middleware/authorization.go:28-42 | `scheme space token` parses to scheme and token |
| Middleware.SingleWordHeader | middleware/authorization.go:28-33 | a one-word header is refused as malformed |
| Middleware.TrailingTextIgnored | middleware/authorization.go:28-44 | text after the token never changes the decision |
| Middleware.CreatedTokenPasses | middleware/authorization.go:18-53 | a freshly created token, sent as a bearer header before expiry, passes with its payload |
| Middleware.ExpiredTokenRejected | middleware/authorization.go:44-48 | the same token past its expiry is refused with the expired-token error |
| Validator.ValidatePhoneNumber | util/validator/validator.go:22-27 | a string passes exactly when it is `010` followed by eight digits; a non-string passes |
| Validator.PhoneNumberShape | util/validator/validator.go:10 | the phone expression accepts exactly `010` plus eight digits |
| Validator.ValidateDate | util/validator/validator.go:30-35 | a string passes exactly when it is `YYYY-MM-DD` with month 1 to 12 and day 1 to 31; a non-string passes |
| Validator.DateByNumbers | util/validator/validator.go:12 | the date expression accepts exactly those month and day numbers |
| Validator.DateRuleIgnoresCalendar | util/validator/validator.go:12 | "2023-02-31" passes: the rule checks shape only |
| Validator.IsSupportedProductSize | util/validator/validator.go:54-61 | exactly "small" and "large" are supported |
| Validator.ValidateProductSize | util/validator/validator.go:38-44 | a value passes exactly when it is the string "small" or "large"; a non-string fails |
| Validator.PhoneNumberExamples | util/validator/validator_test.go:9-14 | the test numbers pass and fail as the tests expect |
| Validator.ProductSizeExamples | util/validator/validator_test.go:16-19 | the test sizes pass and fail as the tests expect |
| ValidatorError.Describe | util/validator/error.go:17-31 | exactly the five described rules get a message: `required`, `max` with its parameter, `phone_number`, `product_size` and `date` each get their own message about the field, and no other rule gets one |
| ValidatorError.DescribedMessagesDiffer | util/validator/error.go:17-54 | two different described rules never give the same message about a field, so the client can tell which rule failed |
| ValidatorError.FirstField | util/validator/error.go:62 | the field found is in the struct and has the name; none is found exactly when no field has it |
| ValidatorError.FieldByName | util/validator/error.go:62-68 | field lookup on a non-struct panics; otherwise it finds the first field of that name |
| ValidatorError.Elem | util/validator/error.go:70 | `Elem` gives the element of a pointer, slice, array or map and panics on anything else |
| ValidatorError.GetErrFieldList | util/validator/error.go:56-59 | an empty error list panics; the field names hold no dot |
| ValidatorError.FindTagName | util/validator/error.go:61-75 | an empty list panics; so do a non-struct and a missing inner field; one field on a struct gives that field's tag value, or "" when the struct has no such field |
| ValidatorError.ErrValidate | util/validator/error.go:12-34 | the panics come in evaluation order: `Elem`, then the empty list, then whatever `findTagName` panics with; when every step succeeds the result is the described rule's message for the tag path, or the errors unchanged for any other rule |
| ValidatorError.RemoveIndexesOfSegments | util/validator/error.go:57-58 | removing `[digits]` from a namespace leaves the dotted field names |
| ValidatorError.FieldListOfNamespace | util/validator/error.go:56-59 | the field list recovered from a namespace is exactly the field names, whatever slice positions it carries |
| ValidatorError.FindTagNameOnPath | util/validator/error.go:61-75 | along a path of nested structs the tag name is the tag values joined with dots, which split back to those values |
| ValidatorError.ErrValidateOnPath | util/validator/error.go:12-75 | a failed rule on a nested field is described with the field's dotted JSON path |
| ValidatorError.TopLevelFieldMessage | util/validator/error.go:12-75 | a failed rule on a top-level field is described with that field's tag value |
| ValidatorError.MissingCategoryMessage | controller/product_test.go:72-98 | a missing category yields "category should be required" |
| ValidatorError.LongCategoryMessage | controller/product_test.go:131-157 | a long category yields the max message with parameter 100 |
| ValidatorError.BadExpirationDateMessage | controller/product_test.go:545-571 | a malformed date yields the date-format message for expiration_date |
| ValidatorError.PageRulePassesThrough | util/validator/error.go:28-29 | the `gte` rule on the list page has no message and is passed on unchanged |
| Repository.ScanProductSize | repository/models.go:20-30 | a string or byte slice is taken verbatim; every other kind, nil included, fails with the %T message |
| Repository.ProductSizeVar.Scan | repository/models.go:20-30 | success stores the scanned text; failure leaves the variable unchanged |
| Repository.NullProductSize.Scan | repository/models.go:38-45 | NULL clears and invalidates without error; anything else sets valid first, then delegates |
| Repository.NullProductSize.Value | repository/models.go:48-53 | NULL exactly when not valid, otherwise the size as text |
| Repository.ScanThenValue | repository/models.go:20-53 | scanning then `Value` round-trips strings, byte slices and NULL; a refused kind still reads back as valid |
| Store.LookupRow | repository/session.sql.go:50-71 | the single-row lookup of `GetSession`, and likewise `GetProduct` (repository/product.sql.go) and `GetUser` by phone number: a fault is a driver error; otherwise the row is found exactly when the key is present, else no rows |
| Store.CreateUserError | service/auth.go:32-48 | a user insert is refused exactly on a fault or a taken phone number |
| Store.CreateSessionError | repository/session.sql.go:13-48 | a session insert is refused exactly on a fault, a taken id or a missing user |
| Store.CreateProductError | repository/product.sql.go:13-54 | a product insert is refused exactly on a fault, a size outside the enum, a missing user or a taken barcode |
| Store.UpdateProductError | repository/product.sql.go:146-184 | an update is refused exactly on a fault, or, when the row exists, on a size outside the enum or a barcode taken by another product; an update that matches no row is never refused by a constraint |
| Store.Updated | repository/product.sql.go:146-184 | an update writes every given column and keeps the id, owner and creation time |
| Store.Store.constructor | repository/models.go:55-86 | an empty database satisfies the schema's constraints |
| Store.Store.CreateUser | service/auth.go:32 | a user insert keeps the constraints; the new table is the old one plus the new user, or unchanged |
| Store.Store.CreateSession | repository/session.sql.go:37-48 | a session insert keeps the constraints and adds exactly the session, or nothing |
| Store.Store.CreateProduct | repository/product.sql.go:41-54 | a product insert keeps the constraints and adds exactly the row under the next id, or nothing |
| Store.Store.UpdateProduct | repository/product.sql.go:172-184 | an update keeps the constraints and rewrites exactly that row, or nothing |
| Store.Store.DeleteProduct | repository/product.sql.go:56-65 | a delete removes exactly that id; a missing id is no error |
| Dto.NewGetProductResponse | dto/product.go:59-74 | every column is copied and the date is formatted with the layout |
| Dto.ResponseDeterminesProduct | dto/product.go:59-74 | nothing is lost: with a layout that reads back the dates it parsed, equal responses come from equal products whose expiration dates were parsed |
| Dto.NewGetProductListResponse | dto/product.go:30-38 | one response per product, in order; the list is nil exactly when there are no products |
| ProductService.CreateArgs | service/product.go:29-39 | the insert carries the body's fields, the parsed date and the unchecked size |
| ProductService.CreateProductFailure | service/product.go:42-64 | an insert refusal becomes duplicate barcode, not-found user or the internal error |
| ProductService.UpdateProductFailure | service/product.go:194-210 | an update refusal becomes duplicate barcode or the internal error |
| ProductService.DuplicateKeyNamesColumn | service/product.go:47-51 | MySQL's duplicate-key message names the key's column |
| ProductService.ForeignKeyNamesColumn | service/product.go:54-58 | MySQL's foreign-key message names the referencing column |
| ProductService.CreateProductRefusal | service/product.go:42-64 | a taken barcode gives ErrDuplicateBarcode and a missing owner ErrNotFoundUser, exactly when so; a fault or a bad size is the fixed internal server error |
| ProductService.UpdateProductRefusal | service/product.go:194-210 | a taken barcode gives ErrDuplicateBarcode exactly when so; anything else is the fixed internal server error |
| ProductService.BoundSizeFitsEnum | util/validator/validator.go:38-44 | a size the binding accepts is an enum value |
| ProductService.OwnedProduct | service/product.go:102-118 | success exactly for an existing product of the caller; not found or forbidden exactly in those cases; a fault is internal |
| ProductService.GetProduct | service/product.go:100-122 | the caller's own product, rendered, exactly when the ownership check passes; never another user's |
| ProductService.ListOffset | service/product.go:80 | the intended offset: non-negative for every page from 1, a multiple of ten, page minus one tens |
| ProductService.ListOffsetAsWritten | service/product.go:80 | the offset as computed in int32 is always in int32 range |
| ProductService.ListOffsetAgreement | service/product.go:80 | on every query the binding accepts, the two offsets agree exactly on pages up to 214748365 |
| ProductService.ListOffsetOverflows | service/product.go:80 | page 214748366 gets offset -2147483646 instead of 2147483650 |
| ProductService.GetProductList | service/product.go:76-92 | the query is asked at the int32 offset the service computes; a failed query is the fixed internal server error, its cause withheld, with an empty response; otherwise the page is rendered in order. With a query scoped to the owner, at most ten of the caller's products |
| ProductService.CurrentArgs | service/product.go:151-161 | the update starts from every current column of the row |
| ProductService.MergeUpdate | service/product.go:151-191 | the update fails exactly on a date that does not parse; otherwise it sets every field the body gives and keeps every other |
| ProductService.MergeUpdateAsWritten | service/product.go:151-191 | the update as written fails exactly when the intended one fails, with the date error; a success always keeps the old cost and otherwise equals the intended update |
| ProductService.MergeUpdateAsWrittenDropsCost | service/product.go:164-191 | the update as written is the intended update of the same body without its cost |
| ProductService.CostUpdateIsLost | service/product_test.go:492-516 | a body that only changes the cost is accepted, yet the written update keeps the old cost |
| ProductService.MergeUpdateUnique | service/product.go:164-191 | the intended update is the only one that sets the given fields and keeps the others |
| ProductService.EmptyUpdateChangesNothing | service/product.go:151-191 | an empty body rewrites the row with its own values |
| ProductService.MergeUpdateIdempotent | service/product.go:151-191 | applying the same body twice is applying it once |
| ProductService.BuildUpdateArgs | service/product.go:151-191 | the field-by-field coalescing with a cost step computes the intended update |
| ProductService.BuildUpdateArgsAsWritten | service/product.go:151-191 | the field-by-field coalescing as written, with no cost step, computes the update as written |
| ProductService.ProductService.constructor | service/service.go:30-35 | the service holds the given store and layout |
| ProductService.ProductService.CreateProduct | service/product.go:21-68 | a bad date is refused before any write; each store refusal is reported as its mapping says; success adds exactly the new row |
| ProductService.ProductService.UpdateProduct | service/product.go:131-213 | only the owner's product changes, into the update as written (the body's cost is ignored); every refusal leaves the table unchanged |
| ProductService.ProductService.DeleteProduct | service/product.go:221-249 | only the owner's product is removed, and nothing else |
| AuthService.RegisterFailure | service/auth.go:32-48 | an insert refusal becomes duplicate phone number or the internal error |
| AuthService.DuplicatePhoneNamesColumn | service/auth.go:37-41 | the duplicate-key message for a phone number names `phone_number` |
| AuthService.RegisterRefusal | service/auth.go:32-48 | a refused registration is a duplicate phone number exactly when there was no fault; a fault is the fixed internal server error |
| AuthService.Credentials | service/auth.go:62-78 | login passes exactly for a registered number whose hash matches the password; not found and wrong password exactly in those cases; a fault is internal |
| AuthService.RegisteredPasswordAccepted | service/auth.go:20-78 | a user registered with a password logs in with it |
| AuthService.LoginSession | service/auth.go:94-102 | the session is keyed by the refresh token's id, expires with it, belongs to the user and is not blocked |
| AuthService.RenewAccessToken | service/auth.go:122-178 | a bad token is a 400 carrying the token error; past it a fault is internal; then, in the code's order, not found, blocked, other user, other token and expired session are each refused with their own error exactly when every earlier check passed and theirs fails; a failed access-token id after every check passes is the internal error, and a 500 comes only from a fault or a failed token id; success exactly when every check passes, with a new access token for the token's user and the refresh token echoed |
| AuthService.RenewAfterLogin | service/auth.go:60-178 | round trip: a login's refresh token renews, from any client, when neither the verifying nor the checking clock read is past its expiry |
| AuthService.RenewAfterExpiry | service/auth.go:122-128 | when the clock read that verifies the refresh token is past its expiry, renewal reports the expired token, whatever the later reads |
| AuthService.ExpiredSessionBetweenReads | service/auth.go:122-163 | a login's session refuses as expired exactly when the clock passes the expiry between verifying the token and checking the session |
| AuthService.AuthService.constructor | service/service.go:30-35 | the service holds its store, codec, hasher and configuration |
| AuthService.AuthService.Register | service/auth.go:18-51 | the user is stored with the hash of the password, never the password; each refusal is reported as its mapping says |
| AuthService.AuthService.Login | service/auth.go:60-113 | the credential refusals pass through; a failed token id or a refused session write is the fixed internal server error, its cause withheld; tokens are handed out only once their session is stored, and a failed login writes no session |

## Left out

- HMAC-SHA256, base64url and JSON encoding of tokens are a codec parameter; golang-jwt's order of checks is modelled.
- bcrypt is a hasher parameter: cost, salt generation and the 72-byte limit are not modelled.
- `uuid.NewRandom` and `time.Now` are parameters. AuthService.RenewAccessToken takes each of its three clock reads as a parameter of its own; nothing relates them, so the model does not assume the clock moves forward.
- AuthService.AuthService.Login: reads one clock for both tokens and the session, where the Go code reads the clock once per token.
- `time.Parse` and `Format` with the date layout are a parameter. So a date the `date` rule accepts but Go's calendar refuses ("2023-02-31") surfaces only as the layout's parse failure.
- Jwt.CreateToken: the error of `SignedString` is not modelled; golang-jwt returns none for HS256 with a byte-slice key.
- ProductService.GetProductList: the query answer is a parameter. The `SearchChosung` SQL function, `ORDER BY created_at DESC` and the `LIMIT` are not modelled; only ownership and page size are stated, as the `OwnRowsOnly` predicate.
- The MySQL server's order of constraint checks (enum first, then foreign key, then duplicate key; for sessions, duplicate id before foreign key) is an assumption of the store model.
- The file defining `DB_DUPLICATE_ERROR` and `DB_FK_ERROR` is not part of this model. The values 1062 and 1452 are MySQL's own numbers for those errors.
- repository/user.sql.go is not part of this model; the user queries follow their use in service/auth.go.
- The session expiry check uses the code's strict `After`: a session is still valid at its expiry instant. A plain reading of "now is before the expiry" excludes that instant.
- gin's binding, response writing and context are not modelled; the middleware returns its decision as a value.
- Logging in NewErrInternalServer is not modelled.
- ValidatorError.FieldByName: only named fields are found; promoted fields of embedded structs are not modelled.
- Map keys in validator namespaces are not modelled; slice and array positions are.
- Strings are sequences of runes. Byte lengths (the `max=100` rule counts runes) and invalid UTF-8 are not modelled, and GoStrings.ToLower lowers ASCII letters only.
- Integer widths (int32 prices, int64 ids) are unbounded except for the list offset, where the wrap-around matters.

## Findings

| source | as written | input that shows it | evidently intended | confidence | as-written member | corrected member |
|---|---|---|---|---|---|---|
| service/product.go:151-191 | UpdateProduct builds the update from the stored row and copies every given body field except Cost | a body holding only `cost`, different from the stored cost, as in the test at service/product_test.go:492-516 (whose mock accepts any argument) | the given cost replaces the stored one, like every other field | high; not executed | ProductService.MergeUpdateAsWritten, ProductService.BuildUpdateArgsAsWritten, ProductService.CostUpdateIsLost | ProductService.MergeUpdate, ProductService.BuildUpdateArgs, ProductService.MergeUpdateUnique |
| service/product.go:80 | the offset `10 * (params.Page - 1)` is computed in int32 | page 214748366, which the `gte=1` binding accepts, gives offset -2147483646 | offset 10 × (page − 1) for every accepted page | medium; not executed | ProductService.ListOffsetAsWritten, ProductService.ListOffsetOverflows | ProductService.ListOffset, ProductService.ListOffsetAgreement |

The services run the code as written: ProductService.GetProductList asks the query at ListOffsetAsWritten, and ProductService.ProductService.UpdateProduct builds its update with BuildUpdateArgsAsWritten. The corrected definitions stand beside them, with the intended properties proved about them.
