/** Identifiers, the authenticated caller and the error outcomes shared by the backend routes. */
module Common {
  import opened Wrappers

  /** A document id as it travels in requests, route parameters and tokens. */
  type Id = string

  predicate IsHexDigit(c: char)
  {
    '0' <= c <= '9' || 'a' <= c <= 'f' || 'A' <= c <= 'F'
  }

  /** `mongoose.Types.ObjectId.isValid` on a string: 24 hexadecimal digits. */
  predicate ValidObjectId(s: string)
  {
    |s| == 24 && forall i :: 0 <= i < |s| ==> IsHexDigit(s[i])
  }

  /** JavaScript truthiness of an optional string: `undefined` and `""` are falsy. */
  predicate Falsy(s: Option<string>)
  {
    s.None? || s.value == ""
  }

  /** `String(x)` of an optional id: an absent id prints as "undefined". */
  function IdText(s: Option<string>): (r: string)
    ensures s.Some? ==> r == s.value
    ensures s.None? ==> !ValidObjectId(r)
  {
    if s.Some? then s.value else "undefined"
  }

  /** The decoded bearer token (`req.user`): the caller's id and role. */
  datatype Principal = Principal(id: Option<Id>, role: string)

  predicate IsAdmin(p: Principal)
  {
    p.role == "admin"
  }

  /** Every way a backend route can answer other than success. */
  datatype Error =
    // 400: the request is rejected before any document is read
    | ItemsRequired
    | TotalPriceRequired
    | DeliveryAddressRequired
    | BuyerIdRequired
    | StatusRequired
    | ProductFieldsRequired
    | InvalidId
    // 401, 403, 404
    | Unauthorized
    | Forbidden
    | NotFound
    // thrown inside an order transaction (answered with 500 after the abort)
    | InvalidProductId(productId: string)
    | ProductNotFound(productId: string)
    | InsufficientStock(productName: string, available: int)
    // a document fails schema validation or casting on `save` (500)
    | ValidationFailed
    // a unique index rejects the insert (500)
    | DuplicateKey
    // a query filter on an ObjectId field is given a value that does not cast (500)
    | CastFailed

  /** The HTTP status code each outcome is answered with. */
  function HttpStatus(e: Error): (r: int)
    ensures r in {400, 401, 403, 404, 500}
  {
    match e
    case ItemsRequired | TotalPriceRequired | DeliveryAddressRequired | BuyerIdRequired
      | StatusRequired | ProductFieldsRequired | InvalidId => 400
    case Unauthorized => 401
    case Forbidden => 403
    case NotFound => 404
    case _ => 500
  }
}
