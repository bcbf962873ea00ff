/** Shared vocabulary of the backend and frontend models: identifiers, the outcome of a
    request handler with its HTTP status, and the JavaScript string operations the
    handlers rely on (`trim`, ASCII case mapping, `includes`). */
module Common {

  /** Document identifiers (Mongo ObjectIds) are opaque; any infinite type will do. */
  type UserId = nat
  type ItemId = nat
  type OrderId = nat
  type LineId = nat

  /** A timestamp read from the clock (`new Date()`), passed in by the caller. */
  type Time = int

  datatype Option<+T> = None | Some(value: T) {
    function GetOr(default: T): T {
      if Some? then value else default
    }
  }

  /** The failure statuses the handlers answer with (2xx successes are all `Ok`). */
  const BadRequest: int := 400
  const Unauthorized: int := 401
  const Forbidden: int := 403
  const NotFound: int := 404
  const Unprocessable: int := 422
  const InternalError: int := 500

  /** The messages the handlers and the schemas' validators answer with. Each constructor
      stands for one response text; a text that embeds a value (the item id of
      `ItemNotFoundOrUnavailable`) is represented by its fixed part. */
  datatype Message =
    // order routes
    | VendorIdRequired | OrderItemsRequired | InvalidItemData | ItemNotFoundOrUnavailable
    | VendorNotFoundOrInactive | VendorClosed | OrderNotFound | CannotCancel | StatusRequired
    | InvalidStatus | CannotUpdateCancelled | InvalidProgression | UpdateStatusFailed
    | CreateOrderFailed | AccessDenied | DeliveryCodeRequired | OrderNotFoundWithCode
    // the order collection's save (the route's catch block answers with its own text)
    | OrderRejected | DuplicateDeliveryCode
    // cart routes
    | MenuItemIdRequired | QuantityOutOfRange | MenuItemNotFound | MenuItemNotAvailable
    | AddToCartFailed | OtherVendorInCart | QuantityLimit | CartItemNotFound | UpdateCartFailed
    | FetchCartFailed | CartEmpty | CartItemsUnavailable | PlaceOrderFailed
    // menu routes
    | ItemNameRequiredMin2 | DescriptionRequiredMin10 | PriceRequiredMin1 | CategoryRequired
    | PreparationTimeRange | DescriptionMin10 | PriceRange | InvalidCategory | DuplicateItemName
    | MenuItemNotFoundOrDenied | ItemInActiveOrders | UpdateMenuItemFailed
    // the menu item schema's validators
    | ItemNameRequired | ItemNameMin2 | ItemNameTooLong | DescriptionRequired | DescriptionTooLong
    | PriceMin1 | PriceOverMax | PreparationTimeMin | PreparationTimeMax
    // vendor routes
    | VendorNotFound | ShopNameMin2 | ShopDescriptionTooLong | OpenTimeFormat | CloseTimeFormat
    | UpdateProfileFailed | FetchVendorFailed
    // auth routes
    | NameMin2 | InvalidEmail | PasswordMin6 | InvalidRole | InvalidPhone | CuetEmailRequired
    | StudentIdMin4 | ShopNameRequired | EmailInUse | StudentIdInUse | PasswordRequired
    | InvalidCredentials | AccountDeactivated
    // the user schema's validators
    | NameRequired | NameSchemaMin2 | NameTooLong | EmailRequired | EmailFormat
    | PasswordSchemaRequired | PasswordSchemaMin6 | PhoneRequired | PhoneFormat
    | StudentIdRequired | StudentIdSchemaMin4 | ShopNameSchemaRequired | ShopNameTooLong
    | ShopDescriptionSchemaTooLong | TimeFormat

  /** What a handler answers: a payload, or a failure status with its messages
      (a single message, or the whole list of a 422 validation failure). */
  datatype Response<+T> = Ok(value: T) | Err(status: int, errors: seq<Message>)

  /** One entry of a handler's `errors` list: the message when its check failed. */
  function Check(failed: bool, message: Message): (r: seq<Message>)
    ensures |r| == (if failed then 1 else 0)
    ensures failed ==> r == [message]
  {
    if failed then [message] else []
  }

  function Fail<T>(status: int, message: Message): (r: Response<T>)
    ensures r.Err? && r.status == status && r.errors == [message]
  {
    Err(status, [message])
  }

  // ---------------------------------------------------------------------------
  // Characters and strings
  // ---------------------------------------------------------------------------

  /** The JavaScript `\s` class, which is also what `String.prototype.trim` strips. */
  predicate IsSpace(c: char) {
    c == ' ' || c == '\t' || c == '\n' || c == '\r' || c == '\U{0B}' || c == '\U{0C}'
    || c == '\U{A0}' || c == '\U{1680}' || ('\U{2000}' <= c <= '\U{200A}')
    || c == '\U{2028}' || c == '\U{2029}' || c == '\U{202F}' || c == '\U{205F}'
    || c == '\U{3000}' || c == '\U{FEFF}'
  }

  predicate IsDigit(c: char) {
    '0' <= c <= '9'
  }

  predicate AllDigits(s: string) {
    forall i :: 0 <= i < |s| ==> IsDigit(s[i])
  }

  predicate NoSpace(s: string) {
    forall i :: 0 <= i < |s| ==> !IsSpace(s[i])
  }

  function TrimStart(s: string): (r: string)
    ensures |r| <= |s| && r == s[|s| - |r|..]
    ensures r == [] || !IsSpace(r[0])
  {
    if s != [] && IsSpace(s[0]) then TrimStart(s[1..]) else s
  }

  function TrimEnd(s: string): (r: string)
    ensures |r| <= |s| && r == s[..|r|]
    ensures r == [] || !IsSpace(r[|r| - 1])
  {
    if s != [] && IsSpace(s[|s| - 1]) then TrimEnd(s[..|s| - 1]) else s
  }

  /** No white space at either end: what `trim` leaves. */
  predicate IsTrimmed(s: string) {
    s == [] || (!IsSpace(s[0]) && !IsSpace(s[|s| - 1]))
  }

  /** `s.trim()`: drops leading and trailing white space, keeps the inside. */
  function Trim(s: string): (r: string)
    ensures |r| <= |s| && IsTrimmed(r)
  {
    TrimEnd(TrimStart(s))
  }

  /** A trimmed string is its own trim, so trimming twice changes nothing. */
  lemma TrimFixpoint(s: string)
    ensures IsTrimmed(s) ==> Trim(s) == s
    ensures Trim(Trim(s)) == Trim(s)
  {
    var t := Trim(s);
    if t != [] {
      assert TrimStart(t) == t;
      assert TrimEnd(t) == t;
    }
    if IsTrimmed(s) && s != [] {
      assert TrimStart(s) == s;
      assert TrimEnd(s) == s;
    }
  }

  /** A string without white space is its own trim. */
  lemma TrimNoSpace(s: string)
    requires NoSpace(s)
    ensures Trim(s) == s
  {
    assert TrimStart(s) == s;
    assert TrimEnd(s) == s;
  }

  function LowerChar(c: char): (r: char)
    ensures ('A' <= c <= 'Z') == ('a' <= r <= 'z' && r != c)
  {
    if 'A' <= c <= 'Z' then (c as int + 32) as char else c
  }

  function UpperChar(c: char): (r: char)
    ensures ('a' <= c <= 'z') == ('A' <= r <= 'Z' && r != c)
  {
    if 'a' <= c <= 'z' then (c as int - 32) as char else c
  }

  /** No ASCII upper-case letter: what `toLowerCase` leaves. */
  predicate IsLower(s: string) {
    forall i :: 0 <= i < |s| ==> !('A' <= s[i] <= 'Z')
  }

  /** `s.toLowerCase()`, restricted to ASCII letters. */
  function Lower(s: string): (r: string)
    ensures |r| == |s| && IsLower(r)
    ensures forall i :: 0 <= i < |s| ==> r[i] == LowerChar(s[i])
  {
    seq(|s|, i requires 0 <= i < |s| => LowerChar(s[i]))
  }

  /** Lower-casing adds no white space. */
  lemma LowerNoSpace(s: string)
    requires NoSpace(s)
    ensures NoSpace(Lower(s))
  {
    forall i | 0 <= i < |s| ensures !IsSpace(Lower(s)[i]) {
      assert Lower(s)[i] == LowerChar(s[i]);
    }
  }

  /** `s.toUpperCase()`, restricted to ASCII letters. */
  function Upper(s: string): (r: string)
    ensures |r| == |s|
    ensures forall i :: 0 <= i < |s| ==> r[i] == UpperChar(s[i])
  {
    seq(|s|, i requires 0 <= i < |s| => UpperChar(s[i]))
  }

  predicate IsPrefix(p: string, s: string) {
    |p| <= |s| && s[..|p|] == p
  }

  /** `s.includes(t)`: t occurs somewhere in s. */
  predicate Contains(s: string, t: string)
    decreases |s|
  {
    IsPrefix(t, s) || (s != [] && Contains(s[1..], t))
  }
}
