/** Values shared by the three order screens of the shipper app: the order
    record as the server sends it, the status vocabulary and the lifecycle
    it follows, the abstract shape of HTTP replies and of the requests the
    screens issue, the stored session, and the status labels. */
module OrderModel {

  datatype Option<+T> = None | Some(value: T)

  /** A route parameter or id counts as given only when it is a non-empty
      string (JavaScript truthiness of `shipperId`, `_id`). */
  predicate Given(s: Option<string>) {
    s.Some? && s.value != ""
  }

  // ---------------------------------------------------------------------
  // Orders as received

  /** A line item of an order; `id` is None when `_id` is missing or is
      not a string. `NullItem` is a `null` entry of the array, on which
      reading `_id` throws. */
  datatype Product = Product(id: Option<string>, name: string, quantity: int, price: int) | NullItem

  /** The `products` field as received: an array, or anything else
      (missing, null, an object). */
  datatype Products = Items(items: seq<Product>) | NotAnArray

  datatype Order = Order(
    id: string,
    fullName: string,
    address: string,
    orderCode: string,
    phone: string,
    paymentMethod: string,
    fee: int,
    products: Products,
    totalPrice: int,
    status: string,
    createdAt: string,
    updatedAt: string,
    dateOrder: string,
    user: string)

  /** One element of the `processing`, `delivered` or `cancelled` arrays of
      `/api/shipper_status/{shipperId}`: the order under `sellers`, and the
      assignment's own status and timestamps. */
  datatype Assignment = Assignment(sellers: Order, status: string, createdAt: string, updatedAt: string)

  /** A key of a JSON object: missing or falsy, an array, or a truthy value
      that is not an array and so has no `map`. `length` is what reading
      its `length` gives: the length of a string, the `length` property of
      an object, 0 when that is missing. */
  datatype Field<T> = Absent | Present(value: T) | Malformed(length: nat)

  /** The parsed body of the two list endpoints: an array of orders, an
      object with the three partition keys (any object or scalar other than
      an array, with the keys it lacks Absent), or JSON `null`, on which
      every property access throws. */
  datatype ListBody =
    | Records(orders: seq<Order>)
    | Partitions(processing: Field<seq<Assignment>>, delivered: Field<seq<Assignment>>, cancelled: Field<seq<Assignment>>)
    | Null

  /** The body of the three PATCH endpoints; only `message` is read. */
  datatype Ack = Ack(message: Option<string>)

  /** The outcome of `fetch` followed by `response.json()`: the request
      failed in transport, or a reply arrived with its `ok` flag and its
      body, None when the body is not valid JSON (`json()` rejects). */
  datatype Response<B> = NetworkError | Reply(ok: bool, body: Option<B>)

  /** A request the screen sends; the base address is left out. */
  datatype Request =
    | Get(path: string)
    | Patch(path: string, shipperId: Option<string>, orderId: string)

  /** The shipper profile kept in the session store. */
  datatype Shipper = Shipper(id: Option<string>, fullName: string, email: string, phone: string, avatar: Option<string>, isActive: bool)

  /** What reading the `shipperInfo` key of the session store gives: no
      (or an empty) blob, a blob that parses to a profile, the blob
      `"null"`, which parses to `null`, or a read or parse error. */
  datatype Stored = NoBlob | Blob(shipper: Shipper) | NullBlob | Unreadable

  /** An `Alert.alert(title, message)` shown to the shipper. */
  datatype Alert = Alert(title: string, message: string)

  const SuccessTitle := "Thành công"
  const ErrorTitle := "Lỗi"
  const CannotConnect := "Không thể kết nối tới server"

  // ---------------------------------------------------------------------
  // Status vocabulary and lifecycle

  /** The status strings the screens compare against, and Unknown for
      every other string. */
  datatype Status = Resolved | Processing | Delivered | Cancelled | Unknown

  function ParseStatus(s: string): (st: Status) {
    if s == "resolved" then Resolved
    else if s == "processing" then Processing
    else if s == "delivered" then Delivered
    else if s == "cancelled" then Cancelled
    else Unknown
  }

  function WireStatus(st: Status): (s: string)
    requires st != Unknown
  {
    match st
    case Resolved => "resolved"
    case Processing => "processing"
    case Delivered => "delivered"
    case Cancelled => "cancelled"
  }

  /** The four known statuses survive the trip to the wire and back. */
  lemma ParseWire(st: Status)
    requires st != Unknown
    ensures ParseStatus(WireStatus(st)) == st
  {
  }

  /** A string that parses to a known status is that status's wire form. */
  lemma WireParse(s: string)
    requires ParseStatus(s) != Unknown
    ensures WireStatus(ParseStatus(s)) == s
  {
  }

  predicate Terminal(st: Status) {
    st == Delivered || st == Cancelled
  }

  /** The lifecycle: an unclaimed order is claimed, a claimed order is
      delivered or fails, and an order may be cancelled before or after it
      is claimed. */
  predicate Step(from: Status, to: Status) {
    || (from == Resolved && to == Processing)
    || (from == Processing && to == Delivered)
    || (from == Processing && to == Cancelled)
    || (from == Resolved && to == Cancelled)
  }

  /** How far along the lifecycle a status is. */
  function Stage(st: Status): nat {
    match st
    case Resolved => 0
    case Processing => 1
    case Delivered => 2
    case Cancelled => 2
    case Unknown => 0
  }

  /** No step leaves a terminal status or an unknown one, and every step
      moves the order strictly forward, so the lifecycle has no cycles. */
  lemma StepIsMonotonic(from: Status, to: Status)
    requires Step(from, to)
    ensures !Terminal(from) && from != Unknown && to != Unknown
    ensures Stage(from) < Stage(to)
  {
  }

  // ---------------------------------------------------------------------
  // Labels and colours common to the list and the detail screen

  const AwaitingPickup := "Chờ lấy hàng"
  const AwaitingDelivery := "Chờ giao hàng"
  const DeliveredLabel := "Đã giao"
  const CancelledLabel := "Đã hủy"
  const UnknownLabel := "Không xác định"

  function Label(st: Status): (l: string) {
    match st
    case Resolved => AwaitingPickup
    case Processing => AwaitingDelivery
    case Delivered => DeliveredLabel
    case Cancelled => CancelledLabel
    case Unknown => UnknownLabel
  }

  /** Every status has its own label. */
  lemma LabelInjective(a: Status, b: Status)
    requires Label(a) == Label(b)
    ensures a == b
  {
  }

  datatype Colour = Red | Orange | Blue | Green | Gray

  function Hex(c: Colour): string {
    match c
    case Red => "#F44336"
    case Orange => "#FFB74D"
    case Blue => "#4A90E2"
    case Green => "#4CAF50"
    case Gray => "#757575"
  }
}
