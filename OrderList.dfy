/** The order list screen (app/page/order/order.tsx): which endpoint a
    list type reads, how the two reply shapes become one flat list of
    orders, how a card labels and colours its status, and which detail
    route a card opens. */
module OrderList {
  import opened OrderModel
  import OrderDetail

  /** The `type` prop: the partition the screen shows. */
  datatype ListType = New | My | Done | Cancel

  // ---------------------------------------------------------------------
  // Normalising a reply

  /** `{...item.sellers, status, createdAt, updatedAt}`: the wrapped order
      with the assignment's status and timestamps laid over it. */
  function Overlay(w: Assignment): Order {
    w.sellers.(status := w.status, createdAt := w.createdAt, updatedAt := w.updatedAt)
  }

  /** `items.map(Overlay)`. */
  function MapAssignments(ws: seq<Assignment>): (r: seq<Order>)
    ensures |r| == |ws|
  {
    if ws == [] then [] else [Overlay(ws[0])] + MapAssignments(ws[1..])
  }

  /** The mapping keeps the order of the items: result k comes from item k. */
  lemma {:induction false} MapAssignmentsAt(ws: seq<Assignment>, k: nat)
    requires k < |ws|
    ensures MapAssignments(ws)[k] == Overlay(ws[k])
  {
    if k > 0 {
      MapAssignmentsAt(ws[1..], k - 1);
    }
  }

  /** Mapping a concatenation maps each part in turn. */
  lemma {:induction false} MapAssignmentsAppend(a: seq<Assignment>, b: seq<Assignment>)
    ensures MapAssignments(a + b) == MapAssignments(a) + MapAssignments(b)
  {
    if a == [] {
      assert a + b == b;
    } else {
      assert (a + b)[1..] == a[1..] + b;
      MapAssignmentsAppend(a[1..], b);
    }
  }

  /** Every field of the wrapped order except status and the two
      timestamps passes through the overlay; those three are the
      assignment's. */
  lemma OverlayKeepsSellerFields(w: Assignment)
    ensures Overlay(w).id == w.sellers.id && Overlay(w).orderCode == w.sellers.orderCode
    ensures Overlay(w).products == w.sellers.products && Overlay(w).totalPrice == w.sellers.totalPrice
    ensures Overlay(w).status == w.status && Overlay(w).createdAt == w.createdAt && Overlay(w).updatedAt == w.updatedAt
    ensures Overlay(w).(status := w.sellers.status, createdAt := w.sellers.createdAt, updatedAt := w.sellers.updatedAt) == w.sellers
  {
  }

  /** `(data.key || []).map(...)`: a missing key gives no orders, and so
      does a value that is not an array, since `.map` then throws and the
      handler stores the empty list. */
  function FromField(f: Field<seq<Assignment>>): seq<Order> {
    if f.Present? then MapAssignments(f.value) else []
  }

  /** The key of `/api/shipper_status` a non-`new` type reads. */
  function KeyFor(t: ListType, b: ListBody): Field<seq<Assignment>>
    requires t != New
  {
    if !b.Partitions? then Absent
    else match t
      case My => b.processing
      case Done => b.delivered
      case Cancel => b.cancelled
  }

  /** The list stored after an ok reply with body `b`: the array itself for
      `new`, the mapped partition for the other types. */
  function PartitionOrders(t: ListType, b: ListBody): (r: seq<Order>)
    ensures t == New ==> r == (if b.Records? then b.orders else [])
    ensures t != New && KeyFor(t, b).Present? ==>
      |r| == |KeyFor(t, b).value| &&
      forall k :: 0 <= k < |r| ==> r[k] == Overlay(KeyFor(t, b).value[k])
    ensures t != New && !KeyFor(t, b).Present? ==> r == []
  {
    if t == New then
      if b.Records? then b.orders else []
    else
      var f := KeyFor(t, b);
      if f.Present? then
        forall k | 0 <= k < |f.value| ensures MapAssignments(f.value)[k] == Overlay(f.value[k]) {
          MapAssignmentsAt(f.value, k);
        }
        MapAssignments(f.value)
      else []
  }

  /** Each partition reads its own key: `my` the processing items, `done`
      the delivered ones, `cancel` the cancelled ones. */
  lemma PartitionReadsItsKey(b: ListBody)
    requires b.Partitions?
    ensures PartitionOrders(My, b) == FromField(b.processing)
    ensures PartitionOrders(Done, b) == FromField(b.delivered)
    ensures PartitionOrders(Cancel, b) == FromField(b.cancelled)
  {
  }

  /** Orders of a shipper partition carry the status of their assignment. */
  lemma PartitionCarriesAssignmentStatus(t: ListType, b: ListBody, k: nat)
    requires t != New && KeyFor(t, b).Present? && k < |KeyFor(t, b).value|
    ensures k < |PartitionOrders(t, b)|
    ensures PartitionOrders(t, b)[k].status == KeyFor(t, b).value[k].status
    ensures PartitionOrders(t, b)[k].id == KeyFor(t, b).value[k].sellers.id
  {
  }

  /** What a run of `fetchOrders` stores, given the reply: a failed
      request, a body that does not parse or a reply that is not ok all
      give the empty list. */
  function Received(t: ListType, reply: Response<ListBody>): (r: seq<Order>)
    ensures !(reply.Reply? && reply.ok && reply.body.Some?) ==> r == []
    ensures reply.Reply? && reply.ok && reply.body.Some? ==> r == PartitionOrders(t, reply.body.value)
  {
    if reply.Reply? && reply.ok && reply.body.Some? then PartitionOrders(t, reply.body.value) else []
  }

  /** Laying an assignment over the order it already produced changes
      nothing: the overlay is idempotent. */
  lemma OverlayIdempotent(w: Assignment)
    ensures Overlay(w.(sellers := Overlay(w))) == Overlay(w)
  {
  }

  // ---------------------------------------------------------------------
  // Card status text and colour

  function ListStatusText(t: ListType, status: string): string {
    if t == New || status == "resolved" then AwaitingPickup
    else Label(ParseStatus(status))
  }

  /** In the `new` list, or for a resolved order, the card reads
      "awaiting pickup"; a status the screen does not know reads "unknown"
      and only then. */
  lemma ListStatusTextCases(t: ListType, status: string)
    ensures t == New || status == "resolved" ==> ListStatusText(t, status) == AwaitingPickup
    ensures ListStatusText(t, status) == UnknownLabel <==> t != New && ParseStatus(status) == Unknown
  {
  }

  /** Outside the `new` list a card shows the same label as the detail
      screen. */
  lemma ListAgreesWithDetail(t: ListType, status: string)
    requires t != New
    ensures ListStatusText(t, status) == OrderDetail.DetailLabel(status)
  {
  }

  function ListStatusColour(t: ListType, status: string): Colour {
    if t == New || status == "resolved" then Orange
    else match ParseStatus(status)
      case Processing => Orange
      case Delivered => Green
      case Cancelled => Red
      case _ => Gray
  }

  /** Unclaimed and in-delivery cards share one colour (`#FFB74D`); a card
      is red (`#F44336`) exactly when it shows a cancelled order outside the
      `new` list. */
  lemma ListStatusColourCases(t: ListType, status: string)
    ensures ListStatusColour(t, status) == Orange <==> t == New || status == "resolved" || status == "processing"
    ensures ListStatusColour(t, status) == Red <==> t != New && status == "cancelled"
    ensures Hex(ListStatusColour(t, status)) == "#FFB74D" <==> t == New || status == "resolved" || status == "processing"
    ensures Hex(ListStatusColour(t, status)) == "#F44336" <==> t != New && status == "cancelled"
  {
  }

  // ---------------------------------------------------------------------
  // Detail route of a card

  function DetailRoute(t: ListType, id: string): string {
    match t
    case New => "./neworder/" + id
    case Done => "./doneorder/" + id
    case Cancel => "./cancelledorder/" + id
    case My => "./myorder/" + id
  }

  /** A card's route determines both the list type and the order id, so
      each type opens its own detail screen. */
  lemma DetailRouteInjective(t1: ListType, id1: string, t2: ListType, id2: string)
    requires DetailRoute(t1, id1) == DetailRoute(t2, id2)
    ensures t1 == t2 && id1 == id2
  {
    var r := DetailRoute(t1, id1);
    assert r[2] == DetailRoute(t2, id2)[2];
    assert t1 == t2;
    var p := |r| - |id1|;
    assert id1 == r[p..];
    assert id2 == DetailRoute(t2, id2)[p..];
  }

  // ---------------------------------------------------------------------
  // The screen's state

  class OrderListScreen {
    const listType: ListType
    /** The `shipperId` route parameter. */
    const shipperId: Option<string>
    var orders: seq<Order>
    var loading: bool
    var refreshing: bool
    var requests: seq<Request>

    constructor (listType: ListType, shipperId: Option<string>)
      ensures this.listType == listType && this.shipperId == shipperId
      ensures orders == [] && loading && !refreshing && requests == []
    {
      this.listType := listType;
      this.shipperId := shipperId;
      orders := [];
      loading := true;
      refreshing := false;
      requests := [];
    }

    /** The request a run issues: the new-order list for `new`, the
        shipper's assignments otherwise, and none without a shipper id. */
    function RequestsFor(): (rs: seq<Request>)
      reads this
      ensures |rs| <= 1
      ensures rs == [] <==> listType != New && !Given(shipperId)
      ensures listType == New ==> rs == [Get("/api/shipper")]
      ensures listType != New && Given(shipperId) ==> rs == [Get("/api/shipper_status/" + shipperId.value)]
    {
      if listType == New then [Get("/api/shipper")]
      else if Given(shipperId) then [Get("/api/shipper_status/" + shipperId.value)]
      else []
    }

    /** fetchOrders: stores the normalised list, or the empty list on every
        error path and when a shipper list has no shipper id; both busy
        flags end lowered. */
    method FetchOrders(reply: Response<ListBody>)
      modifies this`orders, this`loading, this`refreshing, this`requests
      ensures !loading && !refreshing
      ensures requests == old(requests) + RequestsFor()
      ensures orders == if RequestsFor() == [] then [] else Received(listType, reply)
    {
      loading := true;
      if listType != New && !Given(shipperId) {
        orders := [];
      } else {
        requests := requests + RequestsFor();
        if reply.NetworkError? || reply.body.None? {
          orders := [];
        } else if reply.ok {
          orders := PartitionOrders(listType, reply.body.value);
        } else {
          orders := [];
        }
      }
      loading := false;
      refreshing := false;
    }

    /** Pull to refresh: raises the refreshing flag and runs fetchOrders. */
    method OnRefresh(reply: Response<ListBody>)
      modifies this`orders, this`loading, this`refreshing, this`requests
      ensures !loading && !refreshing
      ensures requests == old(requests) + RequestsFor()
      ensures orders == if RequestsFor() == [] then [] else Received(listType, reply)
    {
      refreshing := true;
      FetchOrders(reply);
    }
  }
}
