/** The order detail screen (app/page/order/orderdetail/orderdetailCpn.tsx):
    which controls it offers for a view type and a status, how it labels
    and colours the status, how it normalises the fetched order, and how
    its accept, complete and cancel handlers change the local state once
    the server replies. */
module OrderDetail {
  import opened OrderModel

  /** The `type` prop: which list the detail screen was opened from. */
  datatype DetailType = New | My | Completed | Cancel

  // ---------------------------------------------------------------------
  // Controls

  /** What is shown under the order card: the accept button, the
      complete and fail buttons, the cancel button, and the informational
      "this order was cancelled" message. */
  datatype Controls = Controls(accept: bool, complete: bool, fail: bool, cancel: bool, cancelledNotice: bool)

  /** The server operation a button triggers; the fail button and the
      cancel button both call the cancel handler. */
  datatype Action = AcceptOrder | CompleteOrder | CancelOrder

  function ControlsFor(t: DetailType, status: string): Controls {
    var st := ParseStatus(status);
    Controls(
      t == New && st == Resolved,
      t == My && st == Processing,
      t == My && st == Processing,
      t == Cancel && (st == Resolved || st == Processing),
      t == Cancel && st == Cancelled)
  }

  predicate Offers(c: Controls, a: Action) {
    match a
    case AcceptOrder => c.accept
    case CompleteOrder => c.complete
    case CancelOrder => c.fail || c.cancel
  }

  /** The status the server moves the order to when the action succeeds. */
  function ServerTarget(a: Action): Status {
    match a
    case AcceptOrder => Processing
    case CompleteOrder => Delivered
    case CancelOrder => Cancelled
  }

  /** Accept is offered exactly in the `new` view on a `resolved` order. */
  lemma AcceptOffered(t: DetailType, status: string)
    ensures ControlsFor(t, status).accept <==> t == New && status == "resolved"
  {
  }

  /** Complete and fail come together, exactly in the `my` view on a
      `processing` order. */
  lemma CompleteAndFailTogether(t: DetailType, status: string)
    ensures ControlsFor(t, status).complete == ControlsFor(t, status).fail
    ensures ControlsFor(t, status).complete <==> t == My && status == "processing"
  {
  }

  /** The cancel button appears exactly in the `cancel` view on an order
      that is unclaimed or being delivered. */
  lemma CancelButtonOffered(t: DetailType, status: string)
    ensures ControlsFor(t, status).cancel <==> t == Cancel && (status == "resolved" || status == "processing")
  {
  }

  /** On a delivered or cancelled order no view offers any action; only the
      `cancel` view on a cancelled order shows the message. */
  lemma TerminalOffersNothing(t: DetailType, status: string)
    requires status == "delivered" || status == "cancelled"
    ensures forall a :: !Offers(ControlsFor(t, status), a)
    ensures ControlsFor(t, status).cancelledNotice <==> t == Cancel && status == "cancelled"
  {
  }

  /** A status the screen does not know offers nothing and shows nothing. */
  lemma UnknownOffersNothing(t: DetailType, status: string)
    requires ParseStatus(status) == Unknown
    ensures ControlsFor(t, status) == Controls(false, false, false, false, false)
  {
  }

  /** Every action the screen offers asks the server for a legal step of
      the lifecycle. */
  lemma OfferedActionFollowsLifecycle(t: DetailType, status: string, a: Action)
    requires Offers(ControlsFor(t, status), a)
    ensures Step(ParseStatus(status), ServerTarget(a))
  {
  }

  // ---------------------------------------------------------------------
  // Local effect of a successful reply

  /** The local order after the server accepted the action: accept and
      cancel rewrite only `status` (object spread), complete leaves the
      order as it is and leaves the screen instead. */
  function AfterSuccess(a: Action, o: Order): (r: Order)
    ensures r == o.(status := r.status)
    ensures a == CompleteOrder ==> r == o
    ensures a != CompleteOrder ==> ParseStatus(r.status) == ServerTarget(a)
  {
    match a
    case AcceptOrder => o.(status := "processing")
    case CompleteOrder => o
    case CancelOrder => o.(status := "cancelled")
  }

  /** When accept or cancel was offered and succeeds, the local order takes
      exactly the lifecycle step the server took. */
  lemma LocalUpdateIsLifecycleStep(t: DetailType, o: Order, a: Action)
    requires Offers(ControlsFor(t, o.status), a) && a != CompleteOrder
    ensures Step(ParseStatus(o.status), ParseStatus(AfterSuccess(a, o).status))
    ensures !Terminal(ParseStatus(o.status)) && Terminal(ParseStatus(AfterSuccess(a, o).status)) == (a == CancelOrder)
  {
  }

  /** A reply counts as a success when it arrived with `ok` set and a body
      that parses. */
  predicate Succeeded(reply: Response<Ack>) {
    reply.Reply? && reply.ok && reply.body.Some?
  }

  function Endpoint(a: Action): string {
    match a
    case AcceptOrder => "/api/shipper_accept"
    case CompleteOrder => "/api/shipper_complete"
    case CancelOrder => "/api/shipper_cancel"
  }

  /** `m ?? d`: the server message whenever there is one, even empty. */
  function Coalesce(m: Option<string>, d: string): string {
    if m.Some? then m.value else d
  }

  /** `m || d`: the server message only when it is non-empty. */
  function OrElse(m: Option<string>, d: string): string {
    if Given(m) then m.value else d
  }

  /** The alert each handler shows for a reply: success, the server's
      message (the accept handler keeps an empty one, the others replace it
      with their default), or the connection error when the request or the
      body parse failed. */
  function Outcome(a: Action, reply: Response<Ack>): (al: Alert)
    ensures al.title == SuccessTitle <==> Succeeded(reply)
    ensures (reply.NetworkError? || reply.body.None?) ==> al == Alert(ErrorTitle, CannotConnect)
    ensures Succeeded(reply) && a == AcceptOrder ==> al.message == "Bạn đã nhận đơn hàng!"
    ensures Succeeded(reply) && a == CompleteOrder ==> al.message == "Đơn hàng đã hoàn thành!"
    ensures Succeeded(reply) && a == CancelOrder ==> al.message == "Đơn hàng đã bị hủy!"
  {
    if reply.NetworkError? || reply.body.None? then Alert(ErrorTitle, CannotConnect)
    else if reply.ok then
      match a
      case AcceptOrder => Alert(SuccessTitle, "Bạn đã nhận đơn hàng!")
      case CompleteOrder => Alert(SuccessTitle, "Đơn hàng đã hoàn thành!")
      case CancelOrder => Alert(SuccessTitle, "Đơn hàng đã bị hủy!")
    else
      var m := reply.body.value.message;
      match a
      case AcceptOrder => Alert(ErrorTitle, Coalesce(m, "Không thể nhận đơn hàng"))
      case CompleteOrder => Alert(ErrorTitle, OrElse(m, "Không thể hoàn thành đơn hàng"))
      case CancelOrder => Alert(ErrorTitle, OrElse(m, "Không thể hủy đơn hàng"))
  }

  /** A reply that is not ok shows an error alert with the server's
      message: the accept handler shows any message it is sent, even an
      empty one, while the complete and cancel handlers fall back to their
      default when the message is missing or empty. */
  lemma RejectionMessage(m: Option<string>)
    ensures Outcome(AcceptOrder, Reply(false, Some(Ack(m)))) == Alert(ErrorTitle, if m.Some? then m.value else "Không thể nhận đơn hàng")
    ensures Outcome(CompleteOrder, Reply(false, Some(Ack(m)))) == Alert(ErrorTitle, if Given(m) then m.value else "Không thể hoàn thành đơn hàng")
    ensures Outcome(CancelOrder, Reply(false, Some(Ack(m)))) == Alert(ErrorTitle, if Given(m) then m.value else "Không thể hủy đơn hàng")
  {
  }

  // ---------------------------------------------------------------------
  // Status label and colour

  function DetailLabel(status: string): string {
    Label(ParseStatus(status))
  }

  /** The label is "unknown" exactly for the strings outside the four
      known statuses. */
  lemma DetailLabelUnknown(status: string)
    ensures DetailLabel(status) == UnknownLabel <==> ParseStatus(status) == Unknown
  {
  }

  /** Two strings with the same label that is not "unknown" are the same
      status string. */
  lemma DetailLabelDistinct(s1: string, s2: string)
    requires ParseStatus(s1) != Unknown
    requires DetailLabel(s1) == DetailLabel(s2)
    ensures s1 == s2
  {
  }

  function DetailColour(t: DetailType, status: string): Colour {
    if status == "cancelled" || t == Cancel then Red
    else match ParseStatus(status)
      case Resolved => Orange
      case Processing => Blue
      case Delivered => Green
      case _ => Gray
  }

  /** Red (`#F44336`) exactly when the order is cancelled or the view is
      `cancel`; an order being delivered is blue (`#4A90E2`) only here. */
  lemma DetailColourRed(t: DetailType, status: string)
    ensures DetailColour(t, status) == Red <==> status == "cancelled" || t == Cancel
    ensures Hex(DetailColour(t, status)) == "#F44336" <==> status == "cancelled" || t == Cancel
    ensures Hex(DetailColour(t, status)) == "#4A90E2" <==> status == "processing" && t != Cancel
  {
  }

  // ---------------------------------------------------------------------
  // Normalising the fetched order

  /** A product, not `null`, whose `_id` is a non-empty string. */
  predicate HasValidId(p: Product) {
    p.Product? && Given(p.id)
  }

  /** Where `products.some(p => !p._id || typeof p._id !== 'string')`
      stops: the index of the first entry that is not a product with a
      valid id, or the length when there is none. */
  function FirstFault(ps: seq<Product>): (k: nat)
    ensures k <= |ps|
    ensures forall j :: 0 <= j < k ==> HasValidId(ps[j])
    ensures k < |ps| ==> !HasValidId(ps[k])
  {
    if ps == [] then 0
    else if !HasValidId(ps[0]) then 0
    else
      var k := FirstFault(ps[1..]);
      assert forall j :: 1 <= j < k + 1 ==> ps[j] == ps[1..][j - 1];
      k + 1
  }

  /** The outcome of that `some`: a `null` entry where it stops makes it
      throw (None), any other entry there makes it answer true. */
  function SomeInvalidId(ps: seq<Product>): (r: Option<bool>)
    ensures r == Some(false) <==> forall i :: 0 <= i < |ps| ==> HasValidId(ps[i])
    ensures r.None? <==> exists i :: 0 <= i < |ps| && ps[i].NullItem? && forall j :: 0 <= j < i ==> HasValidId(ps[j])
    ensures r == Some(true) <==> exists i :: 0 <= i < |ps| && ps[i].Product? && !Given(ps[i].id) && forall j :: 0 <= j < i ==> HasValidId(ps[j])
  {
    var k := FirstFault(ps);
    if k == |ps| then Some(false)
    else if ps[k].NullItem? then None
    else Some(true)
  }

  /** Checking the ids of a fetched order throws: its products are an
      array whose first entry without a valid id is `null`. */
  predicate ProductCheckThrows(o: Order) {
    o.products.Items? && SomeInvalidId(o.products.items).None?
  }

  /** A `products` value that is not an array becomes the empty array; an
      array is kept as it is, whatever its items' ids; nothing else of the
      order changes. */
  function NormalizeProducts(o: Order): (r: Order)
    ensures r.products.Items?
    ensures o.products.Items? ==> r == o
    ensures o.products.NotAnArray? ==> r.products.items == []
    ensures r == o.(products := r.products)
  {
    if o.products.Items? then o else o.(products := Items([]))
  }

  /** Normalising a normalised order changes nothing. */
  lemma NormalizeIdempotent(o: Order)
    ensures NormalizeProducts(NormalizeProducts(o)) == NormalizeProducts(o)
  {
  }

  /** A diagnostic written to the console while normalising. */
  datatype Warning = InvalidProductIds | ProductsMissing

  /** The warnings of a check that did not throw. */
  function ProductWarnings(o: Order): (w: seq<Warning>)
    requires !ProductCheckThrows(o)
    ensures w == [ProductsMissing] <==> o.products.NotAnArray?
    ensures w == [InvalidProductIds] <==> o.products.Items? && exists i :: 0 <= i < |o.products.items| && !HasValidId(o.products.items[i])
    ensures w == [] <==> o.products.Items? && forall i :: 0 <= i < |o.products.items| ==> HasValidId(o.products.items[i])
  {
    match o.products
    case NotAnArray => [ProductsMissing]
    case Items(ps) => if SomeInvalidId(ps) == Some(false) then [] else [InvalidProductIds]
  }

  // ---------------------------------------------------------------------
  // The screen's state

  const HomeRoute := "/page/Home"

  class OrderDetailScreen {
    const viewType: DetailType
    /** The `id` route parameter; empty when it is missing. */
    const orderId: string
    var order: Option<Order>
    /** The `_id` of the stored shipper, sent with every action. */
    var shipperId: Option<string>
    var loading: bool
    /** Every value given to `setLoading`, in order. */
    ghost var loadingTrace: seq<bool>
    var alerts: seq<Alert>
    var warnings: seq<Warning>
    var requests: seq<Request>
    var navigations: seq<string>

    constructor (viewType: DetailType, orderId: string)
      ensures this.viewType == viewType && this.orderId == orderId
      ensures order == None && shipperId == None && loading && loadingTrace == []
      ensures alerts == [] && warnings == [] && requests == [] && navigations == []
    {
      this.viewType := viewType;
      this.orderId := orderId;
      order := None;
      shipperId := None;
      loading := true;
      loadingTrace := [];
      alerts := [];
      warnings := [];
      requests := [];
      navigations := [];
    }

    /** The controls on screen: none while loading (a spinner replaces
        the screen) or when there is no order, the table otherwise. */
    function VisibleControls(): (c: Controls)
      reads this`loading, this`order
      ensures loading || order.None? ==> c == Controls(false, false, false, false, false)
      ensures !loading && order.Some? ==> c == ControlsFor(viewType, order.value.status)
      ensures forall a :: Offers(c, a) ==> !loading && order.Some? && Step(ParseStatus(order.value.status), ServerTarget(a))
      ensures c.accept <==> !loading && order.Some? && viewType == New && order.value.status == "resolved"
      ensures c.complete <==> !loading && order.Some? && viewType == My && order.value.status == "processing"
      ensures c.cancel <==> !loading && order.Some? && viewType == Cancel && (order.value.status == "resolved" || order.value.status == "processing")
      ensures c.cancelledNotice <==> !loading && order.Some? && viewType == Cancel && order.value.status == "cancelled"
    {
      if loading || order.None? then Controls(false, false, false, false, false)
      else ControlsFor(viewType, order.value.status)
    }

    method SetLoading(b: bool)
      modifies this`loading, this`loadingTrace
      ensures loading == b && loadingTrace == old(loadingTrace) + [b]
    {
      loading := b;
      loadingTrace := loadingTrace + [b];
    }

    /** Reads the shipper id from the session store; a missing blob, a
        read error, or a blob that parses to `null` (reading its `_id`
        throws and the error is swallowed) leaves it as it was. */
    method LoadShipperId(stored: Stored)
      modifies this`shipperId
      ensures shipperId == if stored.Blob? then stored.shipper.id else old(shipperId)
    {
      if stored.Blob? {
        shipperId := stored.shipper.id;
      }
    }

    /** Fetches the order named by the route, or reports that the route has
        no id. Only an ok reply with a parsed body whose id check does not
        throw replaces the order; a throwing check is reported like a
        connection error. */
    method LoadOrder(reply: Response<Order>)
      modifies this`order, this`loading, this`loadingTrace, this`alerts, this`warnings, this`requests
      ensures !loading
      ensures orderId == "" ==>
        && loadingTrace == old(loadingTrace) + [false]
        && requests == old(requests)
        && alerts == old(alerts) + [Alert(ErrorTitle, "Không tìm thấy ID đơn hàng")]
        && order == old(order) && warnings == old(warnings)
      ensures orderId != "" ==>
        && loadingTrace == old(loadingTrace) + [true, false]
        && requests == old(requests) + [Get("/api/orders/" + orderId)]
      ensures orderId != "" && reply.Reply? && reply.ok && reply.body.Some? && !ProductCheckThrows(reply.body.value) ==>
        && order == Some(NormalizeProducts(reply.body.value))
        && warnings == old(warnings) + ProductWarnings(reply.body.value)
        && alerts == old(alerts)
      ensures orderId != "" && reply.Reply? && !reply.ok && reply.body.Some? ==>
        && order == old(order) && warnings == old(warnings)
        && alerts == old(alerts) + [Alert(ErrorTitle, "Không thể tải chi tiết đơn hàng")]
      ensures orderId != "" && (reply.NetworkError? || reply.body.None? || (reply.ok && ProductCheckThrows(reply.body.value))) ==>
        && order == old(order) && warnings == old(warnings)
        && alerts == old(alerts) + [Alert(ErrorTitle, CannotConnect)]
    {
      if orderId == "" {
        SetLoading(false);
        alerts := alerts + [Alert(ErrorTitle, "Không tìm thấy ID đơn hàng")];
        return;
      }
      SetLoading(true);
      requests := requests + [Get("/api/orders/" + orderId)];
      if reply.NetworkError? || reply.body.None? {
        alerts := alerts + [Alert(ErrorTitle, CannotConnect)];
      } else if reply.ok && ProductCheckThrows(reply.body.value) {
        alerts := alerts + [Alert(ErrorTitle, CannotConnect)];
      } else if reply.ok {
        var data := reply.body.value;
        warnings := warnings + ProductWarnings(data);
        order := Some(NormalizeProducts(data));
      } else {
        alerts := alerts + [Alert(ErrorTitle, "Không thể tải chi tiết đơn hàng")];
      }
      SetLoading(false);
    }

    /** handleAcceptOrder: only a successful reply moves the local order to
        `processing`; the busy flag is raised first and lowered on every
        path.
        `id` is the shown order's `_id`, which the button passes. */
    method HandleAccept(id: string, reply: Response<Ack>)
      requires order.Some? && id == order.value.id
      modifies this`order, this`loading, this`loadingTrace, this`alerts, this`requests
      ensures loadingTrace == old(loadingTrace) + [true, false] && !loading
      ensures requests == old(requests) + [Patch(Endpoint(AcceptOrder), shipperId, id)]
      ensures order == if Succeeded(reply) then Some(AfterSuccess(AcceptOrder, old(order).value)) else old(order)
      ensures alerts == old(alerts) + [Outcome(AcceptOrder, reply)]
      ensures Succeeded(reply) ==> !Offers(VisibleControls(), AcceptOrder)
    {
      SetLoading(true);
      requests := requests + [Patch(Endpoint(AcceptOrder), shipperId, id)];
      if Succeeded(reply) {
        order := Some(order.value.(status := "processing"));
      }
      alerts := alerts + [Outcome(AcceptOrder, reply)];
      SetLoading(false);
    }

    /** handleCompleteOrder: a successful reply leaves the local order as it
        is and navigates to Home.
        `id` is the shown order's `_id`, which the button passes. */
    method HandleComplete(id: string, reply: Response<Ack>)
      requires order.Some? && id == order.value.id
      modifies this`loading, this`loadingTrace, this`alerts, this`requests, this`navigations
      ensures loadingTrace == old(loadingTrace) + [true, false] && !loading
      ensures requests == old(requests) + [Patch(Endpoint(CompleteOrder), shipperId, id)]
      ensures navigations == if Succeeded(reply) then old(navigations) + [HomeRoute] else old(navigations)
      ensures alerts == old(alerts) + [Outcome(CompleteOrder, reply)]
    {
      SetLoading(true);
      requests := requests + [Patch(Endpoint(CompleteOrder), shipperId, id)];
      alerts := alerts + [Outcome(CompleteOrder, reply)];
      if Succeeded(reply) {
        navigations := navigations + [HomeRoute];
      }
      SetLoading(false);
    }

    /** handleCancelOrder (the fail and the cancel buttons): a successful
        reply moves the local order to `cancelled` and navigates to Home.
        `id` is the shown order's `_id`, which the button passes. */
    method HandleCancel(id: string, reply: Response<Ack>)
      requires order.Some? && id == order.value.id
      modifies this`order, this`loading, this`loadingTrace, this`alerts, this`requests, this`navigations
      ensures loadingTrace == old(loadingTrace) + [true, false] && !loading
      ensures requests == old(requests) + [Patch(Endpoint(CancelOrder), shipperId, id)]
      ensures order == if Succeeded(reply) then Some(AfterSuccess(CancelOrder, old(order).value)) else old(order)
      ensures navigations == if Succeeded(reply) then old(navigations) + [HomeRoute] else old(navigations)
      ensures alerts == old(alerts) + [Outcome(CancelOrder, reply)]
      ensures Succeeded(reply) ==> forall a :: !Offers(VisibleControls(), a)
    {
      SetLoading(true);
      requests := requests + [Patch(Endpoint(CancelOrder), shipperId, id)];
      if Succeeded(reply) {
        order := Some(order.value.(status := "cancelled"));
        alerts := alerts + [Outcome(CancelOrder, reply)];
        navigations := navigations + [HomeRoute];
      } else {
        alerts := alerts + [Outcome(CancelOrder, reply)];
      }
      SetLoading(false);
    }
  }
}
