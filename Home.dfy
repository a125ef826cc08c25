/** The dashboard (app/page/Home.tsx): the signed-in shipper read from the
    session store, the order counts per partition, their total and the
    completion rate, and the navigation behind the dashboard cards. */
module Home {
  import opened OrderModel
  import OrderList

  // ---------------------------------------------------------------------
  // Counts

  /** The dashboard counts. `newOrders` is None when the new-order body was
      not an array, where `dataOrder.length` is `undefined`. */
  datatype Stats = Stats(newOrders: Option<nat>, processingOrders: nat, completedOrders: nat, cancelledOrders: nat)

  const InitialStats := Stats(Some(0), 0, 0, 0)

  /** `data.key?.length || 0`: the number of items of an array, the
      `length` of any other value, 0 for a missing key. */
  function FieldLength(f: Field<seq<Assignment>>): nat {
    match f
    case Absent => 0
    case Present(items) => |items|
    case Malformed(n) => n
  }

  /** A count shown for a shipper partition against the list the order
      list screen shows for it: the list's length, except for a key that is
      not an array, which the dashboard counts by its `length` while the
      list screen shows no order. */
  predicate CountMatchesList(n: nat, t: OrderList.ListType, b: ListBody)
    requires t != OrderList.New
  {
    var f := OrderList.KeyFor(t, b);
    if f.Malformed? then n == f.length && OrderList.PartitionOrders(t, b) == []
    else n == |OrderList.PartitionOrders(t, b)|
  }

  /** What the dashboard counts for the keys of a status body that are not
      arrays, none of which the list screen shows. */
  function UnlistedCount(b: ListBody): nat {
    if b.Partitions? then Unlisted(b.processing) + Unlisted(b.delivered) + Unlisted(b.cancelled) else 0
  }

  /** The `length` of a key that is not an array, 0 for any other key. */
  function Unlisted(f: Field<seq<Assignment>>): nat {
    if f.Malformed? then f.length else 0
  }

  /** `dataOrder.length`. */
  function NewCount(b: ListBody): Option<nat> {
    if b.Records? then Some(|b.orders|) else None
  }

  /** The counts read from the two parsed bodies, or None when reading
      them throws (a `null` body). Each count is the length of the list
      the order list screen shows for the same body, up to keys that are
      not arrays. */
  function StatsFrom(newBody: ListBody, statusBody: ListBody): (r: Option<Stats>)
    ensures r.None? <==> newBody.Null? || statusBody.Null?
    ensures r.Some? && newBody.Records? ==> r.value.newOrders == Some(|OrderList.PartitionOrders(OrderList.New, newBody)|)
    ensures r.Some? && !newBody.Records? ==> r.value.newOrders == None
    ensures r.Some? ==> CountMatchesList(r.value.processingOrders, OrderList.My, statusBody)
    ensures r.Some? ==> CountMatchesList(r.value.completedOrders, OrderList.Done, statusBody)
    ensures r.Some? ==> CountMatchesList(r.value.cancelledOrders, OrderList.Cancel, statusBody)
  {
    if newBody.Null? || statusBody.Null? then None
    else if statusBody.Partitions? then
      Some(Stats(NewCount(newBody), FieldLength(statusBody.processing), FieldLength(statusBody.delivered), FieldLength(statusBody.cancelled)))
    else
      Some(Stats(NewCount(newBody), 0, 0, 0))
  }

  /** The counts a `fetchStats` run stores given its two replies, or None
      when it leaves the old counts: a failed request, a reply that is not
      ok, a body that does not parse, or a `null` body. */
  function StatsUpdate(resNew: Response<ListBody>, resStatus: Response<ListBody>): (r: Option<Stats>)
    ensures r.Some? ==> resNew.Reply? && resNew.ok && resStatus.Reply? && resStatus.ok
    ensures r.Some? ==> resNew.body.Some? && resStatus.body.Some?
    ensures r.Some? ==> r == StatsFrom(resNew.body.value, resStatus.body.value)
    ensures resNew.Reply? && resNew.ok && resStatus.Reply? && resStatus.ok && resNew.body.Some? && resStatus.body.Some? ==>
      r == StatsFrom(resNew.body.value, resStatus.body.value)
  {
    if resNew.Reply? && resNew.ok && resStatus.Reply? && resStatus.ok && resNew.body.Some? && resStatus.body.Some?
    then StatsFrom(resNew.body.value, resStatus.body.value)
    else None
  }

  /** The sum shown as the total; `undefined + n` is NaN, modelled as None. */
  function Total(s: Stats): (r: Option<nat>)
    ensures r.None? <==> s.newOrders.None?
  {
    if s.newOrders.Some? then Some(s.newOrders.value + s.processingOrders + s.completedOrders + s.cancelledOrders)
    else None
  }

  /** When the new-order body is an array, the total is the number of orders
      over the four lists the order list screen shows, plus what is counted
      for partition keys that are not arrays. */
  lemma TotalCountsEveryList(newBody: ListBody, statusBody: ListBody)
    requires newBody.Records? && !statusBody.Null?
    ensures StatsFrom(newBody, statusBody).Some?
    ensures Total(StatsFrom(newBody, statusBody).value) == Some(
      |OrderList.PartitionOrders(OrderList.New, newBody)| +
      |OrderList.PartitionOrders(OrderList.My, statusBody)| +
      |OrderList.PartitionOrders(OrderList.Done, statusBody)| +
      |OrderList.PartitionOrders(OrderList.Cancel, statusBody)| +
      UnlistedCount(statusBody))
  {
  }

  // ---------------------------------------------------------------------
  // Completion rate

  /** `Math.round(100 * c / d)` for `0 <= c <= d` and `d > 0`, in integers:
      half rounds up. */
  function RoundedPercent(c: nat, d: nat): (p: nat)
    requires 0 < d && c <= d
    ensures p <= 100
    ensures 2 * d * p <= 200 * c + d < 2 * d * (p + 1)
  {
    var n := 200 * c + d;
    var q := n / (2 * d);
    assert n == 2 * d * q + n % (2 * d);
    QuotientAtMost(2 * d, n, q, 100);
    q
  }

  /** A quotient whose divisor times `m + 1` exceeds the dividend is at
      most `m`. */
  lemma QuotientAtMost(k: nat, n: nat, q: nat, m: nat)
    requires 0 < k && k * q <= n < k * (m + 1)
    ensures q <= m
  {
  }

  /** The completion rate shown on the dashboard: None when there is
      neither a completed nor a cancelled order, where the source divides
      0 by 0 and shows NaN. */
  function CompletionRate(s: Stats): (r: Option<nat>)
    ensures r.None? <==> s.completedOrders + s.cancelledOrders == 0
    ensures r.Some? ==> r.value <= 100
    ensures r.Some? ==>
      var c, d := s.completedOrders, s.completedOrders + s.cancelledOrders;
      2 * d * r.value <= 200 * c + d < 2 * d * (r.value + 1)
  {
    var d := s.completedOrders + s.cancelledOrders;
    if d == 0 then None else Some(RoundedPercent(s.completedOrders, d))
  }

  /** The integer rate is the exact percentage `100 * c / d` rounded to the
      nearest integer with halves rounded up, as `Math.round` does. */
  lemma RateIsRoundedPercentage(s: Stats)
    requires s.completedOrders + s.cancelledOrders > 0
    ensures CompletionRate(s).Some?
    ensures CompletionRate(s).value == ((100 * s.completedOrders) as real / (s.completedOrders + s.cancelledOrders) as real + 0.5).Floor
  {
    var c, d := s.completedOrders, s.completedOrders + s.cancelledOrders;
    var p := CompletionRate(s).value;
    var x := (100 * c) as real / d as real + 0.5;
    var D, P, C := d as real, p as real, c as real;
    assert 2.0 * D * P <= 200.0 * C + D < 2.0 * D * (P + 1.0);
    assert x == (200.0 * C + D) / (2.0 * D);
    assert P <= x by {
      DivideBounds(P, 200.0 * C + D, 2.0 * D);
    }
    assert x < P + 1.0 by {
      DivideBoundsStrict(200.0 * C + D, P + 1.0, 2.0 * D);
    }
  }

  lemma DivideBounds(a: real, b: real, k: real)
    requires k > 0.0 && k * a <= b
    ensures a <= b / k
  {
  }

  lemma DivideBoundsStrict(b: real, a: real, k: real)
    requires k > 0.0 && b < k * a
    ensures b / k < a
  {
  }

  /** With no cancelled order the rate is 100; with no completed order it
      is 0. */
  lemma RateExtremes(s: Stats)
    requires s.completedOrders + s.cancelledOrders > 0
    ensures s.cancelledOrders == 0 ==> CompletionRate(s) == Some(100)
    ensures s.completedOrders == 0 ==> CompletionRate(s) == Some(0)
  {
    var c, d := s.completedOrders, s.completedOrders + s.cancelledOrders;
    var p := CompletionRate(s).value;
    // Dafny finds both cases unaided; the calls name the argument: the
    // rate's bracket and the bracket of 100 (or 0) are the same bracket.
    if s.cancelledOrders == 0 {
      BracketUnique(2 * d, 200 * c + d, p, 100);
    }
    if c == 0 {
      BracketUnique(2 * d, 200 * c + d, p, 0);
    }
  }

  /** At most one multiple bracket `k * p <= n < k * (p + 1)` holds. */
  lemma BracketUnique(k: nat, n: nat, p: nat, q: nat)
    requires k * p <= n < k * (p + 1)
    requires k * q <= n < k * (q + 1)
    ensures p == q
  {
  }

  // ---------------------------------------------------------------------
  // Navigation from the dashboard cards

  datatype Target = NewOrders | MyOrders | DoneOrders | CancelledOrders | Notifications

  /** `router.push({ pathname, params: { shipperId } })`. */
  datatype Nav = Nav(pathname: string, shipperId: string)

  function TargetPath(t: Target): string {
    match t
    case NewOrders => "./order/neworder"
    case MyOrders => "./order/myorder"
    case DoneOrders => "./order/doneorder"
    case CancelledOrders => "./order/cancelorder"
    case Notifications => "./notifications"
  }

  /** Each card leads to its own route. */
  lemma TargetPathInjective(a: Target, b: Target)
    requires TargetPath(a) == TargetPath(b)
    ensures a == b
  {
  }

  /** `shipperInfo?._id` when it is a non-empty string. */
  function ShipperIdOf(info: Option<Shipper>): (r: Option<string>)
    ensures r.Some? <==> info.Some? && Given(info.value.id)
    ensures r.Some? ==> r == info.value.id
  {
    if info.Some? && Given(info.value.id) then info.value.id else None
  }

  /** handleClick: no navigation without a shipper id; otherwise the card's
      route carrying that id. */
  function ClickNavigation(info: Option<Shipper>, t: Target): (r: Option<Nav>)
    ensures r.None? <==> ShipperIdOf(info).None?
    ensures r.Some? ==> r.value.shipperId == ShipperIdOf(info).value && r.value.shipperId != ""
    ensures r.Some? ==> r.value.pathname == TargetPath(t)
  {
    var id := ShipperIdOf(info);
    if id.None? then None else Some(Nav(TargetPath(t), id.value))
  }

  /** Two different cards never push the same route. */
  lemma ClickRoutesDistinct(info: Option<Shipper>, a: Target, b: Target)
    requires a != b && ClickNavigation(info, a).Some?
    ensures ClickNavigation(info, b).Some?
    ensures ClickNavigation(info, a) != ClickNavigation(info, b)
  {
    if TargetPath(a) == TargetPath(b) {
      TargetPathInjective(a, b);
    }
  }

  /** The requests `fetchStats` issues: none when the screen is signed out
      or the shipper has no id, both list endpoints otherwise. */
  function StatsRequests(authenticated: bool, info: Option<Shipper>): (rs: seq<Request>)
    ensures rs == [] <==> !authenticated || ShipperIdOf(info).None?
    ensures rs != [] ==> |rs| == 2 && rs[0] == Get("/api/shipper/")
    ensures rs != [] ==> rs[1] == Get("/api/shipper_status/" + ShipperIdOf(info).value)
  {
    if authenticated && ShipperIdOf(info).Some? then
      [Get("/api/shipper/"), Get("/api/shipper_status/" + ShipperIdOf(info).value)]
    else []
  }

  // ---------------------------------------------------------------------
  // The screen's state

  class HomeScreen {
    var isAuthenticated: bool
    var shipperInfo: Option<Shipper>
    var stats: Stats
    var refreshing: bool
    var requests: seq<Request>
    var navigations: seq<Nav>

    constructor ()
      ensures isAuthenticated && shipperInfo == None && stats == InitialStats && !refreshing
      ensures requests == [] && navigations == []
    {
      isAuthenticated := true;
      shipperInfo := None;
      stats := InitialStats;
      refreshing := false;
      requests := [];
      navigations := [];
    }

    /** The screen redirects to the login route instead of rendering. */
    predicate RedirectsToLogin()
      reads this`isAuthenticated
    {
      !isAuthenticated
    }

    /** fetchShipperInfo: a missing blob or a read or parse error signs the
        screen out; a blob replaces the shipper and leaves the flag as it
        was, and one that parses to `null` leaves the screen signed in with
        no shipper, so with no shipper id. */
    method FetchShipperInfo(stored: Stored)
      modifies this`isAuthenticated, this`shipperInfo
      ensures isAuthenticated == (old(isAuthenticated) && (stored.Blob? || stored.NullBlob?))
      ensures shipperInfo == if stored.Blob? then Some(stored.shipper) else if stored.NullBlob? then None else old(shipperInfo)
      ensures stored.NoBlob? || stored.Unreadable? ==> RedirectsToLogin()
      ensures stored.NullBlob? ==> ShipperIdOf(shipperInfo).None? && StatsRequests(isAuthenticated, shipperInfo) == []
    {
      match stored
      case Blob(shipper) =>
        shipperInfo := Some(shipper);
      case NullBlob =>
        shipperInfo := None;
      case _ =>
        isAuthenticated := false;
    }

    /** fetchStats: does nothing when signed out or without a shipper id;
        otherwise queries both endpoints and stores new counts only when
        both replies are ok and their bodies can be read. */
    method FetchStats(resNew: Response<ListBody>, resStatus: Response<ListBody>)
      modifies this`stats, this`requests
      ensures requests == old(requests) + StatsRequests(isAuthenticated, shipperInfo)
      ensures stats ==
        if StatsRequests(isAuthenticated, shipperInfo) != [] && StatsUpdate(resNew, resStatus).Some?
        then StatsUpdate(resNew, resStatus).value
        else old(stats)
    {
      var id := ShipperIdOf(shipperInfo);
      if !isAuthenticated || id.None? {
        return;
      }
      requests := requests + [Get("/api/shipper/"), Get("/api/shipper_status/" + id.value)];
      if resNew.NetworkError? || resStatus.NetworkError? {
        return;
      }
      if !resNew.ok || !resStatus.ok {
        return;
      }
      if resNew.body.None? || resStatus.body.None? {
        return;
      }
      var counts := StatsFrom(resNew.body.value, resStatus.body.value);
      if counts.Some? {
        stats := counts.value;
      }
    }

    /** onRefresh: both loads start from the state the screen rendered
        with, so the counts are fetched for the shipper known before the
        session is read again; the two touch disjoint state. */
    method OnRefresh(stored: Stored, resNew: Response<ListBody>, resStatus: Response<ListBody>)
      modifies this`isAuthenticated, this`shipperInfo, this`stats, this`refreshing, this`requests
      ensures !refreshing
      ensures requests == old(requests) + StatsRequests(old(isAuthenticated), old(shipperInfo))
      ensures stats ==
        if StatsRequests(old(isAuthenticated), old(shipperInfo)) != [] && StatsUpdate(resNew, resStatus).Some?
        then StatsUpdate(resNew, resStatus).value
        else old(stats)
      ensures isAuthenticated == (old(isAuthenticated) && (stored.Blob? || stored.NullBlob?))
      ensures shipperInfo == if stored.Blob? then Some(stored.shipper) else if stored.NullBlob? then None else old(shipperInfo)
    {
      refreshing := true;
      FetchStats(resNew, resStatus);
      FetchShipperInfo(stored);
      refreshing := false;
    }

    /** handleClick: pushes the card's route when the shipper has an id. */
    method HandleClick(t: Target)
      modifies this`navigations
      ensures navigations == old(navigations) + (if ClickNavigation(shipperInfo, t).Some? then [ClickNavigation(shipperInfo, t).value] else [])
    {
      var id := ShipperIdOf(shipperInfo);
      if id.None? {
        return;
      }
      navigations := navigations + [Nav(TargetPath(t), id.value)];
    }
  }
}
