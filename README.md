# Shipper app order lifecycle: a Dafny model

This project models the order-handling logic of a mobile app used by
delivery staff ("shippers") to claim, deliver or give up orders from an
e-commerce backend. The logic lives in three screens:

- The **order detail screen** (`OrderDetail.dfy`) decides which controls to
  show for a view type (`new`, `my`, `completed`, `cancel`) and a status
  string: accept, complete and fail, cancel, or the "already cancelled"
  message. It also labels and colours the status. It normalises the fetched
  order's `products` field. Its three handlers update the local order, the
  busy flag, the alerts and the navigation once the server replies.
- The **order list screen** (`OrderList.dfy`) picks the endpoint for a list type.
  It turns the two reply shapes into one flat list of orders: an array for
  `new`, and `{processing, delivered, cancelled}` assignment wrappers for
  `my`, `done` and `cancel`. It labels and colours each card, and routes a
  card to its detail screen.
- The **dashboard** (`Home.dfy`) reads the shipper from the session store. It
  counts the orders of each partition and shows their total and the
  completion rate. Its cards navigate to the lists.

`OrderModel.dfy` holds the shared values. These are the order record, the
status vocabulary (`resolved`, `processing`, `delivered`, `cancelled`, and
Unknown for every other string) and the lifecycle `Step` relation
(`resolved → processing → {delivered | cancelled}`, plus
`resolved → cancelled`). It also holds the abstract replies, requests and
session blobs, and the labels.

Each screen is a class. Its fields are the React state of the component
(`order`, `loading`, `orders`, `refreshing`, `stats` for `orderStats`, `shipperInfo`,
`isAuthenticated`). Effects that leave the component are logged in
sequence fields: `requests` for the requests issued, `alerts` for the alerts
shown, `navigations` for the routes pushed, `warnings` for the product
warnings. Each asynchronous handler is one method. The server's reply (or
the session store's content) is a parameter of that method. On the detail
screen, `loadingTrace` records every value passed to `setLoading`.

A reply is `NetworkError` (the request failed) or `Reply(ok, body)`. Its
body is `None` when it is not valid JSON, because `response.json()` then
rejects. A list body is an array (`Records`), an object with the three
partition keys (`Partitions`), or JSON `null`. Each partition key is
`Absent` (missing or falsy), `Present` (an array), or `Malformed(length)`.
`Malformed` is a truthy value that is not an array, so it has no `map`.
Its `length` is what reading `.length` gives: a string's length, an
object's `length` property, or 0. The list screen shows no order for such
a key, but the dashboard counts its `length`. A product entry may be
`null` (`NullItem`). A session blob may be the string `"null"`
(`NullBlob`).

The model follows the code:

- The code updates the local order only after `response.ok`. There is no
  optimistic update and no rollback.
- The client never checks which shipper owns an order.
- The completion rate can divide by zero. It is modelled as None
  (`NaN` in the app), not as 0%.
- The cancel view offers a cancel button on `resolved` and on `processing`
  orders.

## Model

| member | source | states |
|---|---|---|
| OrderModel.ParseWire | app/page/order/orderdetail/orderdetailCpn.tsx:277-285 | each of the four known statuses parses back from its wire string |
| OrderModel.WireParse | app/page/order/orderdetail/orderdetailCpn.tsx:277-285 | a string that parses to a known status is exactly that status's wire string |
| OrderModel.StepIsMonotonic | app/page/order/orderdetail/orderdetailCpn.tsx:323-351 | no lifecycle step leaves a terminal or unknown status, and every step moves strictly forward |
| OrderModel.LabelInjective | app/page/order/orderdetail/orderdetailCpn.tsx:277-285 | the five status labels are pairwise distinct |
| OrderDetail.AcceptOffered | app/page/order/orderdetail/orderdetailCpn.tsx:323-329 | accept is offered if and only if the view is `new` and the status is `resolved` |
| OrderDetail.CompleteAndFailTogether | app/page/order/orderdetail/orderdetailCpn.tsx:330-339 | complete and fail are offered together, if and only if the view is `my` and the status is `processing` |
| OrderDetail.CancelButtonOffered | app/page/order/orderdetail/orderdetailCpn.tsx:340-346 | the cancel button is offered if and only if the view is `cancel` and the status is `resolved` or `processing` |
| OrderDetail.TerminalOffersNothing | app/page/order/orderdetail/orderdetailCpn.tsx:323-351 | on a `delivered` or `cancelled` order no view offers any action; the informational message appears exactly in the `cancel` view on a `cancelled` order |
| OrderDetail.UnknownOffersNothing | app/page/order/orderdetail/orderdetailCpn.tsx:323-351 | an unknown status shows no control and no message in any view |
| OrderDetail.OfferedActionFollowsLifecycle | app/page/order/orderdetail/orderdetailCpn.tsx:323-351 | every offered action asks the server for a legal lifecycle step from the current status |
| OrderDetail.AfterSuccess | app/page/order/orderdetail/orderdetailCpn.tsx:159-211 | after a successful reply only `status` may differ; complete changes nothing locally; accept gives `processing` and cancel gives `cancelled` |
| OrderDetail.LocalUpdateIsLifecycleStep | app/page/order/orderdetail/orderdetailCpn.tsx:159-211 | when accept or cancel was offered, the local update after success is a lifecycle step out of a non-terminal status; it reaches a terminal status exactly for cancel |
| OrderDetail.Outcome | app/page/order/orderdetail/orderdetailCpn.tsx:158-218 | the success alert appears if and only if the reply is ok and parses, with each handler's own success message; a failed request or unparsable body gives the connection-error alert |
| OrderDetail.RejectionMessage | app/page/order/orderdetail/orderdetailCpn.tsx:163-213 | for every server message, a reply that is not ok shows an error alert: accept (`??`) shows any message, even an empty one, and its default only when there is none; complete and cancel (`\|\|`) show their default for a missing or empty message |
| OrderDetail.DetailLabelUnknown | app/page/order/orderdetail/orderdetailCpn.tsx:277-285 | the label is "Không xác định" if and only if the status is none of the four known strings |
| OrderDetail.DetailLabelDistinct | app/page/order/orderdetail/orderdetailCpn.tsx:277-285 | two status strings with the same known label are equal |
| OrderDetail.DetailColourRed | app/page/order/orderdetail/orderdetailCpn.tsx:240-249 | the colour is red (`#F44336`) if and only if the status is `cancelled` or the view is `cancel`; it is blue (`#4A90E2`) if and only if the status is `processing` outside the `cancel` view |
| OrderDetail.FirstFault | app/page/order/orderdetail/orderdetailCpn.tsx:115-117 | the scan of `some` stops at the first entry that is not a product with a non-empty string `_id`: every entry before it has one, and the entry there (if any) does not |
| OrderDetail.SomeInvalidId | app/page/order/orderdetail/orderdetailCpn.tsx:115-117 | false if and only if every entry is a product with a non-empty string `_id`; the scan throws if and only if the first entry without such an id is `null`; it answers true if and only if that first entry is a product with a missing, empty or non-string `_id` |
| OrderDetail.NormalizeProducts | app/page/order/orderdetail/orderdetailCpn.tsx:114-125 | a `products` value that is not an array becomes `[]`; an array is kept unchanged; no other field changes |
| OrderDetail.NormalizeIdempotent | app/page/order/orderdetail/orderdetailCpn.tsx:114-125 | normalising twice equals normalising once |
| OrderDetail.ProductWarnings | app/page/order/orderdetail/orderdetailCpn.tsx:114-124 | when the id check does not throw: a "missing products" warning exactly for a non-array, an "invalid ids" warning exactly when some entry has no valid id, and no warning otherwise |
| OrderDetail.OrderDetailScreen.constructor | app/page/order/orderdetail/orderdetailCpn.tsx:66-68 | the screen starts with no order, no shipper id and `loading` true |
| OrderDetail.OrderDetailScreen.VisibleControls | app/page/order/orderdetail/orderdetailCpn.tsx:223-351 | no control is on screen while loading or without an order; every visible action is a lifecycle step from the shown order's status; accept, complete, cancel and the cancelled message each appear if and only if the screen is loaded with an order whose view and status string match that control's condition |
| OrderDetail.OrderDetailScreen.LoadShipperId | app/page/order/orderdetail/orderdetailCpn.tsx:87-98 | a stored profile sets the shipper id to its `_id`; a missing blob, a read error or a blob that parses to `null` leaves it |
| OrderDetail.OrderDetailScreen.LoadOrder | app/page/order/orderdetail/orderdetailCpn.tsx:102-145 | without an id: no request and an alert. Otherwise one GET. An ok reply with a parsed body stores the normalised order and logs its warnings, unless the id check throws. A throwing check raises the connection alert, as a failure does. A non-ok reply only alerts. `loading` ends false on every path |
| OrderDetail.OrderDetailScreen.HandleAccept | app/page/order/orderdetail/orderdetailCpn.tsx:147-172 | `loading` is set true then false; one PATCH to the accept endpoint; only a successful reply sets status to `processing`, and accept is then no longer offered; otherwise the order is unchanged; the PATCH carries the shown order's id |
| OrderDetail.OrderDetailScreen.HandleComplete | app/page/order/orderdetail/orderdetailCpn.tsx:174-196 | `loading` is set true then false; one PATCH; the local order is not touched; only success navigates to Home; the PATCH carries the shown order's id |
| OrderDetail.OrderDetailScreen.HandleCancel | app/page/order/orderdetail/orderdetailCpn.tsx:198-221 | `loading` is set true then false; one PATCH; only success sets status to `cancelled`, navigates to Home and leaves no action on screen; otherwise the order is unchanged; the PATCH carries the shown order's id |
| OrderList.MapAssignments | app/page/order/order.tsx:89-94 | the mapped list has as many orders as there are wrapper items |
| OrderList.MapAssignmentsAt | app/page/order/order.tsx:89-94 | order k of the mapped list is item k's `sellers` overlaid with item k's status and timestamps |
| OrderList.MapAssignmentsAppend | app/page/order/order.tsx:89-94 | mapping a concatenation is the concatenation of the mappings, so order is kept |
| OrderList.OverlayKeepsSellerFields | app/page/order/order.tsx:89-94 | the overlay keeps every field of `sellers` except `status`, `createdAt` and `updatedAt`, which come from the wrapper |
| OrderList.OverlayIdempotent | app/page/order/order.tsx:89-94 | overlaying a wrapper onto its own result changes nothing |
| OrderList.PartitionOrders | app/page/order/order.tsx:83-111 | `new` keeps an array verbatim and gives `[]` for any other body; the other types map their key's items in order, and give `[]` for a missing or non-array key |
| OrderList.PartitionReadsItsKey | app/page/order/order.tsx:87-111 | `my` reads `processing`, `done` reads `delivered`, `cancel` reads `cancelled` |
| OrderList.PartitionCarriesAssignmentStatus | app/page/order/order.tsx:89-94 | each listed order has its wrapper's status and its `sellers` id |
| OrderList.ListStatusTextCases | app/page/order/order.tsx:183-192 | the `new` list or a `resolved` order reads "Chờ lấy hàng"; "Không xác định" appears if and only if the list is not `new` and the status is unknown |
| OrderList.ListAgreesWithDetail | app/page/order/order.tsx:183-192 | outside the `new` list a card shows the same label as the detail screen |
| OrderList.ListStatusColourCases | app/page/order/order.tsx:173-182 | orange (`#FFB74D`) if and only if the list is `new` or the status is `resolved` or `processing`; red (`#F44336`) if and only if the list is not `new` and the status is `cancelled` |
| OrderList.DetailRouteInjective | app/page/order/order.tsx:199-209 | a card's route determines its list type and order id, so each type opens its own route |
| OrderList.OrderListScreen.constructor | app/page/order/order.tsx:50-53 | the screen starts with no orders, `loading` true and `refreshing` false |
| OrderList.OrderListScreen.RequestsFor | app/page/order/order.tsx:62-78 | at most one request; no request if and only if a non-`new` list has no shipper id; `new` reads `/api/shipper`, the other types read `/api/shipper_status/` followed by the shipper id |
| OrderList.OrderListScreen.FetchOrders | app/page/order/order.tsx:57-126 | issues the request for its type; stores the received list, or `[]` without a shipper id or on any error; `loading` and `refreshing` both end false |
| OrderList.OrderListScreen.OnRefresh | app/page/order/order.tsx:132-135 | pull to refresh runs a fetch with the same outcome, and both flags end false |
| Home.StatsFrom | app/page/Home.tsx:90-99 | None if and only if a body is `null`. `newOrders` is the new array's length, or None for a non-array. Each other count is the length of the list the list screen shows for that body, 0 when the key is missing. A non-array key is counted by its `length`, while the list screen shows nothing for it |
| Home.StatsUpdate | app/page/Home.tsx:73-101 | new counts if and only if both replies are ok, both bodies parse and neither body is `null`; the new counts are then those read from the two bodies |
| Home.Total | app/page/Home.tsx:281-284 | the total is undefined (NaN) exactly when the new-order count is |
| Home.TotalCountsEveryList | app/page/Home.tsx:282-283 | for an array of new orders, the total is the sum of the lengths of the four lists, plus the `length` of any partition key that is not an array |
| Home.RoundedPercent | app/page/Home.tsx:290-293 | the integer percentage is at most 100 and brackets `100·c/d` to within one half, with halves rounded up |
| Home.CompletionRate | app/page/Home.tsx:290-293 | None if and only if there are no completed and no cancelled orders; otherwise a value in [0, 100] |
| Home.RateIsRoundedPercentage | app/page/Home.tsx:290-293 | the rate equals `floor(100·c/d + 1/2)` over the reals, which is `Math.round(100·c/d)` |
| Home.RateExtremes | app/page/Home.tsx:290-293 | no cancelled orders gives 100; no completed orders gives 0 |
| Home.TargetPathInjective | app/page/Home.tsx:129-139 | the five dashboard targets have five distinct routes |
| Home.ClickNavigation | app/page/Home.tsx:125-139 | no navigation without a shipper id; otherwise the card's own route, carrying that id |
| Home.ClickRoutesDistinct | app/page/Home.tsx:129-139 | when one card navigates, every card does, and two different cards push different routes |
| Home.StatsRequests | app/page/Home.tsx:71-83 | no request when signed out or without a shipper id; otherwise `/api/shipper/`, then `/api/shipper_status/` followed by that id |
| Home.HomeScreen.constructor | app/page/Home.tsx:44-52 | signed in, no shipper, all counts 0, not refreshing |
| Home.HomeScreen.FetchShipperInfo | app/page/Home.tsx:54-68 | a missing blob or a read or parse error signs out (the screen redirects to login); a profile blob sets the shipper; a blob that parses to `null` clears the shipper and stays signed in, so no stats request is made |
| Home.HomeScreen.FetchStats | app/page/Home.tsx:70-102 | does nothing when signed out or without a shipper id; otherwise issues both requests; the counts change only on a full success |
| Home.HomeScreen.OnRefresh | app/page/Home.tsx:104-108 | counts are fetched for the shipper known before the refresh; the session is re-read; `refreshing` ends false |
| Home.HomeScreen.HandleClick | app/page/Home.tsx:125-139 | pushes the card's route only when the shipper has an id |

## Left out

- Rendering, styles, press animations and the gradient header are presentation only.
- HTTP, the base address and JSON parsing are not modelled. A reply is a method parameter.
- The session store is a parameter (`Stored`). Logout in app/page/account/profile.tsx is a store call that only clears state.
- `Promise.all` and the focus effect are not modelled as concurrency. `OnRefresh` runs `FetchStats` on the pre-refresh state, then `FetchShipperInfo`. This matches `fetchStats` reading its captured state, and the two write disjoint fields.
- Currency and date formatting (`Intl.NumberFormat`, `Date`) are library calls.
- Home.CompletionRate: computed in integers, not in floating point. The bracket is exact for `100·c/d`. Where `(c/d)*100` rounds differently in floating point, the app's value may differ by one.
- app/index.tsx (a timer redirect) and app/auth/_layout.tsx (navigator setup) are not part of this model.
- Console output is not modelled, except the two product warnings of the detail fetch.
- Some body shapes are not modelled. These are a string body for the new-order list (which has a `length`), a `null` or malformed wrapper item, a `null` detail or acknowledgement body, and a `length` that is not a natural number.
- A session blob that parses to a value other than an object or `null` (a number, a string) is not modelled; it behaves like a profile without an `_id`.
- The request body key of accept (`orderID`) and of complete and cancel (`orderId`) are not told apart.
- The list screen's `isAuthenticated` redirect is not modelled. Nothing in the screen ever sets that flag false.
- OrderDetail.OrderDetailScreen.VisibleControls: assumes the order card renders. Rendering a stored order throws, and then no control appears, when a stored product entry is `null` (its `_id` is read) or has no `product` object (its `product.name` is read); such an order can be stored when an invalid id comes before the `null` entry. A product without a nested `product` object is not representable in the model.
- Optimistic updates, rollback, ownership checks and conflict arbitration are not modelled, because the client code has none.
