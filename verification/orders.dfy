/** The guards of the orders controller (src/orders/orders.controller.js) and the
    chains its `module.exports` table runs them in. */
module Orders {
  import opened Js
  import opened Middleware

  /** One entry of an order's `dishes` array. */
  datatype LineItem = LineItem(dishId: Option<string>, quantity: Num)

  /** The `dishes` field: an array, or anything else (absent, a string, an object). */
  datatype DishList = NotArray | Items(items: seq<LineItem>)

  /** `req.body.data` of an order request. */
  datatype OrderPayload = OrderPayload(
    id: Option<string>,
    deliverTo: Option<string>,
    mobileNumber: Option<string>,
    status: Option<string>,
    dishes: DishList)

  /** A stored order: its fields are the payload's, as the handlers copy them. */
  datatype Order = Order(
    id: string,
    deliverTo: Option<string>,
    mobileNumber: Option<string>,
    status: Option<string>,
    dishes: DishList)

  /** A request as the guards see it: `req.params.orderId` and `req.body.data`. */
  datatype Request = Request(orderId: string, data: OrderPayload)

  const StatusRequired := "Order must have a status of pending, preparing, out-for-delivery, delivered"
  const DeliveredLocked := "A delivered order cannot be changed"
  const StatusInvalid := "Order must include a status"
  const DishesRequired := "Order must include at least one dish"
  const DishRequired := "Order must include a dish"
  const NotPending := "An order cannot be deleted unless it is pending."

  function NotFoundMessage(orderId: string): string {
    "Could not find order ID: " + orderId
  }

  function QuantityMessage(index: nat): string {
    "dish " + NatToString(index) + " must have a quantity that is an integer greater than 0"
  }

  /** The quantity message names its index unambiguously: two messages are equal
      exactly when they name the same index. */
  lemma QuantityMessageNamesIndex(i: nat, j: nat)
    ensures QuantityMessage(i) == QuantityMessage(j) <==> i == j
  {
    if QuantityMessage(i) == QuantityMessage(j) {
      var prefix, suffix := "dish ", " must have a quantity that is an integer greater than 0";
      var si, sj := NatToString(i), NatToString(j);
      assert QuantityMessage(i) == prefix + si + suffix;
      assert QuantityMessage(j) == prefix + sj + suffix;
      assert si == (prefix + si + suffix)[|prefix|..|prefix| + |si|];
      assert sj == (prefix + sj + suffix)[|prefix|..|prefix| + |sj|];
    }
  }

  function MismatchMessage(payloadId: string, orderId: string): string {
    "Order id does not match route id. Order: " + payloadId + ", Route: " + orderId
  }

  /** `orders.find(order => order.id === orderId)`: what `orderExists` stores in `res.locals.order`. */
  function Lookup(orders: seq<Order>, orderId: string): (r: Option<Order>)
    ensures r.Some? ==> r.value.id == orderId
    ensures r.Some? ==>
      exists k ::
        && 0 <= k < |orders|
        && orders[k] == r.value
        && forall i :: 0 <= i < k ==> orders[i].id != orderId
    ensures r.None? <==> forall i :: 0 <= i < |orders| ==> orders[i].id != orderId
  {
    Find(orders, (o: Order) => o.id == orderId)
  }

  function OrderExists(orders: seq<Order>, orderId: string): (r: Outcome)
    ensures r.Pass? <==> Lookup(orders, orderId).Some?
    ensures !r.Pass? ==> r == Fail(404, "Could not find order ID: " + orderId)
  {
    if Lookup(orders, orderId).Some? then Pass
    else Fail(404, NotFoundMessage(orderId))
  }

  function DeliverToValidation(data: OrderPayload): (r: Outcome)
    ensures r.Pass? <==> data.deliverTo.Some? && data.deliverTo.value != ""
    ensures !r.Pass? ==> r == Fail(400, "Order must include a deliverTo")
  {
    if Filled(data.deliverTo) then Pass
    else Fail(400, "Order must include a deliverTo")
  }

  function MobileNumberValidation(data: OrderPayload): (r: Outcome)
    ensures r.Pass? <==> data.mobileNumber.Some? && data.mobileNumber.value != ""
    ensures !r.Pass? ==> r == Fail(400, "Order must include a mobileNumber")
  {
    if Filled(data.mobileNumber) then Pass
    else Fail(400, "Order must include a mobileNumber")
  }

  /** The status values `statusValidation` lets through: any non-empty string but "invalid". */
  predicate StatusAccepted(status: Option<string>) {
    status.Some? && status.value !in {"", "invalid"}
  }

  /** The submitted status is checked, never the stored one, and the
      "delivered" case sits behind a test that already accepted "delivered":
      that message is never produced. */
  function StatusValidation(data: OrderPayload): (r: Outcome)
    ensures r.Pass? <==> StatusAccepted(data.status)
    ensures data.status == Some("delivered") ==> r.Pass?
    ensures data.status in {None, Some("")} ==> r == Fail(400, StatusRequired)
    ensures data.status == Some("invalid") ==> r == Fail(400, StatusInvalid)
    ensures r != Fail(400, DeliveredLocked)
  {
    if Filled(data.status) && data.status.value != "invalid" then Pass
    else if !Filled(data.status) then Fail(400, StatusRequired)
    else if data.status.value == "delivered" then Fail(400, DeliveredLocked)
    else Fail(400, StatusInvalid)
  }

  /** Reads the order `orderExists` stored; without one, `.status` of undefined throws. */
  function PendingStatusValidation(stored: Option<Order>): (r: Outcome)
    ensures stored.None? <==> r.Throw?
    ensures r.Pass? <==> stored.Some? && stored.value.status == Some("pending")
    ensures r.Fail? ==> r == Fail(400, NotPending)
  {
    if stored.None? then Throw
    else if stored.value.status == Some("pending") then Pass
    else Fail(400, NotPending)
  }

  /** The "must include a dish" case follows a test that already caught every
      dishes field the first test rejects: that message is never produced. */
  function DishesValidation(data: OrderPayload): (r: Outcome)
    ensures r.Pass? <==> data.dishes.Items? && data.dishes.items != []
    ensures !r.Pass? ==> r == Fail(400, DishesRequired)
    ensures r != Fail(400, DishRequired)
  {
    if data.dishes.Items? && |data.dishes.items| > 0 then Pass
    else if !data.dishes.Items? || |data.dishes.items| == 0 then Fail(400, DishesRequired)
    else Fail(400, DishRequired)
  }

  /** The test `dishQuantityValidation` makes on one entry, negated for `findIndex`. */
  predicate BadQuantity(item: LineItem) {
    !PositiveInteger(item.quantity)
  }

  /** `dishes.findIndex(...)` throws when `dishes` is not an array; otherwise the
      first entry whose quantity is not a positive integer is reported by index. */
  function DishQuantityValidation(data: OrderPayload): (r: Outcome)
    ensures data.dishes.NotArray? <==> r.Throw?
    ensures data.dishes.Items? ==>
      (r.Pass? <==> forall i :: 0 <= i < |data.dishes.items| ==> data.dishes.items[i].quantity.IntVal? && data.dishes.items[i].quantity.n > 0)
    ensures r.Fail? ==> data.dishes.Items? && r == Fail(400, QuantityMessage(FindIndex(data.dishes.items, BadQuantity)))
  {
    match data.dishes
    case NotArray => Throw
    case Items(items) =>
      var k := FindIndex(items, BadQuantity);
      if k == -1 then Pass else Fail(400, QuantityMessage(k))
  }

  /** A refused quantity check names the smallest index whose quantity is missing,
      zero, negative or not an integer. */
  lemma DishQuantityNamesFirstBadIndex(data: OrderPayload)
    requires DishQuantityValidation(data).Fail?
    ensures exists k ::
      && 0 <= k < |data.dishes.items|
      && DishQuantityValidation(data) == Fail(400, QuantityMessage(k))
      && !PositiveInteger(data.dishes.items[k].quantity)
      && forall i :: 0 <= i < k ==> PositiveInteger(data.dishes.items[i].quantity)
  {
    var k := FindIndex(data.dishes.items, BadQuantity);
    assert k != -1;
  }

  /** A payload id that is absent or empty passes; any other must equal the route's. */
  function MatchesRouteId(data: OrderPayload, orderId: string): (r: Outcome)
    ensures r.Pass? <==> data.id in {None, Some(""), Some(orderId)}
    ensures !r.Pass? ==> r == Fail(400, MismatchMessage(data.id.value, orderId))
  {
    var hasMatchingIds := data.id == Some(orderId);
    if !Filled(data.id) then Pass
    else if Filled(data.id) && hasMatchingIds then Pass
    else Fail(400, MismatchMessage(data.id.value, orderId))
  }

  /** `read: [orderExists, read]`: the outcome of each guard, in order. */
  function ReadChain(orders: seq<Order>, req: Request): seq<Outcome> {
    [OrderExists(orders, req.orderId)]
  }

  /** `update: [orderExists, matchesRouteId, statusValidation, deliverToValidation,
      dishesValidation, mobileNumberValidation, dishQuantityValidation, update]`. */
  function UpdateChain(orders: seq<Order>, req: Request): seq<Outcome> {
    [ OrderExists(orders, req.orderId), MatchesRouteId(req.data, req.orderId),
      StatusValidation(req.data), DeliverToValidation(req.data), DishesValidation(req.data),
      MobileNumberValidation(req.data), DishQuantityValidation(req.data) ]
  }

  /** `create: [dishesValidation, deliverToValidation, mobileNumberValidation,
      dishQuantityValidation, create]`. */
  function CreateChain(req: Request): seq<Outcome> {
    [ DishesValidation(req.data), DeliverToValidation(req.data),
      MobileNumberValidation(req.data), DishQuantityValidation(req.data) ]
  }

  /** `delete: [orderExists, pendingStatusValidation, destroy]`; the second guard
      reads the order the first one stored in `res.locals`. */
  function DeleteChain(orders: seq<Order>, req: Request): seq<Outcome> {
    [OrderExists(orders, req.orderId), PendingStatusValidation(Lookup(orders, req.orderId))]
  }

  /** Every quantity of a non-empty dishes array is a positive integer. */
  predicate DishesWellFormed(dishes: DishList) {
    && dishes.Items?
    && |dishes.items| > 0
    && forall i :: 0 <= i < |dishes.items| ==> PositiveInteger(dishes.items[i].quantity)
  }

  /** Everything the create chain asks of a payload. */
  predicate CreatePayloadAccepted(data: OrderPayload) {
    && DishesWellFormed(data.dishes)
    && Filled(data.deliverTo)
    && Filled(data.mobileNumber)
  }

  /** Everything the update chain asks of a request. */
  predicate UpdateRequestAccepted(orders: seq<Order>, req: Request) {
    && Lookup(orders, req.orderId).Some?
    && req.data.id in {None, Some(""), Some(req.orderId)}
    && StatusAccepted(req.data.status)
    && CreatePayloadAccepted(req.data)
  }

  /** The create chain runs its four guards in the table's order, each only if
      the ones before it passed. */
  lemma CreateChainUnfolds(req: Request)
    ensures RunChain(CreateChain(req)) ==
      AndThen(DishesValidation(req.data),
      AndThen(DeliverToValidation(req.data),
      AndThen(MobileNumberValidation(req.data),
      AndThen(DishQuantityValidation(req.data), Pass))))
  {
    var c3 := [DishQuantityValidation(req.data)];
    var c2 := [MobileNumberValidation(req.data)] + c3;
    var c1 := [DeliverToValidation(req.data)] + c2;
    RunChainCons(DishQuantityValidation(req.data), []);
    assert [DishQuantityValidation(req.data)] + [] == c3;
    RunChainCons(MobileNumberValidation(req.data), c3);
    RunChainCons(DeliverToValidation(req.data), c2);
    RunChainCons(DishesValidation(req.data), c1);
    assert [DishesValidation(req.data)] + c1 == CreateChain(req);
  }

  /** The update chain runs its seven guards in the table's order, each only if
      the ones before it passed. */
  lemma UpdateChainUnfolds(orders: seq<Order>, req: Request)
    ensures RunChain(UpdateChain(orders, req)) ==
      AndThen(OrderExists(orders, req.orderId),
      AndThen(MatchesRouteId(req.data, req.orderId),
      AndThen(StatusValidation(req.data),
      AndThen(DeliverToValidation(req.data),
      AndThen(DishesValidation(req.data),
      AndThen(MobileNumberValidation(req.data),
      AndThen(DishQuantityValidation(req.data), Pass)))))))
  {
    var c6 := [DishQuantityValidation(req.data)];
    var c5 := [MobileNumberValidation(req.data)] + c6;
    var c4 := [DishesValidation(req.data)] + c5;
    var c3 := [DeliverToValidation(req.data)] + c4;
    var c2 := [StatusValidation(req.data)] + c3;
    var c1 := [MatchesRouteId(req.data, req.orderId)] + c2;
    RunChainCons(DishQuantityValidation(req.data), []);
    assert [DishQuantityValidation(req.data)] + [] == c6;
    RunChainCons(MobileNumberValidation(req.data), c6);
    RunChainCons(DishesValidation(req.data), c5);
    RunChainCons(DeliverToValidation(req.data), c4);
    RunChainCons(StatusValidation(req.data), c3);
    RunChainCons(MatchesRouteId(req.data, req.orderId), c2);
    RunChainCons(OrderExists(orders, req.orderId), c1);
    assert [OrderExists(orders, req.orderId)] + c1 == UpdateChain(orders, req);
  }

  /** The delete chain runs `orderExists`, then `pendingStatusValidation` on the
      order it stored. */
  lemma DeleteChainUnfolds(orders: seq<Order>, req: Request)
    ensures RunChain(DeleteChain(orders, req)) ==
      AndThen(OrderExists(orders, req.orderId),
      AndThen(PendingStatusValidation(Lookup(orders, req.orderId)), Pass))
  {
    var pending := PendingStatusValidation(Lookup(orders, req.orderId));
    RunChainCons(pending, []);
    assert [pending] + [] == [pending];
    RunChainCons(OrderExists(orders, req.orderId), [pending]);
    assert [OrderExists(orders, req.orderId)] + [pending] == DeleteChain(orders, req);
  }

  lemma CreateChainAccepts(req: Request)
    ensures RunChain(CreateChain(req)).Pass? <==> CreatePayloadAccepted(req.data)
  {
    CreateChainUnfolds(req);
  }

  /** The dishes check runs before the quantity check, so creating an order never
      reaches the TypeError `findIndex` on a non-array would raise. */
  lemma CreateChainNeverThrows(req: Request)
    ensures !RunChain(CreateChain(req)).Throw?
  {
    CreateChainUnfolds(req);
  }

  lemma UpdateChainAccepts(orders: seq<Order>, req: Request)
    ensures RunChain(UpdateChain(orders, req)).Pass? <==> UpdateRequestAccepted(orders, req)
  {
    UpdateChainUnfolds(orders, req);
  }

  /** The dishes check runs before the quantity check, so updating an order never
      reaches the TypeError `findIndex` on a non-array would raise. */
  lemma UpdateChainNeverThrows(orders: seq<Order>, req: Request)
    ensures !RunChain(UpdateChain(orders, req)).Throw?
  {
    UpdateChainUnfolds(orders, req);
  }

  /** An update of an order that is not stored answers 404, whatever the payload. */
  lemma UpdateOfMissingOrder(orders: seq<Order>, req: Request)
    requires Lookup(orders, req.orderId).None?
    ensures RunChain(UpdateChain(orders, req)) == Fail(404, NotFoundMessage(req.orderId))
  {
    UpdateChainUnfolds(orders, req);
  }

  /** No lock on delivered orders exists: the "cannot be changed" error never comes
      out of the update chain. */
  lemma DeliveredOrderIsNotLocked(orders: seq<Order>, req: Request)
    ensures RunChain(UpdateChain(orders, req)) != Fail(400, DeliveredLocked)
  {
    UpdateChainUnfolds(orders, req);
  }

  /** The update chain never consults the stored order's status: changing it, a
      delivered order's included, changes no update's outcome. */
  lemma UpdateIgnoresStoredStatus(orders: seq<Order>, req: Request, k: int, status: Option<string>)
    requires 0 <= k < |orders|
    ensures RunChain(UpdateChain(orders[k := orders[k].(status := status)], req)) == RunChain(UpdateChain(orders, req))
  {
    var changed := orders[k := orders[k].(status := status)];
    assert forall i :: 0 <= i < |orders| ==> changed[i].id == orders[i].id;
    assert OrderExists(changed, req.orderId) == OrderExists(orders, req.orderId);
    UpdateChainUnfolds(orders, req);
    UpdateChainUnfolds(changed, req);
  }

  /** Deleting answers 404 for a missing order and 400 for a stored one that is not
      pending; it goes ahead exactly when the stored order is pending. */
  lemma DeleteChainOutcome(orders: seq<Order>, req: Request)
    ensures Lookup(orders, req.orderId).None? ==> RunChain(DeleteChain(orders, req)) == Fail(404, NotFoundMessage(req.orderId))
    ensures Lookup(orders, req.orderId).Some? ==>
      RunChain(DeleteChain(orders, req)) ==
        if Lookup(orders, req.orderId).value.status == Some("pending") then Pass else Fail(400, NotPending)
  {
    DeleteChainUnfolds(orders, req);
  }

  /** A create with a zero quantity in its first entry is refused naming index 0;
      one with an empty dishes array is refused before any quantity is looked at. */
  lemma CreateChainDishExamples(orderId: string, deliverTo: string, mobileNumber: string)
    requires deliverTo != "" && mobileNumber != ""
    ensures var zero := Items([LineItem(Some("x"), IntVal(0))]);
            RunChain(CreateChain(Request(orderId, OrderPayload(None, Some(deliverTo), Some(mobileNumber), None, zero))))
              == Fail(400, QuantityMessage(0))
    ensures QuantityMessage(0) == "dish " + "0" + " must have a quantity that is an integer greater than 0"
    ensures RunChain(CreateChain(Request(orderId, OrderPayload(None, Some(deliverTo), Some(mobileNumber), None, Items([])))))
              == Fail(400, "Order must include at least one dish")
  {
    var zero := Items([LineItem(Some("x"), IntVal(0))]);
    var req := Request(orderId, OrderPayload(None, Some(deliverTo), Some(mobileNumber), None, zero));
    CreateChainUnfolds(req);
    CreateChainUnfolds(Request(orderId, OrderPayload(None, Some(deliverTo), Some(mobileNumber), None, Items([]))));
    assert FindIndex(zero.items, BadQuantity) == 0;
    assert NatToString(0) == "0";
  }

  lemma ReadChainOutcome(orders: seq<Order>, req: Request)
    ensures RunChain(ReadChain(orders, req)).Pass? <==> Lookup(orders, req.orderId).Some?
    ensures !RunChain(ReadChain(orders, req)).Pass? ==> RunChain(ReadChain(orders, req)) == Fail(404, NotFoundMessage(req.orderId))
  {
    RunChainCons(OrderExists(orders, req.orderId), []);
    assert [OrderExists(orders, req.orderId)] + [] == ReadChain(orders, req);
  }
}
