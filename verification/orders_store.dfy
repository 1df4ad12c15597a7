/** The module-level `orders` array of src/orders/orders.controller.js and the
    handlers that read and mutate it, each behind its chain of guards. */
module OrdersStore {
  import opened Js
  import opened Middleware
  import opened Orders

  /** The ids of the stored orders. */
  function Ids(orders: seq<Order>): set<string> {
    set o | o in orders :: o.id
  }

  predicate UniqueIds(orders: seq<Order>) {
    forall i, j :: 0 <= i < j < |orders| ==> orders[i].id != orders[j].id
  }

  /** The record invariant the create and update chains establish for what they write. */
  predicate WellFormed(o: Order) {
    Filled(o.deliverTo) && Filled(o.mobileNumber) && DishesWellFormed(o.dishes)
  }

  /** The record `create` pushes: the minted id and the payload's fields. */
  function NewOrder(newId: string, data: OrderPayload): Order {
    Order(newId, data.deliverTo, data.mobileNumber, data.status, data.dishes)
  }

  /** The record `update` writes: the payload id when it is truthy, otherwise the
      route id; every other field is the payload's (a full replace, not a patch). */
  function UpdatedOrder(data: OrderPayload, orderId: string): Order {
    Order(if Filled(data.id) then data.id.value else orderId,
          data.deliverTo, data.mobileNumber, data.status, data.dishes)
  }

  /** `orders.findIndex(order => order.id === id)` for the payload id: an absent
      id matches nothing. */
  function IndexOfPayloadId(orders: seq<Order>, id: Option<string>): (k: int)
    ensures -1 <= k < |orders|
    ensures k >= 0 ==> id == Some(orders[k].id) && forall i :: 0 <= i < k ==> id != Some(orders[i].id)
    ensures k == -1 <==> forall i :: 0 <= i < |orders| ==> id != Some(orders[i].id)
  {
    FindIndex(orders, (o: Order) => Some(o.id) == id)
  }

  /** The orders after `update`: `orders.splice(orderIndex, 1, updatedOrder)`. */
  function AfterUpdate(orders: seq<Order>, data: OrderPayload, orderId: string): (r: seq<Order>)
    ensures |r| == if orders == [] then 1 else |orders|
    ensures UpdatedOrder(data, orderId) in r
    ensures forall o :: o in r ==> o in orders || o == UpdatedOrder(data, orderId)
  {
    Splice(orders, IndexOfPayloadId(orders, data.id), 1, [UpdatedOrder(data, orderId)])
  }

  /** The orders after `create`: `orders.push(newOrder)`. */
  function AfterCreate(orders: seq<Order>, data: OrderPayload, newId: string): (r: seq<Order>)
    ensures |r| == |orders| + 1
    ensures r[..|orders|] == orders
    ensures r[|orders|] == NewOrder(newId, data)
  {
    orders + [NewOrder(newId, data)]
  }

  /** The orders after `destroy`: the first order with the route id is spliced out,
      if there is one. */
  function AfterDestroy(orders: seq<Order>, orderId: string): (r: seq<Order>)
    ensures Lookup(orders, orderId).None? ==> r == orders
    ensures Lookup(orders, orderId).Some? ==> |r| == |orders| - 1
  {
    var index := FindIndex(orders, (o: Order) => o.id == orderId);
    if index > -1 then Splice(orders, index, 1, []) else orders
  }

  /** With a payload id that names a stored order, update replaces the first order
      with that id, in place, by a record keeping that id. */
  lemma UpdateReplacesNamedOrder(orders: seq<Order>, data: OrderPayload, orderId: string)
    requires IndexOfPayloadId(orders, data.id) >= 0
    ensures var k := IndexOfPayloadId(orders, data.id);
            && AfterUpdate(orders, data, orderId) == orders[k := UpdatedOrder(data, orderId)]
            && UpdatedOrder(data, orderId).id == if orders[k].id == "" then orderId else orders[k].id
  {
    var k := IndexOfPayloadId(orders, data.id);
    SpliceReplaceAt(orders, k, UpdatedOrder(data, orderId));
  }

  /** With no payload id (or one naming no stored order), `findIndex` gives -1 and
      `splice(-1, 1, ...)` overwrites the LAST order, whatever the route id named. */
  lemma UpdateWithoutPayloadIdOverwritesLast(orders: seq<Order>, data: OrderPayload, orderId: string)
    requires orders != []
    requires forall i :: 0 <= i < |orders| ==> data.id != Some(orders[i].id)
    ensures AfterUpdate(orders, data, orderId) == orders[|orders| - 1 := UpdatedOrder(data, orderId)]
    ensures data.id.None? ==> UpdatedOrder(data, orderId).id == orderId
  {
    SpliceReplaceLast(orders, UpdatedOrder(data, orderId));
  }

  /** An update the whole chain accepts, sent without a payload id for an order that
      is not the last one, leaves two orders with the same id. */
  lemma UpdateWithoutPayloadIdCanDuplicateIds()
    ensures var items := Items([LineItem(Some("d"), IntVal(1))]);
            var first := Order("1", Some("a"), Some("5"), Some("pending"), items);
            var second := Order("2", Some("b"), Some("6"), Some("pending"), items);
            var req := Request("1", OrderPayload(None, Some("c"), Some("7"), Some("preparing"), items));
            && RunChain(UpdateChain([first, second], req)).Pass?
            && UniqueIds([first, second])
            && AfterUpdate([first, second], req.data, req.orderId) == [first, UpdatedOrder(req.data, "1")]
            && !UniqueIds(AfterUpdate([first, second], req.data, req.orderId))
  {
    var items := Items([LineItem(Some("d"), IntVal(1))]);
    var first := Order("1", Some("a"), Some("5"), Some("pending"), items);
    var second := Order("2", Some("b"), Some("6"), Some("pending"), items);
    var req := Request("1", OrderPayload(None, Some("c"), Some("7"), Some("preparing"), items));
    var orders := [first, second];
    assert orders[0].id == "1";
    assert Lookup(orders, "1").Some?;
    assert StatusAccepted(req.data.status) by {
      assert "preparing" != "" && "preparing" != "invalid";
    }
    assert DishesWellFormed(items);
    assert UpdateRequestAccepted(orders, req);
    UpdateChainAccepts(orders, req);
    assert IndexOfPayloadId(orders, None) == -1;
    UpdateWithoutPayloadIdOverwritesLast(orders, req.data, req.orderId);
    assert AfterUpdate(orders, req.data, req.orderId) == [first, UpdatedOrder(req.data, "1")];
  }

  /** When the chain accepted an update that carries the route id, update replaces
      the order with that id and keeps the ids of the store unique. */
  lemma UpdateWithRouteIdKeepsIds(orders: seq<Order>, req: Request)
    requires UniqueIds(orders)
    requires RunChain(UpdateChain(orders, req)).Pass?
    requires req.data.id == Some(req.orderId)
    ensures UniqueIds(AfterUpdate(orders, req.data, req.orderId))
    ensures Ids(AfterUpdate(orders, req.data, req.orderId)) == Ids(orders)
  {
    UpdateChainAccepts(orders, req);
    assert Lookup(orders, req.orderId).value in orders;
    UpdateReplacesNamedOrder(orders, req.data, req.orderId);
    SameIdsInPlace(orders, AfterUpdate(orders, req.data, req.orderId));
  }

  /** Two collections whose records carry the same ids position by position have
      the same ids, and one has unique ids when the other does. */
  lemma SameIdsInPlace(before: seq<Order>, after: seq<Order>)
    requires |after| == |before|
    requires forall i :: 0 <= i < |before| ==> after[i].id == before[i].id
    ensures UniqueIds(after) <==> UniqueIds(before)
    ensures Ids(after) == Ids(before)
  {
    forall x | x in Ids(before) ensures x in Ids(after) {
      var i :| 0 <= i < |before| && before[i].id == x;
      assert after[i] in after;
    }
    forall x | x in Ids(after) ensures x in Ids(before) {
      var i :| 0 <= i < |after| && after[i].id == x;
      assert before[i] in before;
    }
  }

  /** A minted id new to the store keeps ids unique, and reading it back finds the
      created record with the payload's fields. */
  lemma CreateThenRead(orders: seq<Order>, data: OrderPayload, newId: string)
    requires UniqueIds(orders)
    requires newId !in Ids(orders)
    ensures UniqueIds(AfterCreate(orders, data, newId))
    ensures Lookup(AfterCreate(orders, data, newId), newId) == Some(NewOrder(newId, data))
  {
    var after := AfterCreate(orders, data, newId);
    assert forall i :: 0 <= i < |orders| ==> after[i] == orders[i] && orders[i] in orders;
    var k := FindIndex(after, (o: Order) => o.id == newId);
    assert after[|orders|].id == newId;
    assert k == |orders|;
  }

  /** Destroy takes out exactly the first order with the route id and keeps the
      others in order. */
  lemma DestroyRemovesFirstMatch(orders: seq<Order>, orderId: string)
    requires Lookup(orders, orderId).Some?
    ensures exists k ::
      && 0 <= k < |orders| && orders[k].id == orderId
      && (forall i :: 0 <= i < k ==> orders[i].id != orderId)
      && AfterDestroy(orders, orderId) == orders[..k] + orders[k + 1..]
  {
    var k := FindIndex(orders, (o: Order) => o.id == orderId);
    SpliceRemoveAt(orders, k);
  }

  /** With unique ids, an order once destroyed is no longer found: a read after a
      delete answers 404. */
  lemma DestroyThenRead(orders: seq<Order>, orderId: string)
    requires UniqueIds(orders)
    ensures Lookup(AfterDestroy(orders, orderId), orderId).None?
  {
    if Lookup(orders, orderId).Some? {
      DestroyRemovesFirstMatch(orders, orderId);
      var k :| 0 <= k < |orders| && orders[k].id == orderId
        && AfterDestroy(orders, orderId) == orders[..k] + orders[k + 1..];
      var after := AfterDestroy(orders, orderId);
      forall i | 0 <= i < |after| ensures after[i].id != orderId {
        if i < k {
          assert after[i] == orders[i];
        } else {
          assert after[i] == orders[i + 1];
        }
      }
    }
  }

  /** What the create chain accepts is a well-formed record, so a store of
      well-formed orders stays well-formed. */
  lemma CreatedOrderWellFormed(orders: seq<Order>, req: Request, newId: string)
    requires RunChain(CreateChain(req)).Pass?
    requires forall o :: o in orders ==> WellFormed(o)
    ensures WellFormed(NewOrder(newId, req.data))
    ensures forall o :: o in AfterCreate(orders, req.data, newId) ==> WellFormed(o)
  {
    CreateChainAccepts(req);
  }

  /** What the update chain accepts is a well-formed record with an accepted status,
      so a store of well-formed orders stays well-formed. */
  lemma UpdatedOrdersWellFormed(orders: seq<Order>, req: Request)
    requires RunChain(UpdateChain(orders, req)).Pass?
    requires forall o :: o in orders ==> WellFormed(o)
    ensures WellFormed(UpdatedOrder(req.data, req.orderId))
    ensures StatusAccepted(UpdatedOrder(req.data, req.orderId).status)
    ensures forall o :: o in AfterUpdate(orders, req.data, req.orderId) ==> WellFormed(o)
  {
    UpdateChainAccepts(orders, req);
  }

  /** The orders collection and the exported handlers of the orders controller. */
  class OrderStore {
    var orders: seq<Order>

    constructor (seed: seq<Order>)
      ensures orders == seed
    {
      orders := seed;
    }

    /** `list`: the whole collection, in insertion order. */
    method List() returns (resp: Response<seq<Order>>)
      ensures resp == Success(200, orders)
    {
      resp := Success(200, orders);
    }

    /** `read: [orderExists, read]`. */
    method HandleRead(req: Request) returns (resp: Response<Order>)
      ensures Lookup(orders, req.orderId).Some? ==> resp == Success(200, Lookup(orders, req.orderId).value)
      ensures Lookup(orders, req.orderId).None? ==> resp == Error(404, NotFoundMessage(req.orderId))
    {
      var o := RunChain(ReadChain(orders, req));
      ReadChainOutcome(orders, req);
      if o.Pass? {
        resp := Success(200, Lookup(orders, req.orderId).value);
      } else {
        resp := ErrorResponse(o);
      }
    }

    /** `create`: pushes the new order under the minted id. */
    method Create(req: Request, newId: string) returns (resp: Response<Order>)
      modifies this
      ensures orders == AfterCreate(old(orders), req.data, newId)
      ensures resp == Success(201, NewOrder(newId, req.data))
    {
      var newOrder := NewOrder(newId, req.data);
      orders := orders + [newOrder];
      resp := Success(201, newOrder);
    }

    /** `update`: splices the rebuilt order in at the payload id's index. */
    method Update(req: Request) returns (resp: Response<Order>)
      modifies this
      ensures orders == AfterUpdate(old(orders), req.data, req.orderId)
      ensures resp == Success(200, UpdatedOrder(req.data, req.orderId))
    {
      var orderIndex := IndexOfPayloadId(orders, req.data.id);
      var updatedOrder := UpdatedOrder(req.data, req.orderId);
      orders := Splice(orders, orderIndex, 1, [updatedOrder]);
      resp := Success(200, updatedOrder);
    }

    /** `destroy`: splices out the first order with the route id, if any; always 204. */
    method Destroy(req: Request) returns (resp: Response<Order>)
      modifies this
      ensures orders == AfterDestroy(old(orders), req.orderId)
      ensures resp == NoContent
    {
      var index := FindIndex(orders, (o: Order) => o.id == req.orderId);
      if index > -1 {
        orders := Splice(orders, index, 1, []);
      }
      resp := NoContent;
    }

    /** `create: [dishesValidation, deliverToValidation, mobileNumberValidation,
        dishQuantityValidation, create]`; `newId` is what `nextId()` returns. */
    method HandleCreate(req: Request, newId: string) returns (resp: Response<Order>)
      requires newId !in Ids(orders)
      modifies this
      ensures var o := RunChain(CreateChain(req));
              if o.Pass? then orders == AfterCreate(old(orders), req.data, newId) && resp == Success(201, NewOrder(newId, req.data))
              else o.Fail? && orders == old(orders) && resp == Error(o.status, o.message)
    {
      var o := RunChain(CreateChain(req));
      CreateChainNeverThrows(req);
      if o.Pass? {
        resp := Create(req, newId);
      } else {
        resp := ErrorResponse(o);
      }
    }

    /** `update: [orderExists, matchesRouteId, statusValidation, deliverToValidation,
        dishesValidation, mobileNumberValidation, dishQuantityValidation, update]`. */
    method HandleUpdate(req: Request) returns (resp: Response<Order>)
      modifies this
      ensures var o := RunChain(UpdateChain(old(orders), req));
              if o.Pass? then orders == AfterUpdate(old(orders), req.data, req.orderId) && resp == Success(200, UpdatedOrder(req.data, req.orderId))
              else o.Fail? && orders == old(orders) && resp == Error(o.status, o.message)
      ensures |orders| == |old(orders)|
    {
      var o := RunChain(UpdateChain(orders, req));
      UpdateChainNeverThrows(orders, req);
      UpdateChainAccepts(orders, req);
      if o.Pass? {
        resp := Update(req);
      } else {
        resp := ErrorResponse(o);
      }
    }

    /** `delete: [orderExists, pendingStatusValidation, destroy]`. */
    method HandleDelete(req: Request) returns (resp: Response<Order>)
      modifies this
      ensures var o := RunChain(DeleteChain(old(orders), req));
              if o.Pass? then orders == AfterDestroy(old(orders), req.orderId) && resp == NoContent
              else o.Fail? && orders == old(orders) && resp == Error(o.status, o.message)
      ensures resp == NoContent ==> |orders| == |old(orders)| - 1
    {
      var o := RunChain(DeleteChain(orders, req));
      DeleteChainOutcome(orders, req);
      if o.Pass? {
        resp := Destroy(req);
      } else {
        resp := ErrorResponse(o);
      }
    }
  }
}
