/** The module-level `dishes` array of src/dishes/dishes.controller.js and the
    handlers that read and mutate it. No handler removes a dish. */
module DishesStore {
  import opened Js
  import opened Middleware
  import opened Dishes

  /** The ids of the stored dishes. */
  function Ids(dishes: seq<Dish>): set<string> {
    set d | d in dishes :: d.id
  }

  predicate UniqueIds(dishes: seq<Dish>) {
    forall i, j :: 0 <= i < j < |dishes| ==> dishes[i].id != dishes[j].id
  }

  /** The record invariant the create and update chains establish for what they write. */
  predicate WellFormed(d: Dish) {
    Filled(d.name) && Filled(d.description) && PositiveInteger(d.price) && Filled(d.imageUrl)
  }

  /** The record `create` pushes: the minted id and the payload's four fields. */
  function NewDish(newId: string, data: DishPayload): Dish {
    Dish(newId, data.name, data.description, data.price, data.imageUrl)
  }

  /** The record `update` writes: the payload id when it is truthy, otherwise the
      route id; every other field is the payload's. */
  function UpdatedDish(data: DishPayload, dishId: string): Dish {
    Dish(if Filled(data.id) then data.id.value else dishId,
         data.name, data.description, data.price, data.imageUrl)
  }

  /** `dishes.findIndex(dish => dish.id === id)` for the payload id: an absent id
      matches nothing. */
  function IndexOfPayloadId(dishes: seq<Dish>, id: Option<string>): (k: int)
    ensures -1 <= k < |dishes|
    ensures k >= 0 ==> id == Some(dishes[k].id) && forall i :: 0 <= i < k ==> id != Some(dishes[i].id)
    ensures k == -1 <==> forall i :: 0 <= i < |dishes| ==> id != Some(dishes[i].id)
  {
    FindIndex(dishes, (d: Dish) => Some(d.id) == id)
  }

  /** The dishes after `update`: `dishes.splice(dishIndex, 1, updatedDish)`. */
  function AfterUpdate(dishes: seq<Dish>, data: DishPayload, dishId: string): (r: seq<Dish>)
    ensures |r| == if dishes == [] then 1 else |dishes|
    ensures UpdatedDish(data, dishId) in r
    ensures forall d :: d in r ==> d in dishes || d == UpdatedDish(data, dishId)
  {
    Splice(dishes, IndexOfPayloadId(dishes, data.id), 1, [UpdatedDish(data, dishId)])
  }

  /** The dishes after `create`: `dishes.push(newDish)`. */
  function AfterCreate(dishes: seq<Dish>, data: DishPayload, newId: string): (r: seq<Dish>)
    ensures |r| == |dishes| + 1
    ensures r[..|dishes|] == dishes
    ensures r[|dishes|] == NewDish(newId, data)
  {
    dishes + [NewDish(newId, data)]
  }

  /** With a payload id that names a stored dish, update replaces the first dish
      with that id, in place. */
  lemma UpdateReplacesNamedDish(dishes: seq<Dish>, data: DishPayload, dishId: string)
    requires IndexOfPayloadId(dishes, data.id) >= 0
    ensures var k := IndexOfPayloadId(dishes, data.id);
            && AfterUpdate(dishes, data, dishId) == dishes[k := UpdatedDish(data, dishId)]
            && UpdatedDish(data, dishId).id == if dishes[k].id == "" then dishId else dishes[k].id
  {
    var k := IndexOfPayloadId(dishes, data.id);
    SpliceReplaceAt(dishes, k, UpdatedDish(data, dishId));
  }

  /** With no payload id (or one naming no stored dish), `findIndex` gives -1 and
      `splice(-1, 1, ...)` overwrites the LAST dish, whatever the route id named. */
  lemma UpdateWithoutPayloadIdOverwritesLast(dishes: seq<Dish>, data: DishPayload, dishId: string)
    requires dishes != []
    requires forall i :: 0 <= i < |dishes| ==> data.id != Some(dishes[i].id)
    ensures AfterUpdate(dishes, data, dishId) == dishes[|dishes| - 1 := UpdatedDish(data, dishId)]
    ensures data.id.None? ==> UpdatedDish(data, dishId).id == dishId
  {
    SpliceReplaceLast(dishes, UpdatedDish(data, dishId));
  }

  /** A dish created under a fresh id is read back with its four fields unchanged,
      and the ids stay unique. */
  lemma CreateThenRead(dishes: seq<Dish>, data: DishPayload, newId: string)
    requires UniqueIds(dishes)
    requires newId !in Ids(dishes)
    ensures UniqueIds(AfterCreate(dishes, data, newId))
    ensures Lookup(AfterCreate(dishes, data, newId), newId) == Some(NewDish(newId, data))
    ensures var d := Lookup(AfterCreate(dishes, data, newId), newId).value;
            d.name == data.name && d.description == data.description && d.price == data.price && d.imageUrl == data.imageUrl
  {
    var after := AfterCreate(dishes, data, newId);
    assert forall i :: 0 <= i < |dishes| ==> after[i] == dishes[i] && dishes[i] in dishes;
    var k := FindIndex(after, (d: Dish) => d.id == newId);
    assert after[|dishes|].id == newId;
    assert k == |dishes|;
  }

  /** What the create and update chains accept is a well-formed dish, so a store of
      well-formed dishes stays well-formed under either. */
  lemma AcceptedDishesWellFormed(dishes: seq<Dish>, req: Request, newId: string)
    requires forall d :: d in dishes ==> WellFormed(d)
    ensures RunChain(CreateChain(req)).Pass? ==>
      forall d :: d in AfterCreate(dishes, req.data, newId) ==> WellFormed(d)
    ensures RunChain(UpdateChain(dishes, req)).Pass? ==>
      forall d :: d in AfterUpdate(dishes, req.data, req.dishId) ==> WellFormed(d)
  {
    CreateChainAccepts(req);
    UpdateChainAccepts(dishes, req);
    if RunChain(CreateChain(req)).Pass? {
      var after := AfterCreate(dishes, req.data, newId);
      forall d | d in after ensures WellFormed(d) {
        var i :| 0 <= i < |after| && after[i] == d;
        if i < |dishes| {
          assert after[i] == dishes[i] && dishes[i] in dishes;
        }
      }
    }
  }

  /** The dishes collection and the exported handlers of the dishes controller
      (`list`, `read`, `update`, `create`; there is no delete). */
  class DishStore {
    var dishes: seq<Dish>

    constructor (seed: seq<Dish>)
      ensures dishes == seed
    {
      dishes := seed;
    }

    /** `list`: the whole collection, in insertion order. */
    method List() returns (resp: Response<seq<Dish>>)
      ensures resp == Success(200, dishes)
    {
      resp := Success(200, dishes);
    }

    /** `read: [dishExists, read]`. `stray` holds the `next` calls `dishExists` makes
        after the response is already settled: the 404 it always sends on. */
    method HandleRead(req: Request) returns (resp: Response<Dish>, stray: seq<Outcome>)
      ensures Lookup(dishes, req.dishId).Some? ==>
        resp == Success(200, Lookup(dishes, req.dishId).value) && stray == [Fail(404, NotFoundMessage(req.dishId))]
      ensures Lookup(dishes, req.dishId).None? ==>
        resp == Error(404, NotFoundMessage(req.dishId)) && stray == []
    {
      var o := RunChain(ReadChain(dishes, req));
      ReadChainOutcome(dishes, req);
      if o.Pass? {
        resp := Success(200, Lookup(dishes, req.dishId).value);
      } else {
        resp := ErrorResponse(o);
      }
      stray := DishExists(dishes, req.dishId)[1..];
    }

    /** `create`: pushes the new dish under the minted id. */
    method Create(req: Request, newId: string) returns (resp: Response<Dish>)
      modifies this
      ensures dishes == AfterCreate(old(dishes), req.data, newId)
      ensures resp == Success(201, NewDish(newId, req.data))
    {
      var newDish := NewDish(newId, req.data);
      dishes := dishes + [newDish];
      resp := Success(201, newDish);
    }

    /** `update`: splices the rebuilt dish in at the payload id's index. */
    method Update(req: Request) returns (resp: Response<Dish>)
      modifies this
      ensures dishes == AfterUpdate(old(dishes), req.data, req.dishId)
      ensures resp == Success(200, UpdatedDish(req.data, req.dishId))
    {
      var dishIndex := IndexOfPayloadId(dishes, req.data.id);
      var updatedDish := UpdatedDish(req.data, req.dishId);
      dishes := Splice(dishes, dishIndex, 1, [updatedDish]);
      resp := Success(200, updatedDish);
    }

    /** `create: [nameValidation, descriptionValidation, priceValidation,
        imageValidation, create]`; `newId` is what `nextId()` returns. */
    method HandleCreate(req: Request, newId: string) returns (resp: Response<Dish>)
      requires newId !in Ids(dishes)
      modifies this
      ensures var o := RunChain(CreateChain(req));
              if o.Pass? then dishes == AfterCreate(old(dishes), req.data, newId) && resp == Success(201, NewDish(newId, req.data))
              else o.Fail? && dishes == old(dishes) && resp == Error(o.status, o.message)
      ensures |dishes| >= |old(dishes)|
    {
      var o := RunChain(CreateChain(req));
      CreateChainAccepts(req);
      if o.Pass? {
        resp := Create(req, newId);
      } else {
        resp := ErrorResponse(o);
      }
    }

    /** `update: [dishExists, matchesRouteId, nameValidation, descriptionValidation,
        priceValidation, imageValidation, update]`. The chain runs on from the first
        `next` call of `dishExists`; its second call, the 404, comes back in `stray`. */
    method HandleUpdate(req: Request) returns (resp: Response<Dish>, stray: seq<Outcome>)
      modifies this
      ensures var o := RunChain(UpdateChain(old(dishes), req));
              if o.Pass? then dishes == AfterUpdate(old(dishes), req.data, req.dishId) && resp == Success(200, UpdatedDish(req.data, req.dishId))
              else o.Fail? && dishes == old(dishes) && resp == Error(o.status, o.message)
      ensures stray == if Lookup(old(dishes), req.dishId).Some? then [Fail(404, NotFoundMessage(req.dishId))] else []
      ensures |dishes| == |old(dishes)|
    {
      var o := RunChain(UpdateChain(dishes, req));
      UpdateChainAccepts(dishes, req);
      stray := DishExists(dishes, req.dishId)[1..];
      if o.Pass? {
        resp := Update(req);
      } else {
        resp := ErrorResponse(o);
      }
    }
  }
}
