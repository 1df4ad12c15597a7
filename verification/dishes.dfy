/** The guards of the dishes controller (src/dishes/dishes.controller.js) and the
    chains its `module.exports` table runs them in. */
module Dishes {
  import opened Js
  import opened Middleware

  /** `req.body.data` of a dish request. */
  datatype DishPayload = DishPayload(
    id: Option<string>,
    name: Option<string>,
    description: Option<string>,
    price: Num,
    imageUrl: Option<string>)

  /** A stored dish: its fields are the payload's, as the handlers copy them. */
  datatype Dish = Dish(
    id: string,
    name: Option<string>,
    description: Option<string>,
    price: Num,
    imageUrl: Option<string>)

  /** A request as the guards see it: `req.params.dishId` and `req.body.data`. */
  datatype Request = Request(dishId: string, data: DishPayload)

  const NameRequired := "Dish must include a name"
  const DescriptionRequired := "Dish must include a description"
  const PriceRequired := "Dish must include a price"
  const PriceInvalid := "Dish must have a price that is an integer greater than 0"
  const ImageRequired := "Dish must include an image_url"

  function NotFoundMessage(dishId: string): string {
    "Could not find dish ID: " + dishId
  }

  function MismatchMessage(payloadId: string, dishId: string): string {
    "Dish id does not match route id. Dish: " + payloadId + ", Route: " + dishId
  }

  /** `dishes.find(dish => dish.id === dishId)`: what `dishExists` stores in `res.locals.dish`. */
  function Lookup(dishes: seq<Dish>, dishId: string): (r: Option<Dish>)
    ensures r.Some? ==> r.value.id == dishId && r.value in dishes
    ensures r.Some? ==>
      exists k ::
        && 0 <= k < |dishes|
        && dishes[k] == r.value
        && forall i :: 0 <= i < k ==> dishes[i].id != dishId
    ensures r.None? <==> forall i :: 0 <= i < |dishes| ==> dishes[i].id != dishId
  {
    Find(dishes, (d: Dish) => d.id == dishId)
  }

  /** The `next` calls `dishExists` makes, in order. The 404 call is not in an
      else branch, so it is made whether or not the dish was found; a found dish
      first gets the plain `next()`. */
  function DishExists(dishes: seq<Dish>, dishId: string): (calls: seq<Outcome>)
    ensures |calls| == if Lookup(dishes, dishId).Some? then 2 else 1
    ensures calls[0].Pass? <==> exists i :: 0 <= i < |dishes| && dishes[i].id == dishId
    ensures calls[|calls| - 1] == Fail(404, "Could not find dish ID: " + dishId)
  {
    var notFound := [Fail(404, NotFoundMessage(dishId))];
    if Lookup(dishes, dishId).Some? then [Pass] + notFound else notFound
  }

  function NameValidation(data: DishPayload): (r: Outcome)
    ensures r.Pass? <==> data.name.Some? && data.name.value != ""
    ensures !r.Pass? ==> r == Fail(400, "Dish must include a name")
  {
    if Filled(data.name) then Pass else Fail(400, NameRequired)
  }

  function DescriptionValidation(data: DishPayload): (r: Outcome)
    ensures r.Pass? <==> data.description.Some? && data.description.value != ""
    ensures !r.Pass? ==> r == Fail(400, "Dish must include a description")
  {
    if Filled(data.description) then Pass else Fail(400, DescriptionRequired)
  }

  function ImageValidation(data: DishPayload): (r: Outcome)
    ensures r.Pass? <==> data.imageUrl.Some? && data.imageUrl.value != ""
    ensures !r.Pass? ==> r == Fail(400, "Dish must include an image_url")
  {
    if Filled(data.imageUrl) then Pass else Fail(400, ImageRequired)
  }

  /** A falsy price, 0 among them, is reported as missing; any other price that
      is not a positive integer gets the "integer greater than 0" message. */
  function PriceValidation(data: DishPayload): (r: Outcome)
    ensures r.Pass? <==> data.price.IntVal? && data.price.n > 0
    ensures data.price in {Missing, IntVal(0)} ==> r == Fail(400, PriceRequired)
    ensures (data.price.IntVal? && data.price.n < 0) || data.price.NonInteger? ==> r == Fail(400, PriceInvalid)
  {
    if PositiveInteger(data.price) then Pass
    else if !Truthy(data.price) then Fail(400, PriceRequired)
    else Fail(400, PriceInvalid)
  }

  /** A payload id that is absent or empty passes; any other must equal the route's. */
  function MatchesRouteId(data: DishPayload, dishId: string): (r: Outcome)
    ensures r.Pass? <==> data.id in {None, Some(""), Some(dishId)}
    ensures !r.Pass? ==> r == Fail(400, MismatchMessage(data.id.value, dishId))
  {
    var hasMatchingIds := data.id == Some(dishId);
    if !Filled(data.id) then Pass
    else if Filled(data.id) && hasMatchingIds then Pass
    else Fail(400, MismatchMessage(data.id.value, dishId))
  }

  /** `read: [dishExists, read]`: the chain goes on as the FIRST `next` call of
      `dishExists` says. */
  function ReadChain(dishes: seq<Dish>, req: Request): seq<Outcome> {
    [DishExists(dishes, req.dishId)[0]]
  }

  /** `update: [dishExists, matchesRouteId, nameValidation, descriptionValidation,
      priceValidation, imageValidation, update]`. */
  function UpdateChain(dishes: seq<Dish>, req: Request): seq<Outcome> {
    [ DishExists(dishes, req.dishId)[0], MatchesRouteId(req.data, req.dishId),
      NameValidation(req.data), DescriptionValidation(req.data),
      PriceValidation(req.data), ImageValidation(req.data) ]
  }

  /** `create: [nameValidation, descriptionValidation, priceValidation,
      imageValidation, create]`. */
  function CreateChain(req: Request): seq<Outcome> {
    [NameValidation(req.data), DescriptionValidation(req.data), PriceValidation(req.data), ImageValidation(req.data)]
  }

  /** Everything the create chain asks of a payload. */
  predicate PayloadAccepted(data: DishPayload) {
    && Filled(data.name)
    && Filled(data.description)
    && PositiveInteger(data.price)
    && Filled(data.imageUrl)
  }

  /** Everything the update chain asks of a request. */
  predicate UpdateRequestAccepted(dishes: seq<Dish>, req: Request) {
    && Lookup(dishes, req.dishId).Some?
    && req.data.id in {None, Some(""), Some(req.dishId)}
    && PayloadAccepted(req.data)
  }

  /** The create chain runs its four guards in the table's order, each only if
      the ones before it passed. */
  lemma CreateChainUnfolds(req: Request)
    ensures RunChain(CreateChain(req)) ==
      AndThen(NameValidation(req.data),
      AndThen(DescriptionValidation(req.data),
      AndThen(PriceValidation(req.data),
      AndThen(ImageValidation(req.data), Pass))))
  {
    var c3 := [ImageValidation(req.data)];
    var c2 := [PriceValidation(req.data)] + c3;
    var c1 := [DescriptionValidation(req.data)] + c2;
    RunChainCons(ImageValidation(req.data), []);
    assert [ImageValidation(req.data)] + [] == c3;
    RunChainCons(PriceValidation(req.data), c3);
    RunChainCons(DescriptionValidation(req.data), c2);
    RunChainCons(NameValidation(req.data), c1);
    assert [NameValidation(req.data)] + c1 == CreateChain(req);
  }

  /** The update chain runs its six guards in the table's order, each only if the
      ones before it passed. */
  lemma UpdateChainUnfolds(dishes: seq<Dish>, req: Request)
    ensures RunChain(UpdateChain(dishes, req)) ==
      AndThen(DishExists(dishes, req.dishId)[0],
      AndThen(MatchesRouteId(req.data, req.dishId),
      AndThen(NameValidation(req.data),
      AndThen(DescriptionValidation(req.data),
      AndThen(PriceValidation(req.data),
      AndThen(ImageValidation(req.data), Pass))))))
  {
    var found := DishExists(dishes, req.dishId)[0];
    var c5 := [ImageValidation(req.data)];
    var c4 := [PriceValidation(req.data)] + c5;
    var c3 := [DescriptionValidation(req.data)] + c4;
    var c2 := [NameValidation(req.data)] + c3;
    var c1 := [MatchesRouteId(req.data, req.dishId)] + c2;
    RunChainCons(ImageValidation(req.data), []);
    assert [ImageValidation(req.data)] + [] == c5;
    RunChainCons(PriceValidation(req.data), c5);
    RunChainCons(DescriptionValidation(req.data), c4);
    RunChainCons(NameValidation(req.data), c3);
    RunChainCons(MatchesRouteId(req.data, req.dishId), c2);
    RunChainCons(found, c1);
    assert [found] + c1 == UpdateChain(dishes, req);
  }

  lemma CreateChainAccepts(req: Request)
    ensures RunChain(CreateChain(req)).Pass? <==> PayloadAccepted(req.data)
    ensures !RunChain(CreateChain(req)).Throw?
  {
    CreateChainUnfolds(req);
  }

  lemma UpdateChainAccepts(dishes: seq<Dish>, req: Request)
    ensures RunChain(UpdateChain(dishes, req)).Pass? <==> UpdateRequestAccepted(dishes, req)
    ensures !RunChain(UpdateChain(dishes, req)).Throw?
  {
    UpdateChainUnfolds(dishes, req);
  }

  /** An update of a dish that is not stored answers 404 before any payload check;
      an update whose payload id names another dish answers 400 quoting both ids. */
  lemma UpdateChainRejections(dishes: seq<Dish>, req: Request)
    ensures Lookup(dishes, req.dishId).None? ==> RunChain(UpdateChain(dishes, req)) == Fail(404, NotFoundMessage(req.dishId))
    ensures Lookup(dishes, req.dishId).Some? && Filled(req.data.id) && req.data.id.value != req.dishId ==>
      RunChain(UpdateChain(dishes, req)) == Fail(400, MismatchMessage(req.data.id.value, req.dishId))
  {
    UpdateChainUnfolds(dishes, req);
  }

  lemma ReadChainOutcome(dishes: seq<Dish>, req: Request)
    ensures RunChain(ReadChain(dishes, req)).Pass? <==> Lookup(dishes, req.dishId).Some?
    ensures !RunChain(ReadChain(dishes, req)).Pass? ==> RunChain(ReadChain(dishes, req)) == Fail(404, NotFoundMessage(req.dishId))
  {
    RunChainCons(DishExists(dishes, req.dishId)[0], []);
    assert [DishExists(dishes, req.dishId)[0]] + [] == ReadChain(dishes, req);
  }
}
