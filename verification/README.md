# Dishes and orders controllers: guard chains and in-memory stores

This project models the core of a small dishes-and-orders API. That core is the two Express
controllers `src/orders/orders.controller.js` and `src/dishes/dishes.controller.js`. Each
exported operation is a chain of guard middleware followed by a handler. The chain runs in a
fixed order and stops at the first guard that hands an error to `next`. The handler then
reads or mutates a module-level array of records.

The model has six modules:

- `Js` models the JavaScript values the guards test and the array built-ins the handlers call.
  Optional strings use `Option<string>`, and `s && s.length > 0` is `Filled`. A number field
  is `Num = Missing | IntVal(n) | NonInteger`, which keeps JavaScript truthiness and
  `Number.isInteger` exact without floats. The module also gives `find`, `findIndex` and
  `splice`, including `splice` with a negative start.
- `Middleware` has what a step does: `Pass` for `next()`, `Fail(status, message)` for
  `next({status, message})`, and `Throw` for a TypeError the step raises instead. It also
  has the response a handler produces and `RunChain`, the fail-fast driver. Every guard
  reads only the request and the stored collection, so a chain is the sequence of its
  guards' outcomes, and `RunChain` answers with the first one that does not pass.
- `Orders` and `Dishes` have the guards, one function per guard with the source's branches,
  messages and status codes. They also have the chain tables of `module.exports` and lemmas
  about what each chain accepts and rejects.
- `OrdersStore` and `DishesStore` each have a class that owns the collection as a
  `seq` field. Its methods are `List`, the mutating handlers (`Create` and `Update`, and
  `Destroy` for orders only: the dishes controller has no delete), and the exported
  chain-plus-handler operations (`HandleRead`, `HandleCreate`, `HandleUpdate`, and
  `HandleDelete` for orders). `read` itself only answers with the record the chain
  found, so it lives inside `HandleRead`. Each mutation is specified by
  a function of the old collection, and lemmas prove the stated properties about those
  functions.

The model keeps these behaviours of the code as written:

- `statusValidation` accepts `"delivered"`. Its "A delivered order cannot be changed"
  branch can never run, and no order is ever locked once delivered. That message
  suggests a lock on delivered orders, but the code has none, and this model follows the code
  (`Orders.StatusValidation`, `Orders.DeliveredOrderIsNotLocked`,
  `Orders.UpdateIgnoresStoredStatus`).
- The last branch of `dishesValidation` ("Order must include a dish") is unreachable.
- `priceValidation` reports price `0` as a missing price, because `0` is falsy.
- `update` finds the index from the *payload* id. Without one, `findIndex` gives -1 and
  `splice(-1, 1, x)` overwrites the last record. That can leave two records with one id
  (`OrdersStore.UpdateWithoutPayloadIdCanDuplicateIds`).
- `dishExists` calls `next()` and then also `next({status: 404, ...})` when the dish is
  found. The chain goes on from the first call. The dish handlers return the second call
  as `stray`, an outcome issued after the response is already settled.
- `dishQuantityValidation` throws on a `dishes` value that is not an array, and
  `pendingStatusValidation` throws without a stored order. Lemmas show that the declared
  chains never reach either case, because the guards that rule them out run first.

`nextId()` is a parameter `newId` of the create operations. Its freshness is a
precondition, `newId !in Ids(...)`. `res.locals.order` and `res.locals.dish` are the
record that `Lookup` (the controllers' `find`) returns for the route id.

## Model

| member | source | states |
|---|---|---|
| `Js.FindIndex` | src/orders/orders.controller.js:92-95 | `findIndex`: -1 exactly when no element satisfies the test; otherwise the first index that does |
| `Js.Find` | src/orders/orders.controller.js:7 | `find`: none exactly when no element satisfies the test; otherwise an element that does, with no earlier one satisfying it |
| `Js.Splice` | src/orders/orders.controller.js:139 | `splice(start, deleteCount, ...items)`: a negative start counts from the end; the result keeps the prefix, inserts the items and keeps the suffix after the deleted run; its length is given |
| `Js.SpliceReplaceAt` | src/orders/orders.controller.js:139 | `splice(k, 1, x)` at a valid index replaces exactly element k |
| `Js.SpliceReplaceLast` | src/dishes/dishes.controller.js:99 | `splice(-1, 1, x)` replaces the last element, or inserts x into an empty array |
| `Js.SpliceRemoveAt` | src/orders/orders.controller.js:161 | `splice(k, 1)` at a valid index drops exactly element k and keeps the rest in order |
| `Js.NatToString` | src/orders/orders.controller.js:101 | the index printed into the quantity message is a run of decimal digits without a leading zero whose value, read back with `DigitsValue`, is the index |
| `Js.DigitsValue` | src/orders/orders.controller.js:101 | definition: the number a digit string denotes, the read-back partner of `NatToString` |
| `Js.Truthy` | src/dishes/dishes.controller.js:44 | definition: `Boolean(x)` on the three number cases; `Dishes.PriceValidation` states what it decides |
| `Js.PositiveInteger` | src/orders/orders.controller.js:93 | definition: truthy, an integer and above 0; `Orders.DishQuantityValidation` and `Dishes.PriceValidation` state it as "an integer n > 0" |
| `Js.Filled` | src/orders/orders.controller.js:20 | definition: `s && s.length > 0`; the presence guards state it as "a non-empty string" |
| `Middleware.RunChainOutcome` | src/orders/orders.controller.js:169-171 | fail-fast chain: passes exactly when every step passes; otherwise its outcome is that of the first failing step, all earlier steps having passed |
| `Middleware.RunChain` | src/orders/orders.controller.js:169-171 | definition: the fail-fast driver; `RunChainOutcome`, `RunChainCons` and `RunChainAppend` state its meaning |
| `Middleware.AndThen` | src/orders/orders.controller.js:169 | a step followed by the rest: a step that passes hands over to the rest, whose outcome is the answer; a step that does not pass is the answer |
| `Middleware.RunChainCons` | src/dishes/dishes.controller.js:120 | a chain with a first step answers as that step unless it passes, and otherwise as the rest of the chain |
| `Middleware.RunChainAppend` | src/dishes/dishes.controller.js:120-121 | a failure in an earlier part of a chain decides the outcome, and later steps are never consulted |
| `Orders.Lookup` | src/orders/orders.controller.js:7 | the order found for an id is the first stored order with that id; none is found exactly when no order has it |
| `Orders.OrderExists` | src/orders/orders.controller.js:5-16 | passes exactly when some stored order has the route id; else 404 "Could not find order ID: <id>" |
| `Orders.DeliverToValidation` | src/orders/orders.controller.js:18-27 | passes exactly when deliverTo is a non-empty string; else 400 "Order must include a deliverTo" |
| `Orders.MobileNumberValidation` | src/orders/orders.controller.js:29-38 | passes exactly when mobileNumber is a non-empty string; else 400 "Order must include a mobileNumber" |
| `Orders.StatusValidation` | src/orders/orders.controller.js:40-61 | passes exactly when status is present, non-empty and not "invalid" ("delivered" included); missing or empty gives the "must have a status of ..." message, "invalid" gives "Order must include a status"; the "delivered" message never occurs |
| `Orders.PendingStatusValidation` | src/orders/orders.controller.js:62-72 | on the stored order: passes exactly when its status is "pending", else 400 "An order cannot be deleted unless it is pending."; throws exactly when no order was stored |
| `Orders.DishesValidation` | src/orders/orders.controller.js:74-89 | passes exactly when dishes is a non-empty array; every failure is "Order must include at least one dish" and never "Order must include a dish" |
| `Orders.DishQuantityValidation` | src/orders/orders.controller.js:90-103 | throws exactly when dishes is not an array; passes exactly when every quantity is a positive integer; a failure names the smallest index whose quantity is not |
| `Orders.MatchesRouteId` | src/orders/orders.controller.js:105-118 | passes exactly when the payload id is absent, empty or equal to the route id; else 400 quoting both ids |
| `Orders.ReadChain` | src/orders/orders.controller.js:168 | definition: the read table; `Orders.ReadChainOutcome` states its outcome |
| `Orders.UpdateChain` | src/orders/orders.controller.js:169 | definition: the update table; `Orders.UpdateChainUnfolds` states its order |
| `Orders.CreateChain` | src/orders/orders.controller.js:170 | definition: the create table; `Orders.CreateChainUnfolds` states its order |
| `Orders.DeleteChain` | src/orders/orders.controller.js:171 | definition: the delete table; `Orders.DeleteChainUnfolds` states its order |
| `Orders.QuantityMessageNamesIndex` | src/orders/orders.controller.js:101 | two quantity messages are equal exactly when they name the same index |
| `Orders.DishQuantityNamesFirstBadIndex` | src/orders/orders.controller.js:90-103 | a refused quantity check names an index whose quantity is not a positive integer while every earlier quantity is one |
| `Orders.CreateChainUnfolds` | src/orders/orders.controller.js:170 | the create chain runs dishesValidation, deliverToValidation, mobileNumberValidation and dishQuantityValidation in that order, each only after the earlier ones passed |
| `Orders.UpdateChainUnfolds` | src/orders/orders.controller.js:169 | the update chain runs its seven guards in the table's order, each only after the earlier ones passed |
| `Orders.DeleteChainUnfolds` | src/orders/orders.controller.js:171 | the delete chain runs orderExists, then pendingStatusValidation on the order found for the route id |
| `Orders.CreateChainAccepts` | src/orders/orders.controller.js:170 | the create chain passes exactly when dishes is a non-empty array of positive-integer quantities and deliverTo and mobileNumber are non-empty |
| `Orders.CreateChainNeverThrows` | src/orders/orders.controller.js:170 | because dishesValidation runs first, the create chain never reaches the TypeError of `findIndex` on a non-array |
| `Orders.UpdateChainAccepts` | src/orders/orders.controller.js:169 | the update chain passes exactly when the order exists, the payload id agrees with the route id, the status is accepted and the create requirements hold |
| `Orders.UpdateChainNeverThrows` | src/orders/orders.controller.js:169 | the update chain never throws: dishesValidation precedes dishQuantityValidation |
| `Orders.UpdateOfMissingOrder` | src/orders/orders.controller.js:169 | an update of a missing order answers 404 whatever the payload |
| `Orders.DeliveredOrderIsNotLocked` | src/orders/orders.controller.js:40-61 | the update chain never yields "A delivered order cannot be changed" |
| `Orders.UpdateIgnoresStoredStatus` | src/orders/orders.controller.js:40-61 | the update chain's outcome does not depend on the stored order's status, so a delivered order is updated like any other |
| `Orders.DeleteChainOutcome` | src/orders/orders.controller.js:171 | delete answers 404 for a missing order, 400 for a stored order that is not pending, and goes ahead exactly when it is pending |
| `Orders.CreateChainDishExamples` | src/orders/orders.controller.js:74-103 | a create whose only dish has quantity 0 is refused naming index 0; an empty dishes array gives "at least one dish" |
| `Orders.ReadChainOutcome` | src/orders/orders.controller.js:168 | read passes exactly when the order exists, else 404 naming the id |
| `OrdersStore.IndexOfPayloadId` | src/orders/orders.controller.js:130 | the index `update` looks up is the first order whose id equals the payload id, or -1 when none does (always -1 without a payload id) |
| `OrdersStore.UpdatedOrder` | src/orders/orders.controller.js:131-138 | definition: the payload id when truthy, else the route id, with the payload's fields; `OrdersStore.UpdateReplacesNamedOrder` and `OrdersStore.UpdateWithoutPayloadIdOverwritesLast` state which id it carries |
| `OrdersStore.NewOrder` | src/orders/orders.controller.js:145-152 | definition: the minted id with the payload's fields; `OrdersStore.CreateThenRead` reads it back |
| `OrdersStore.AfterUpdate` | src/orders/orders.controller.js:128-141 | after update the collection has its old length (one record if it was empty); it holds the rebuilt record, and every other record was there before |
| `OrdersStore.AfterCreate` | src/orders/orders.controller.js:143-155 | create appends exactly one order, with the minted id and the payload fields, and keeps every earlier order in place |
| `OrdersStore.AfterDestroy` | src/orders/orders.controller.js:157-164 | destroy leaves the collection unchanged when no order has the id and shortens it by one otherwise |
| `OrdersStore.UpdateReplacesNamedOrder` | src/orders/orders.controller.js:128-141 | with a payload id naming a stored order, update replaces that order in place and keeps its id |
| `OrdersStore.UpdateWithoutPayloadIdOverwritesLast` | src/orders/orders.controller.js:130-139 | with no payload id, or one naming no order, update overwrites the last order; when the payload id is absent, the new record carries the route id |
| `OrdersStore.UpdateWithoutPayloadIdCanDuplicateIds` | src/orders/orders.controller.js:128-141 | a fully accepted update without a payload id, aimed at an order other than the last, leaves two orders with the same id |
| `OrdersStore.UpdateWithRouteIdKeepsIds` | src/orders/orders.controller.js:128-141 | an accepted update carrying the route id keeps the set of ids and their uniqueness |
| `OrdersStore.SameIdsInPlace` | src/orders/orders.controller.js:139 | a collection whose records keep their ids position by position keeps its set of ids and their uniqueness |
| `OrdersStore.CreateThenRead` | src/orders/orders.controller.js:143-155 | creating under a fresh id keeps ids unique, and a read of that id finds the created order |
| `OrdersStore.DestroyRemovesFirstMatch` | src/orders/orders.controller.js:157-164 | destroy removes exactly the first order with the route id and keeps the rest in order |
| `OrdersStore.DestroyThenRead` | src/orders/orders.controller.js:157-164 | with unique ids, a read after destroy finds no order with that id, so it answers 404 |
| `OrdersStore.CreatedOrderWellFormed` | src/orders/orders.controller.js:143-155 | an order written after the create chain passed has non-empty deliverTo and mobileNumber and non-empty dishes with positive-integer quantities; a store of such orders stays so |
| `OrdersStore.UpdatedOrdersWellFormed` | src/orders/orders.controller.js:128-141 | an order written after the update chain passed is well-formed with an accepted status; a store of well-formed orders stays so |
| `OrdersStore.OrderStore.constructor` | src/orders/orders.controller.js:2 | the collection starts as the seed data |
| `OrdersStore.OrderStore.List` | src/orders/orders.controller.js:124-126 | `list` answers 200 with the whole collection in insertion order |
| `OrdersStore.OrderStore.HandleRead` | src/orders/orders.controller.js:120-122 | `read` answers 200 with the stored order, or 404 naming the id |
| `OrdersStore.OrderStore.Create` | src/orders/orders.controller.js:143-155 | `create` pushes the new order and answers 201 with it |
| `OrdersStore.OrderStore.Update` | src/orders/orders.controller.js:128-141 | `update` splices the rebuilt order in at the payload id's index and answers 200 with it |
| `OrdersStore.OrderStore.Destroy` | src/orders/orders.controller.js:157-164 | `destroy` splices out the first order with the route id, if any, and answers 204 |
| `OrdersStore.OrderStore.HandleCreate` | src/orders/orders.controller.js:170 | the create chain decides: on a pass the order is appended with 201, otherwise nothing changes and the first error is answered |
| `OrdersStore.OrderStore.HandleUpdate` | src/orders/orders.controller.js:169 | the update chain decides: on a pass the collection is updated with 200, otherwise nothing changes and the first error is answered; the length never changes |
| `OrdersStore.OrderStore.HandleDelete` | src/orders/orders.controller.js:171 | the delete chain decides: on a pass the order is removed with 204, otherwise nothing changes and the first error is answered |
| `Dishes.Lookup` | src/dishes/dishes.controller.js:7 | the dish found for an id is the first stored dish with that id; none is found exactly when no dish has it |
| `Dishes.DishExists` | src/dishes/dishes.controller.js:5-16 | the first `next` call passes exactly when a dish has the route id; the last call is always the 404 naming the id, so a found dish gets two calls |
| `Dishes.NameValidation` | src/dishes/dishes.controller.js:18-27 | passes exactly when name is a non-empty string; else 400 "Dish must include a name" |
| `Dishes.DescriptionValidation` | src/dishes/dishes.controller.js:29-38 | passes exactly when description is a non-empty string; else 400 "Dish must include a description" |
| `Dishes.PriceValidation` | src/dishes/dishes.controller.js:39-54 | passes exactly when price is an integer > 0; a missing price or 0 gives "Dish must include a price"; a negative or non-integer price gives the "integer greater than 0" message |
| `Dishes.ImageValidation` | src/dishes/dishes.controller.js:55-64 | passes exactly when image_url is a non-empty string; else 400 "Dish must include an image_url" |
| `Dishes.MatchesRouteId` | src/dishes/dishes.controller.js:66-78 | passes exactly when the payload id is absent, empty or equal to the route dishId; else 400 quoting both ids |
| `Dishes.ReadChain` | src/dishes/dishes.controller.js:119 | definition: the read table; `Dishes.ReadChainOutcome` states its outcome |
| `Dishes.UpdateChain` | src/dishes/dishes.controller.js:120 | definition: the update table; `Dishes.UpdateChainUnfolds` states its order |
| `Dishes.CreateChain` | src/dishes/dishes.controller.js:121 | definition: the create table; `Dishes.CreateChainUnfolds` states its order |
| `Dishes.CreateChainUnfolds` | src/dishes/dishes.controller.js:121 | the create chain runs nameValidation, descriptionValidation, priceValidation and imageValidation in that order, each only after the earlier ones passed |
| `Dishes.UpdateChainUnfolds` | src/dishes/dishes.controller.js:120 | the update chain runs the first `next` of dishExists, then its five other guards in the table's order, each only after the earlier ones passed |
| `Dishes.CreateChainAccepts` | src/dishes/dishes.controller.js:121 | the create chain passes exactly when name, description and image_url are non-empty and price is a positive integer; it never throws |
| `Dishes.UpdateChainAccepts` | src/dishes/dishes.controller.js:120 | the update chain passes exactly when the dish exists, the payload id agrees with the route id and the create requirements hold; it never throws |
| `Dishes.UpdateChainRejections` | src/dishes/dishes.controller.js:120 | an update of a missing dish answers 404 before any payload check; a differing non-empty payload id answers 400 quoting both ids |
| `Dishes.ReadChainOutcome` | src/dishes/dishes.controller.js:119 | read passes exactly when a dish has the route id, else 404 naming the id |
| `DishesStore.IndexOfPayloadId` | src/dishes/dishes.controller.js:90 | the index `update` looks up is the first dish whose id equals the payload id, or -1 when none does |
| `DishesStore.UpdatedDish` | src/dishes/dishes.controller.js:91-98 | definition: the payload id when truthy, else the route id, with the payload's fields; `DishesStore.UpdateReplacesNamedDish` and `DishesStore.UpdateWithoutPayloadIdOverwritesLast` state which id it carries |
| `DishesStore.NewDish` | src/dishes/dishes.controller.js:105-112 | definition: the minted id with the payload's four fields; `DishesStore.CreateThenRead` reads them back |
| `DishesStore.AfterUpdate` | src/dishes/dishes.controller.js:88-101 | after update the collection has its old length (one record if it was empty); it holds the rebuilt dish, and every other dish was there before |
| `DishesStore.AfterCreate` | src/dishes/dishes.controller.js:103-115 | create appends exactly one dish with the minted id and the four payload fields, and keeps earlier dishes in place |
| `DishesStore.UpdateReplacesNamedDish` | src/dishes/dishes.controller.js:88-101 | with a payload id naming a stored dish, update replaces that dish in place and keeps its id |
| `DishesStore.UpdateWithoutPayloadIdOverwritesLast` | src/dishes/dishes.controller.js:89-99 | with no payload id, or one naming no dish, update overwrites the last dish; when the payload id is absent, the new record carries the route id |
| `DishesStore.CreateThenRead` | src/dishes/dishes.controller.js:103-115 | a dish created under a fresh id is read back with its four fields unchanged, and ids stay unique |
| `DishesStore.AcceptedDishesWellFormed` | src/dishes/dishes.controller.js:120-121 | a store of well-formed dishes stays well-formed under an accepted create or update: all fields present and the price a positive integer |
| `DishesStore.DishStore.constructor` | src/dishes/dishes.controller.js:2 | the collection starts as the seed data |
| `DishesStore.DishStore.List` | src/dishes/dishes.controller.js:84-86 | `list` answers 200 with the whole collection in insertion order |
| `DishesStore.DishStore.HandleRead` | src/dishes/dishes.controller.js:119 | read answers 200 with the stored dish followed by the stray 404 `next`, or only the 404 when no dish has the id |
| `DishesStore.DishStore.Create` | src/dishes/dishes.controller.js:103-115 | `create` pushes the new dish and answers 201 with it |
| `DishesStore.DishStore.Update` | src/dishes/dishes.controller.js:88-101 | `update` splices the rebuilt dish in at the payload id's index and answers 200 with it |
| `DishesStore.DishStore.HandleCreate` | src/dishes/dishes.controller.js:121 | the create chain decides: on a pass the dish is appended with 201, otherwise nothing changes; the collection never shrinks |
| `DishesStore.DishStore.HandleUpdate` | src/dishes/dishes.controller.js:120 | the update chain decides: on a pass the collection is updated with 200, otherwise nothing changes; the length never changes; a found dish also gets the stray 404 |

## Left out

- Express routing, `methodNotAllowed` and `src/orders/orders.router.js` are framework wiring. The chain tables are modelled from the controllers' `module.exports`.
- Response rendering (`res.status(...).json(...)`, `res.sendStatus(204)`) is modelled as a `Response` value. The `console.log` in `pendingStatusValidation` is I/O and is left out.
- The error boundary that turns an error handed to `next` into a response is not part of the controllers. The model assumes it answers `Fail(status, message)` with that status and `{status, message}` (`ErrorResponse` is only that assumption, written out).
- What Express does with the stray 404 that `dishExists` sends after a response is out of scope: the error boundary is not part of this model. The model only returns that call.
- `nextId` and the seed-data modules are not part of this model. The minted id is a parameter whose freshness is a precondition, and the seed is a constructor argument.
- A request without `req.body.data` cannot be expressed: `Request` always carries a payload. In the source, `matchesRouteId` would throw a TypeError on such a request.
- Payload fields that are not strings where strings are expected (such as `.length` on a number) are not modelled. The same holds for `dishes` entries that are not objects, and for payload ids that are not strings. Optional strings and the `Num` cases cover the values the guards are written for.
- The route id of a create request is not read by any create guard, and the model does not give it a meaning.
- Concurrency between requests: each handler runs to completion on the store, as the single-threaded runtime does.
