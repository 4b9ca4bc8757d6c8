# Benchmark microservices shop — Dafny model

This project models the shop's back end and storefront:

- **The order service.** It stores orders. When an order is marked `Completed`, it publishes an `ORDER_COMPLETED` message.
- **The product service.** It stores products. It consumes that message and asks its repository to reduce the quantity of every item.
- **The broker.** The two services talk over a RabbitMQ queue named `orders`. Each service has its own connection manager for it.
- **The auth service.** Its Express middleware checks a bearer token.
- **The Next.js storefront.** Its route middleware redirects by authentication state. Its API helpers build query strings, validate request and response bodies with Zod schemas, and send requests.

Persistence, JWT verification, ObjectId validity, `parseFloat`, number formatting and the broker's network results are parameters, never executed:

- The tables are Dafny `map`s keyed by id.
- Verifiers and parsers are function parameters.
- Each broker call takes the outcome it would receive as an argument.

## How the model is built

**Object layer.** The source's stateful objects are Dafny classes:

- the two `MessageBroker`s;
- `ProductsRepository`, `ProductsService`, `OrdersRepository` and `OrderController`;
- a product document (`ProductDocument`);
- `URLSearchParams` (`Storefront.SearchParams`).

Their methods update fields in place. Each broker method's `ensures` ties the new state to a pure transition function of the old state (`OrderBrokerSpec` and `ProductBrokerSpec`). Every property of the connection protocol is proved about those functions.

**Order broker.** The awaited connect loop is one pending-timer counter plus an in-flight attempt count:
- a failure re-arms the timer only while `retries < maxRetries`;
- `connect` is a no-op while an attempt runs or a connection exists;
- a publish without a channel calls `connect` and drops the message.

**Product broker.** `connect` has no guard. It records the queue of each in-flight attempt and each pending retry.

**Product consumer.** The setup starts `connect` without awaiting it. `consumeMessage` therefore always finds no channel.

**Schemas.** Zod schemas are a small schema datatype with a `Parse` function (it reports issues and strips unknown keys) and an independent acceptance predicate. `ParseAgrees` proves the two agree. Every schema of the storefront has its own lemma spelling out exactly which JSON values it accepts.

## Model

| member | source | states |
|---|---|---|
| `Text.Split` | auth/src/middlewares/authMiddleware.js:15 | splitting on a character gives at least one part, and no part contains the separator |
| `Text.JoinSplit` | auth/src/middlewares/authMiddleware.js:15 | joining the parts of a split with the separator gives back the original string |
| `Text.SplitAfterWord` | auth/src/middlewares/authMiddleware.js:15 | splitting `w + sep + t` gives `w` followed by the parts of `t` |
| `Text.SplitWithoutSeparator` | auth/src/middlewares/authMiddleware.js:15 | a string without the separator splits into itself alone |
| `Text.Trim` | product/src/models/product.js:5-10 | the trimmed string is the slice `s[i..j]` of the input whose dropped prefix `s[..i]` and suffix `s[j..]` are all whitespace, and it is empty or starts and ends with non-whitespace; whitespace is ECMAScript's WhiteSpace and LineTerminator set, which `String.prototype.trim` removes |
| `Text.TrimKeepsUnpadded` | product/src/models/product.js:5-10 | a string without whitespace is left unchanged by trimming |
| `Text.Utf16Length` | host-client/src/app/_api/auth/login.ts:7-11 | JavaScript's `length`: at least the number of characters and at most twice it, a character from U+10000 up counting twice |
| `Text.BmpUtf16Length` | host-client/src/app/_api/auth/login.ts:7-11 | on text within the Basic Multilingual Plane the UTF-16 length is the number of characters |
| `Text.EmojiIsTwoCodeUnits` | host-client/src/app/_api/auth/login.ts:10 | one emoji is one character but two code units |
| `BrokerCommon.CloseEvents` | order/src/utils/messageBroker.js:84-97 | closing closes the channel first, then the connection; a failing channel close stops there; with neither handle present nothing happens |
| `OrderBrokerSpec.Failed` | order/src/utils/messageBroker.js:30-40 | a failed attempt counts one retry, clears `isConnecting`, and arms a new retry timer exactly when the new count is below `maxRetries` |
| `OrderBrokerSpec.Complete` | order/src/utils/messageBroker.js:21-41 | success resets `retries` to 0 and opens a connection, a channel and asserts `orders`; a failure counts a retry and re-arms the timer exactly while below the cap; `Valid` is kept |
| `OrderBrokerSpec.FireRetry` | order/src/utils/messageBroker.js:36 | a timer that fires starts one more attempt without touching the flag, the handles or the retry count; validity is kept |
| `OrderBrokerSpec.Connect` | order/src/utils/messageBroker.js:13-44 | while an attempt is running or a connection exists, `connect` changes nothing; otherwise its one attempt ends with the flag lowered, connected with `retries` reset, or failed with one more retry |
| `OrderBrokerSpec.Publish` | order/src/utils/messageBroker.js:46-63 | without a channel the message is dropped and `connect` is called; with one it is sent, or a send failure is logged, and nothing else changes |
| `OrderBrokerSpec.Consume` | order/src/utils/messageBroker.js:65-82 | with a channel the consumer is registered or the refusal logged; with no channel and a guarded `connect` the call fails; with no channel and an unguarded `connect` the awaited attempt runs first and the consumer is registered exactly when that attempt left a channel and `consume` succeeds; a refused `consume` never registers a consumer |
| `BrokerCommon.Deliver` | order/src/utils/messageBroker.js:73-78 | a delivered message is parsed, handed to the callback and acknowledged; an unparsable one is neither handed over nor acknowledged; the product manager's callback (product/src/utils/messageBroker.js:68-73) is the same |
| `BrokerCommon.Close` | order/src/utils/messageBroker.js:84-97 | closing only appends to the record of effects, at most two events; with nothing open it changes nothing; the product manager's `closeConnection` (product/src/utils/messageBroker.js:80-93) is the same |
| `OrderBrokerSpec.FailureChainIsCapped` | order/src/utils/messageBroker.js:35-39 | a chain of failing attempts started at `retries` makes `maxRetries - retries` attempts (one when already at the cap) and then stops |
| `OrderBrokerSpec.FreshManagerGivesUpAfterTenAttempts` | order/src/utils/messageBroker.js:9 | a fresh manager whose every attempt fails makes exactly 10 attempts |
| `OrderBrokerSpec.ConcurrentConnectsStartOneAttempt` | order/src/utils/messageBroker.js:14-18 | a second `connect` while the first is in progress starts no second attempt |
| `OrderBrokerSpec.ConnectDuringPendingRetryStartsAnotherAttempt` | order/src/utils/messageBroker.js:32-36 | because the failure handler clears `isConnecting` before the timer fires, a `connect` in that window starts an extra attempt beside the pending retry |
| `OrderBrokerSpec.StrandedConnectionDropsEveryPublish` | order/src/utils/messageBroker.js:47-51 | with a connection but no channel the guard blocks `connect`, so every publish is dropped and nothing changes |
| `OrderBrokerSpec.DroppedPublishSendsNothing` | order/src/utils/messageBroker.js:47-51 | a publish without a channel reports that it was dropped and sends nothing |
| `BrokerCommon.DeliverAcksWhatItHandsOver` | order/src/utils/messageBroker.js:73-78 | a message is acknowledged exactly when it has been handed to the callback |
| `OrderBroker.MessageBroker.constructor` | order/src/utils/messageBroker.js:4-11 | no channel, no connection, not connecting, no retries, a cap of 10 and a 5000 ms interval |
| `OrderBroker.MessageBroker.StartConnect` | order/src/utils/messageBroker.js:13-18 | starts an attempt exactly when the guard lets it through; the new state is the spec's `StartConnect` |
| `OrderBroker.MessageBroker.Fail` | order/src/utils/messageBroker.js:30-40 | the new state is the spec's `Failed` of the old state |
| `OrderBroker.MessageBroker.CompleteAttempt` | order/src/utils/messageBroker.js:21-41 | the new state is the spec's `Complete` of the old state and the outcome |
| `OrderBroker.MessageBroker.FireRetry` | order/src/utils/messageBroker.js:36 | the new state is the spec's `FireRetry` of the old state |
| `OrderBroker.MessageBroker.Connect` | order/src/utils/messageBroker.js:13-44 | the new state is the spec's `Connect` of the old state |
| `OrderBroker.MessageBroker.PublishMessage` | order/src/utils/messageBroker.js:46-63 | the result and the new state are the spec's `Publish` |
| `OrderBroker.MessageBroker.ConsumeMessage` | order/src/utils/messageBroker.js:65-82 | the new state is the spec's `Consume` |
| `OrderBroker.MessageBroker.Deliver` | order/src/utils/messageBroker.js:73-78 | the message handed over is `BrokerCommon.Deliver`'s, and only the record changes, to that function's new record |
| `OrderBroker.MessageBroker.CloseConnection` | order/src/utils/messageBroker.js:84-97 | only the record changes, to `BrokerCommon.Close` of the old record and handles |
| `ProductBrokerSpec.Connect` | product/src/utils/messageBroker.js:12-38 | `connect` always starts one more attempt for its queue and changes nothing else |
| `ProductBrokerSpec.ConnectDefault` | product/src/utils/messageBroker.js:12 | a `connect` without an argument attempts the `orders` queue |
| `ProductBrokerSpec.Failed` | product/src/utils/messageBroker.js:23-33 | a failed attempt counts one retry and re-arms a retry for its queue exactly when the new count is below the cap |
| `ProductBrokerSpec.RemoveAt` | product/src/utils/messageBroker.js:15-34 | removing the k-th attempt keeps the others in order |
| `ProductBrokerSpec.Complete` | product/src/utils/messageBroker.js:15-34 | success resets `retries`, opens fresh handles and asserts the attempt's own queue; failure counts a retry and re-arms that queue exactly while below the cap; `Valid` is kept |
| `ProductBrokerSpec.FireRetry` | product/src/utils/messageBroker.js:28-29 | a timer that fires moves its queue from the pending retries to the in-flight attempts, and nothing else changes |
| `ProductBrokerSpec.Publish` | product/src/utils/messageBroker.js:40-57 | without a channel the message is dropped and `connect(queue)` is called; with one it is sent, or the failure is logged |
| `ProductBrokerSpec.Consume` | product/src/utils/messageBroker.js:59-77 | without a channel only `connect(queue)` happens and no consumer is registered; with one a consumer is registered or the failure logged, and nothing but the log changes |
| `ProductBrokerSpec.ConnectIsNeverGuarded` | product/src/utils/messageBroker.js:12-14 | every `connect` starts an attempt, even with a live connection |
| `ProductBrokerSpec.RedundantAttemptReplacesHandles` | product/src/utils/messageBroker.js:18-22 | a redundant successful attempt replaces the live connection and channel by new ones |
| `ProductBrokerSpec.RetryKeepsQueue` | product/src/utils/messageBroker.js:23-33 | a failed attempt's retry is for the same queue as the attempt |
| `ProductBrokerSpec.CapCountsAllAttempts` | product/src/utils/messageBroker.js:27-32 | once the shared counter reaches the cap, a failure arms no retry, whichever queue it was for |
| `ProductBrokerSpec.DroppedPublishLeavesRecord` | product/src/utils/messageBroker.js:41-45 | a publish without a channel is dropped and logs nothing |
| `ProductBroker.MessageBroker.constructor` | product/src/utils/messageBroker.js:4-10 | the initial state, a cap of 10 and a 5000 ms interval |
| `ProductBroker.MessageBroker.Connect` | product/src/utils/messageBroker.js:12-38 | the new state is the spec's `Connect` for the given queue, `orders` by default |
| `ProductBroker.MessageBroker.Fail` | product/src/utils/messageBroker.js:23-33 | the new state is the spec's `Failed` |
| `ProductBroker.MessageBroker.CompleteAttempt` | product/src/utils/messageBroker.js:15-34 | the new state is the spec's `Complete` for that attempt |
| `ProductBroker.MessageBroker.FireRetry` | product/src/utils/messageBroker.js:28-29 | the new state is the spec's `FireRetry` |
| `ProductBroker.MessageBroker.PublishMessage` | product/src/utils/messageBroker.js:40-57 | the result and the new state are the spec's `Publish` |
| `ProductBroker.MessageBroker.ConsumeMessage` | product/src/utils/messageBroker.js:59-77 | the new state is the spec's `Consume` |
| `ProductBroker.MessageBroker.Deliver` | product/src/utils/messageBroker.js:68-73 | the message handed over is `BrokerCommon.Deliver`'s, and only the record changes, to that function's new record |
| `ProductBroker.MessageBroker.CloseConnection` | product/src/utils/messageBroker.js:80-93 | only the record changes, to `BrokerCommon.Close` of the old record and handles |
| `ProductConsumer.ReductionRequest` | product/src/utils/setupMessageBroker.js:18-21 | a message asks for a reduction exactly when its event is `ORDER_COMPLETED`, and then for exactly its products |
| `ProductConsumer.HandlerReducesOnlyCompletedOrders` | product/src/utils/setupMessageBroker.js:14-30 | other events cause no repository call; a completed order reduces each of its items in order |
| `ProductConsumer.HandleMessage` | product/src/utils/setupMessageBroker.js:14-30 | the repository records exactly the handler's calls, the product table is untouched, and a failure is swallowed |
| `ProductConsumer.AckedEvenWhenReductionFails` | product/src/utils/messageBroker.js:68-73 | a parsed delivery is acknowledged, and the broker state does not depend on whether the reductions succeed |
| `ProductConsumer.SetupNeverRegistersConsumer` | product/src/utils/setupMessageBroker.js:11-14 | the setup as written registers no consumer and only adds two connection attempts |
| `ProductConsumer.FreshSetupRegistersNothing` | product/src/utils/setupMessageBroker.js:11-14 | from a fresh broker, the setup leaves no consumer on `orders`, whatever the outcomes of its two attempts |
| `ProductConsumer.SetupAwaitingConnectionRegisters` | product/src/utils/setupMessageBroker.js:11-14 | a setup that awaits a successful connection registers the consumer and leaves no attempt in flight |
| `ProductConsumer.SetupMessageBroker` | product/src/utils/setupMessageBroker.js:7-36 | the broker's new state is `Setup` of the old state |
| `ProductModel.Issues` | product/src/models/product.js:4-28 | each validation issue is reported exactly when its rule is violated: name required, price required, price and quantity not below 0 |
| `ProductModel.Build` | product/src/models/product.js:4-28 | a document is built exactly when there are no issues; it is valid, with the name and description trimmed and the defaults applied |
| `ProductModel.BlankNameRefused` | product/src/models/product.js:5-10 | a name made only of whitespace, a lone no-break space included, trims to "" and fails the required check, so the product is refused |
| `ProductModel.FindInRange` | product/src/models/product.js:42-52 | non-numbers and `min > max` are rejected with their own errors; otherwise the result comes from the table |
| `ProductModel.RangeIsInclusive` | product/src/models/product.js:49-51 | a product is found exactly when its field lies between the bounds, both included |
| `ProductModel.PointRangeFindsEqualValues` | product/src/models/product.js:49-51 | equal bounds find exactly the products with that value |
| `ProductModel.WiderRangeFindsMore` | product/src/models/product.js:49-51 | widening the range never loses a product |
| `ProductModel.RangeSearchesSelectTheirField` | product/src/models/product.js:55-62 | the price and quantity searches filter on price and on quantity |
| `ProductModel.DiscountedPrice` | product/src/models/product.js:65-71 | a discount outside [0, 1] is refused; 0 keeps the price, 1 makes it 0, and a non-negative price stays between 0 and itself |
| `ProductModel.DiscountKeepsProductValid` | product/src/models/product.js:65-71 | a valid product stays valid after any accepted discount |
| `ProductModel.ProductDocument.constructor` | product/src/models/product.js:4-40 | the document holds the given product |
| `ProductModel.ProductDocument.ApplyDiscount` | product/src/models/product.js:65-71 | a refused discount leaves the price unchanged; an accepted one stores the discounted price and returns the saved document |
| `ProductsRepository.Rewrap` | product/src/repositories/productsRepository.js:40-48 | re-throwing keeps success and its value and replaces only the message |
| `ProductsRepository.DiscountRecord` | product/src/repositories/productsRepository.js:50-62 | succeeds exactly when the product exists and the discount is in range; only the price changes |
| `ProductsRepository.DiscountKeepsTableValid` | product/src/repositories/productsRepository.js:50-62 | a table of valid products stays valid, and the record differs from the old one only in price |
| `ProductsRepository.ProductsRepository.constructor` | product/src/repositories/productsRepository.js:6 | holds the given table and no recorded reductions |
| `ProductsRepository.ProductsRepository.Create` | product/src/repositories/productsRepository.js:7-15 | stores the built product exactly when the input is valid and the id is new; otherwise fails with the create message and changes nothing |
| `ProductsRepository.ProductsRepository.FindById` | product/src/repositories/productsRepository.js:17-28 | returns the stored product exactly when the id is present; otherwise fails with the find message |
| `ProductsRepository.ProductsRepository.FindAll` | product/src/repositories/productsRepository.js:30-38 | returns every stored product, all valid |
| `ProductsRepository.ProductsRepository.FindProductsByPriceRange` | product/src/repositories/productsRepository.js:40-48 | the model's price search under the repository's error message; on success exactly the products priced within the bounds |
| `ProductsRepository.ProductsRepository.ApplyDiscountToProduct` | product/src/repositories/productsRepository.js:50-62 | stores and returns the discounted record on success; a failure changes nothing |
| `ProductsRepository.ProductsRepository.ReduceQuantityById` | product/src/services/productsService.js:85 | records the call and its outcome, leaves the product table alone, and succeeds exactly when the call does |
| `ProductsService.ReductionResult` | product/src/services/productsService.js:87-90 | any failure surfaces as the service's own reduce message |
| `ProductsService.CallsFollowItems` | product/src/services/productsService.js:83-86 | the calls go to the items' ids and quantities in order, up to and including the first failure |
| `ProductsService.ReductionStopsAtFirstFailure` | product/src/services/productsService.js:83-90 | when call n is the first to fail, exactly n + 1 calls are made and the result is the reduce error |
| `ProductsService.ReductionReducesEveryItem` | product/src/services/productsService.js:83-86 | when every call succeeds, each item is reduced once in order and the result is success |
| `ProductsService.MissingReduceMethodFailsFirstItem` | product/src/services/productsService.js:85 | with a repository call that always throws, only the first item is tried and the result is the reduce error |
| `ProductsService.ProductsService.constructor` | product/src/services/productsService.js:7-9 | the service wraps the given repository |
| `ProductsService.ProductsService.CreateProduct` | product/src/services/productsService.js:11-20 | stores the product exactly when the repository can; otherwise the service's create error and no change |
| `ProductsService.ProductsService.GetProductById` | product/src/services/productsService.js:22-30 | the stored product exactly when present; otherwise the service's retrieve error |
| `ProductsService.ProductsService.GetProducts` | product/src/services/productsService.js:32-40 | every stored product |
| `ProductsService.ProductsService.GetProductsByPriceRange` | product/src/services/productsService.js:43-51 | fails exactly on non-numeric bounds or `min > max`, with the service's own message |
| `ProductsService.ProductsService.GetProductsByQuantityRange` | product/src/services/productsService.js:54-62 | always fails with the quantity-range message, because the repository has no such search |
| `ProductsService.ProductsService.ApplyDiscountToProduct` | product/src/services/productsService.js:65-78 | succeeds exactly when the discount is in [0, 1] and the product exists; stores the discounted record; otherwise the service's discount error and no change |
| `ProductsService.ProductsService.ReduceProductQuantities` | product/src/services/productsService.js:81-91 | the loop records exactly the reduction calls of the items, leaves the table alone, and returns the spec's result |
| `OrderModel.BuildItem` | order/src/models/order.js:4-19 | a line item is accepted exactly when it has a product id, a price and a quantity of at least 1 |
| `OrderModel.BuildItems` | order/src/models/order.js:22-26 | the item list is accepted exactly when every item is, and keeps their order |
| `OrderModel.Build` | order/src/models/order.js:21-83 | an order is built exactly when the input is acceptable; it is valid, keeps the items and fills in the default reference and delivery fields |
| `OrderModel.ZeroQuantityItemRefused` | order/src/models/order.js:10-14 | an order with any item of quantity 0 is refused |
| `OrdersRepository.WithStatus` | order/src/repositories/orderRepository.js:45-55 | the status search returns stored orders only |
| `OrdersRepository.StatusUpdate` | order/src/repositories/orderRepository.js:57-70 | succeeds exactly when the order exists and the status is one of the four; only the status changes |
| `OrdersRepository.PaymentUpdate` | order/src/repositories/orderRepository.js:72-85 | succeeds exactly when the order exists and the payment status is allowed; only the payment status changes |
| `OrdersRepository.StatusUpdateKeepsTableValid` | order/src/repositories/orderRepository.js:57-70 | an accepted status update keeps every stored order valid |
| `OrdersRepository.StatusUpdateIsIdempotent` | order/src/repositories/orderRepository.js:63-65 | applying the same status update twice gives the same order as once |
| `OrdersRepository.PaymentUpdateKeepsTableValid` | order/src/repositories/orderRepository.js:72-85 | an accepted payment update keeps the table valid and the order status unchanged |
| `OrdersRepository.WithStatusFindsExactly` | order/src/repositories/orderRepository.js:45-55 | an order is found exactly when it is stored with that status; an unknown status finds nothing |
| `OrdersRepository.OrdersRepository.constructor` | order/src/repositories/orderRepository.js:6 | holds the given table |
| `OrdersRepository.OrdersRepository.Create` | order/src/repositories/orderRepository.js:7-15 | stores the built order exactly when the input is acceptable and the id is new; otherwise the create error and no change |
| `OrdersRepository.OrdersRepository.FindById` | order/src/repositories/orderRepository.js:17-30 | the stored order exactly when present; otherwise the find error |
| `OrdersRepository.OrdersRepository.FindAll` | order/src/repositories/orderRepository.js:32-43 | every stored order |
| `OrdersRepository.OrdersRepository.FindOrdersByStatus` | order/src/repositories/orderRepository.js:45-55 | exactly the stored orders with that status |
| `OrdersRepository.OrdersRepository.UpdateStatus` | order/src/repositories/orderRepository.js:57-70 | the result is `StatusUpdate`; the record is replaced on success and nothing changes on failure |
| `OrdersRepository.OrdersRepository.UpdatePaymentStatus` | order/src/repositories/orderRepository.js:72-85 | the result is `PaymentUpdate`; the record is replaced on success and nothing changes on failure |
| `OrderController.CompletionItems` | order/src/controllers/orderController.js:107-110 | one entry per order item, carrying its product id and quantity |
| `OrderController.CompletionMessage` | order/src/controllers/orderController.js:114-118 | an `ORDER_COMPLETED` message for the order's id with one product per item |
| `OrderController.CompletionItemsIgnorePrices` | order/src/controllers/orderController.js:107-110 | two item lists that differ only in prices give the same message items |
| `OrderController.NoTokenChangesNothing` | order/src/controllers/orderController.js:96-99 | without an authorization header the answer is 401 and neither the table nor the broker changes |
| `OrderController.UpdateDecidesResponse` | order/src/controllers/orderController.js:94-128 | with a token the answer is 200 with the updated order exactly when the status update succeeds, and 500 otherwise |
| `OrderController.PublishesOnlyOnCompletion` | order/src/controllers/orderController.js:105-121 | for every broker state, the broker changes only when a token is given, the update succeeds and the new status is `Completed`; with a live channel and a successful send it changes exactly then, and only by sending that order's completion message on `orders` |
| `OrderController.CompletionWithoutChannelIsDropped` | order/src/controllers/orderController.js:114-123 | completing an order while the broker has no channel answers 200 and leaves the broker as an awaited `connect()` leaves it, with the message dropped |
| `OrderController.CompletionWithoutChannelIsLost` | order/src/controllers/orderController.js:114-123 | completing an order while the broker has no channel answers 200 and sends nothing |
| `OrderController.OrderController.constructor` | order/src/controllers/orderController.js:8-18 | the controller holds the given repository and broker |
| `OrderController.OrderController.CreateOrder` | order/src/controllers/orderController.js:21-34 | 401 without a token; 201 and the stored order when creation succeeds; otherwise 500 and no change |
| `OrderController.OrderController.GetOrderById` | order/src/controllers/orderController.js:37-55 | 401 without a token, 200 with the order when present, 500 when absent; the 404 answer never occurs |
| `OrderController.OrderController.GetOrders` | order/src/controllers/orderController.js:58-73 | 401 without a token; otherwise 200 with every stored order, whatever the filters |
| `OrderController.OrderController.GetOrdersByStatus` | order/src/controllers/orderController.js:77-91 | 401 without a token; otherwise 200 with exactly the orders of that status |
| `OrderController.OrderController.UpdateOrderStatus` | order/src/controllers/orderController.js:94-128 | the response, the new table and the new broker state are `UpdateOrderStatusResult` of the old ones |
| `OrderController.OrderController.UpdatePaymentStatus` | order/src/controllers/orderController.js:131-145 | 401 without a token; otherwise 200 with the updated order, or 500 and no change |
| `ObjectIds.EraseUndoesConvert` | order/src/utils/convertStringIdsToObjectId.js:10-27 | forgetting the ObjectId wrappers gives back the input: the conversion changes no structure, key or value otherwise |
| `ObjectIds.NothingLeftUnconverted` | order/src/utils/convertStringIdsToObjectId.js:17-22 | no listed key with a valid id string is left unconverted, at any depth |
| `ObjectIds.ConvertKeepsShape` | order/src/utils/convertStringIdsToObjectId.js:14-26 | arrays map element by element, objects keep their keys in order, and other values come back as they are |
| `ObjectIds.NoKeysConvertsNothing` | order/src/utils/convertStringIdsToObjectId.js:18 | with an empty key list nothing is converted |
| `AuthMiddleware.TokenOf` | auth/src/middlewares/authMiddleware.js:15 | an extracted token is non-empty and contains no space |
| `AuthMiddleware.Authenticate` | auth/src/middlewares/authMiddleware.js:8-28 | 401 exactly when the header is missing or has no second word; proceeds with the decoded user exactly when the verifier accepts that word; 400 otherwise |
| `AuthMiddleware.TokenAfterAnyScheme` | auth/src/middlewares/authMiddleware.js:15 | the token is the second word whatever the scheme, and later words are ignored |
| `AuthMiddleware.BareTokenRefused` | auth/src/middlewares/authMiddleware.js:15-19 | a header without a space is refused with 401 |
| `AuthMiddleware.DoubleSpaceRefused` | auth/src/middlewares/authMiddleware.js:15-19 | a double space after the scheme yields an empty token and 401 |
| `AuthMiddleware.VerifierDecides` | auth/src/middlewares/authMiddleware.js:21-27 | for a well-formed header the verifier alone decides between proceeding and 400 |
| `ClientAuth.ValidTokenIsNonEmpty` | host-client/src/app/_utils/auth.ts:8-18 | a missing or empty token is never valid; the awaited check is the written one plus the verifier |
| `ClientAuth.AsWrittenAcceptsForgedTokens` | host-client/src/app/_utils/auth.ts:11-13 | as written, every non-empty string is a valid token, even one the verifier rejects |
| `ClientAuth.NoTokenYieldsAdmin` | host-client/src/app/_utils/auth.ts:50 | no token ever has the admin role |
| `ClientAuth.RouteCheck` | host-client/src/app/_utils/auth.ts:21-48 | a redirect is asked for exactly when a redirect URL is given |
| `ClientAuth.RouteCheckOutcomes` | host-client/src/app/_utils/auth.ts:39-47 | protected without a valid token goes to `/sign-out`; restricted with one goes to `/home`; otherwise no redirect; the public list never matters |
| `RouteMiddleware.Middleware` | host-client/src/middleware.ts:15-58 | every redirect goes to `/unauthenticated`, `/` or `/unauthorized` |
| `RouteMiddleware.UnauthenticatedSeesOnlyAuthAndPublic` | host-client/src/middleware.ts:24-30 | without a valid token a path passes exactly when it starts with an auth or public route; every other path goes to `/unauthenticated` |
| `RouteMiddleware.AuthenticatedDecisions` | host-client/src/middleware.ts:33-57 | with a valid token auth routes go to `/`, admin routes go to `/unauthorized`, and everything else passes |
| `RouteMiddleware.PrefixesDisagree` | host-client/src/middleware.ts:8-11 | a path cannot start with two prefixes that differ at a shared position |
| `RouteMiddleware.AdminDashboardUnreachable` | host-client/src/middleware.ts:45-49 | no one reaches the admin dashboard, because the role is always `user` |
| `RouteMiddleware.HomepageIsPublic` | host-client/src/middleware.ts:11 | `/homepage` passes for everyone, since it starts with `/home` |
| `RouteMiddleware.ProtectedNeedsToken` | host-client/src/middleware.ts:24-30 | every path under a protected route needs a valid token |
| `RouteMiddleware.RedirectTargetIsServed` | host-client/src/middleware.ts:24-49 | a redirect target passes the same middleware for the same token, so redirects do not loop |
| `RouteMiddleware.ForgedCookieOpensProtectedPages` | host-client/src/middleware.ts:19 | with the un-awaited check, any cookie opens `/orders`; an awaited check with a rejecting verifier redirects |
| `Zod.StringIssues` | host-client/src/app/_api/auth/login.ts:7-18 | a string has no issues exactly when all its checks hold; `min` and `max` compare the string's UTF-16 length (`Text.Utf16Length`), as JavaScript's `length` does |
| `Zod.NumberIssues` | host-client/src/app/_api/order/getOrders.ts:12-19 | a number has no issues exactly when all its checks hold |
| `Zod.ParseAgrees` | host-client/src/app/_api/order/getOrders.ts:76-81 | parsing reports no issue exactly when the acceptance predicate holds |
| `Zod.ElementsAgree` | host-client/src/app/_api/order/getOrders.ts:38 | the element walk of an array reports no issue exactly when every element from i on is accepted |
| `Zod.FieldsAgree` | host-client/src/app/_api/order/getOrders.ts:16-36 | the field walk of an object reports no issue exactly when every field from i on is accepted |
| `Zod.ParsedElements` | host-client/src/app/_api/order/getOrders.ts:38 | the parsed array has one parsed element per input element |
| `Zod.ParsedArray` | host-client/src/app/_api/order/getOrders.ts:83 | the parsed array keeps the length, and each element is that element's parse |
| `Zod.ParsedFieldKeys` | host-client/src/app/_api/order/getOrders.ts:16-36 | every key in the parsed object is a schema field |
| `Zod.StripsUnknownKeys` | host-client/src/app/_api/order/getOrders.ts:83 | a key the object schema does not name is absent from the parsed data |
| `Zod.ArrayStripsUnknownKeys` | host-client/src/app/_api/product/getProducts.ts:59 | no element of a parsed array of objects keeps an unknown key |
| `Zod.ElementsAcceptAll` | host-client/src/app/_api/order/getOrders.ts:38 | the element predicate is "every element from i on is accepted" |
| `Zod.ArrayAccepts` | host-client/src/app/_api/order/getOrders.ts:38 | an array schema accepts exactly the arrays whose every element is accepted |
| `Zod.FieldsAcceptAll` | host-client/src/app/_api/order/getOrders.ts:16-36 | the field predicate is "every field from i on is accepted" |
| `Zod.ObjectAccepts` | host-client/src/app/_api/order/getOrders.ts:16-36 | an object schema accepts exactly the objects whose every field is accepted |
| `Zod.AllOptionalAcceptsEmpty` | host-client/src/app/_api/order/updateOrderById.ts:13-29 | a schema whose fields are all optional accepts `{}` |
| `Zod.FieldMessages` | host-client/src/app/_api/order/getOrders.ts:78-79 | there are field messages exactly when some issue is on a field |
| `Zod.ErrorText` | host-client/src/app/_api/order/getOrders.ts:78-80 | with no field messages the fallback text is used; otherwise the messages joined by `, ` |
| `Zod.Validate` | host-client/src/app/_api/order/getOrders.ts:76-83 | validation succeeds exactly when the schema accepts, with the parsed data; otherwise it fails with the error text |
| `Storefront.SearchParams.constructor` | host-client/src/app/_api/order/getOrders.ts:54 | a new parameter list is empty |
| `Storefront.SearchParams.Append` | host-client/src/app/_api/order/getOrders.ts:55-59 | appending adds exactly one key/value pair at the end |
| `Storefront.TextIfTruthy` | host-client/src/app/_api/order/getOrders.ts:55 | a text filter is sent exactly when it is a non-empty string |
| `Storefront.NumberIfDefined` | host-client/src/app/_api/order/getOrders.ts:56-57 | a number filter is sent exactly when it is defined, zero included |
| `Storefront.Chosen` | host-client/src/app/_api/order/getOrders.ts:53-61 | never more parameters than keys |
| `Storefront.KeysOf` | host-client/src/app/_api/order/getOrders.ts:53-61 | the keys of the parameters, in order |
| `Storefront.ValueOf` | host-client/src/app/_api/order/getOrders.ts:53-61 | a value found is the value of a parameter with that key; none is found when no parameter has the key |
| `Storefront.ChosenFollowsKeys` | host-client/src/app/_api/order/getOrders.ts:53-61 | for distinct keys the chosen parameters follow the key order, each key carries its filter's value, and the query is empty exactly when no filter is set |
| `Storefront.ChosenInOrder` | host-client/src/app/_api/order/getOrders.ts:53-61 | the chosen keys are a subsequence of the keys |
| `Storefront.ChosenValue` | host-client/src/app/_api/order/getOrders.ts:53-61 | for distinct keys each key's chosen value is its filter's value |
| `Storefront.ValueOfAbsent` | host-client/src/app/_api/order/getOrders.ts:53-61 | a key no parameter carries has no value |
| `Storefront.ChosenEmpty` | host-client/src/app/_api/order/getOrders.ts:66-67 | no parameter is chosen exactly when no filter is set |
| `Storefront.ChosenKeysAmong` | host-client/src/app/_api/order/getOrders.ts:53-61 | every chosen key is one of the keys |
| `Storefront.Render` | host-client/src/app/_api/order/getOrders.ts:60 | a rendered parameter contains `=` |
| `Storefront.QueryString` | host-client/src/app/_api/order/getOrders.ts:60 | the query string is empty exactly when there are no parameters |
| `Storefront.UrlWithQuery` | host-client/src/app/_api/order/getOrders.ts:66-67 | without parameters the URL is the endpoint; otherwise the endpoint, `?` and the query string |
| `Storefront.ItemUrl` | host-client/src/app/_api/order/getOrderById.ts:43 | the item URL is the endpoint, `/` and the id, nothing more |
| `Storefront.FormText` | host-client/src/app/_api/product/createProduct.ts:19-21 | a present form field becomes its string, a missing one `null` |
| `Storefront.SendChecked` | host-client/src/app/_api/order/createOrder.ts:37-51 | the request is sent exactly when the schema accepts the body, with the body unchanged; otherwise the error text |
| `Storefront.WrongShapeGivesFallback` | host-client/src/app/_api/order/getOrders.ts:80 | a value of the wrong top-level shape fails with the fallback text |
| `Storefront.StringField` | host-client/src/app/_api/order/getOrders.ts:17 | a string field accepts exactly a string at its key, or absence when optional |
| `Storefront.MinLengthField` | host-client/src/app/_api/product/createProduct.ts:8 | a minimum-length field accepts exactly strings whose UTF-16 length is at least the minimum |
| `Storefront.LengthBetweenField` | host-client/src/app/_api/auth/login.ts:7-18 | a bounded-length field accepts exactly strings whose UTF-16 length lies between the bounds, both included |
| `Storefront.PositiveField` | host-client/src/app/_api/order/getOrders.ts:13 | a positive field accepts exactly numbers above 0, or absence when optional |
| `Storefront.NonNegativeField` | host-client/src/app/_api/order/getOrders.ts:12 | a non-negative field accepts exactly numbers not below 0, or absence when optional |
| `Storefront.NumberField` | host-client/src/app/_api/order/getOrders.ts:35 | an optional number field accepts exactly a number or absence |
| `Storefront.EnumField` | host-client/src/app/_api/auth/getProducts.ts:7-13 | an enum field accepts exactly one of its options |
| `Storefront.NestedField` | host-client/src/app/_api/order/getOrders.ts:20-31 | a nested field accepts exactly a value its schema accepts, or absence when optional |
| `Storefront.ChosenOfFour` | host-client/src/app/_api/product/getProducts.ts:30-37 | choosing from four keys is the same as appending each set filter in turn |
| `Storefront.ChosenOfFive` | host-client/src/app/_api/order/getOrders.ts:53-61 | choosing from five keys is the same as appending each set filter in turn |
| `StorefrontOrders.OrderProductAccepted` | host-client/src/app/_api/order/getOrders.ts:7-14 | an order line is accepted exactly with a product `{_id, name}` of strings, a non-negative quantity and a positive price |
| `StorefrontOrders.PaymentAccepted` | host-client/src/app/_api/order/getOrders.ts:20-24 | payment details need string method and status and an optional string reference |
| `StorefrontOrders.DeliveryAccepted` | host-client/src/app/_api/order/getOrders.ts:25-31 | delivery details need the five string fields |
| `StorefrontOrders.OrderAccepted` | host-client/src/app/_api/order/getOrders.ts:16-36 | an order is accepted exactly when each of its fields meets its rule |
| `StorefrontOrders.OrderLineAccepted` | host-client/src/app/_api/order/createOrder.ts:6-11 | a request line needs string id and name, a positive price and a non-negative quantity |
| `StorefrontOrders.CreateOrderAccepted` | host-client/src/app/_api/order/createOrder.ts:13-29 | a new order body is accepted exactly when each of its fields meets its rule |
| `StorefrontOrders.UpdateOrderAccepted` | host-client/src/app/_api/order/updateOrderById.ts:13-29 | an update body is accepted exactly when each field present meets its rule |
| `StorefrontOrders.OrderQueryFollowsKeys` | host-client/src/app/_api/order/getOrders.ts:53-61 | the order query is the filters chosen against the five keys |
| `StorefrontOrders.BuildQueryParams` | host-client/src/app/_api/order/getOrders.ts:53-61 | the appended parameters are exactly the order query |
| `StorefrontOrders.OrderQueryRules` | host-client/src/app/_api/order/getOrders.ts:55-59 | keys in the fixed order; status and dates only when non-empty; amounts whenever defined; an empty query exactly when no filter is set |
| `StorefrontOrders.OrdersRequest` | host-client/src/app/_api/order/getOrders.ts:66-73 | a GET without body, to the bare endpoint exactly when the query is empty |
| `StorefrontOrders.AcceptedOrdersHaveValidAmounts` | host-client/src/app/_api/order/getOrders.ts:76-83 | every accepted order has a positive total and lines with non-negative quantities and positive prices; a non-array fails with the fallback |
| `StorefrontOrders.OrderByIdRequest` | host-client/src/app/_api/order/getOrderById.ts:43-48 | a GET without body to the item URL |
| `StorefrontOrders.CheckOrderMatchesList` | host-client/src/app/_api/order/getOrderById.ts:51-58 | one order is accepted exactly when the list of just that order is, and the data is its parse |
| `StorefrontOrders.CreateOrderSendsOnlyValid` | host-client/src/app/_api/order/createOrder.ts:37-51 | the POST is sent exactly when the body is accepted, with the body unchanged |
| `StorefrontOrders.ZeroQuantityPassesClientOnly` | host-client/src/app/_api/order/createOrder.ts:10 | a line of quantity 0 passes the client's check but is refused by the order model |
| `StorefrontOrders.ZeroQuantityLineAccepted` | host-client/src/app/_api/order/createOrder.ts:6-11 | a line of quantity 0 with a positive price passes the client's line schema |
| `StorefrontOrders.UpdateOrderRules` | host-client/src/app/_api/order/updateOrderById.ts:37-51 | an empty update is always sent as a PATCH to the item URL; an update sent has a positive total when it has one, and is sent unchanged |
| `StorefrontProducts.ProductAccepted` | host-client/src/app/_api/product/getProducts.ts:7-14 | a product is accepted exactly when each of its fields meets its rule (lengths are JavaScript's `length`, in UTF-16 code units) |
| `StorefrontProducts.UpdateProductAccepted` | host-client/src/app/_api/product/updateProductById.ts:6-11 | an update body is accepted exactly when each field present meets its rule |
| `StorefrontProducts.CreateProductAccepted` | host-client/src/app/_api/product/createProduct.ts:7-11 | a new product needs a name at least 2 UTF-16 code units long, a positive price and, when present, a string description |
| `StorefrontProducts.ProductQueryFollowsKeys` | host-client/src/app/_api/product/getProducts.ts:30-37 | the product query is the filters chosen against the four keys |
| `StorefrontProducts.BuildQueryParams` | host-client/src/app/_api/product/getProducts.ts:30-37 | the appended parameters are exactly the product query |
| `StorefrontProducts.ProductQueryRules` | host-client/src/app/_api/product/getProducts.ts:30-37 | keys in the fixed order; name only when non-empty; prices and quantity whenever defined; empty exactly when no filter is set |
| `StorefrontProducts.ProductsRequest` | host-client/src/app/_api/product/getProducts.ts:42-43 | a GET without body, to the bare endpoint exactly when the query is empty |
| `StorefrontProducts.AcceptedProductsHaveValidFields` | host-client/src/app/_api/product/getProducts.ts:52-59 | every accepted product meets the product rules (lengths are JavaScript's `length`, in UTF-16 code units); a non-array fails with the fallback |
| `StorefrontProducts.ProductByIdRequest` | host-client/src/app/_api/product/getProductById.ts:22-43 | a request is made exactly when the id is non-empty, a GET to the item URL |
| `StorefrontProducts.CheckProductMatchesList` | host-client/src/app/_api/product/getProductById.ts:28-35 | one product is accepted exactly when the list of it is; a non-object fails with the fallback |
| `StorefrontProducts.FormPrice` | host-client/src/app/_api/product/createProduct.ts:20 | the price is a number exactly when the field is present and parses; otherwise `null` |
| `StorefrontProducts.ProductBody` | host-client/src/app/_api/product/createProduct.ts:19-21 | the body has exactly the keys name, price and description |
| `StorefrontProducts.ProductBodyFields` | host-client/src/app/_api/product/createProduct.ts:19-21 | each body key holds its form field, the price parsed |
| `StorefrontProducts.CreateProductRules` | host-client/src/app/_api/product/createProduct.ts:24-37 | the POST is sent exactly when the name is at least 2 UTF-16 code units long, the price parses to a positive number and a description is given; the body is then unchanged and never carries a quantity |
| `StorefrontProducts.FormBodyAccepted` | host-client/src/app/_api/product/createProduct.ts:7-11 | the create schema accepts the form's body exactly when the name is at least 2 UTF-16 code units long, the price parses to a positive number and a description is given |
| `StorefrontProducts.UpdateProductRules` | host-client/src/app/_api/product/updateProductById.ts:19-33 | an empty update is sent as a PATCH to the item URL; an update is sent exactly when accepted |
| `StorefrontAuth.CredentialsAccepted` | host-client/src/app/_api/auth/login.ts:7-18 | credentials are accepted exactly with a username of at least 2 and a password of 2 to 64 UTF-16 code units |
| `StorefrontAuth.AuthProductAccepted` | host-client/src/app/_api/auth/getProducts.ts:7-13 | an auth product is accepted exactly when each of its fields meets its rule (lengths are JavaScript's `length`, in UTF-16 code units) |
| `StorefrontAuth.ProfileAccepted` | host-client/src/app/_api/auth/getProfile.ts:7-11 | a profile is accepted exactly when each of its fields meets its rule (lengths are JavaScript's `length`, in UTF-16 code units) |
| `StorefrontAuth.CredentialsBody` | host-client/src/app/_api/auth/login.ts:25-26 | the body has exactly the keys username and password |
| `StorefrontAuth.CredentialsBodyFields` | host-client/src/app/_api/auth/login.ts:25-26 | each key holds its form field, `null` when missing |
| `StorefrontAuth.CredentialsRule` | host-client/src/app/_api/auth/login.ts:29 | the form body is accepted exactly when both fields are present with UTF-16 lengths in bounds |
| `StorefrontAuth.LoginRules` | host-client/src/app/_api/auth/login.ts:29-42 | the POST is sent exactly when the credentials are valid, lengths counted in UTF-16 code units, with the form body |
| `StorefrontAuth.PasswordBoundsInclusive` | host-client/src/app/_api/auth/login.ts:7-18 | passwords of 2 and 64 UTF-16 code units pass, 1 and 65 fail |
| `StorefrontAuth.EmojiPasswordAccepted` | host-client/src/app/_api/auth/login.ts:10 | a password of one emoji already has length 2, so with a valid username the login request is sent |
| `StorefrontAuth.SignUpRules` | host-client/src/app/_api/auth/signup.ts:30-48 | sign-up is sent exactly when the credentials are valid (lengths are JavaScript's `length`, in UTF-16 code units) and the confirmation matches; invalid credentials fail like login; a mismatch fails with its own message |
| `StorefrontAuth.ConfirmOnlyCompared` | host-client/src/app/_api/auth/signup.ts:25-41 | invalid credentials fail the same whatever the confirmation |
| `StorefrontAuth.AcceptedAuthProducts` | host-client/src/app/_api/auth/getProducts.ts:29-36 | every accepted product meets its rules (lengths are JavaScript's `length`, in UTF-16 code units); a non-array fails with the fallback |
| `StorefrontAuth.AcceptedProfile` | host-client/src/app/_api/auth/getProfile.ts:25-32 | a profile response is accepted exactly when it meets the profile rules (lengths are JavaScript's `length`, in UTF-16 code units), with the parsed data; a non-object fails with the fallback |
| `Pipeline.QueueAndEventAgree` | order/src/controllers/orderController.js:114-118 | both services use the same queue and event name, and the product side turns a completion message back into exactly the order's items |
| `Pipeline.CompletedOrderReducesItsItems` | product/src/utils/setupMessageBroker.js:14-30 | with the awaited setup, delivering a completion message reduces each item of the order once and acknowledges it |

## Left out

- Network, timers and concurrency are not modelled as such. The broker's connect, send and consume results are arguments. The 5-second retry timer is an explicit `FireRetry` step. Interleavings are the order in which a caller applies these steps.
- `closeConnection` does not clear the `channel` and `connection` fields in the source, so the model keeps them after a close too. A later publish would use the closed channel, and its failure is the send outcome argument.
- MongoDB and Mongoose:
  - tables are `map`s from id to record;
  - `populate`, timestamps, `__v` and `toObject` conversions are not modelled;
  - id generation is a fresh-id argument;
  - a database failure outside the validation rules is not modelled.
- `ProductsRepository.ProductsRepository.ReduceQuantityById`: the repository has no such method. The call is recorded with an outcome argument, and its effect on stock is not modelled, so the table stays unchanged.
- JWT verification, `mongoose.Types.ObjectId.isValid`, `parseFloat` and `Number.prototype.toString` are function parameters, not modelled algorithms.
- URL percent-encoding in `URLSearchParams.toString` is not modelled. Keys and values are rendered as they are.
- Floating point: prices, quantities and discounts are Dafny `real`, so rounding in `price * (1 - discount)` is not captured.
- Zod is modelled only for the schema forms the storefront uses: string, number, enum, array, object, optional, and the length, positive and non-negative checks.
  - Zod's own messages for type errors are approximations.
  - `flatten().fieldErrors` is approximated by the messages of issues that have a non-empty path.
- `ObjectIds.Convert` is modelled on JSON-like values. Other JavaScript objects (dates, buffers, class instances) are out of scope. So are duplicate keys and the special `__proto__` key.
- Out of scope:
  - the HTTP layer;
  - the route tables of the Express routers;
  - the product controller;
  - the api-gateway;
  - `apiClient`;
  - the React pages, hooks and providers;
  - the Next `matcher` configuration.

  Endpoints are string parameters.
- The order service is a pass-through and is folded into `OrderController`. Its `getOrders` ignores the filters, and `OrderController.OrderController.GetOrders` states this.
- A delivery body is either unparsable or a message of the expected shape. JSON that parses but has another shape cannot be represented, for example `{"event":"ORDER_COMPLETED"}` without `products`. For that body the `for…of` over `undefined` in product/src/services/productsService.js:83 throws, and the service rethrows it as "Failed to reduce product quantities".
- The product service's own `app.js` registers a second consumer that only logs. It is not modelled.
- The order service's start-up wiring is not modelled.
- The second, identical auth-route check in host-client/src/middleware.ts:40-42 can never be reached. The model has only the first.
- The `deleteProductById` and `deleteOrderById` calls of the storefront are not part of this model.

## Findings

| source | as written | input that shows it | evidently intended | confidence | as-written member | corrected member |
|---|---|---|---|---|---|---|
| product/src/utils/setupMessageBroker.js:11-14 | `MessageBroker.connect()` resolves before the attempt it starts has connected, because the product broker does not await its attempt. `consumeMessage("orders")` then finds no channel, only calls `connect` again and never registers the consumer. | a fresh broker whose two attempts both connect: afterwards there is a channel, but no consumer on `orders` | the consumer is registered once the connection is up | not executed | `ProductConsumer.FreshSetupRegistersNothing` | `ProductConsumer.SetupAwaitingConnectionRegisters` |
| host-client/src/app/_utils/auth.ts:11-13 | `jwtVerify` returns a promise that is not awaited, so the `try` never catches a rejection and every non-empty token is valid | a cookie `authToken=x` opens `/orders` | only a token that verifies is valid | not executed | `ClientAuth.AsWrittenAcceptsForgedTokens` | `ClientAuth.ValidTokenIsNonEmpty` |
