# ProntoaWeb order and channel logic in Dafny

ProntoaWeb is a Flask application for small food businesses. Customers order over WhatsApp or Telegram. An AI agent reads the messages and may place an order. Workers move orders through the kitchen and delivery. The owner watches KPIs.

This project models the order and customer logic of that application and proves properties of it:

- the three order-lifecycle implementations:
  - the service's status update;
  - the role-gated worker endpoints of the orders API, with the revert map and the PUT transition table;
  - the "mark ready" endpoint of the workers API;
- order creation, with its item snapshots and total;
- order numbering and cancellation;
- worker creation, update and authentication;
- assignment of orders to workers;
- the in-memory pseudo-backends for orders, workers and users;
- the deterministic helpers of the AI agent: quantity patterns, catalog match, canned replies, parse fallback, auto-create gate and the request built from the entities;
- the KPI counts, rates and percentage changes;
- the Telegram identifier and text helpers;
- the Telegram webhook and send guards.

Layout, one module per file:

- `wrappers.dfy`: `Option`.
- `text.dfy`: Python's `strip`, `lower`, `startswith`/`in` and `str(int)`, as used by the code.
- `json_values.dfy`: JSON-like values with Python truthiness, `dict.get` and `or`.
- `order_model.dfy`: the `Order` row. It is a class whose fields the handlers assign in place, plus value records of its columns.
- One file per core source file:

| file | models |
|---|---|
| `order_service.dfy` | app/services/order_service.py |
| `orders_routes.dfy` | app/routes/api/orders_routes.py |
| `worker_routes.dfy` | app/routes/api/worker_routes.py |
| `worker_service.dfy` | app/services/worker_service.py |
| `orders_memory.dfy` | app/services/orders_service.py |
| `workers_memory.dfy` | app/services/workers_service.py |
| `auth_service.dfy` | app/services/auth_service.py |
| `ai_service.dfy` | app/services/ai_service.py |
| `kpi_service.dfy` | app/services/kpi_service.py |
| `telegram_bot.dfy` | app/scripts/telegram_bot.py |
| `telegram_service.dfy` | app/services/telegram_service.py |
| `telegram_routes.dfy` | app/routes/api/telegram_routes.py |

The imperative handlers are Dafny methods on the `Order` object (or on table classes). Each is proved against a function on the order's column values. The properties are proved about that function: which guard fails first, what the new columns are, and that a rejected request leaves the order unchanged.

How the source's mechanics are modelled:

- **Timestamps** are integer seconds passed in as `now`. A timestamp column that a handler fills with a zero-argument lambda is the stamp `Deferred`. Subtracting it raises in Python; this is the `except` path with its rollback.
- **updated_at** has an `onupdate`: the commit of a row whose columns changed stamps it. The model writes `At(now)` there. A handler that assigns updated_at itself keeps its own value.
- **Money** is in hundredths, matching the `Numeric(10,2)` columns.
- **KPI rates** are `real`.

Three things are parameters of the model:

- model replies, with `json.loads` as a decoder function;
- `str()` of containers, as a `reprOf` function;
- password-hash checking.

## Model

| member | source | states |
|---|---|---|
| OrderModel.Seconds | app/routes/api/orders_routes.py:380-381 | a duration exists exactly when both stamps are datetimes, and it is their difference |
| OrderModel.Lookup | app/routes/api/orders_routes.py:354 | `Order.query.get`: a record exists iff the order does, and it is the order's current columns |
| OrderModel.Order.Restore | app/routes/api/orders_routes.py:392 | the rollback puts every mutable column back to the saved row |
| OrderService.BuildItemsMeaning | app/services/order_service.py:63-85 | the item loop succeeds iff every request names an existing, available product and carries a quantity; each line then snapshots that product's id, name and price, with subtotal = price × quantity |
| OrderService.TotalIsSumOfPriceTimesQuantity | app/services/order_service.py:62-91 | the order total equals the sum over the requests of price × quantity (an independent reference sum) |
| OrderService.CollectItems | app/services/order_service.py:62-88 | the loop's lines and running total are those of the specification; it stops at the first failing request with that request's message |
| OrderService.PrefixError | app/services/order_service.py:64-71 | once a prefix of the requests fails, the whole loop fails with the same message |
| OrderService.FindCustomer | app/services/order_service.py:34 | returns the first customer row with the phone, or none when no row has it |
| OrderService.NameOrDefault | app/services/order_service.py:35-39 | a new customer is named after `customer_name` when it is truthy, else 'Cliente' |
| OrderService.CountOrder | app/services/order_service.py:94 | the customer with the phone has exactly one more order and every other row is unchanged; an unknown phone adds one customer with one order |
| OrderService.OrderStore.CreateOrder | app/services/order_service.py:32-98 | success iff the item loop succeeds; on failure no order and no customer is kept and nothing else changes; on success one fresh `received` order is appended with the generated number, the customer's id, the loop's lines and total, and the customer table counts it |
| OrderService.CountPrefixed | app/services/order_service.py:297-299 | the count of existing numbers with the prefix is at most the number of orders |
| OrderService.GenerateOrderNumber | app/services/order_service.py:293-301 | the number is business id + YYYYMMDD followed by the prefixed count + 1 in digits, zero-padded to exactly max(4, its digit count) characters |
| OrderService.GeneratedNumberIsFresh | app/services/order_service.py:293-301 | the new number is not among the existing ones as long as their suffixes do not exceed the count |
| OrderService.StatusUpdate | app/services/order_service.py:122-144 | any status is written with updated_at now; the first preparing sets accepted_at now and, from a created_at datetime, the response time now − created_at; the first ready sets ready_at now and, from an accepted_at datetime, the preparation time; the first sent, paid or closed sets delivered_at now; in every other case the stamps and durations are as they were; it fails only where the duration subtraction raises |
| OrderService.StatusUpdateDurations | app/services/order_service.py:127-133 | the first `preparing` stamps accepted_at and records the response time from created_at |
| OrderService.StatusUpdateRepeat | app/services/order_service.py:126-144 | repeating a status changes nothing but updated_at: the stamps are set once |
| OrderService.UpdateOrderStatus | app/services/order_service.py:117-152 | a missing order is "not found"; otherwise the order becomes the specification's update with the "from → to" message, or is rolled back unchanged on the error path |
| OrderService.CancelNotes | app/services/order_service.py:324-325 | the reason is appended after a newline to truthy notes, or becomes the notes; the result always ends in "Cancelado: " + reason |
| OrderService.Cancelled | app/services/order_service.py:320-325 | refused iff the status is paid or closed; otherwise the status becomes cancelled, a truthy reason is appended to the notes, and updated_at becomes now (the column's onupdate) unless no column changed, as for a cancelled order cancelled again without a reason; nothing else changes |
| OrderService.CancelAgain | app/services/order_service.py:320-325 | cancelling a cancelled order again, later and without a reason, leaves it as it is, updated_at included |
| OrderService.CancelOrder | app/services/order_service.py:315-329 | the method changes the order exactly as `Cancelled` says, with the matching message; a refused order is unchanged |
| OrderService.StatusCounts | app/services/order_service.py:204-209 | the keys are exactly the statuses the business's orders have, each mapped to its count (at least 1) |
| OrdersRoutes.Rejection | app/routes/api/orders_routes.py:348-366 | the caller's role is checked first (403), then the order exists (404), then it belongs to the caller's business (403); all pass iff the caller is a worker of the right type and owns the order |
| OrdersRoutes.CountByStatus | app/routes/api/orders_routes.py:38-49 | `by_status` has exactly the six keys, and each value is the number of listed orders with that status |
| OrdersRoutes.BucketsAddUp | app/routes/api/orders_routes.py:38-49 | the six buckets add up to the orders whose status has a bucket; cancelled orders are in none |
| OrdersRoutes.AcceptToPreparingRule | app/routes/api/orders_routes.py:348-381 | intended rule: 200 iff a planta worker owns a received order; it becomes preparing with accepted_at and updated_at now, the response time now − created_at when created_at is a datetime and unchanged when it is unset, and every other column as it was; 400 for any other status; a non-200 code leaves the order unchanged |
| OrdersRoutes.AcceptToPreparingAsWritten | app/routes/api/orders_routes.py:348-381 | the handler as written: 200 only for a received order without created_at, which becomes preparing with the lambda in accepted_at and updated_at now, nothing else changed; a non-200 code leaves the order unchanged |
| OrdersRoutes.AcceptToPreparingAlwaysFails | app/routes/api/orders_routes.py:376-381 | as written, accepting a received order that has a created_at ends in 500 with the order unchanged, where the intended rule returns 200 |
| OrdersRoutes.AcceptToPreparing | app/routes/api/orders_routes.py:340-396 | the method's code and the order's new columns are those of the intended rule |
| OrdersRoutes.MarkReadyRule | app/routes/api/orders_routes.py:410-443 | intended rule: 200 iff a planta worker owns a preparing order; it becomes ready with ready_at and updated_at now, the preparation time now − accepted_at when accepted_at is a datetime and unchanged when it is unset, and every other column as it was; otherwise the order is unchanged |
| OrdersRoutes.MarkReadyAsWritten | app/routes/api/orders_routes.py:410-443 | the handler as written: 200 only for a preparing order without accepted_at, which becomes ready with the lambda in ready_at and updated_at now, nothing else changed; a non-200 code leaves the order unchanged |
| OrdersRoutes.MarkReadyFailsOnceAccepted | app/routes/api/orders_routes.py:438-443 | as written, marking ready an accepted order ends in 500, where the intended rule returns 200 |
| OrdersRoutes.MarkOrderReady | app/routes/api/orders_routes.py:401-473 | the method's code and new columns are those of the intended rule, whatever the WhatsApp outcome |
| OrdersRoutes.Cleared | app/routes/api/orders_routes.py:522-530 | reverting to received clears accepted_at and the response time; to preparing, ready_at and the preparation time; to ready, delivered_at; to sent, nothing |
| OrdersRoutes.RevertRule | app/routes/api/orders_routes.py:485-530 | any worker owning the order gets 200 iff its status has a previous status (preparing→received, ready→preparing, sent→ready, paid→sent), with those stamps cleared and updated_at now; every other status is 400 with the order unchanged |
| OrdersRoutes.CancelToPrevious | app/routes/api/orders_routes.py:478-545 | the method's code and new columns are those of the revert rule |
| OrdersRoutes.CancelOrderWorker | app/routes/api/orders_routes.py:667-671 | the legacy cancel route behaves exactly as the revert |
| OrdersRoutes.AcceptToSentRule | app/routes/api/orders_routes.py:562-590 | 200 iff a repartidor owns a ready order, which becomes sent with delivered_at set and updated_at now; otherwise the order is unchanged |
| OrdersRoutes.AcceptToSent | app/routes/api/orders_routes.py:554-605 | the method's code and new columns are those of the rule |
| OrdersRoutes.MarkPaidRule | app/routes/api/orders_routes.py:618-645 | 200 iff a repartidor owns a sent order, which becomes closed (never paid) with updated_at now; otherwise the order is unchanged |
| OrdersRoutes.MarkOrderPaid | app/routes/api/orders_routes.py:610-660 | the method's code and new columns are those of the rule |
| OrdersRoutes.PaidOrderCannotBeReverted | app/routes/api/orders_routes.py:506-517 | an order closed by mark-paid cannot be reverted (400), at any later time |
| OrdersRoutes.Stamped | app/routes/api/orders_routes.py:913-921 | each PUT target sets its own stamp (preparing_at, ready_at, sent_at, paid_at) and leaves accepted_at and delivered_at alone |
| OrdersRoutes.PutStatusRule | app/routes/api/orders_routes.py:841-937 | a non-worker gets 403; a body that does not parse or is not a dict (null, a list) makes `data.get` raise, which the except answers 500; 200 iff a worker owns the order, the body's status is a string and (type, from, to) is one of the four allowed transitions; the order then gets the new status, updated_at and the target's stamp; every other request leaves it unchanged |
| OrdersRoutes.UpdateOrderStatusWorker | app/routes/api/orders_routes.py:834-937 | the method's code and new columns are those of the PUT rule |
| OrdersRoutes.RevertInvertsPut | app/routes/api/orders_routes.py:876-885 | the revert map sends `to` back to `from` iff (from, to) is a PUT transition of planta or repartidor |
| OrdersRoutes.RevertKeepsPreparingAt | app/routes/api/orders_routes.py:914-915 | on the columns a PUT to preparing followed by a revert is not the identity: preparing_at stays set |
| WorkerRoutes.WorkerById | app/services/worker_service.py:93-95 | found iff some row has the id, and the row returned has that id |
| WorkerRoutes.ReadyGuard | app/routes/api/worker_routes.py:353-380 | a falsy worker_id is 400; then an unknown worker or order is 404 (worker checked first); no can_mark_ready or another business is 403; a status other than preparing is 400; all pass iff each condition holds |
| WorkerRoutes.ReadyUpdate | app/routes/api/worker_routes.py:383-389 | the update raises iff accepted_at holds the lambda; otherwise the order becomes ready with ready_at and updated_at now, and the preparation time is ready_at − accepted_at when accepted_at is set and unchanged when it is not |
| WorkerRoutes.ReadyNotification | app/routes/api/worker_routes.py:409-415 | the owner notification goes to the owner, is titled "Pedido Listo", of type success, unread, refers to the order and mentions its number |
| WorkerRoutes.Str | app/routes/api/worker_routes.py:412 | `str()` of the name column gives back a string name unchanged |
| WorkerRoutes.MarkOrderReady | app/routes/api/worker_routes.py:351-428 | a body that is not a JSON object is 500 with nothing changed; a rejected request changes neither the order nor the notifications; a raising subtraction rolls back with 500; otherwise the order is committed as `ReadyUpdate` says whatever the WhatsApp outcome, and then one owner notification is added with 200, or, for an order without a business, the reply is 500 with the order already ready and no notification |
| WorkerRoutes.AgreesWithOrdersEndpoint | app/routes/api/worker_routes.py:383-389 | where both succeed, this endpoint and the planta mark-ready of the orders API leave the order in the same state |
| WorkerService.FindById | app/services/worker_service.py:93-95 | the first row with the id, or none when no row has it |
| WorkerService.FindByEmail | app/services/worker_service.py:98-100 | the first row with the email, or none when no row has it |
| WorkerService.CreateRejection | app/services/worker_service.py:31-45 | the checks run in order (business exists, type valid, email unused, phone unused) and the first failure gives its message; none fails iff all four hold |
| WorkerService.WorkerTable.CreateWorker | app/services/worker_service.py:29-61 | success iff no check fails; a failure adds nothing; a success appends one active row of the requested type with the hashed password |
| WorkerService.WorkerTable.UpdateWorker | app/services/worker_service.py:114-133 | an unknown id or an invalid worker_type changes nothing; otherwise only the given allowed fields change, and updated_at gets the lambda |
| WorkerService.Kwarg | app/services/worker_service.py:126 | the value of a keyword is one given for it; absent keys give none |
| WorkerService.SetFieldsMeaning | app/services/worker_service.py:124-128 | the update sets exactly full_name, phone, worker_type and is_active from the last value given for each, and changes nothing else |
| WorkerService.UpdateKeepsValidType | app/services/worker_service.py:119-128 | after an accepted update the worker type is still planta or repartidor |
| WorkerService.WorkerTable.DeactivateWorker | app/services/worker_service.py:181-190 | success iff the worker exists; then only is_active (false) and updated_at change |
| WorkerService.AuthOutcome | app/services/worker_service.py:364-380 | success iff the email exists, the account is active and the password checks; an unknown email and a wrong password share one message; an inactive account has its own |
| WorkerService.WorkerTable.AuthenticateWorker | app/services/worker_service.py:364-380 | the outcome is `AuthOutcome`; only a success changes the row: last_login gets the lambda and updated_at now |
| WorkerService.AuthDoesNotTell | app/services/worker_service.py:367-374 | an unknown email and a wrong password for an active account give the same answer |
| WorkerService.InactiveRefusedBeforePassword | app/services/worker_service.py:370-371 | an inactive account is refused whatever the password |
| WorkerService.RemoveFirst | app/services/worker_service.py:278 | `list.remove` drops one occurrence: one shorter, same multiset minus that element |
| WorkerService.RemoveAppended | app/services/worker_service.py:248-278 | appending an absent worker and removing it gives the list back |
| WorkerService.AssignOrderToWorker | app/services/worker_service.py:233-252 | missing order or worker, or a business mismatch, fails with its message; otherwise an absent worker is appended once and a present one fails with the list unchanged |
| WorkerService.UnassignOrderFromWorker | app/services/worker_service.py:270-282 | succeeds iff the worker is assigned, removing it; otherwise the list is unchanged |
| WorkerService.AssignThenUnassign | app/services/worker_service.py:243-282 | assign followed by unassign leaves the order as it was |
| WorkerService.FilterStatus | app/services/worker_service.py:307-308 | with a truthy filter every order kept has that status and every such order is kept; with none the list is unchanged |
| WorkerService.FilterStatusExactly | app/services/worker_service.py:307-308 | the kept orders are a subsequence of the list (list order) and each order with the status occurs as many times as in the list, any other not at all; without a filter the whole list |
| WorkerService.StepsAreSorted | app/services/worker_service.py:310 | adjacent steps newest-first make the whole list newest-first |
| WorkerService.InsertNewestFirst | app/services/worker_service.py:310 | insertion keeps the list newest-first and adds exactly the one order |
| WorkerService.SortNewestFirst | app/services/worker_service.py:310 | the sorted list is a permutation of the input, newest first |
| WorkerService.AssignedOrders | app/services/worker_service.py:300-314 | an unknown worker gives []; every order returned has the requested status and comes from the worker's orders; the result is newest first whenever its keys are datetimes, and is exactly the filtered orders whenever `sorted` can compare them |
| WorkerService.AssignedOrdersCounts | app/services/worker_service.py:300-314 | for a known worker whose filtered orders can be sorted, the listing holds each order with the status as many times as the worker's orders do, and no other order |
| WorkerService.CountWhere | app/services/worker_service.py:332-335 | a status count never exceeds the number of orders |
| WorkerService.DisjointCounts | app/services/worker_service.py:332-335 | completed, preparing and ready counts add up to at most the total |
| WorkerService.WorkerStatistics | app/services/worker_service.py:327-350 | an unknown worker, or one whose last_login holds the lambda, gives {}; otherwise the id and name are the worker's, total is the number of assigned orders, completed, preparing and ready are the counts of paid-or-closed, preparing and ready orders (together at most total), the completion rate is `CompletionRate` of completed and total, and last_login is reported iff it is set |
| WorkerService.CompletionRate | app/services/worker_service.py:344 | 0 without orders; otherwise rate × total = completed × 100, within [0, 100] when completed ≤ total |
| OrdersMemory.CountStatus | app/services/orders_service.py:111 | the number of entries with a status is at most the length |
| OrdersMemory.CountPriority | app/services/orders_service.py:117 | the number of entries with a priority is at most the length |
| OrdersMemory.ByWorker | app/services/orders_service.py:63-66 | every entry returned is assigned to the email |
| OrdersMemory.ByWorkerExactly | app/services/orders_service.py:63-66 | the result is a subsequence of the list, in list order (`Seqs.Subsequence`), of exactly the entries assigned to the email |
| OrdersMemory.ByWorkerSubsequence | app/services/orders_service.py:63-66 | the worker's list is a subsequence of the list, in list order |
| OrdersMemory.ByWorkerMembers | app/services/orders_service.py:63-66 | an entry is in the worker's list iff it is in the list and assigned to the email |
| OrdersMemory.ByWorkerCounts | app/services/orders_service.py:63-66 | an entry assigned to the email is in the worker's list as many times as in the list, any other entry not at all |
| OrdersMemory.FirstWithId | app/services/orders_service.py:79-82 | the first index with the id, or none when no entry has it |
| OrdersMemory.FirstWithIdIs | app/services/orders_service.py:79-82 | an index whose predecessors all have other ids is the one found |
| OrdersMemory.OrdersService.AllOrders | app/services/orders_service.py:50 | the list itself |
| OrdersMemory.OrdersService.OrdersByWorker | app/services/orders_service.py:63-66 | `ByWorker` of the list: a subsequence of the list holding an entry iff it is in the list and assigned to the email, each as many times as the list holds it |
| OrdersMemory.OrdersService.GetOrderById | app/services/orders_service.py:79-82 | found iff some entry has the id, and then it is the first such entry |
| OrdersMemory.OrdersService.UpdateOrderStatus | app/services/orders_service.py:96-100 | true iff an entry has the id; only that first entry's status changes and every other entry is untouched; false leaves the list unchanged |
| OrdersMemory.StatusUpdateMovesOneEntry | app/services/orders_service.py:96-100 | a status update changes the completed count by at most one |
| OrdersMemory.SummaryOf | app/services/orders_service.py:110-118 | total is the length, completed counts 'Listo', pending = total − completed ≥ 0, high_priority counts 'alta' |
| OrdersMemory.OrdersService.OrdersSummary | app/services/orders_service.py:110-118 | `SummaryOf` the current list: the total, completed the 'Listo' count, pending their difference (within the total), high_priority the 'alta' count |
| WorkersMemory.SeedProfile | app/services/workers_service.py:12-37 | every seeded profile carries the four statistics |
| WorkersMemory.WorkersService.WorkerProfile | app/services/workers_service.py:50 | the entry for the email, or none when it is absent |
| WorkersMemory.WorkersService.AllWorkers | app/services/workers_service.py:60 | one profile per seeded email, in that order, and every profile of the table appears |
| WorkersMemory.WorkersService.UpdateWorkerStats | app/services/workers_service.py:74-78 | true iff the email has a non-empty profile; given keys are overwritten and the others kept; otherwise the table is unchanged; the table stays well-formed |
| WorkersMemory.WorkersService.WorkerStatistics | app/services/workers_service.py:91-99 | exactly the four statistics copied from the profile, or none |
| AuthService.UserByEmail | app/services/auth_service.py:59 | the table entry, or none when the email is absent |
| AuthService.ValidateCredentials | app/services/auth_service.py:38-46 | a session iff the email is in the table and the password matches exactly; its email, role and name are the entry's |
| AuthService.SessionRoleIsValid | app/services/auth_service.py:13-24 | every role in the table is valid, so every session carries a valid role |
| AiService.DigitRun | app/services/ai_service.py:286 | the maximal run of digits at a position |
| AiService.SpaceRun | app/services/ai_service.py:286-287 | the maximal run of whitespace at a position, stopping at the end or a non-space |
| AiService.DigitStart | app/services/ai_service.py:287 | the digits of `name\s*x?\s*(\d+)` start between the end of the name and the end of the text |
| AiService.LongestCapture | app/services/ai_service.py:286-288 | the greedy `\d+` backs off to the longest digit prefix after which the rest of the pattern matches, or none matches |
| AiService.SearchNameFirst | app/services/ai_service.py:287 | a found quantity is the value of the digits after an occurrence of the name, a separator and an optional x (that it is the leftmost match is `SearchNameFirstIsLeftmost`) |
| AiService.SearchDigitsFirstIsLeftmost | app/services/ai_service.py:286-293 | the search for `(\d+)\s*x?\s*name` (and `(\d+)\s*name`) answers as `re.search`: none iff no start matches, else the value of the leftmost match with the longest digit group after which the rest still matches |
| AiService.SearchNameFirstIsLeftmost | app/services/ai_service.py:287-293 | the search for `name\s*x?\s*(\d+)` answers as `re.search`: none iff no occurrence is followed by digits, else the digits after the leftmost such occurrence |
| AiService.DigitsCaptureIsDigits | app/services/ai_service.py:293-294 | a digit pattern's capture is the value of a run of digits in the text |
| AiService.QuantityFromText | app/services/ai_service.py:282-296 | the quantity is the default 1 or the value of a run of digits in the text |
| AiService.ExtractQuantityNear | app/services/ai_service.py:282-296 | the loop over the patterns returns `QuantityNear` |
| AiService.ThirdWithinFirst | app/services/ai_service.py:286-288 | wherever the third pattern matches, the first does too |
| AiService.ThirdPatternIsRedundant | app/services/ai_service.py:285-296 | the third pattern never decides the quantity |
| AiService.NoDigitsNoQuantity | app/services/ai_service.py:282-296 | a text without digits gives the default quantity 1 |
| AiService.Mentioned | app/services/ai_service.py:272-273 | exactly the catalog products whose lower-cased name occurs in the lower-cased text, as a subsequence of the catalog (catalog order kept) |
| AiService.MentionedCounts | app/services/ai_service.py:272-273 | a mentioned product occurs as many times as in the catalog, any other product not at all |
| AiService.QuantitiesFor | app/services/ai_service.py:275-278 | one quantity per product, each the quantity near that product's name |
| AiService.ExtractOrderFromText | app/services/ai_service.py:263-280 | the products are the mentioned ones, the quantities parallel to them, the confidence 0.7 |
| AiService.GenerateResponse | app/services/ai_service.py:240-247 | the four known intents get their fixed replies and every other intent the default |
| AiService.PromptMessages | app/services/ai_service.py:94-97 | the system prompt followed by exactly the last min(5, len) context turns |
| AiService.Record | app/services/ai_service.py:119-126 | a result record with the given intent, confidence and response, empty entities and no auto-creation |
| AiService.Fallback | app/services/ai_service.py:117-126 | an unparseable reply becomes intent otro with the raw text as the response and ready_to_create_order false |
| AiService.ProcessReply | app/services/ai_service.py:110-168 | a failed call gives the error record; an undecodable reply the fallback; a decoded one is returned if the saving can index it (else the error record); auto-creation starts iff ready_to_create_order is truthy and the intent is hacer_pedido |
| AiService.FallbackNeverCreates | app/services/ai_service.py:117-155 | a reply that is not JSON never creates an order and its text reaches the customer |
| AiService.FindProduct | app/services/ai_service.py:189-192 | a product found belongs to the business and has exactly the name; none means no such product |
| AiService.ItemOf | app/services/ai_service.py:189-198 | an entry gives an item iff a product of the business has its name; the item is that product's id with the entry's quantity, or 1 |
| AiService.Matched | app/services/ai_service.py:187-198 | the reference list, built from the first entry on: at most one item per entry |
| AiService.MatchedSnoc | app/services/ai_service.py:188-198 | one more entry appends exactly its item, so the list built front to back equals the loop's, built back to front |
| AiService.MatchItems | app/services/ai_service.py:187-198 | the list exists iff every entry is a dict with a name (otherwise the loop raises), and is then the reference list `Matched` |
| AiService.MatchedItemsFromCatalog | app/services/ai_service.py:188-198 | every item is the item of some entry, that is a product of the business with the entry's name and its quantity or 1; and every entry naming such a product contributes its item |
| AiService.MatchedFromEntries | app/services/ai_service.py:188-198 | every item comes from some entry naming a product of the business |
| AiService.EntriesInMatched | app/services/ai_service.py:188-198 | every entry naming a product of the business contributes its item |
| AiService.AutoOrderFor | app/services/ai_service.py:180-216 | an order is requested iff entities is a dict whose products are a non-empty list of named dicts of which at least one names a product of the business; it carries exactly the `Matched` items, delivery_type (default "delivery"), address, customer_name and the auto-creation note |
| AiService.NoMatchNoItems | app/services/ai_service.py:194-201 | when no entry names a product of the business the item list is empty, so no order is requested |
| AiService.AutoCreateOrder | app/services/ai_service.py:179-216 | the loop with its early returns requests exactly `AutoOrderFor` |
| KpiService.Select | app/services/kpi_service.py:359-367 | a row is selected iff it is in the table, of the business and created in the window; no more rows than the table |
| KpiService.SelectExactly | app/services/kpi_service.py:359-367 | the selected rows are a subsequence of the table (table order) and each row in the window occurs as many times as in the table, any other not at all |
| KpiService.SubCount | app/services/kpi_service.py:60-75 | a count with an extra condition never exceeds the plain count |
| KpiService.CompletedAndCancelledDisjoint | app/services/kpi_service.py:215-234 | completed and cancelled counts add up to at most the total, and cancelled plus not-cancelled is the total |
| KpiService.AdjacentWindows | app/services/kpi_service.py:96-114 | the current and previous periods together count exactly the rows of their union |
| KpiService.HourOf | app/services/kpi_service.py:335 | the hour of day is within 0..23, also before the epoch |
| KpiService.SumHoursSnoc | app/services/kpi_service.py:334-336 | a new row adds one to the buckets below n exactly when its hour is one of them |
| KpiService.HoursAddUp | app/services/kpi_service.py:332-336 | every row falls into exactly one of the 24 buckets |
| KpiService.ZeroBuckets | app/services/kpi_service.py:332 | the keys 0..n−1, each mapped to 0 |
| KpiService.OrdersByHour | app/services/kpi_service.py:323-338 | the histogram has exactly the keys 0..23, each mapped to the number of window rows created in that hour |
| KpiService.HistogramTotal | app/services/kpi_service.py:332-338 | the histogram's values add up to the number of orders in the window |
| KpiService.Rate | app/services/kpi_service.py:204 | 0 without a denominator; otherwise rate × total = part × 100; within [0, 100] for a sub-count |
| KpiService.RatesAddUp | app/services/kpi_service.py:223-234 | the rates of two disjoint sub-counts add up to at most 100 |
| KpiService.SatisfactionScore | app/services/kpi_service.py:411-415 | 1 without orders, within [1, 5] for a sub-count, 5 when every order is completed |
| KpiService.AvgResponseMinutes | app/services/kpi_service.py:343-356 | 0 without response times; otherwise the mean of the non-NULL seconds, in minutes |
| KpiService.AvgResponseNonNegative | app/services/kpi_service.py:343-356 | non-negative response times give a non-negative average |
| KpiService.ConversionRate | app/services/kpi_service.py:370-389 | the completed share of the window's rows in per cent: 0 for an empty window, otherwise rate × rows = completed × 100, always within [0, 100] |
| KpiService.PercentageChangeAsWritten | app/services/kpi_service.py:418-429 | from 0 it is 100 if the new value is positive and 0 otherwise, whatever `inverse`; otherwise the relative change in per cent, negated under `inverse` |
| KpiService.InverseIgnoredFromZero | app/services/kpi_service.py:420-427 | as written, a response time rising from 0 to 5 is reported as +100 (an improvement), the same as without `inverse` |
| KpiService.PercentageChange | app/services/kpi_service.py:418-429 | the change with `inverse` applied in every case, and identical to the code as written without `inverse` |
| KpiService.InverseNegates | app/services/kpi_service.py:423-427 | `inverse` negates the change for every pair of values, and agrees with the code as written away from 0 |
| KpiService.ChangeSign | app/services/kpi_service.py:423-427 | from a positive old value the change is positive iff the value rose (fell, under `inverse`) |
| KpiService.Compare | app/services/kpi_service.py:146-170 | an entry carries both values; the change is the code as written (from 0: 100 if the value is positive, else 0, whatever `inverse`; otherwise the relative change in per cent, negated under `inverse`); improved iff the change is positive |
| KpiService.RiseFromZeroReportedImproved | app/services/kpi_service.py:133-151 | a response time rising from 0 is reported as improved, while from 1 a rise is not |
| KpiService.KpiComparisons | app/services/kpi_service.py:96-171 | the current period is [now − d, now) and the previous one the d days before it; each entry holds the average response minutes, order count, conversion rate and satisfaction of both periods, with the change of the code as written (inverse for response time) and improved iff it is positive; conversion rates lie in [0, 100] and satisfaction in [1, 5] |
| KpiService.PeriodsAddUp | app/services/kpi_service.py:96-114 | for d ≥ 0 the two periods' rows add up to the rows of [now − 2d, now) |
| KpiService.DashboardMetrics | app/services/kpi_service.py:25-82 | orders today is the count of today's rows, the average response time theirs, sales the sum of the non-cancelled amounts, satisfaction the completed share; without orders every other figure is 0; satisfaction lies in [0, 100] |
| KpiService.SalesBounds | app/services/kpi_service.py:49-58 | sales of non-negative amounts are non-negative, and cancelled orders add nothing |
| KpiService.OperationalMetrics | app/services/kpi_service.py:185-241 | fails iff period_days is 0, where `total_orders / period_days` raises ZeroDivisionError; otherwise the figures are `OperationalShares` of the rows since period_days days before now, with accuracy plus error rate at most 100 |
| KpiService.OperationalShares | app/services/kpi_service.py:187-237 | automation rate, AI accuracy and error rate are the automated, completed and cancelled shares of the rows; each lies in [0, 100], accuracy plus error rate is at most 100, and all are 0 for no rows |
| TelegramBot.CustomerIdentifierAsWritten | app/scripts/telegram_bot.py:177-186 | the identifier as written: it raises iff the message has no sender |
| TelegramBot.NoSenderRaises | app/scripts/telegram_bot.py:178-183 | a message without a sender makes the code as written raise, while the corrected identifier gives tg:chat_id |
| TelegramBot.CustomerIdentifier | app/scripts/telegram_bot.py:177-186 | the phone if present, else tg: + username, else tg: + chat_id (also without a sender) |
| TelegramBot.CorrectedAgrees | app/scripts/telegram_bot.py:177-186 | wherever the code as written does not raise, it gives the corrected identifier |
| TelegramBot.TagRun | app/scripts/telegram_bot.py:194 | the maximal run of `[a-zA-Z0-9_-]` characters |
| TelegramBot.TagRunAll | app/scripts/telegram_bot.py:194 | a text of tag characters only is one whole tag run |
| TelegramBot.TagRunOfTag | app/scripts/telegram_bot.py:194 | the greedy tag ends exactly at the first non-tag character |
| TelegramBot.TagSkip | app/scripts/telegram_bot.py:194 | skipping the greedy tag leaves the text that follows it |
| TelegramBot.StripCodeFences | app/scripts/telegram_bot.py:189-197 | the result is trimmed and no longer than the input; text not wrapped in fences is only trimmed |
| TelegramBot.StripCodeFencesValue | app/scripts/telegram_bot.py:191-192 | non-strings come back unchanged |
| TelegramBot.Fences | app/scripts/telegram_bot.py:193-195 | a text between two fences is recognised as fenced, and its body is what lies between |
| TelegramBot.FencesStripped | app/scripts/telegram_bot.py:193 | the initial `strip()` leaves a fenced text as it is |
| TelegramBot.Unfence | app/scripts/telegram_bot.py:193-196 | fenced text loses its fences, the greedy tag and the surrounding whitespace |
| TelegramBot.FenceRoundTrip | app/scripts/telegram_bot.py:193-196 | fencing trimmed content with a tag and whitespace, then stripping, gives the content back |
| TelegramBot.FencedWordIsEmpty | app/scripts/telegram_bot.py:194 | a single fenced word is taken for the tag, leaving the empty text |
| TelegramBot.JsonishCandidate | app/scripts/telegram_bot.py:204-210 | when the unfenced text has a `}`, the candidate ends in `}` |
| JsonValues.BraceBlock | app/scripts/telegram_bot.py:209 | a match of `\{.*\}` (DOTALL) is the slice of the text from its first `{` to its last `}`, which comes after it; it starts with `{` and ends with `}` |
| JsonValues.BraceBlockFound | app/scripts/telegram_bot.py:209 | there is a match exactly when some `{` comes before some `}` |
| TelegramBot.TryParseJsonish | app/scripts/telegram_bot.py:200-214 | empty text gives none; otherwise the decoder's answer on the candidate |
| TelegramBot.ObjectTextIsItsOwnCandidate | app/scripts/telegram_bot.py:204-210 | a bare object text goes to the decoder as it is |
| TelegramBot.Nested | app/scripts/telegram_bot.py:223 | a truthy result is one of response, message, text |
| TelegramBot.Pieces | app/scripts/telegram_bot.py:227 | no more pieces than items, one per item when unfiltered |
| TelegramBot.PiecesOfAll | app/scripts/telegram_bot.py:243 | unfiltered, the pieces are `f"{k}: {v}"` of the items, one for one and in item order |
| TelegramBot.PiecesMembers | app/scripts/telegram_bot.py:227 | a piece is kept exactly when some item whose value passes the scalar filter gives it |
| TelegramBot.PiecesConcat | app/scripts/telegram_bot.py:227 | the pieces of a concatenation are those of each part in turn: item order is kept |
| TelegramBot.TruthyStrs | app/scripts/telegram_bot.py:231 | one string per truthy item, all of them when every item is truthy |
| TelegramBot.TruthyStrsMembers | app/scripts/telegram_bot.py:231 | a string is kept exactly when some truthy item gives it |
| TelegramBot.TruthyStrsConcat | app/scripts/telegram_bot.py:231 | the strings of a concatenation are those of each part in turn: item order is kept |
| TelegramBot.CleanStep | app/scripts/telegram_bot.py:217-245 | None gives '', a list the lines of its truthy items, a dict recurses on its first truthy response/message/text or joins its scalar items |
| TelegramBot.ScalarStep | app/scripts/telegram_bot.py:233-245 | a scalar recurses only on a truthy nested value of a re-parsed JSON-looking text |
| TelegramBot.CleanText | app/scripts/telegram_bot.py:217-245 | the recursion stops only when the step recurses with no fuel left |
| TelegramBot.CleanNoneAndList | app/scripts/telegram_bot.py:219-231 | None gives '' and a list the newline-join of its truthy items |
| TelegramBot.CleanDictRecurses | app/scripts/telegram_bot.py:222-228 | a dict is read through its first truthy response, message or text |
| TelegramBot.CleanPlainText | app/scripts/telegram_bot.py:233-245 | plain text that is neither fenced nor JSON-looking comes back trimmed |
| TelegramBot.CountSpecials | app/scripts/telegram_bot.py:253 | the number of Markdown special characters |
| TelegramBot.EscapeMarkdown | app/scripts/telegram_bot.py:248-254 | the length grows by the number of special characters; every special character is preceded by a backslash; text without specials (the empty text included) is unchanged |
| TelegramBot.UnescapeEscape | app/scripts/telegram_bot.py:248-254 | removing the added backslashes gives the text back: all other characters and their order are preserved |
| TelegramService.NewClient | app/services/telegram_service.py:16-18 | the base URL exists iff the token is truthy, and starts with the Bot API prefix |
| TelegramService.ConfiguredIffToken | app/services/telegram_service.py:16-22 | a client is configured iff its token is truthy |
| TelegramService.AfterFirst | app/services/telegram_service.py:143 | `split(':', 1)[1]`: exists iff the separator occurs, and is what follows its first occurrence |
| TelegramService.CustomerIdentifier | app/services/telegram_service.py:139-145 | none for a missing or empty phone; tg:x gives x; other phones are unchanged |
| TelegramService.SenderIdentifier | app/services/telegram_service.py:147-151 | always tg:-prefixed; the username when truthy, else the chat id |
| TelegramService.SenderIdentifierRoundTrip | app/services/telegram_service.py:139-151 | stripping a built sender identifier gives back the username, or str(chat_id) without one |
| TelegramService.SanitizeIdentifier | app/services/telegram_service.py:153-157 | None stays none; otherwise the prefix of str(v) of exactly min(20, its length) characters |
| TelegramService.SanitizeIdempotent | app/services/telegram_service.py:153-157 | sanitizing twice is sanitizing once |
| TelegramRoutes.BodyOrEmpty | app/routes/api/telegram_routes.py:20 | a missing or falsy body is the empty dict, any other body is kept |
| TelegramRoutes.CustomerIdentifier | app/routes/api/telegram_routes.py:89-103 | it raises iff the sender is not a dict, or there is no phone and the chat is not a dict; the result is truthy: the phone, else tg: + chat id, else tg: + username, else tg:unknown |
| TelegramRoutes.IdentifiersDiverge | app/routes/api/telegram_routes.py:95-101 | for a sender with a username and no phone, the webhook says tg:chat_id where the polling bot says tg:username |
| TelegramRoutes.ChatIdRecovered | app/routes/api/telegram_routes.py:95-97 | the client's lookup of a stored tg:chat_id identifier gives back str(chat_id) |
| TelegramRoutes.HandleText | app/routes/api/telegram_routes.py:38-56 | a message with a chat id and non-blank text is always logged; without an active business it gets 200 and nothing else; otherwise the agent is asked iff the identifier can be built, and then with exactly (`_build_customer_identifier(message)`, the text); a reply is sent iff the agent returned a dict with a truthy `response`, and it is exactly (chat id, that response); 500 iff, with an active business, the identifier or the agent raises or the result is not a dict |
| TelegramRoutes.HandleUpdate | app/routes/api/telegram_routes.py:27-56 | no message, or a chat without an id, or blank text gives 200 with nothing logged or asked; a non-dict message raises (500); the log happens iff the update is actionable, and an actionable update is handled exactly as `HandleText` of its message, chat id and text; a reply goes only to the message's chat |
| TelegramRoutes.Webhook | app/routes/api/telegram_routes.py:13-58 | 403 iff a secret is configured and differs; 503 iff the secret passes and the client is unconfigured; a non-dict update is 500; otherwise the result is `HandleUpdate`, so no message gives 200 and the log happens iff the update is actionable; the agent is called only once logged with an active business, and a reply is sent only with 200 and a truthy response |
| TelegramRoutes.BlankTextIgnored | app/routes/api/telegram_routes.py:33-36 | a message with blank text gets 200 and reaches neither the log nor the agent |
| TelegramRoutes.SendMessage | app/routes/api/telegram_routes.py:61-76 | a request is made iff the body is JSON whose chat_id (else customer_identifier) and message are both truthy, and it carries exactly those two; otherwise a body that is not JSON or lacks a field is 400, and a truthy JSON value that is not an object raises (500); 200 iff the request is made, the client is configured and delivery succeeds |
| TelegramRoutes.SendFallsBackToIdentifier | app/routes/api/telegram_routes.py:65 | customer_identifier stands in for a missing chat_id |

## Left out

- Flask and SQLAlchemy plumbing (`jsonify`, `login_required`, queries, sessions) is not modelled. A handler is an update on values or in place that fully succeeds or leaves the state unchanged, except for the workers' mark-ready endpoint, whose two commits are modelled apart. A commit is assumed to succeed.
- A rollback is modelled only for the order row. Persisting a lambda in a DateTime column would fail at commit; that is not modelled either.
- The exception text in "Error al …: {e}" messages is not modelled. The message is the fixed prefix.
- Real clocks are not modelled: `now` and `today` are parameters. Timing results on the lambda-stamped paths are proved only as "a lambda is written".
- The network calls are not modelled: the OpenAI chat call, the WhatsApp and Telegram posts, and the python-telegram-bot runtime with its handlers and the `screaming` toggle. Their outcomes are parameters: the reply text, `whatsappOk`, `delivered`, `aiResult`.
- `json.loads` and `str()` of containers are function parameters (`decode`, `reprOf`), not implementations.
- Regular expressions are hand-modelled only for the patterns of `_extract_quantity_near` and `_strip_code_fences`. No regex engine is modelled.
- `lower()` and `\d` cover ASCII only: there is no Unicode case folding and there are no Unicode digits. `\s` and `strip()` use Python's full whitespace set (`str.isspace`).
- TelegramBot.CleanText: the recursion has a `fuel` bound. That enough fuel always gives a result is not proved.
- KPI `round(…, 1)` is not modelled; the proved values are before rounding. Rounding also changes which branch the source takes, so `KpiService.Compare` and `KpiService.KpiComparisons` differ from it on such inputs: a previous average response under 3 seconds rounds to 0.0 minutes (app/services/kpi_service.py:356) and takes the from-0 branch of the change (420); a change under 0.05 in magnitude rounds to 0, which is not an improvement (151). The time-saved estimate (app/services/kpi_service.py:206-212) and `get_financial_impact` (244-309) are not modelled, as they are floating-point formulas; only the ZeroDivisionError of the estimate is modelled, in `KpiService.OperationalMetrics`.
- Password hashing (`set_password`/`check_password`) is a function parameter. `secrets.token_hex` is a token parameter. `change_password` and `delete_worker` are not modelled: they are not among the selected operations.
- `can_mark_ready` and `assigned_workers` are not declared by the model classes. The first is an input of the worker route; the second is an id list on the order. A worker's assigned orders are an input.
- AiService.FindProduct: the database's coercion of a non-string `name` in the SQL filter is not modelled. Only an exact string match is found.
- Conversation persistence in `process_message` is not modelled, apart from the indexing of the result that it performs.
- `process_message` declares no `channel` parameter, so the calls from the Telegram routes and bot raise. That call is not modelled. The webhook takes the agent's result as an input, with None for "raised".
- Duplicate keys in JSON objects are not modelled: `Get` takes the first binding Python would not keep. Decoded dictionaries are assumed free of duplicates.
- A request body that is not JSON is answered 400 in the send endpoint. Flask's 415 for a wrong content type is not distinguished.
- Order-number races under concurrent creators are out of scope.
- The customers table has no updated_at in the model, so the refresh of a customer counted by `create_order` is not modelled.
- WorkerRoutes.MarkOrderReady: `worker_id` is modelled as an integer or absent. Another JSON type given to `get_worker_by_id` is not modelled. `order.to_dict()` in the 200 reply is assumed not to raise.
- WorkerService.AssignedOrders: when two or more filtered orders are left and one created_at is not a datetime, `sorted` raises. For that case the contract states only that the result comes from the filtered orders. Sort stability is not claimed.

## Findings

| source | as written | input that shows it | evidently intended | confidence | as-written member | corrected member |
|---|---|---|---|---|---|---|
| app/routes/api/orders_routes.py:376-381 | `accepted_at` receives a lambda, then `accepted_at - created_at` is computed | a planta worker accepts any received order that has a created_at | store `datetime.now(timezone.utc)` and record the response time | high, not executed | OrdersRoutes.AcceptToPreparingAsWritten, OrdersRoutes.AcceptToPreparingAlwaysFails | OrdersRoutes.AcceptToPreparingRule |
| app/routes/api/orders_routes.py:438-443 | `ready_at` receives a lambda, then `ready_at - accepted_at` is computed | a planta worker marks ready a preparing order whose accepted_at is set | store the current datetime and record the preparation time | high, not executed | OrdersRoutes.MarkReadyAsWritten, OrdersRoutes.MarkReadyFailsOnceAccepted | OrdersRoutes.MarkReadyRule |
| app/scripts/telegram_bot.py:178-183 | `user = message.from_user or {}` then `user.username` | a message with no `from_user`, chat id 42 | fall back to `tg:{chat_id}` | medium, not executed | TelegramBot.CustomerIdentifierAsWritten, TelegramBot.NoSenderRaises | TelegramBot.CustomerIdentifier |
| app/services/kpi_service.py:420-427 | with old value 0, returns before `inverse` is applied | old 0, new 5, inverse=True gives +100 (improved) | −100 for a response time rising from 0 | medium, not executed | KpiService.PercentageChangeAsWritten, KpiService.InverseIgnoredFromZero, KpiService.RiseFromZeroReportedImproved | KpiService.PercentageChange, KpiService.InverseNegates |
