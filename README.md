# CRM campaign engine — a Dafny model

This project models the server core of a small CRM: customers, orders,
marketing campaigns and their communication logs. It covers the following:

- campaign audience rules, and how `buildQueryFromRules` turns them into a
  MongoDB filter;
- the audience preview and campaign activation, which saves one pending
  communication log per matching customer with the personalised message and
  hands each log to the vendor;
- the delivery-receipt callback and the vendor's outcome application, which
  update a log and bump the campaign's cached delivery counters;
- the live statistics recount;
- the customer and order controllers;
- the request validators of the campaign and order routes;
- the central error handler.

The model is laid out in modules:

- `Text` holds string helpers: ASCII case folding, substring search, trimming,
  binary string order and first-occurrence `replace`.
- `Collections` holds identifiers, `Option`, HTTP replies, table scans in
  natural order and the descending sort.
- `Models` holds the four Mongoose schemas: documents, defaults and the
  validation that runs on save.
- `RuleEngine` covers rules, filters and audiences.
- `Delivery` covers statistics, receipts and counter consistency.
- `Queries` holds the read-only customer and order handlers.
- `Crm` holds the `Store` class with every handler that changes data, plus
  activation's per-member logs and dispatches.
- `Validation` models express-validator's chains for campaigns and orders
  and the 400 gate.
- `Errors` models `errorHandler`.

A collection is a `map` from identifier to document. The store hands out
identifiers in increasing order from one counter, `nextId`. MongoDB does not
promise any natural order. The model takes natural order to be insertion
order, which is then ascending identifier order. A handler answers with the
HTTP status code it sends. Each state-changing handler is a method of
`Store`. Its postcondition states the new collections in terms of the old
ones and keeps the store invariant `Valid()`, which says:

- identifiers are below `nextId`;
- customer names, campaign messages and log messages are non-empty;
- emails are unique.

The counter-consistency property `CountersConsistent` says that every
campaign's cached `deliveryStats` equal the recount of its logs. Most
handlers keep it unconditionally, but two keep it only under conditions:

- `DeliveryReceipt` keeps it when the receipt lands on a pending log.
- `SendMessageOutcome` keeps it when the log is pending and no store call
  fails.

A second receipt for the same log breaks it (`Delivery.RepeatedReceiptDrifts`).

Where the design description and the code disagree, the model follows the
code:

- Receipts are not idempotent. A repeated `sent` or `failed` receipt bumps
  the cached counter again (`Delivery.RepeatedReceiptDrifts`).
- Activation does not check the campaign's current status. Activating twice
  saves a second set of logs.
- An empty conditions list builds `{ $and: [] }` or `{ $or: [] }`, which
  MongoDB rejects. Preview and activation then answer 500, although the
  validator lets an empty list through.
- A missing combinator builds an `$or` filter. The schema defaults the
  combinator to AND only when the campaign is saved. The validator already
  demands `rules.condition` to be AND or OR.
- A rule naming an unknown customer field is not rejected. With Mongoose's
  `strictQuery` off, the model's setting, it reads as a missing path, which
  only `!=` matches. With an operator outside the map, it selects nobody
  instead of failing. The same operator on a schema field fails the query
  (500).

## Model

| member | source | states |
|---|---|---|
| Models.SaveCustomerDefaults | models/customer.model.js:3-42 | saving a customer succeeds iff name and email are non-empty after trimming; the saved customer has trimmed name and phone, a trimmed lower-case email, zero spend and visits, and every date set to now |
| Models.NormalizeEmailIdempotent | models/customer.model.js:9-15 | normalising a stored email (trim, lowercase) again changes nothing, so lookups by normalised email match stored emails |
| Models.FieldValue | models/customer.model.js:3-39 | a rule field reads the customer attribute of that name; an unknown field reads as absent |
| Models.SaveOrder | models/order.model.js:3-38 | saving an order succeeds iff every product line has a name; it keeps customer, amount and products, has status pending, and its order date and both timestamps are the time of the save |
| Models.SaveCampaignDefaults | models/campaign.model.js:3-68 | saving a campaign succeeds iff the trimmed name and the message are non-empty, every condition has a field and an enumerated operator, and a given combinator is AND or OR; the saved campaign is a draft with an empty audience, zero counters and combinator AND when none was given |
| Models.ParseLogStatus | models/communication-log.model.js:18-22 | exactly "sent", "failed" and "pending" are log statuses; any other string fails the save |
| Models.NewLog | models/communication-log.model.js:3-32 | a new log is pending, has no failure reason and is stamped with the current time |
| RuleEngine.OperatorMap | controllers/campaign.controller.js:192-202 | exactly the seven rule operators translate; only `contains` becomes a regex match |
| RuleEngine.BuildQuery | controllers/campaign.controller.js:184-218 | the filter has one clause per condition, in order, each built from that condition |
| RuleEngine.Matches | controllers/campaign.controller.js:184-218 | the filter is invalid iff the conditions are empty or some condition has an untranslated operator on a field of the customer schema |
| RuleEngine.MatchesCombinator | controllers/campaign.controller.js:213-217 | with combinator AND a customer matches iff every condition holds; with anything else, a missing combinator included, iff some condition holds |
| RuleEngine.NumericOrderOperators | controllers/campaign.controller.js:192-209 | on a numeric field `>`, `<`, `>=`, `<=` compare the numbers |
| RuleEngine.NumericEqualityOperators | controllers/campaign.controller.js:192-209 | on a numeric field `=` and `!=` compare the numbers |
| RuleEngine.StringOrderOperators | controllers/campaign.controller.js:192-209 | on a string field the ordering operators compare lexicographically by character code |
| RuleEngine.StringEqualityOperators | controllers/campaign.controller.js:192-209 | on a string field `=` and `!=` compare the strings |
| RuleEngine.ContainsIgnoresCase | controllers/campaign.controller.js:204-207 | `contains` holds iff the value occurs in the field once both are case-folded |
| RuleEngine.OnlyNotEqualAcrossTypes | controllers/campaign.controller.js:188-209 | on a missing field or a value of the other type only `!=` matches |
| RuleEngine.Select | controllers/campaign.controller.js:80 | `Customer.find(filter)` returns exactly the matching customers, in natural (ascending) order |
| RuleEngine.CountMatching | controllers/campaign.controller.js:60 | `countDocuments` never exceeds the number of customers scanned |
| RuleEngine.CountIsSelectLength | controllers/campaign.controller.js:60 | the count equals the length of the matching list |
| RuleEngine.Audience | controllers/campaign.controller.js:79-80 | the audience is invalid iff the filter is (no conditions, or an untranslated operator on a schema field); otherwise it holds exactly the stored customers the rules match, in ascending order |
| RuleEngine.UntranslatedOnUnknownField | controllers/campaign.controller.js:202-209 | an untranslated operator on a field outside the customer schema raises no error and selects nobody, so under AND the rules match no customer |
| RuleEngine.Preview | controllers/campaign.controller.js:52-66 | preview answers 200 with a count or 500 without one |
| RuleEngine.PreviewIsAudienceSize | controllers/campaign.controller.js:57-60 | preview succeeds iff activation's audience query does, and its count is the size of that audience |
| Delivery.GetCampaignStats | controllers/campaign.controller.js:152-181 | 404 iff the campaign is unknown; otherwise 200 with the number of the campaign's sent and failed logs and the campaign's recorded audience size |
| Delivery.StatsIgnoreCache | controllers/campaign.controller.js:164-176 | the reply does not depend on the cached `deliveryStats`: any cached counters give the same figures |
| Delivery.StatsBounded | controllers/campaign.controller.js:164-175 | the recounted sent plus failed never exceed the campaign's number of logs |
| Delivery.ConsistentStatsReportCache | controllers/campaign.controller.js:164-176 | while the counters are consistent the recount reports exactly the cached counters |
| Delivery.Bump | controllers/campaign.controller.js:137-141 | a sent receipt adds one to `sent`, a failed one to `failed`, a pending one changes nothing |
| Delivery.RecordOutcome | controllers/campaign.controller.js:128-131 | the log takes the new status, and the failure reason only when a non-empty one is given; nothing else changes |
| Delivery.AddPendingLogKeepsConsistency | controllers/campaign.controller.js:94-101 | saving a pending log keeps every campaign's counters consistent |
| Delivery.AddCampaignKeepsConsistency | controllers/campaign.controller.js:11-19 | a new campaign with zero counters and no logs keeps the counters consistent |
| Delivery.SameStatsKeepConsistency | controllers/campaign.controller.js:83-86 | re-saving a campaign without touching its counters keeps them consistent |
| Delivery.FirstReceiptKeepsConsistency | controllers/campaign.controller.js:127-143 | the first terminal receipt of a pending log keeps the counters consistent |
| Delivery.OrphanReceiptKeepsConsistency | services/vendor.service.js:34-57 | updating a log whose campaign is gone keeps every campaign's counters consistent |
| Delivery.RepeatedReceiptDrifts | controllers/campaign.controller.js:128-141 | repeating a receipt leaves the recount as it was but bumps the cache, so cache and recount differ by one |
| Queries.Lookup | controllers/customer.controller.js:39-51 | `getCustomerById`, and likewise `getOrderById` (controllers/order.controller.js lines 50-63): 404 iff the id is unknown, otherwise 200 with the stored document |
| Queries.OfCustomer | controllers/order.controller.js:68 | the customer's filter keeps exactly the orders of that customer, each no more often than in the table |
| Queries.GetCustomersListsTable | controllers/customer.controller.js:29-36 | the listing is a permutation of the table, newest `createdAt` first, each customer with its stored document |
| Queries.GetOrdersListsTable | controllers/order.controller.js:37-47 | the listing is a permutation of the orders, latest `orderDate` first |
| Queries.GetOrdersByCustomerSelects | controllers/order.controller.js:66-75 | the listing holds exactly the customer's orders, each once, latest first |
| Crm.PersonalizeReplacesFirstPlaceholder | controllers/campaign.controller.js:91 | only the first `{{name}}` is replaced by the customer's name; without one the template is sent unchanged |
| Crm.Recipient | controllers/campaign.controller.js:104 | the vendor gets the phone when it is non-empty, otherwise the email |
| Crm.Members | controllers/campaign.controller.js:80 | the audience documents, one per audience id, in audience order |
| Crm.ActivationLogsShape | controllers/campaign.controller.js:89-101 | activation saves one log per audience member under consecutive new ids, each pending, for that campaign and customer, with the personalised message |
| Crm.ActivationDispatchesShape | controllers/campaign.controller.js:103-104 | one vendor call per member, in audience order, with the new log's id, the member's recipient and the personalised message |
| Crm.ActivationMessagesNonEmpty | controllers/campaign.controller.js:91-101 | with a non-empty template and named members every saved message is non-empty, as the log schema requires, so no save in the activation loop is refused |
| Crm.AddCustomerKeepsInvariant | controllers/customer.controller.js:14-21 | inserting a customer with a name and an unused email keeps the store invariant |
| Crm.Store.constructor | models/customer.model.js:44 | the empty database: no customers, orders, campaigns or logs (the four registered models); it is valid and its counters are consistent |
| Crm.Store.CreateCustomer | controllers/customer.controller.js:4-26 | 409 iff the normalised email is in use, 500 iff saving fails, else 201 with exactly one new customer under a fresh id |
| Crm.Store.UpdateCustomer | controllers/customer.controller.js:54-72 | 500 for empty name or email or an email used by another customer, 404 for an unknown id, else only name, email, a supplied phone and `updatedAt` change |
| Crm.Store.DeleteCustomer | controllers/customer.controller.js:75-87 | 404 iff unknown, otherwise exactly that customer is removed and nothing else changes |
| Crm.Store.CreateOrder | controllers/order.controller.js:5-34 | 404 iff the customer is unknown, 500 iff saving fails, else one new order with its timestamps, the customer's spend raised by the amount, visits by one, and `lastActivity` and `updatedAt` set to now |
| Crm.Store.UpdateOrderStatus | controllers/order.controller.js:78-96 | 404 iff unknown, otherwise only that order's status changes, to any string, with `updatedAt` set to now |
| Crm.Store.CreateCampaign | controllers/campaign.controller.js:7-24 | 201 iff saving succeeds, with exactly one new campaign under a fresh id; counters stay consistent |
| Crm.Store.ActivateCampaign | controllers/campaign.controller.js:69-114 | 404 for an unknown campaign, 500 for an invalid filter, both without change; else the audience is recorded, the campaign becomes active, the logs are added and the vendor calls are returned; counters stay consistent |
| Crm.Store.SaveActivationLogs | controllers/campaign.controller.js:89-105 | the loop adds exactly the activation logs, advances `nextId` by the audience size and returns the dispatches in order |
| Crm.Store.DeliveryReceipt | controllers/campaign.controller.js:117-149 | 404 iff the log is unknown; an unknown status changes nothing (500); otherwise the log is updated and the campaign's counter bumped, 500 when the campaign is gone |
| Crm.Store.SendMessageOutcome | services/vendor.service.js:27-62 | for each failing store call, the result and which updates already happened; otherwise the log and the campaign counter are updated and the result reports success |
| Validation.Standard | middleware/validation.middleware.js:38-45 | a standard validator records no error iff it passes on the value, or on every element of an array value |
| Validation.DecimalRoundTrip | middleware/validation.middleware.js:32 | a JSON number's text is an integer string that reads back as the number |
| Validation.FirstConditionErrorIsFirst | middleware/validation.middleware.js:55-64 | the custom check passes iff every condition passes, and otherwise reports the first failing condition's message |
| Validation.CampaignAccepted | middleware/validation.middleware.js:37-70 | a campaign request reaches the handler iff name, message length, rules object, combinator and every condition pass |
| Validation.MessageTextAccepted | middleware/validation.middleware.js:39-40 | a string message is accepted iff it has 10 to 5000 characters |
| Validation.ConditionValues | middleware/validation.middleware.js:55-63 | for any condition with a truthy field and operator, it passes iff its value is present and not null (so 0, false and "" pass); a falsy field or operator is refused whatever the value |
| Validation.ConditionsArrayChecked | middleware/validation.middleware.js:48-67 | on any conditions array the custom check passes iff every element passes (at once when it is empty), otherwise with the first failing element's message |
| Validation.OrderAccepted | middleware/validation.middleware.js:26-34 | an order request reaches the handler iff customer, amount, products array and every product's name, quantity and price pass |
| Validation.NumberChecks | middleware/validation.middleware.js:31-33 | a JSON number passes `isInt({ min: 1 })` iff it is at least 1, and always passes `isNumeric` |
| Validation.HandleValidationErrors | middleware/validation.middleware.js:4-15 | the request passes iff there are no errors, otherwise 400 with all of them |
| Errors.ErrorHandler | middleware/error.middleware.js:7-75 | the handler's reply equals the priority specification `Respond`; it throws when a duplicate-key error has no `keyValue` |
| Errors.CollectFieldErrors | middleware/error.middleware.js:23-28 | the loop lists each validation entry's field and message, in order |
| Errors.ReplyShape | middleware/error.middleware.js:69-74 | every reply has `success` false, carries the stack only in development, and leaves out an empty error list |
| Errors.AiServiceWins | middleware/error.middleware.js:63-66 | a message mentioning "AI" gives 503 whatever the error's kind |
| Errors.StatusByKind | middleware/error.middleware.js:11-60 | without "AI", token errors give 401, validation, cast and duplicate-key errors give 400, and any other error keeps its truthy status or gets 500 |
| Errors.UnknownErrorPassesThrough | middleware/error.middleware.js:11-12 | an error of no known kind keeps its status and message, falling back to 500 and "Internal Server Error" |
| Errors.ErrorsListed | middleware/error.middleware.js:23-48 | the error list is the validation entries in order followed by the duplicated key, and it is present iff it is non-empty |
| Errors.DuplicateEntryNamesKey | middleware/error.middleware.js:43-47 | the duplicate-key entry names the first key and quotes its value |

## Left out

- Persistence, the network and concurrency are left out. Handlers run one at
  a time on in-memory maps.
- The vendor call in activation is not awaited in the source. The model
  returns the calls as a list of dispatches. `SendMessageOutcome` applies one
  outcome at a time, at any later point.
- The vendor's 300 ms delay and its random 90% success are left out. The
  outcome is the parameter `isSuccess`. Which store call throws is the
  parameter `fault`.
- Console logging is left out.
- The generation of MongoDB ObjectIds is left out. Identifiers are naturals
  handed out in increasing order.
- MongoDB's order among documents with equal sort keys is left out. The model
  uses a stable insertion sort over natural order.
- RuleEngine.OnlyNotEqualAcrossTypes: Mongoose's casting of rule values to
  the schema type of a known field is left out. The rule values it covers are
  numbers and strings, with dates as numbers. `null` and boolean rule values
  are not modelled. In the program the string "1000" on `totalSpend` is cast
  and compared as a number, where the model says only `!=` matches. A value
  that cannot be cast, and `contains` on a number or date field, make the
  query throw. The program then answers 500, where the model gives "only
  `!=` matches" or "no match".
- RuleEngine.Matches: a field outside the customer schema is modelled with
  Mongoose's `strictQuery` off, so it is a missing path. With `strictQuery`
  on (the Mongoose 6 default) the clause is dropped from the filter and
  matches every customer.
- Regular-expression metacharacters in a `contains` value are read literally.
- Case folding and trimming cover ASCII letters and the white-space
  characters space, tab, CR and LF.
- `$` patterns in the replacement of `String.prototype.replace` are left out.
  A customer name is inserted literally.
- JSON numbers are whole numbers, so fractions and exponents are not modelled.
- `populate('customer', 'name email')` in the order listings is left out. The
  model returns the stored customer id.
- The request's other fields are left out of the 400 reply: `message`,
  `requestBody` and each error's `value`, `type` and `location`.
- `validateCustomer` is left out. Email and mobile-phone syntax is not part
  of this model.
- `products.*` instances for an object-valued `products` are not modelled,
  because object key order is not modelled. Such a body is refused by
  `isArray` anyway.
- The texts of the TypeErrors the custom conditions check throws are
  modelled as fixed strings (Node's wording).
- A non-string `value` of a cast error is modelled as its text.
- A `statusCode` or `message` that is present but falsy is the same as an
  absent one.
- Error names other than the four the handler tests are one kind,
  `OtherName`.
- `getCampaigns` and `getCampaignById` are not part of this model.
- The automatic `createdAt` and `updatedAt` timestamps of campaigns and
  communication logs are not part of this model. Those of customers and
  orders are modelled.
- Storage failures in the customer, order and campaign controllers (the
  generic `catch` that answers 500) are modelled only where a save can fail
  validation. The vendor's store faults are modelled.
- Crm.Store.UpdateCustomer: the 500 for a duplicate email stands for the
  unique-index error. Its message is not modelled.
