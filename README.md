# Freelance marketplace core, modelled in Dafny

The repository is a Django REST backend for a freelance marketplace. Executors
offer Services and Customers post Orders. The schema also records Tags,
Orderings (placed deals), Messages, Tickets (complaints), Reviews and
Authorings (who wrote a review). Nearly every view is generic framework
dispatch. This model covers the parts with logic of their own:

- **Listing filters** (`freelance/views.py`). The Order and Service list views
  start from the whole table. They narrow it once for each query parameter
  that is present and non-empty: `service`, then `price`, then `customer` or
  `executor`. The Message list view runs a similar chain, but over the Order
  table.
- **Owner-only Executor updates** (`freelance/views.py`). These are the
  `IsExecutor` object check and the update view's candidate set.
- **The data model** (`freelance/models.py`). This covers the choice tables
  as closed enumerations, the field defaults, the `__str__` text of Service
  and Order, and the cascading deletes that every `on_delete=CASCADE` foreign
  key declares.

Files and modules:

- `query.dfy` (`Query`): `Narrow`, the one query primitive. It keeps the rows
  that satisfy a predicate, in their natural order, like a QuerySet `filter`
  or the rows left by a `DELETE ... WHERE`. The module also holds its laws:
  two filters compose into one, a filter is idempotent, and a filter that
  every row satisfies changes nothing.
- `models.dfy` (`Models`): the records, the enumerations with their tables,
  the defaults, and the text rendering. It also has `ReadInt`, a reader that
  recovers a formatted price.
- `cascade.dfy` (`Cascade`): the store of tables, referential integrity, and
  the cascading deletes of Orders, Services, Customers, Executors and Reviews.
- `views.dfy` (`Views`): the three listings, the corrected Message listing
  and Executor access.

Modelling choices:

- Users are opaque integer ids, and a caller is `Anonymous` or
  `Authenticated(user)`.
- Timestamps are integers.
- Query parameters arrive already typed. A numeric parameter is `Absent` or
  `Given(raw, value)`. It is applied only when `raw` is non-empty, as the
  views test the raw text's truthiness. So `price=""` is ignored, while
  `price=0` is applied. The `service` parameter is raw text and is compared
  with the stored code as text.

Behaviour of the code that the model keeps as written:

- A non-owner's Executor update is answered NotFound, not PermissionDenied:
  `get_queryset` (views.py:44-50) hides other users' Executors, so the lookup
  fails before the object check. Anonymous callers get PermissionDenied.
  `UpdateExecutorAccess` states both.
- The Message listing reads the Orders table, not the Messages table
  (views.py:273). The intended listing is modelled beside it (see Findings).
- A Tag's Service key and Order key are both nullable and independent
  (models.py:74-75): a Tag may name one, both or neither.
- Executor and Customer refer to a User by a plain foreign key (models.py:8,
  41), so one user may own several Executors, and the update candidate set
  is a list.
- The other mutation views set `permission_class` (singular), an attribute
  the framework never reads, so they enforce no extra policy, and the model
  has none for them.

## Model

| member | source | states |
|---|---|---|
| `Query.Narrow` | freelance_birge/freelance/views.py:125-132 | A filter step keeps exactly the rows satisfying its predicate, never more rows than it was given |
| `Query.NarrowTwice` | freelance_birge/freelance/views.py:118-134 | Two successive filters equal one filter by the conjunction of their predicates, order preserved |
| `Views.ListingIsSelection` | freelance_birge/freelance/views.py:117-134 | The service/price/owner `if` chain equals the single order-preserving filter by the conjunction of the active parameters' constraints |
| `Views.ListingIdempotent` | freelance_birge/freelance/views.py:165-182 | Re-running a listing on its own result with the same parameters returns it unchanged |
| `Views.OrderListSelects` | freelance_birge/freelance/views.py:117-134 | The Order listing is the order-preserving subsequence of Orders satisfying all active constraints, and an Order is listed iff its code equals `service`, its price is ≤ `price` and its customer is `customer` (each only when that parameter is non-empty) |
| `Views.OrderListUnfiltered` | freelance_birge/freelance/views.py:117-134 | With every parameter absent or empty the Order listing is the whole Order table |
| `Views.OrderListIdempotent` | freelance_birge/freelance/views.py:118-134 | Applying the Order listing twice with the same parameters changes nothing |
| `Views.OrderListPriceExample` | freelance_birge/freelance/views.py:128-129 | An Order priced 500 is listed for `price=600`, not for `price=400` or `price=0`; `price=""` is ignored |
| `Views.ServiceListSelects` | freelance_birge/freelance/views.py:165-182 | The Service listing obeys the same selection law with the executor key in place of the customer key |
| `Views.ServiceListUnfiltered` | freelance_birge/freelance/views.py:165-182 | With no active parameter the Service listing is the whole Service table |
| `Views.ServiceListIdempotent` | freelance_birge/freelance/views.py:166-182 | Applying the Service listing twice changes nothing |
| `Views.MessageListOutcome` | freelance_birge/freelance/views.py:272-293 | The Message listing fails with a field error exactly when `executor`, `from_date` or `to_date` is non-empty, naming `executor` first, else `msg_date`; otherwise it equals the Order listing filtered by `customer` alone |
| `Views.MessageListIntendedMembers` | freelance_birge/freelance/views.py:276-291 | The intended Message listing keeps exactly the Messages matching executor and customer and lying in the inclusive `from_date`..`to_date` range |
| `Views.MessageListDefect` | freelance_birge/freelance/views.py:273-282 | For a Message of executor 7 at time 10, filtering by that executor or that date range fails as written, yet the intended listing returns the Message |
| `Views.HasObjectPermission` | freelance_birge/freelance/views.py:20-21 | The object check holds exactly when the caller is authenticated as the Executor's user; an anonymous caller never passes |
| `Views.ExecutorUpdateQueryset` | freelance_birge/freelance/views.py:44-50 | Anonymous callers get PermissionDenied and only they fail; otherwise the candidates are exactly the Executors that pass the object check, so no other user's record is ever a candidate |
| `Views.FindExecutor` | freelance_birge/freelance/views.py:38-50 | The looked-up object is a candidate with the requested key, and none is returned only when no candidate has it |
| `Views.UpdateExecutorAccess` | freelance_birge/freelance/views.py:38-50 | An anonymous update is PermissionDenied; an update of a record the caller does not own is NotFound; it succeeds iff the caller owns an Executor with that key, and then only that row takes the new values |
| `Models.Lookup` | freelance_birge/freelance/models.py:18-26 | A choice table yields no label iff it does not list the code, and any label it yields is listed with that code |
| `Models.Display` | freelance_birge/freelance/models.py:35 | The display text is the code itself when unlisted and a label listed with the code otherwise |
| `Models.LookupListed` | freelance_birge/freelance/models.py:18-26 | In a table without repeated codes each listed code is looked up to its own label |
| `Models.CategoryTables` | freelance_birge/freelance/models.py:51-59 | `ORDER_TYPES` equals `SERVICE_TYPES`; it has seven distinct codes, each the code of a category, and each category's code displays as that category's label |
| `Models.SeverityTable` | freelance_birge/freelance/models.py:107-111 | `SEVERITIES` has three distinct codes, each the code of a severity, looked up to its label |
| `Models.RatingTable` | freelance_birge/freelance/models.py:127-133 | `RATING_FILLED` has five distinct codes; each rating is labelled by its star count in 1..5, and its display text is its own code |
| `Models.CategoryFromCode` | freelance_birge/freelance/models.py:18-32 | A stored code denotes the one category whose code it is, and nothing when no category has it |
| `Models.SeverityFromCode` | freelance_birge/freelance/models.py:107-115 | A stored code denotes the one severity whose code it is |
| `Models.RatingFromCode` | freelance_birge/freelance/models.py:127-135 | A stored code denotes the one rating whose code it is |
| `Models.NewService` | freelance_birge/freelance/models.py:28-32 | A new Service keeps the given fields and its `service_type` defaults to code "1" |
| `Models.NewOrder` | freelance_birge/freelance/models.py:61-65 | A new Order keeps the given fields and its `service_type` defaults to code "1" |
| `Models.NewMessage` | freelance_birge/freelance/models.py:97-101 | A Message created without `is_edited` is not edited; a given `is_edited` is kept |
| `Models.NewTicket` | freelance_birge/freelance/models.py:113-118 | A Ticket created without `is_resolved` is unresolved and one created without a severity has code "1"; given values are kept |
| `Models.NewReview` | freelance_birge/freelance/models.py:135-136 | A new Review's rating defaults to code "1" |
| `Models.IntRoundTrip` | freelance_birge/freelance/models.py:35 | The text an integer price is formatted as reads back as that price |
| `Models.ServiceStrReadsBack` | freelance_birge/freelance/models.py:34-35 | A Service's text starts "<name>, <category label>, price: " and the rest reads back as its price |
| `Models.OrderStrReadsBack` | freelance_birge/freelance/models.py:67-68 | An Order's text starts "<name>, <category label>, price: " and the rest reads back as its price |
| `Cascade.OrdersOf` | freelance_birge/freelance/models.py:61 | The keys collected for a customer are exactly the keys of that customer's Orders |
| `Cascade.ServicesOf` | freelance_birge/freelance/models.py:28 | The keys collected for an executor are exactly the keys of that executor's Services |
| `Cascade.DeleteOrdersIntegrity` | freelance_birge/freelance/models.py:75-85 | Deleting Orders with their Tags and Orderings keeps every foreign key valid and removes exactly those Order keys |
| `Cascade.DeleteServicesIntegrity` | freelance_birge/freelance/models.py:74-84 | Deleting Services with their Tags and Orderings keeps every foreign key valid and removes exactly those Service keys |
| `Cascade.DeleteCustomerIntegrity` | freelance_birge/freelance/models.py:61-145 | After deleting a Customer every remaining non-null foreign key refers to an existing row, and only that Customer's key is gone |
| `Cascade.DeleteExecutorIntegrity` | freelance_birge/freelance/models.py:28-145 | After deleting an Executor every remaining non-null foreign key refers to an existing row, and only that Executor's key is gone |
| `Cascade.DeleteReviewIntegrity` | freelance_birge/freelance/models.py:142 | Deleting a Review with its Authorings keeps every foreign key valid and removes only that Review's key |
| `Cascade.DeleteCustomerRemoves` | freelance_birge/freelance/models.py:61-144 | Deleting a Customer removes exactly it, its Orders, their Tags, the Orderings naming it or its Orders, and its Messages, Tickets and Authorings; Executors, Services and Reviews are untouched |
| `Cascade.DeleteExecutorRemoves` | freelance_birge/freelance/models.py:28-145 | Deleting an Executor removes exactly it, its Services, their Tags, the Orderings naming it or its Services, and its Messages, Tickets and Authorings; Customers, Orders and Reviews are untouched |
| `Cascade.DeleteOrdersRemoves` | freelance_birge/freelance/models.py:75-85 | Deleting Orders removes exactly those Orders, the Tags naming one of them and the Orderings naming one of them; the other seven tables are unchanged |
| `Cascade.DeleteServicesRemoves` | freelance_birge/freelance/models.py:74-84 | Deleting Services removes exactly those Services, the Tags naming one of them and the Orderings naming one of them; the other seven tables are unchanged |
| `Cascade.DeleteReviewRemoves` | freelance_birge/freelance/models.py:142 | Deleting a Review removes exactly it and the Authorings naming it; the other eight tables are unchanged |
| `Cascade.DeleteKeepsUniqueKeys` | freelance_birge/freelance/models.py:5-145 | Primary keys stay unique after every cascading delete: of Orders, of Services, of a Customer, of an Executor and of a Review |

## Left out

- `Logout` (views.py:10-14): its only act is deleting an authentication token held outside the store.
- The generic list, retrieve, create and update views carry no logic of their own. This includes the serializers they name, which are not part of this model.
- The `permission_class` attributes (singular) on the other views are never read by the framework, so they have no effect. `CustomerUpdateView`'s framework-provided authenticated-or-read-only class is not modelled either.
- Users and authentication: users are opaque ids. Deleting a User, which would cascade through Executors, Customers and Authorings, is outside the store.
- Rows nothing refers to (Tags, Orderings, Messages, Tickets, Authorings) are deleted without a cascade, so those deletes are not modelled.
- Parsing query text into integers and dates, and a parse failure, are not modelled. The typed value is given with the raw text.
- HTTP status codes and JSON serialisation are not modelled. This includes how the Message serializer would render Orders.
- Automatic timestamps (`auto_now_add`): times are given integers.
- Field lengths (`max_length`) and the framework's validation errors are not modelled.
- Codes outside a choice table, which the ORM can store without validation, are not modelled: the category, severity and rating are closed enumerations, and the `FromCode` functions answer nothing for any other code.
- The `__str__` texts of Executor, Customer, Ordering, Ticket and Authoring are not modelled. They render users and datetimes, whose text comes from the framework.
- `ListingIsSelection`: row order without an `ORDER BY` is the database's choice. The model takes the table's natural order as the order of its sequence.
- `UpdateExecutor`: the update serializer's field list is not part of this model. An update rewrites every non-key column, which is the user and the phone.

## Findings

| source | as written | input that shows it | evidently intended | confidence | as-written member | corrected member |
|---|---|---|---|---|---|---|
| freelance_birge/freelance/views.py:273 | `MessageListView.get_queryset` filters `Order.objects.all()`; `executor`, `msg_date` are not Order fields, so any `executor`, `from_date` or `to_date` parameter makes the query fail, and `customer` returns Orders | `?executor=7` with a Message of executor 7 in the store | filter `Message.objects.all()` by executor, customer and an inclusive `msg_date` range | not executed | `Views.MessageListDefect` | `Views.MessageListIntendedMembers` |
