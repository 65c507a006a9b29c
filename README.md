# Analytics dashboard: store, mock backend and list views

A Dafny model of the core of a Next.js/Redux analytics dashboard. It covers:

- the four Redux slices that hold the application state: notifications, orders, search and dashboard;
- the in-memory mock backend that answers the API calls;
- the two list views that filter, sort and paginate what the store holds: the order table and the top-selling-products card.

Modules, one per file:

| module | file | models |
|---|---|---|
| `Common` | common.dfy | the JavaScript built-ins the code leans on: `toLowerCase`, `includes`, `trim`, `filter`, `findIndex`, and a filter by id |
| `ApiTypes` | api_types.dfy | the records the API exchanges; the unread count of a notification list; marking notifications read |
| `Sorting` | sorting.dfy | `Array.prototype.sort` with the views' `<`/`>` comparator, as the stable sort section 23.1.3 of ECMA-262 requires |
| `NotificationsSlice` | notifications.dfy | the notifications reducers and the phases of their asynchronous operations |
| `OrdersSlice` | orders.dfy | the orders reducers and the phases of their asynchronous operations |
| `SearchSlice` | search.dfy | the global search term and the bounded, duplicate-free search history |
| `DashboardSlice` | dashboard.dfy | metrics merging and the dashboard data phases |
| `MockHandlers` | mock_handlers.dfy | the backend tables, pagination, statistics, order ids and every handler that reads or changes the tables |
| `SortControl` | sort_control.dfy | the tri-state column-sort control both views share |
| `OrderTable` | order_table.dfy | the table's filter, sort, page buttons and "Showing" line |
| `TopProducts` | top_products.dfy | the product card's filter and sort |

How the model is built:

- **Slices.** Each slice's state is a class. Every reducer and every pending, fulfilled or rejected phase is a method. Its `modifies` clause names exactly the fields the source assigns. Its `ensures` gives the new value of each of those fields.
- **Counters.** Where the slice keeps counters beside a list, a predicate (`CountsAgree`, `HistoryValid`) states the invariant. The methods are proved to preserve it, or the model shows under which condition they do not.
- **Backend.** The mock backend is a class that holds the two tables. Every handler is a method, specified by pure functions: `Paginate`, `Stats`, `NewOrderId`, `Patched`, `Without`, `MarkRead`.
- **Proved properties.** Lemmas prove what those functions promise:
  - pages cover the table;
  - status counts add up;
  - ids decode back to their number;
  - updates are idempotent;
  - the sort is sorted, a permutation, stable, and the only such ordering.

Behaviour of the code that the model reproduces and states as lemmas:

- **Delete of an unknown id.** Deleting an id that no entry has leaves the list unchanged. Both slices still lower `totalCount` by one (floored at zero), because they decrement it unconditionally. The model follows the code: `OrdersSlice.State.DeleteFulfilled`, `NotificationsSlice.State.DeleteFulfilled` and `OrdersSlice.DeleteOfAbsentId`.
- **Reused order ids.** The create handler numbers a new order from the table's current length. A delete followed by a create can therefore hand out an id that is already in the table. The seed table already meets that condition (`SeedLastId`, `CreateAfterDeleteRepeatsId`).
- **Shadowed static route.** The client tries the dynamic handler first, so the paginated `GET /api/orders` branch answers every list request. The static `/api/orders` entry is never reached; `/api/orders/stats` falls through to the static statistics handler.

## Model

| member | source | states |
|---|---|---|
| Common.ToLower | components/organisms/order-table.tsx:73-76 | the lower-cased string has the same length and lowers each character in place |
| Common.ToLowerIdempotent | components/organisms/order-table.tsx:73-76 | lower-casing twice is lower-casing once |
| Common.IncludesAt | components/organisms/order-table.tsx:73-76 | a substring found at any position makes `includes` true |
| Common.IncludesWitness | components/organisms/order-table.tsx:73-76 | when `includes` holds there is a position where the substring occurs |
| Common.Strip | lib/features/search/searchSlice.ts:31 | the stripped string neither starts nor ends with a stripped character, is empty exactly when every character is stripped, and is the original with only stripped characters cut from its two ends |
| Common.StripOffset | lib/features/search/searchSlice.ts:31 | there is an offset at which the stripped string sits in the original with nothing but stripped characters before and after it |
| Common.StripIdempotent | lib/features/search/searchSlice.ts:31 | stripping twice is stripping once |
| Common.Trim | lib/features/search/searchSlice.ts:31 | `trim` removes the ECMAScript white space at both ends and nothing else: the result does not start or end with white space, is empty exactly for an all-space input, and is the input with only white space cut from its two ends |
| Common.TrimIdempotent | lib/features/search/searchSlice.ts:31 | trimming a trimmed term changes nothing |
| Common.DropLeadingFacts | lib/features/search/searchSlice.ts:31 | dropping the leading white space leaves a suffix that does not start with white space, is empty only for an all-space input, and everything dropped is white space |
| Common.DropTrailingFacts | lib/features/search/searchSlice.ts:31 | dropping the trailing white space leaves a prefix that does not end with white space, is empty only for an all-space input, and everything dropped is white space |
| Common.Filter | components/organisms/order-table.tsx:70-77 | `filter` keeps, in order, exactly the elements that pass the test, each as often as it occurs in the input, and no other |
| Common.FilterAll | components/organisms/order-table.tsx:70-77 | a filter every element passes returns the list unchanged |
| Common.FirstIndex | lib/features/orders/ordersSlice.ts:226 | `findIndex` answers -1 or the first position whose id matches; no earlier entry has the id |
| Common.FindIndex | lib/features/orders/ordersSlice.ts:226 | the left-to-right search loop returns `FirstIndex` |
| Common.FirstIndexAfterUpdate | lib/features/orders/ordersSlice.ts:226-229 | overwriting an entry with one of the same id does not move where the id is first found |
| Common.Without | lib/features/orders/ordersSlice.ts:246 | filtering out an id keeps, in order, exactly the entries with another id |
| Common.WithoutCounts | lib/features/orders/ordersSlice.ts:246 | filtering out an id keeps every entry with another id as often as it occurs, and no entry with that id |
| Common.WithoutAbsent | lib/features/orders/ordersSlice.ts:246 | filtering out an id nobody has changes nothing |
| Common.WithoutUnique | lib/features/orders/ordersSlice.ts:246 | with unique ids, filtering out a present id removes that one entry and shortens the list by one |
| Common.WithoutOnce | lib/api/mock-handlers.ts:476-480 | removing an id that occurs once shortens the table by exactly one |
| ApiTypes.UnreadIn | lib/api/mock-handlers.ts:385 | the unread count is at most the length and is zero exactly when every entry is read |
| ApiTypes.UnreadInConcat | lib/api/mock-handlers.ts:385 | the unread count of a concatenation is the sum of the parts' counts |
| ApiTypes.UnreadInSplit | lib/api/mock-handlers.ts:385 | the unread count splits around any single entry |
| ApiTypes.UnreadInUpdate | lib/features/notifications/notificationsSlice.ts:221-229 | overwriting one entry changes the unread count by that entry's contribution only |
| ApiTypes.UnreadInRemove | lib/features/notifications/notificationsSlice.ts:252-260 | removing one entry lowers the unread count by one exactly when it was unread |
| ApiTypes.MarkRead | lib/features/notifications/notificationsSlice.ts:221-229 | a marked entry is read, carries the given stamp as `updatedAt` when there is one and the old `updatedAt` otherwise, and is otherwise unchanged |
| ApiTypes.AllMarkedRead | lib/features/notifications/notificationsSlice.ts:238-246 | the sweep keeps the length, marks each entry in place and leaves nothing unread |
| ApiTypes.AllMarkedReadIdempotent | lib/features/notifications/notificationsSlice.ts:238-246 | sweeping twice is sweeping once |
| Sorting.TextLessIrreflexive | components/organisms/order-table.tsx:97-98 | no string is below itself under `<` |
| Sorting.TextLessTransitive | components/organisms/order-table.tsx:97-98 | string `<` is transitive |
| Sorting.TextLessTotal | components/organisms/order-table.tsx:97-98 | of two different strings one is below the other |
| Sorting.KeyLessStrictTotal | components/organisms/order-table.tsx:97-98 | the comparator's `<` on keys is a strict total order |
| Sorting.NotBeforeTransitive | components/organisms/order-table.tsx:97-99 | "not placed before" chains, in either direction |
| Sorting.Insert | components/organisms/order-table.tsx:80-100 | inserting adds exactly the one element |
| Sorting.StableSort | components/organisms/order-table.tsx:80-100 | the sorted list is a permutation of the input |
| Sorting.InsertSorted | components/organisms/order-table.tsx:80-100 | inserting into a sorted list keeps it sorted |
| Sorting.StableSortSorted | components/organisms/order-table.tsx:80-100 | the sort's output is ordered by the key in the chosen direction |
| Sorting.WithKeyCons | components/organisms/order-table.tsx:80-100 | the entries of one key in a list with a new head: the head, if it has that key, then the rest's |
| Sorting.WithKeyInsert | components/organisms/order-table.tsx:80-100 | insertion keeps every key's entries in their relative order |
| Sorting.StableSortStable | components/organisms/order-table.tsx:80-100 | entries with equal keys keep their input order |
| Sorting.WithKeyHas | components/organisms/order-table.tsx:80-100 | every entry is among the entries of its own key |
| Sorting.WithKeyOnly | components/organisms/order-table.tsx:80-100 | every entry listed under a key is an entry with that key |
| Sorting.SortedStableIsUnique | components/organisms/order-table.tsx:80-100 | two sorted lists that agree on every key's entries, in order, are equal |
| Sorting.StableSortIsTheSort | components/organisms/order-table.tsx:80-100 | any sorted, stable reordering of the input is the sort's result |
| Sorting.SortInPlace | components/organisms/order-table.tsx:80 | the in-place sort leaves the array holding the stable sort of its old contents |
| NotificationsSlice.MarkedAsReadEffect | lib/features/notifications/notificationsSlice.ts:176-182 | marking a present unread entry changes that entry alone, lowers the unread count by one and keeps every id; otherwise the list is unchanged |
| NotificationsSlice.MarkedAsReadIdempotent | lib/features/notifications/notificationsSlice.ts:176-182 | marking the same id twice is marking it once |
| NotificationsSlice.DeletedCounts | lib/features/notifications/notificationsSlice.ts:252-260 | removing a present id from a list with unique ids lowers the total by one and the unread count by one exactly when that entry was unread |
| NotificationsSlice.InitialCounts | lib/features/notifications/notificationsSlice.ts:90-170 | the seed list has 8 entries, 3 unread, no id twice, matching the seed counters |
| NotificationsSlice.State.constructor | lib/features/notifications/notificationsSlice.ts:90-170 | the seed list with counters 3 and 8, nothing loading, no error, not connected; the counters agree with the list |
| NotificationsSlice.State.MarkAsRead | lib/features/notifications/notificationsSlice.ts:176-182 | the first entry with the id, if unread, becomes read and the unread counter drops, floored at zero; agreeing counters stay agreeing |
| NotificationsSlice.State.MarkAllAsRead | lib/features/notifications/notificationsSlice.ts:183-186 | every entry read, unread counter zero; agreeing counters stay agreeing |
| NotificationsSlice.State.ReadEach | lib/features/notifications/notificationsSlice.ts:184 | the in-place loop marks every entry read and leaves order and length |
| NotificationsSlice.State.AddNotification | lib/features/notifications/notificationsSlice.ts:187-194 | the payload goes first, the total grows by one and the unread counter grows for an unread payload; the counters stay agreeing for a new id |
| NotificationsSlice.State.ClearError | lib/features/notifications/notificationsSlice.ts:195-197 | the error is cleared |
| NotificationsSlice.State.SetRealTimeConnection | lib/features/notifications/notificationsSlice.ts:198-200 | the connection flag takes the payload |
| NotificationsSlice.State.FetchPending | lib/features/notifications/notificationsSlice.ts:205-208 | loading starts and the error is cleared |
| NotificationsSlice.State.FetchFulfilled | lib/features/notifications/notificationsSlice.ts:209-215 | the server's list and counters are copied as they are |
| NotificationsSlice.State.FetchRejected | lib/features/notifications/notificationsSlice.ts:216-219 | loading stops and the error is recorded |
| NotificationsSlice.State.MarkAsReadFulfilled | lib/features/notifications/notificationsSlice.ts:221-229 | as `MarkAsRead`, also copying the server's `updatedAt` |
| NotificationsSlice.State.MarkAsReadRejected | lib/features/notifications/notificationsSlice.ts:230-232 | only the error is recorded |
| NotificationsSlice.State.MarkAllPending | lib/features/notifications/notificationsSlice.ts:234-237 | loading starts and the error is cleared |
| NotificationsSlice.State.MarkAllFulfilled | lib/features/notifications/notificationsSlice.ts:238-246 | every entry read and stamped, unread counter zero, loading stops; agreeing counters stay agreeing |
| NotificationsSlice.State.MarkAllRejected | lib/features/notifications/notificationsSlice.ts:247-250 | loading stops and the error is recorded |
| NotificationsSlice.State.DeleteFulfilled | lib/features/notifications/notificationsSlice.ts:252-260 | every entry with the id goes, the unread counter drops when the first such entry was unread, and the total drops (floored at zero) even for an unknown id; the counters stay agreeing when the id was present |
| NotificationsSlice.State.DeleteRejected | lib/features/notifications/notificationsSlice.ts:261-263 | only the error is recorded |
| NotificationsSlice.State.UnreadCountFulfilled | lib/features/notifications/notificationsSlice.ts:265-267 | the server's count replaces the counter |
| NotificationsSlice.State.SubscribeFulfilled | lib/features/notifications/notificationsSlice.ts:269-272 | the connection flag is set |
| NotificationsSlice.State.SubscribeRejected | lib/features/notifications/notificationsSlice.ts:273-277 | the connection flag is cleared and the error recorded |
| NotificationsSlice.UniqueAfterRewrite | lib/features/notifications/notificationsSlice.ts:176-182 | rewriting entries in place without changing ids keeps ids unique |
| NotificationsSlice.UniqueAfterPrepend | lib/features/notifications/notificationsSlice.ts:187-188 | putting an entry with a new id first keeps ids unique |
| NotificationsSlice.UniqueAfterRemove | lib/features/notifications/notificationsSlice.ts:257 | removing one entry keeps ids unique |
| OrdersSlice.ReplacedEffect | lib/features/orders/ordersSlice.ts:224-234 | the first order with the payload's id, and only it, becomes the payload; every id stays; an unknown id changes nothing |
| OrdersSlice.ReplacedIdempotent | lib/features/orders/ordersSlice.ts:224-234 | replacing twice with the same payload is replacing once |
| OrdersSlice.SelectedAfterUpdate | lib/features/orders/ordersSlice.ts:230-232 | an update neither selects nor clears anything and keeps whether the selection has the payload's id; a selection with that id becomes the payload, any other stays |
| OrdersSlice.SelectedAfterDelete | lib/features/orders/ordersSlice.ts:248-250 | a selection with the deleted id is cleared, any other stays, and no selection with that id remains |
| OrdersSlice.InitialOrders | lib/features/orders/ordersSlice.ts:104-159 | the store starts with five orders, no id twice |
| OrdersSlice.State.constructor | lib/features/orders/ordersSlice.ts:104-159 | five seed orders on page 1 of 5, total count 0, nothing loading, selected or fetched |
| OrdersSlice.State.SetLoading | lib/features/orders/ordersSlice.ts:165-167 | the loading flag takes the payload |
| OrdersSlice.State.SetCurrentPage | lib/features/orders/ordersSlice.ts:168-170 | the current page takes the payload |
| OrdersSlice.State.ClearError | lib/features/orders/ordersSlice.ts:171-173 | the error is cleared |
| OrdersSlice.State.SetSelectedOrder | lib/features/orders/ordersSlice.ts:174-176 | the selection takes the payload |
| OrdersSlice.State.Pending | lib/features/orders/ordersSlice.ts:181-184 | loading starts and the error is cleared |
| OrdersSlice.State.Rejected | lib/features/orders/ordersSlice.ts:193-196 | loading stops and the error is recorded; data untouched |
| OrdersSlice.State.RejectedQuietly | lib/features/orders/ordersSlice.ts:201-203 | only the error is recorded; loading untouched |
| OrdersSlice.State.FetchOrdersFulfilled | lib/features/orders/ordersSlice.ts:185-192 | the page and its three counters replace the old ones |
| OrdersSlice.State.FetchOrderFulfilled | lib/features/orders/ordersSlice.ts:198-200 | only the selection changes |
| OrdersSlice.State.CreateFulfilled | lib/features/orders/ordersSlice.ts:209-214 | the new order goes first ahead of the old ones and the total grows by one |
| OrdersSlice.State.ApplyUpdate | lib/features/orders/ordersSlice.ts:226-232 | the list and the selection after replacing the first order with the payload's id |
| OrdersSlice.State.UpdateFulfilled | lib/features/orders/ordersSlice.ts:224-234 | loading stops; the first order with the payload's id and a selection with it become the payload |
| OrdersSlice.State.UpdateStatusFulfilled | lib/features/orders/ordersSlice.ts:258-267 | as the update, with loading untouched |
| OrdersSlice.State.DeleteFulfilled | lib/features/orders/ordersSlice.ts:244-252 | every order with the id goes, the total drops by one (floored at zero) even for an unknown id, and a selection with the id is cleared |
| OrdersSlice.State.StatsFulfilled | lib/features/orders/ordersSlice.ts:272-275 | only the statistics change |
| OrdersSlice.DeleteOfAbsentId | lib/features/orders/ordersSlice.ts:244-252 | deleting an unknown id leaves the list as it was but still lowers a total that matched it, so the counter falls out of step |
| SearchSlice.AfterAddShape | lib/features/search/searchSlice.ts:30-39 | an empty or known trimmed term changes nothing; a new one goes first, followed by the old entries, of which only the oldest is dropped from a full list |
| SearchSlice.AfterAddBounded | lib/features/search/searchSlice.ts:35-37 | the history never grows past ten and never shrinks |
| SearchSlice.AfterAddNoDuplicates | lib/features/search/searchSlice.ts:32 | a history without repeats stays without them |
| SearchSlice.AfterAddTwice | lib/features/search/searchSlice.ts:30-39 | adding the same term twice is adding it once |
| SearchSlice.AfterAddTrimmed | lib/features/search/searchSlice.ts:31-33 | every stored term is non-empty and trimmed |
| SearchSlice.State.constructor | lib/features/search/searchSlice.ts:10-15 | empty term, results and history, not searching; the history invariant holds |
| SearchSlice.State.SetGlobalSearchTerm | lib/features/search/searchSlice.ts:21-23 | the term is stored as typed |
| SearchSlice.State.SetSearchResults | lib/features/search/searchSlice.ts:24-26 | the results take the payload |
| SearchSlice.State.SetIsSearching | lib/features/search/searchSlice.ts:27-29 | the flag takes the payload |
| SearchSlice.State.AddToSearchHistory | lib/features/search/searchSlice.ts:30-39 | the history becomes `AfterAdd` of the old one, and at most ten entries without repeats stays so |
| SearchSlice.State.ClearSearchHistory | lib/features/search/searchSlice.ts:40-42 | only the history is emptied |
| SearchSlice.State.ClearSearch | lib/features/search/searchSlice.ts:43-47 | term, results and flag are reset; the history stays |
| DashboardSlice.Merged | lib/features/dashboard/dashboardSlice.ts:90-92 | every key the patch holds takes the patch's value, and every key it leaves out keeps its old value |
| DashboardSlice.MergedLaws | lib/features/dashboard/dashboardSlice.ts:90-92 | an empty patch changes nothing, a full patch replaces the metrics, a patch applied twice acts once, and two patches act as their combination |
| DashboardSlice.InitialData | lib/features/dashboard/dashboardSlice.ts:50-81 | the seed has six chart months, five top products and four locations, and no seed product has a price |
| DashboardSlice.State.constructor | lib/features/dashboard/dashboardSlice.ts:50-81 | the seed metrics, chart, products and locations; not loading, no error, never updated |
| DashboardSlice.State.SetLoading | lib/features/dashboard/dashboardSlice.ts:87-89 | the loading flag takes the payload |
| DashboardSlice.State.UpdateMetrics | lib/features/dashboard/dashboardSlice.ts:90-92 | the metrics become the old ones merged with the patch |
| DashboardSlice.State.ClearError | lib/features/dashboard/dashboardSlice.ts:93-95 | the error is cleared |
| DashboardSlice.State.Pending | lib/features/dashboard/dashboardSlice.ts:100-103 | loading starts and the error is cleared |
| DashboardSlice.State.DataFulfilled | lib/features/dashboard/dashboardSlice.ts:104-112 | the four data fields are replaced and the update time recorded |
| DashboardSlice.State.MetricsFulfilled | lib/features/dashboard/dashboardSlice.ts:123-127 | only the metrics and the update time change |
| DashboardSlice.State.Rejected | lib/features/dashboard/dashboardSlice.ts:113-117 | loading stops and the error is recorded |
| MockHandlers.JsSlice | lib/api/mock-handlers.ts:418 | `slice` is never longer than the list; from a non-negative start it is the subrange clamped to the list; a negative index counts back from the end; an end not after the start gives nothing |
| MockHandlers.CeilDiv | lib/api/mock-handlers.ts:425 | the page count is the fewest pages that hold every order |
| MockHandlers.MulMonotone | lib/api/mock-handlers.ts:416 | multiplying by a page size keeps order |
| MockHandlers.SliceWindow | lib/api/mock-handlers.ts:416-418 | the window is at most a page long, the plain subrange from a non-negative start, non-empty inside the table and empty past its end |
| MockHandlers.PaginateBounds | lib/api/mock-handlers.ts:411-429 | a page holds at most `limit` orders, reports the table length, the page asked for and the page count, and is the window `(page-1)*limit..` of the table |
| MockHandlers.PaginateEdges | lib/api/mock-handlers.ts:411-429 | every page from 1 to the page count holds orders; every later page is empty |
| MockHandlers.PageStart | lib/api/mock-handlers.ts:416 | a page within the page count starts inside the table; one past it starts at or after the end |
| MockHandlers.PagesUpToPrefix | lib/api/mock-handlers.ts:411-429 | pages 1 to `k` together are the table's first `k*limit` orders |
| MockHandlers.PrefixThenWindow | lib/api/mock-handlers.ts:418 | a prefix followed by the next window is a longer prefix |
| MockHandlers.AllPagesAreTheTable | lib/api/mock-handlers.ts:411-429 | all pages from 1 to the page count, one after the other, are exactly the table |
| MockHandlers.StatsAddUp | lib/api/mock-handlers.ts:369-381 | the total is the table's length and the three status counts add up to it |
| MockHandlers.Decimal | lib/api/mock-handlers.ts:453 | `String(n)` is a non-empty string of digits without a leading zero |
| MockHandlers.DecimalRoundTrip | lib/api/mock-handlers.ts:453 | reading the digits back gives the number |
| MockHandlers.DecimalValueLeadingZeros | lib/api/mock-handlers.ts:453 | leading zeros do not change the value |
| MockHandlers.PadStart | lib/api/mock-handlers.ts:453 | `padStart` fills with zeros on the left up to the width and never cuts |
| MockHandlers.NewOrderIdValue | lib/api/mock-handlers.ts:453 | a new id is "ORD" followed by digits whose value is the table length plus one |
| MockHandlers.NewOrderIdInjective | lib/api/mock-handlers.ts:453 | different table lengths give different ids |
| MockHandlers.SeedLastId | lib/api/mock-handlers.ts:61-286 | the seed holds 25 orders and its last one already carries the id a create gives at length 24 |
| MockHandlers.SeedNotificationCounts | lib/api/mock-handlers.ts:289-335 | the seed notifications are five, three of them unread, no id twice |
| MockHandlers.CreateAfterDeleteRepeatsId | lib/api/mock-handlers.ts:451-480 | after deleting any other order whose id occurs once, the next create id is already in the table |
| MockHandlers.Patched | lib/api/mock-handlers.ts:470 | the spread keeps the id and the date; each of customer, location, member, status and amount takes the body's value when the body has it and keeps the order's otherwise |
| MockHandlers.PatchedIdempotent | lib/api/mock-handlers.ts:470 | applying the same body twice is applying it once |
| MockHandlers.Backend.constructor | lib/api/mock-handlers.ts:337-338 | the tables start as the seed lists |
| MockHandlers.Backend.GetOrders | lib/api/mock-handlers.ts:411-429 | the answer is `Paginate` of the table |
| MockHandlers.Backend.GetStats | lib/api/mock-handlers.ts:369-381 | the statistics of the table, whose status counts add up to its length |
| MockHandlers.Backend.GetNotifications | lib/api/mock-handlers.ts:382-389 | the whole list with its true unread count and length |
| MockHandlers.Backend.GetUnreadCount | lib/api/mock-handlers.ts:390-395 | the number of unread entries |
| MockHandlers.Backend.GetOrder | lib/api/mock-handlers.ts:432-437 | an answer exactly when an order has the id, and then the first such order |
| MockHandlers.Backend.UpdateOrderStatus | lib/api/mock-handlers.ts:440-448 | only for a known id and a body with a status does that order's status change; otherwise nothing changes and there is no answer |
| MockHandlers.Backend.CreateOrder | lib/api/mock-handlers.ts:451-463 | a pending order dated "Just now" with the next id goes first |
| MockHandlers.Backend.UpdateOrder | lib/api/mock-handlers.ts:466-473 | the first order with the id takes the body's keys; an unknown id changes nothing and has no answer |
| MockHandlers.Backend.DeleteOrder | lib/api/mock-handlers.ts:476-480 | every order with the id goes and the answer is success regardless |
| MockHandlers.Backend.MarkNotificationRead | lib/api/mock-handlers.ts:483-495 | the first entry with the id is marked read and stamped; an unknown id changes nothing and has no answer |
| MockHandlers.Backend.DeleteNotification | lib/api/mock-handlers.ts:498-503 | every entry with the id goes and the answer is success regardless |
| MockHandlers.Backend.ReadAll | lib/api/mock-handlers.ts:396-406 | answers the number of entries that were unread, then every entry is read and stamped |
| MockHandlers.CountUnread | lib/api/mock-handlers.ts:385 | the counting loop returns the number of unread entries |
| SortControl.NextDirectionCycle | components/organisms/order-table.tsx:55 | asc, desc and none form one cycle of length three |
| SortControl.AfterSortLaws | components/organisms/order-table.tsx:53-60 | a click leaves its field selected; another field starts ascending; the same field steps the direction; three clicks restore the state; the sort is active on two clicks of every three |
| SortControl.Control.constructor | components/organisms/order-table.tsx:21-22 | no field and no direction, so nothing is sorted |
| SortControl.Control.HandleSort | components/organisms/top-selling-products.tsx:19-26 | the state becomes `AfterSort` of the old one |
| OrderTable.GlobalTermWins | components/organisms/order-table.tsx:25 | a non-empty global term fixes the view whatever the local box holds; otherwise the local term acts as the global one would |
| OrderTable.FilterOrdersSpec | components/organisms/order-table.tsx:70-77 | the filtered orders are an ordered subsequence holding exactly those whose customer, id, location or member contains the term, case aside, each as often as in the table; an empty term keeps all |
| OrderTable.OrderViewSpec | components/organisms/order-table.tsx:69-104 | without an active sort the view is the filtered list; with one it is a permutation of it, ordered by the column and direction, with equal keys kept in filtered order |
| OrderTable.SortedAndFilteredOrders | components/organisms/order-table.tsx:69-104 | filtering into a fresh array and sorting it in place yields `OrderView` |
| OrderTable.TargetsInRange | components/organisms/order-table.tsx:116-147 | from a valid page the previous and next targets stay in range, move by at most one, and move exactly when their button is enabled |
| OrderTable.PageButtons | components/organisms/order-table.tsx:124-138 | the numbered buttons are 1, 2, ... up to the smaller of the page count and five |
| OrderTable.ShowingMatchesPage | components/organisms/order-table.tsx:347 | for a page the backend has, the "Showing" line names exactly the rows of the page it returns |
| TopProducts.FilterProductsSpec | components/organisms/top-selling-products.tsx:36-43 | an empty term keeps every product; otherwise exactly the products whose name contains the term, case aside, in order and each as often as in the list |
| TopProducts.ProductViewSpec | components/organisms/top-selling-products.tsx:35-66 | without an active sort the list is the filtered one; with one it is a sorted, stable permutation of it |
| TopProducts.PriceSortWithoutPrices | components/organisms/top-selling-products.tsx:46-63 | when no product has a price, as in the seed data, sorting by price keeps the filtered order |

## Left out

- Asynchronous plumbing is left out: the thunks, `fetch`, `rejectWithValue` and the API client. Each phase is a method that takes the payload it would receive. Console logging is dropped.
- The clock and randomness are parameters. `new Date().toISOString()` is the `now` argument. The read-all sweeps take one timestamp for every entry, and `createdAt`/`updatedAt` of a seed entry are the same `now`.
- URL routing (`url.match`, `startsWith`, `new URL`, `parseInt` of the query) is left out. Each handler receives its already-parsed parameters.
- The dashboard handlers that return `mockDashboardData` or randomised metrics are left out (`Math.random`). So are the dashboard thunks' network calls.
- `toLowerCase` lowers ASCII letters only, and `trim` uses the ECMAScript white space and line terminator set. Full Unicode case mapping is not modelled.
- JavaScript numbers are `real`. Float rounding, `NaN` and the floating-point sum in `totalRevenue` are not modelled.
- Sorting the date column uses `new Date(date).getTime()`. It is not modelled: the column is compared through an abstract `dateKey`. When that yields `NaN` for the seed's relative dates ("2 weeks ago"), the JavaScript comparator is inconsistent; that case is not modelled.
- A price column that mixes products with and without a price is not modelled faithfully: `Number(undefined)` is `NaN`, and the comparator is then inconsistent. The model ranks the missing price lowest. A column in which every product lacks a price is modelled exactly (`PriceSortWithoutPrices`).
- MockHandlers.Backend.GetOrders: requires a limit of at least 1. A zero or negative `limit` from the query string is not modelled (JavaScript would divide by zero or slice backwards).
- The static `/api/orders` handler is not modelled separately: the paginated dynamic branch always answers first.
- Aliasing is not modelled; the tables and slice lists are values. Two consequences are not captured:
  - The read-all handler mutates the objects shared with the seed array.
  - immer's draft mechanics are not represented.
- Sorting.TextLess: compares strings character by character by code point. JavaScript's `<` compares UTF-16 code units, so strings holding characters above U+FFFF can sort differently.
- MockHandlers.Patched: copies only the keys an `UpdateOrderRequest` declares. Extra keys a caller might put in the body are not modelled.
- OrderTable.OrderViewSpec: does not itself state that the view is the only sorted stable permutation. That uniqueness is `Sorting.StableSortIsTheSort`.
- The unit tests under `__tests__/lib/features` expect some initial lists to be empty; the model follows the initial states the slices themselves declare.
- Rendering, styling, icons and the other components are not part of this model.
