# Expense API route logic

A model of the decision logic inside the route handlers of a small
expense-tracking REST API (`worker/user-routes.ts`). The handlers sit on top
of an HTTP framework and an entity store; the model lifts the pure decisions
out of them and states them as functions over an in-memory store:

- fetching a user or an expense by id (`GET /api/users/:id`, `GET /api/expenses/:id`),
  a lookup in a `map` that answers not-found for an absent id;
- listing expenses (`GET /api/expenses`): admins and managers see every
  expense, other callers with a non-empty `userId` see only that user's
  expenses, anyone else gets a bad request; every listing is sorted by date,
  newest first;
- creating an expense (`POST /api/expenses`): the body is refused when any of
  `userId`, `merchant`, `amount`, `date`, `category` is JavaScript-falsy
  (absent, `""` or `0`); otherwise a record is built with `currency`
  defaulting to `"USD"`, `description` to `""`, `status` set to `"pending"`,
  an empty `history` and the id `"exp-"` followed by a fresh token, and it is
  persisted.

Files:

- `wrappers.dfy`: `Option`, for absent JSON fields and query parameters.
- `expense_model.dfy`: `Expense`, `User`, the `Response` envelope
  (Ok / BadRequest / NotFound / Internal with status 200 / 400 / 404 / 500),
  the store as `map<string, T>`, and `ListsStore`, which relates the entity
  store's listing (a sequence) to the map.
- `date_order.dfy`: the newest-first order the listing sorts into, an
  insertion sort into it, and the fact that any two newest-first orderings of
  the same records show the same dates in the same order.
- `user_routes.dfy`: the handlers `GetUser`, `GetExpense`, `ListExpenses`,
  `NewExpense` and `CreateExpense`.
- `route_properties.dfy`: properties that relate several calls, or a
  handler to an independent description of who may see what (`Visible`).

Inputs that the running system draws from its environment are parameters:
the random UUID is `token`, whether the entity store's `create` succeeds is
the boolean `persisted`, and the entity store's `list` result is the
sequence `all` / `items`.

## Model

| member | source | states |
|---|---|---|
| `UserRoutes.Fetch` | worker/user-routes.ts:45-52 | a lookup succeeds exactly when the id is stored, returns the stored record unchanged, and otherwise answers not-found with the given message |
| `UserRoutes.GetUser` | worker/user-routes.ts:20-28 | an absent user id gives not-found "User not found"; a present one gives the stored user, whose id is the requested one when users are stored under their ids |
| `UserRoutes.GetExpense` | worker/user-routes.ts:45-53 | an absent expense id gives not-found "Expense not found"; a present one gives the stored expense, whose id is the requested one when the store is well keyed |
| `UserRoutes.OwnedBy` | worker/user-routes.ts:40 | the filtered listing holds every expense of the owner exactly as often as the input does and nothing owned by anyone else |
| `UserRoutes.ListExpenses` | worker/user-routes.ts:30-44 | the listing succeeds exactly when the role is admin or manager or the userId is non-empty, and otherwise is the bad request with its message; privileged callers get a permutation of all expenses, others exactly the expenses owned by userId; every successful result is newest first |
| `DateOrder.Insert` | worker/user-routes.ts:36 | inserting into a newest-first sequence keeps it newest first and adds exactly the one record |
| `DateOrder.SortNewestFirst` | worker/user-routes.ts:36 | the sort's result is newest first and a permutation of its input |
| `DateOrder.SortKeepsSorted` | worker/user-routes.ts:36 | sorting a sequence already newest first leaves it unchanged |
| `DateOrder.SortedPermutationsAgreeOnDates` | worker/user-routes.ts:36 | any two newest-first orderings of the same records list the same dates in the same order, so the comparator determines the result up to ties |
| `UserRoutes.OrDefault` | worker/user-routes.ts:65-67 | the `\|\|` fallback yields a non-empty string exactly when the given value is truthy or the default is non-empty, so a non-empty default can never be lost |
| `RouteProperties.CreatedCurrencyNeverEmpty` | worker/user-routes.ts:65 | every created expense names a currency: a missing or empty one becomes "USD" |
| `UserRoutes.NewExpense` | worker/user-routes.ts:60-71 | the built record copies userId, merchant, amount, date and category, takes currency if truthy else "USD", description if truthy else "", has status "pending", empty history and id "exp-" + token |
| `UserRoutes.CreateExpense` | worker/user-routes.ts:54-79 | creation is a bad request exactly when a required field is falsy, an internal error exactly when the body is valid and persistence fails, leaves the store unchanged in both cases, and on success returns the built record and adds exactly that record under its id, leaving every other entry alone |
| `RouteProperties.ListingIsVisibleExpenses` | worker/user-routes.ts:34-41 | a record is in a successful listing exactly when it is stored and the caller may see it (privileged role, or owner named by a non-empty userId) |
| `RouteProperties.PrivilegedIgnoresUserId` | worker/user-routes.ts:34-36 | admins and managers get the same listing whatever userId they pass |
| `RouteProperties.OwnerViewWithinFullView` | worker/user-routes.ts:34-41 | an employee's listing is contained, with multiplicity, in a manager's listing of the same store |
| `RouteProperties.OwnedByRespectsPermutation` | worker/user-routes.ts:40 | filtering two orderings of the same stored records by owner keeps the same records |
| `RouteProperties.ListingDatesIgnoreStoreOrder` | worker/user-routes.ts:33-41 | when two listings of the same stored records in different orders both succeed, they show the same dates in the same order |
| `RouteProperties.PrivilegedListingOfSortedStore` | worker/user-routes.ts:34-36 | a privileged listing of a store already newest first returns it as it is |
| `RouteProperties.ZeroAmountRejected` | worker/user-routes.ts:57-58 | an amount of 0 is refused as missing and nothing is stored |
| `RouteProperties.ZeroDateRejected` | worker/user-routes.ts:57-58 | a date of 0 is refused as missing and nothing is stored |
| `RouteProperties.TokenOf` | worker/user-routes.ts:61 | an id of the "exp-" form is exactly the prefix followed by the token it yields |
| `RouteProperties.CreatedIdRoundTrip` | worker/user-routes.ts:61 | the token is recovered from the generated id, so distinct tokens give distinct ids |
| `RouteProperties.ClientCannotSetIdOrStatus` | worker/user-routes.ts:60-71 | an id or status sent in the body has no effect: the record is "pending" with the generated id |
| `RouteProperties.CreatePreservesWellKeyed` | worker/user-routes.ts:73-74 | creation keeps every expense stored under its own id |
| `RouteProperties.CreateGrowsStoreByOne` | worker/user-routes.ts:73-74 | with a fresh token, a successful creation grows the store by exactly one record |
| `RouteProperties.CreatedExpenseCanBeFetched` | worker/user-routes.ts:45-53 | fetching the new id after a successful creation returns the created record |
| `RouteProperties.StoredIsListed` | worker/user-routes.ts:33 | a record stored under its own id is in every listing of the store |
| `RouteProperties.GetUserStatus` | worker/user-routes.ts:23-27 | fetching a user answers 404 exactly when the id is absent and 200 otherwise |
| `RouteProperties.GetExpenseStatus` | worker/user-routes.ts:48-52 | fetching an expense answers 404 exactly when the id is absent and 200 otherwise |
| `RouteProperties.ListExpensesStatus` | worker/user-routes.ts:34-43 | listing answers 400 exactly when there is neither an admin/manager role nor a non-empty userId, and 200 otherwise |
| `RouteProperties.CreateExpenseStatus` | worker/user-routes.ts:57-77 | creation answers 400 for a falsy required field, 500 when persisting a valid record fails, and 200 otherwise |
| `RouteProperties.CreatedExpenseIsListed` | worker/user-routes.ts:30-79 | after a successful creation the record is in its owner's and in a manager's listing of the new store, and in no other employee's listing |

## Left out

- Routing, middleware chaining and JSON request parsing (worker/user-routes.ts:1-8, 55): framework plumbing; a parsed body is the `ExpenseBody` datatype.
- The seeding middleware (worker/user-routes.ts:8-14): it awaits concurrent `ensureSeed` calls whose effect lives in the entity store, which is not part of this model.
- `GET /api/users` (worker/user-routes.ts:16-19): it returns the entity store's listing as it is, with no decision of its own.
- The entity store (`list`, `create`, `exists`, `getState`, `ensureSeed`): foreign code, modelled as a `map` from id to record, with `list` as any sequence related to the map by `ListsStore`; pagination is not modelled.
- The random UUID: a `token` parameter. Uniqueness of tokens is an assumption of `CreateGrowsStoreByOne`, not something the model generates.
- Persistence failure: the boolean `persisted` decides it; the logged error is I/O and is not modelled.
- The helpers `ok`, `bad` and `notFound` are not part of this model; the status codes 200, 400 and 404 are their conventional meaning, and 500 is written in the handler itself.
- UserRoutes.ListExpenses: the sort is not claimed to be stable, only newest first and a permutation; dates and amounts are integers, so floating-point comparison (and `NaN`) is not modelled.
- UserRoutes.CreateExpense: the success response carries the record the handler built, which assumes the entity store's `create` returns the record it was given; and a failed `create` is taken to leave the store unchanged, so a store that writes and then throws (a partial write) is not modelled.
- UserRoutes.CreateExpense: JavaScript falsiness is modelled for strings (absent or `""`) and numbers (absent or `0`) only; values of another JSON type in a field (`false`, `null`, a number where a string is expected) are not representable.
- The shapes of `User` and of history entries come from shared type definitions that are not part of this model; they carry only illustrative fields.
