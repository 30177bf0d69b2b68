/**
 The decision logic of the user and expense routes: fetch by id, the
 role-dependent expense listing, and expense creation with its validation and
 defaults. Each handler is a pure function of its request and the store.
 */
module UserRoutes {
  import opened Wrappers
  import opened ExpenseModel
  import opened DateOrder

  const UserNotFound: string := "User not found"
  const ExpenseNotFound: string := "Expense not found"
  const ListingNeedsFilter: string := "A userId or admin/manager role is required to fetch expenses."
  const MissingFields: string := "Missing required expense fields."
  const CreateFailed: string := "Failed to create expense"

  const IdPrefix: string := "exp-"
  const DefaultCurrency: string := "USD"
  const DefaultDescription: string := ""
  const PendingStatus: string := "pending"

  // ---------------------------------------------------------------------------
  // JavaScript truthiness of the request values the handlers test with `!x` / `if (x)`

  /** A string value is truthy when present and non-empty. */
  predicate TruthyStr(v: Option<string>)
  {
    v.Some? && v.value != ""
  }

  /** A numeric value is truthy when present and non-zero. */
  predicate TruthyNum(v: Option<int>)
  {
    v.Some? && v.value != 0
  }

  // ---------------------------------------------------------------------------
  // Fetch by id

  /** Looks `id` up in `store`; an absent id is reported with `message`. */
  function Fetch<T>(store: Store<T>, id: string, message: string): (r: Response<T>)
    ensures r.Ok? <==> id in store
    ensures r.Ok? ==> r.data == store[id]
    ensures !r.Ok? ==> r == NotFound(message)
  {
    if id in store then Ok(store[id]) else NotFound(message)
  }

  /** `GET /api/users/:id`. */
  function GetUser(users: Store<User>, id: string): (r: Response<User>)
    ensures id !in users <==> r == NotFound(UserNotFound)
    ensures id in users ==> r == Ok(users[id])
    ensures UsersWellKeyed(users) && r.Ok? ==> r.data.id == id
  {
    Fetch(users, id, UserNotFound)
  }

  /** `GET /api/expenses/:id`. */
  function GetExpense(store: Store<Expense>, id: string): (r: Response<Expense>)
    ensures id !in store <==> r == NotFound(ExpenseNotFound)
    ensures id in store ==> r == Ok(store[id])
    ensures WellKeyed(store) && r.Ok? ==> r.data.id == id
  {
    Fetch(store, id, ExpenseNotFound)
  }

  // ---------------------------------------------------------------------------
  // Listing

  /** Admins and managers may see every expense. */
  predicate IsPrivileged(role: Option<string>)
  {
    role == Some("admin") || role == Some("manager")
  }

  /** The expenses of `all` owned by `owner`. */
  function OwnedBy(all: seq<Expense>, owner: string): (r: seq<Expense>)
    ensures forall e :: multiset(r)[e] == (if e.userId == owner then multiset(all)[e] else 0)
    ensures forall i :: 0 <= i < |r| ==> r[i].userId == owner
  {
    if |all| == 0 then []
    else
      assert all == [all[0]] + all[1..];
      var rest := OwnedBy(all[1..], owner);
      if all[0].userId == owner then [all[0]] + rest else rest
  }

  /** `GET /api/expenses?userId=..&role=..` over the entity store's listing `all`. */
  function ListExpenses(role: Option<string>, userId: Option<string>, all: seq<Expense>): (r: Response<seq<Expense>>)
    ensures r.Ok? || r == BadRequest(ListingNeedsFilter)
    ensures r.Ok? <==> IsPrivileged(role) || TruthyStr(userId)
    ensures r.Ok? ==> NewestFirst(r.data)
    ensures IsPrivileged(role) ==> multiset(r.data) == multiset(all)
    ensures !IsPrivileged(role) && TruthyStr(userId) ==>
      forall e :: multiset(r.data)[e] == (if e.userId == userId.value then multiset(all)[e] else 0)
  {
    if IsPrivileged(role) then
      Ok(SortNewestFirst(all))
    else if TruthyStr(userId) then
      Ok(SortNewestFirst(OwnedBy(all, userId.value)))
    else
      BadRequest(ListingNeedsFilter)
  }

  // ---------------------------------------------------------------------------
  // Creation

  /**
   A parsed `POST /api/expenses` body. Every field may be missing; `id` and
   `status` are fields a client may send but the handler never copies.
   */
  datatype ExpenseBody = ExpenseBody(
    userId: Option<string>,
    merchant: Option<string>,
    amount: Option<int>,
    currency: Option<string>,
    date: Option<int>,
    description: Option<string>,
    category: Option<string>,
    id: Option<string>,
    status: Option<string>
  )

  /** The body carries a truthy value for each of the five required fields. */
  predicate HasRequiredFields(body: ExpenseBody)
  {
    && TruthyStr(body.userId)
    && TruthyStr(body.merchant)
    && TruthyNum(body.amount)
    && TruthyNum(body.date)
    && TruthyStr(body.category)
  }

  /** A string field's value if truthy, else `default` (the `||` fallback). */
  function OrDefault(v: Option<string>, default: string): (r: string)
    ensures TruthyStr(v) ==> r == v.value
    ensures !TruthyStr(v) ==> r == default
    ensures r != "" <==> TruthyStr(v) || default != ""
  {
    if TruthyStr(v) then v.value else default
  }

  /** The record the handler builds from a valid body and a fresh token. */
  function NewExpense(body: ExpenseBody, token: string): (e: Expense)
    requires HasRequiredFields(body)
    ensures e.id == IdPrefix + token
    ensures e.userId == body.userId.value && e.merchant == body.merchant.value
    ensures e.amount == body.amount.value && e.date == body.date.value
    ensures e.category == body.category.value
    ensures e.currency == (if TruthyStr(body.currency) then body.currency.value else DefaultCurrency)
    ensures e.description == (if TruthyStr(body.description) then body.description.value else DefaultDescription)
    ensures e.status == PendingStatus && e.history == []
  {
    Expense(
      id := IdPrefix + token,
      userId := body.userId.value,
      merchant := body.merchant.value,
      amount := body.amount.value,
      currency := OrDefault(body.currency, DefaultCurrency),
      date := body.date.value,
      description := OrDefault(body.description, DefaultDescription),
      status := PendingStatus,
      category := body.category.value,
      history := []
    )
  }

  /**
   `POST /api/expenses`. `token` stands for the random UUID and `persisted`
   for whether the entity store's create succeeded. Returns the response and
   the store after the request.
   */
  function CreateExpense(body: ExpenseBody, token: string, persisted: bool, store: Store<Expense>)
    : (out: (Response<Expense>, Store<Expense>))
    ensures !HasRequiredFields(body) <==> out.0 == BadRequest(MissingFields)
    ensures HasRequiredFields(body) && !persisted <==> out.0 == Internal(CreateFailed)
    ensures HasRequiredFields(body) && persisted ==> out.0 == Ok(NewExpense(body, token))
    ensures !out.0.Ok? ==> out.1 == store
    ensures out.0.Ok? ==>
      && out.0.data.id == IdPrefix + token
      && out.1.Keys == store.Keys + {out.0.data.id}
      && out.1[out.0.data.id] == out.0.data
      && (forall k :: k in store && k != out.0.data.id ==> out.1[k] == store[k])
  {
    if !HasRequiredFields(body) then
      (BadRequest(MissingFields), store)
    else
      var e := NewExpense(body, token);
      if persisted then (Ok(e), store[e.id := e])
      else (Internal(CreateFailed), store)
  }
}
