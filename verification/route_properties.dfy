/**
 Properties that relate several route calls, or a route to an independent
 description of what it should do.
 */
module RouteProperties {
  import opened Wrappers
  import opened ExpenseModel
  import opened DateOrder
  import opened UserRoutes

  /** Who may see `e`: privileged roles see everything, otherwise only the owner named by a truthy `userId`. */
  predicate Visible(role: Option<string>, userId: Option<string>, e: Expense)
  {
    IsPrivileged(role) || (TruthyStr(userId) && e.userId == userId.value)
  }

  /** A successful listing holds exactly the stored expenses the caller may see. */
  lemma ListingIsVisibleExpenses(role: Option<string>, userId: Option<string>, all: seq<Expense>, e: Expense)
    requires ListExpenses(role, userId, all).Ok?
    ensures e in ListExpenses(role, userId, all).data <==> e in all && Visible(role, userId, e)
  {
    var r := ListExpenses(role, userId, all).data;
    assert e in r <==> multiset(r)[e] > 0;
    assert e in all <==> multiset(all)[e] > 0;
  }

  /** Privileged callers get the same listing whatever `userId` they pass. */
  lemma PrivilegedIgnoresUserId(role: Option<string>, u1: Option<string>, u2: Option<string>, all: seq<Expense>)
    requires IsPrivileged(role)
    ensures ListExpenses(role, u1, all) == ListExpenses(role, u2, all)
  {
  }

  /** An employee's listing is contained in what a manager sees of the same store. */
  lemma OwnerViewWithinFullView(userId: Option<string>, role: Option<string>, all: seq<Expense>)
    requires TruthyStr(userId) && !IsPrivileged(role)
    ensures multiset(ListExpenses(role, userId, all).data) <= multiset(ListExpenses(Some("manager"), None, all).data)
  {
  }

  /** Filtering two orderings of the same records by owner yields the same records. */
  lemma OwnedByRespectsPermutation(a: seq<Expense>, b: seq<Expense>, owner: string)
    requires multiset(a) == multiset(b)
    ensures multiset(OwnedBy(a, owner)) == multiset(OwnedBy(b, owner))
  {
  }

  /**
   The order in which the store happens to list its expenses does not change
   the dates a listing shows, nor their order.
   */
  lemma {:induction false} ListingDatesIgnoreStoreOrder(
    role: Option<string>, userId: Option<string>, a: seq<Expense>, b: seq<Expense>, ra: seq<Expense>, rb: seq<Expense>)
    requires multiset(a) == multiset(b)
    requires ListExpenses(role, userId, a) == Ok(ra)
    requires ListExpenses(role, userId, b) == Ok(rb)
    ensures |ra| == |rb|
    ensures forall i :: 0 <= i < |ra| ==> ra[i].date == rb[i].date
  {
    if IsPrivileged(role) {
      assert ra == SortNewestFirst(a) && rb == SortNewestFirst(b);
    } else {
      assert ra == SortNewestFirst(OwnedBy(a, userId.value));
      assert rb == SortNewestFirst(OwnedBy(b, userId.value));
      OwnedByRespectsPermutation(a, b, userId.value);
    }
    SortedPermutationsAgreeOnDates(ra, rb);
  }

  /** A listing of a store that is already newest first returns it unchanged. */
  lemma {:induction false} PrivilegedListingOfSortedStore(role: Option<string>, userId: Option<string>, all: seq<Expense>)
    requires IsPrivileged(role) && NewestFirst(all)
    ensures ListExpenses(role, userId, all) == Ok(all)
  {
    SortKeepsSorted(all);
  }

  /** A zero amount is as good as a missing one: the request is refused and nothing is stored. */
  lemma ZeroAmountRejected(body: ExpenseBody, token: string, persisted: bool, store: Store<Expense>)
    requires body.amount == Some(0)
    ensures CreateExpense(body, token, persisted, store) == (BadRequest(MissingFields), store)
  {
  }

  /** A zero date is as good as a missing one: the request is refused and nothing is stored. */
  lemma ZeroDateRejected(body: ExpenseBody, token: string, persisted: bool, store: Store<Expense>)
    requires body.date == Some(0)
    ensures CreateExpense(body, token, persisted, store) == (BadRequest(MissingFields), store)
  {
  }

  /** The token an expense id was generated from, when it has the `exp-` form. */
  function TokenOf(id: string): (t: Option<string>)
    ensures t.Some? <==> |id| >= |IdPrefix| && id[..|IdPrefix|] == IdPrefix
    ensures t.Some? ==> IdPrefix + t.value == id
  {
    if |id| >= |IdPrefix| && id[..|IdPrefix|] == IdPrefix then
      assert id == id[..|IdPrefix|] + id[|IdPrefix|..];
      Some(id[|IdPrefix|..])
    else None
  }

  /** A created id gives back the token it was generated from, so distinct tokens give distinct ids. */
  lemma CreatedIdRoundTrip(body: ExpenseBody, token: string, token': string)
    requires HasRequiredFields(body)
    ensures TokenOf(NewExpense(body, token).id) == Some(token)
    ensures token != token' ==> NewExpense(body, token).id != NewExpense(body, token').id
  {
    var id := IdPrefix + token;
    assert id[..|IdPrefix|] == IdPrefix;
    assert id[|IdPrefix|..] == token;
    var id' := IdPrefix + token';
    assert id'[|IdPrefix|..] == token';
  }

  /** The client cannot choose the id or the status of the expense it creates. */
  lemma ClientCannotSetIdOrStatus(body: ExpenseBody, token: string, store: Store<Expense>)
    requires HasRequiredFields(body)
    ensures CreateExpense(body, token, true, store).0.data.status == PendingStatus
    ensures CreateExpense(body, token, true, store).0.data.id == IdPrefix + token
    ensures CreateExpense(body.(id := None, status := None), token, true, store) == CreateExpense(body, token, true, store)
  {
  }

  /** Creation keeps every expense stored under its own id. */
  lemma CreatePreservesWellKeyed(body: ExpenseBody, token: string, persisted: bool, store: Store<Expense>)
    requires WellKeyed(store)
    ensures WellKeyed(CreateExpense(body, token, persisted, store).1)
  {
  }

  /** With a fresh token, a successful creation grows the store by exactly one record. */
  lemma CreateGrowsStoreByOne(body: ExpenseBody, token: string, store: Store<Expense>)
    requires HasRequiredFields(body) && IdPrefix + token !in store
    ensures |CreateExpense(body, token, true, store).1| == |store| + 1
  {
    var out := CreateExpense(body, token, true, store);
    assert out.1.Keys == store.Keys + {IdPrefix + token};
  }

  /** A created expense can be fetched by the id it was given. */
  lemma CreatedExpenseCanBeFetched(body: ExpenseBody, token: string, store: Store<Expense>)
    requires HasRequiredFields(body)
    ensures GetExpense(CreateExpense(body, token, true, store).1, IdPrefix + token)
         == CreateExpense(body, token, true, store).0
  {
  }

  /** A record stored under its own id appears in any listing of the store. */
  lemma StoredIsListed(items: seq<Expense>, store: Store<Expense>, e: Expense)
    requires ListsStore(items, store)
    requires e.id in store && store[e.id] == e
    ensures e in items
  {
  }

  /**
   Once created, an expense appears in its owner's listing and in a manager's
   listing of the new store, and in no other employee's listing.
   */
  lemma CreatedExpenseIsListed(
    body: ExpenseBody, token: string, store: Store<Expense>, e: Expense, store': Store<Expense>,
    items: seq<Expense>, other: string)
    requires CreateExpense(body, token, true, store) == (Ok(e), store')
    requires ListsStore(items, store')
    requires other != "" && other != e.userId
    ensures ListExpenses(None, Some(e.userId), items).Ok? && e in ListExpenses(None, Some(e.userId), items).data
    ensures e in ListExpenses(Some("manager"), None, items).data
    ensures e !in ListExpenses(None, Some(other), items).data
  {
    assert e.id == IdPrefix + token && e.userId == body.userId.value;
    StoredIsListed(items, store', e);
    ListingIsVisibleExpenses(None, Some(e.userId), items, e);
    ListingIsVisibleExpenses(Some("manager"), None, items, e);
    ListingIsVisibleExpenses(None, Some(other), items, e);
  }

  /** A created expense always names a currency: a missing or empty one becomes "USD". */
  lemma CreatedCurrencyNeverEmpty(body: ExpenseBody, token: string)
    requires HasRequiredFields(body)
    ensures NewExpense(body, token).currency != ""
    ensures !TruthyStr(body.currency) ==> NewExpense(body, token).currency == DefaultCurrency
  {
  }

  /** Fetching a user answers 404 exactly when the id is absent, and 200 otherwise. */
  lemma GetUserStatus(users: Store<User>, id: string)
    ensures GetUser(users, id).Status() == 404 <==> id !in users
    ensures GetUser(users, id).Status() == 200 <==> id in users
  {
  }

  /** Fetching an expense answers 404 exactly when the id is absent, and 200 otherwise. */
  lemma GetExpenseStatus(store: Store<Expense>, id: string)
    ensures GetExpense(store, id).Status() == 404 <==> id !in store
    ensures GetExpense(store, id).Status() == 200 <==> id in store
  {
  }

  /** Listing answers 400 exactly when there is neither a privileged role nor a non-empty userId, and 200 otherwise. */
  lemma ListExpensesStatus(role: Option<string>, userId: Option<string>, all: seq<Expense>)
    ensures ListExpenses(role, userId, all).Status() == 400 <==> !IsPrivileged(role) && !TruthyStr(userId)
    ensures ListExpenses(role, userId, all).Status() == 200 <==> IsPrivileged(role) || TruthyStr(userId)
  {
  }

  /** Creation answers 400 for a falsy required field, 500 when persisting a valid record fails, and 200 otherwise. */
  lemma CreateExpenseStatus(body: ExpenseBody, token: string, persisted: bool, store: Store<Expense>)
    ensures CreateExpense(body, token, persisted, store).0.Status() == 400 <==> !HasRequiredFields(body)
    ensures CreateExpense(body, token, persisted, store).0.Status() == 500 <==> HasRequiredFields(body) && !persisted
    ensures CreateExpense(body, token, persisted, store).0.Status() == 200 <==> HasRequiredFields(body) && persisted
  {
  }
}
