/**
 The records the expense API reads and writes, the envelope every handler
 answers with, and the abstract entity store the handlers delegate to.
 */
module ExpenseModel {

  /** One entry of an expense's approval history. The history only ever starts empty here. */
  datatype HistoryEntry = HistoryEntry(status: string, actorId: string, timestamp: int)

  /** An expense record as stored and returned by the API. `date` is a numeric timestamp. */
  datatype Expense = Expense(
    id: string,
    userId: string,
    merchant: string,
    amount: int,
    currency: string,
    date: int,
    description: string,
    status: string,
    category: string,
    history: seq<HistoryEntry>
  )

  /** A user record; only its identity matters to the routes modelled here. */
  datatype User = User(id: string, name: string, role: string)

  /** What a handler answers: data on success, or one of the three failure kinds. */
  datatype Response<+T> =
    | Ok(data: T)
    | BadRequest(message: string)
    | NotFound(message: string)
    | Internal(message: string)
  {
    /** The HTTP status code of the response. */
    function Status(): (code: int)
      ensures code == 200 <==> Ok?
      ensures code == 400 <==> BadRequest?
      ensures code == 404 <==> NotFound?
      ensures code == 500 <==> Internal?
    {
      match this
      case Ok(_) => 200
      case BadRequest(_) => 400
      case NotFound(_) => 404
      case Internal(_) => 500
    }
  }

  /** A keyed entity store: record id to record. */
  type Store<T> = map<string, T>

  /** Every expense is stored under its own id. */
  ghost predicate WellKeyed(store: Store<Expense>)
  {
    forall k :: k in store ==> store[k].id == k
  }

  /** Every user is stored under its own id. */
  ghost predicate UsersWellKeyed(users: Store<User>)
  {
    forall k :: k in users ==> users[k].id == k
  }

  /**
   `items` is a listing of `store`, as the entity store's `list` produces it:
   every listed record is the one stored under its id, and every stored record is listed.
   */
  ghost predicate ListsStore(items: seq<Expense>, store: Store<Expense>)
  {
    && (forall i :: 0 <= i < |items| ==> items[i].id in store && store[items[i].id] == items[i])
    && (forall k :: k in store ==> store[k] in items)
  }
}
