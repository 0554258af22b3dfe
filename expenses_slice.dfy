/** expensesSlice.ts: the reducers for fetch, add (append) and delete. Add and
    delete rejections have no case, so they leave the state alone. */
module ExpensesSlice {
  import opened Common
  import opened Records

  /** The actions that reach the slice: the thunks' lifecycle actions. */
  datatype Action =
    | FetchPending
    | FetchFulfilled(expenses: seq<Expense>)
    | FetchRejected(payload: Option<string>)
    | AddPending
    | AddFulfilled(expense: Expense)
    | AddRejected(payload: Option<string>)
    | DeletePending
    | DeleteFulfilled(id: string)
    | DeleteRejected(payload: Option<string>)

  /** Actions the slice has a case for. */
  predicate Handled(a: Action) {
    a.FetchPending? || a.FetchFulfilled? || a.FetchRejected? || a.AddFulfilled? || a.DeleteFulfilled?
  }

  /** `ExpensesState`. */
  class ExpensesState {
    var expenses: seq<Expense>
    var loading: bool
    var error: Option<string>

    /** `initialState`. */
    constructor ()
      ensures expenses == [] && !loading && error == None
    {
      expenses := [];
      loading := false;
      error := None;
    }

    /** The slice reducer: one case per handled action, nothing for the others. */
    method Dispatch(a: Action)
      modifies this
      ensures !Handled(a) ==> expenses == old(expenses) && loading == old(loading) && error == old(error)
      ensures a.FetchPending? ==> loading && error == None && expenses == old(expenses)
      ensures a.FetchFulfilled? ==> !loading && expenses == a.expenses && error == old(error)
      ensures a.FetchRejected? ==> !loading && error == a.payload && expenses == old(expenses)
      ensures a.AddFulfilled? ==> expenses == old(expenses) + [a.expense] && loading == old(loading) && error == old(error)
      ensures a.DeleteFulfilled? ==>
                expenses == RemoveById(old(expenses), ExpenseId, a.id) && loading == old(loading) && error == old(error)
    {
      match a
      case FetchPending =>
        loading := true;
        error := None;
      case FetchFulfilled(payload) =>
        loading := false;
        expenses := payload;
      case FetchRejected(payload) =>
        loading := false;
        error := payload;
      case AddFulfilled(e) =>
        expenses := expenses + [e];
      case DeleteFulfilled(id) =>
        expenses := RemoveById(expenses, ExpenseId, id);
      case _ =>
    }
  }

  /** Appending adds the new amount to the page's overall total. */
  lemma AddRaisesTotal(expenses: seq<Expense>, e: Expense)
    ensures Sum(expenses + [e], ExpenseAmount) == Sum(expenses, ExpenseAmount) + e.amount
  {
    SumSnoc(expenses, e, ExpenseAmount);
  }

  /** Deleting takes out exactly the amounts carried by that id. */
  lemma DeleteLowersTotal(expenses: seq<Expense>, id: string)
    ensures Sum(RemoveById(expenses, ExpenseId, id), ExpenseAmount)
            == Sum(expenses, ExpenseAmount) - Sum(Filter(expenses, HasId(ExpenseId, id)), ExpenseAmount)
  {
    SumSplit(expenses, HasId(ExpenseId, id), ExpenseAmount);
  }
}
