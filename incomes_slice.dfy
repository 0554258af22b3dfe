/** incomes.slice.ts: the reducers for fetch, add (prepend), delete and
    update (replace every record with the same id). */
module IncomesSlice {
  import opened Common
  import opened Records

  /** The slice's `State`. */
  class IncomesState {
    var items: seq<Income>
    var loading: bool
    var error: Option<string>

    /** `initialState`. */
    constructor ()
      ensures items == [] && !loading && error == None
    {
      items := [];
      loading := false;
      error := None;
    }

    /** `fetchIncomes.pending`: loading, and an earlier error is kept. */
    method FetchPending()
      modifies this
      ensures loading && error == old(error) && items == old(items)
    {
      loading := true;
    }

    /** `fetchIncomes.fulfilled`: the list is replaced wholesale. */
    method FetchFulfilled(payload: seq<Income>)
      modifies this
      ensures !loading && items == payload && error == old(error)
    {
      loading := false;
      items := payload;
    }

    /** `fetchIncomes.rejected`: `a.error.message || 'Failed'`. */
    method FetchRejected(message: Option<string>)
      modifies this
      ensures !loading && error == Some(OrElse(message, "Failed")) && items == old(items)
    {
      loading := false;
      error := Some(OrElse(message, "Failed"));
    }

    /** `addIncome.fulfilled`: `unshift`, so the new income comes first. */
    method AddFulfilled(income: Income)
      modifies this
      ensures items == [income] + old(items)
      ensures loading == old(loading) && error == old(error)
    {
      items := [income] + items;
    }

    /** `deleteIncome.fulfilled`: every income with the id goes, the rest keep their order. */
    method DeleteFulfilled(id: string)
      modifies this
      ensures items == RemoveById(old(items), IncomeId, id)
      ensures loading == old(loading) && error == old(error)
    {
      items := RemoveById(items, IncomeId, id);
    }

    /** `updateIncome.fulfilled`: `map` replacing every income whose id matches. */
    method UpdateFulfilled(income: Income)
      modifies this
      ensures items == ReplaceById(old(items), IncomeId, income)
      ensures loading == old(loading) && error == old(error)
    {
      items := ReplaceById(items, IncomeId, income);
    }
  }

  /** An income added and then deleted leaves the list as it was, when its id was new. */
  lemma AddThenDelete(items: seq<Income>, income: Income)
    requires forall i :: i in items ==> i.id != income.id
    ensures RemoveById([income] + items, IncomeId, income.id) == items
  {
    PrependThenRemove(income, items, IncomeId);
  }

  /** An update keeps every id in place, and changes nothing when no income has the id. */
  lemma UpdateKeepsIds(items: seq<Income>, income: Income)
    ensures Ids(ReplaceById(items, IncomeId, income), IncomeId) == Ids(items, IncomeId)
    ensures income.id !in Ids(items, IncomeId) ==> ReplaceById(items, IncomeId, income) == items
  {
    ReplaceByIdFacts(items, IncomeId, income);
  }
}
