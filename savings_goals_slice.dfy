/** savingsGoalsSlice.ts: the reducers for fetch and create (prepend). */
module SavingsGoalsSlice {
  import opened Common
  import opened Records

  /** `GoalsState`. */
  class GoalsState {
    var goals: seq<SavingsGoal>
    var loading: bool
    var error: Option<string>

    /** `initialState`: no goals, not loading, no error. */
    constructor ()
      ensures goals == [] && !loading && error == None
    {
      goals := [];
      loading := false;
      error := None;
    }

    /** `fetchGoals.pending`. */
    method FetchPending()
      modifies this
      ensures loading && error == old(error) && goals == old(goals)
    {
      loading := true;
    }

    /** `fetchGoals.fulfilled`. */
    method FetchFulfilled(payload: seq<SavingsGoal>)
      modifies this
      ensures !loading && goals == payload && error == old(error)
    {
      loading := false;
      goals := payload;
    }

    /** `fetchGoals.rejected`: the payload, whatever it is (`as string`). */
    method FetchRejected(payload: Option<string>)
      modifies this
      ensures !loading && error == payload && goals == old(goals)
    {
      loading := false;
      error := payload;
    }

    /** `createGoal.fulfilled`: `unshift`, so the new goal comes first. */
    method CreateFulfilled(goal: SavingsGoal)
      modifies this
      ensures goals == [goal] + old(goals)
      ensures loading == old(loading) && error == old(error)
    {
      goals := [goal] + goals;
    }
  }
}
