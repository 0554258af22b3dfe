/** adminUserSlice.ts: the reducers for fetch, block toggling, role change
    (both replace by id) and delete; and the role flip AdminUsersPage asks for. */
module AdminUsersSlice {
  import opened Common
  import opened Records

  /** The role `handleToggleRole` requests: admin becomes user, anything else admin. */
  function ToggledRole(role: Role): (r: Role)
    ensures r != role
  {
    if role == AdminRole then UserRole else AdminRole
  }

  /** Toggling twice gives the role back. */
  lemma ToggleTwice(role: Role)
    ensures ToggledRole(ToggledRole(role)) == role
  {
  }

  /** The slice's `State`. */
  class AdminUsersState {
    var items: seq<AdminUser>
    var loading: bool
    var error: Option<string>

    /** `initialState`. */
    constructor ()
      ensures items == [] && !loading && error == None
    {
      items := [];
      loading := false;
      error := None;
    }

    /** `fetchUsers.pending`. */
    method FetchPending()
      modifies this
      ensures loading && error == old(error) && items == old(items)
    {
      loading := true;
    }

    /** `fetchUsers.fulfilled`. */
    method FetchFulfilled(payload: seq<AdminUser>)
      modifies this
      ensures !loading && items == payload && error == old(error)
    {
      loading := false;
      items := payload;
    }

    /** `fetchUsers.rejected`: `a.error.message || "Failed"`. */
    method FetchRejected(message: Option<string>)
      modifies this
      ensures !loading && error == Some(OrElse(message, "Failed")) && items == old(items)
    {
      loading := false;
      error := Some(OrElse(message, "Failed"));
    }

    /** `toggleBlockUser.fulfilled`: the server's copy replaces every user with its id. */
    method ToggleBlockFulfilled(user: AdminUser)
      modifies this
      ensures items == ReplaceById(old(items), UserId, user)
      ensures loading == old(loading) && error == old(error)
    {
      items := ReplaceById(items, UserId, user);
    }

    /** `updateUserRole.fulfilled`: the same replacement by id. */
    method UpdateRoleFulfilled(user: AdminUser)
      modifies this
      ensures items == ReplaceById(old(items), UserId, user)
      ensures loading == old(loading) && error == old(error)
    {
      items := ReplaceById(items, UserId, user);
    }

    /** `deleteUser.fulfilled`: every user with the id goes, the rest keep their order. */
    method DeleteFulfilled(id: string)
      modifies this
      ensures items == RemoveById(old(items), UserId, id)
      ensures loading == old(loading) && error == old(error)
    {
      items := RemoveById(items, UserId, id);
    }
  }

  /** Replacing a user by id keeps the list's ids, and deleting twice removes nothing more. */
  lemma UserListFacts(items: seq<AdminUser>, user: AdminUser)
    ensures Ids(ReplaceById(items, UserId, user), UserId) == Ids(items, UserId)
    ensures RemoveById(RemoveById(items, UserId, user.id), UserId, user.id) == RemoveById(items, UserId, user.id)
  {
    ReplaceByIdFacts(items, UserId, user);
    RemoveByIdIdempotent(items, UserId, user.id);
  }
}
