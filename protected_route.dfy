/** ProtectedRoute: which page a guarded route shows, from the stored access
    token and the signed-in user's role. */
module ProtectedRoute {
  import opened Common

  /** The part of the signed-in user the guard looks at. */
  datatype SignedInUser = SignedInUser(role: string)

  /** What the route renders. */
  datatype Outcome = RedirectToLogin | RedirectToUser | RenderChildren

  /** `!token`: a missing token and an empty one are both falsy. */
  predicate HasToken(token: Option<string>) {
    token.Some? && token.value != ""
  }

  /** `user?.role === "admin"`: false when there is no user. */
  predicate IsAdmin(user: Option<SignedInUser>) {
    user.Some? && user.value.role == "admin"
  }

  /** The guard's decision. */
  function Decide(token: Option<string>, adminOnly: bool, user: Option<SignedInUser>): (r: Outcome)
    ensures r == RedirectToLogin <==> !HasToken(token)
    ensures r == RedirectToUser <==> HasToken(token) && adminOnly && !IsAdmin(user)
    ensures r == RenderChildren <==> HasToken(token) && (!adminOnly || IsAdmin(user))
  {
    if !HasToken(token) then RedirectToLogin
    else if adminOnly && !IsAdmin(user) then RedirectToUser
    else RenderChildren
  }

  /** Without a token the visitor goes to /login, whatever the route asks for. */
  lemma NoTokenGoesToLogin(adminOnly: bool, user: Option<SignedInUser>)
    ensures Decide(None, adminOnly, user) == RedirectToLogin
    ensures Decide(Some(""), adminOnly, user) == RedirectToLogin
  {
  }

  /** On an admin-only route a signed-in visitor who is not an admin, or whose
      user record has not loaded, goes to /user. */
  lemma NonAdminGoesToUser(token: string, user: Option<SignedInUser>)
    requires token != ""
    requires user.None? || user.value.role != "admin"
    ensures Decide(Some(token), true, user) == RedirectToUser
  {
  }

  /** A route open to every signed-in visitor renders even before the user record loads. */
  lemma OpenRouteRendersWithoutUser(token: string)
    requires token != ""
    ensures Decide(Some(token), false, None) == RenderChildren
  {
  }

  /** An admin with a token always sees the page. */
  lemma AdminAlwaysRenders(token: string, adminOnly: bool)
    requires token != ""
    ensures Decide(Some(token), adminOnly, Some(SignedInUser("admin"))) == RenderChildren
  {
  }

  /** Marking a route admin-only can only turn a render into a redirect to /user. */
  lemma AdminOnlyIsStricter(token: Option<string>, user: Option<SignedInUser>)
    ensures Decide(token, true, user) == RenderChildren ==> Decide(token, false, user) == RenderChildren
    ensures Decide(token, true, user) != Decide(token, false, user) ==>
              Decide(token, true, user) == RedirectToUser && Decide(token, false, user) == RenderChildren
  {
  }
}
