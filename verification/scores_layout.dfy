/** The guard around the engineer score pages: wait for the auth store, send visitors to
    the login page and administrators to their dashboard, render the page for anyone else. */
module ScoresLayout {
  import opened Wrappers
  import UseAuth

  const AdminRole: int := 1

  datatype View = Spinner | Nothing | Children

  /** The effect's redirect and what the layout renders, for one state of the store. */
  datatype Decision = Decision(redirect: Option<string>, view: View)

  function Decide(isLoading: bool, user: Option<UseAuth.User>): (d: Decision)
    ensures isLoading ==> d == Decision(None, Spinner)
    ensures !isLoading && user.None? ==> d == Decision(Some("/login"), Nothing)
    ensures !isLoading && user.Some? && user.value.roleId == AdminRole ==> d == Decision(Some("/admin/dashboard"), Nothing)
  {
    if isLoading then Decision(None, Spinner)
    else if user.None? then Decision(Some("/login"), Nothing)
    else if user.value.roleId == AdminRole then Decision(Some("/admin/dashboard"), Nothing)
    else Decision(None, Children)
  }

  /** The page renders exactly for a signed-in non-administrator once loading is over, and
      it never renders while a redirect is under way. */
  lemma ChildrenOnlyForSignedInNonAdmins(isLoading: bool, user: Option<UseAuth.User>)
    ensures Decide(isLoading, user).view == Children <==> !isLoading && user.Some? && user.value.roleId != AdminRole
    ensures Decide(isLoading, user).redirect.Some? ==> Decide(isLoading, user).view == Nothing
  {
  }

  /** After a successful sign-in the layout never shows the spinner: the store's invariant
      says a signed-in store is not loading. */
  lemma SignedInStoreSkipsSpinner(store: UseAuth.AuthStore)
    requires store.Valid() && store.user.Some?
    ensures Decide(store.isLoading, store.user).view != Spinner
  {
  }
}
