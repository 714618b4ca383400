/** The persisted client-side auth store: sign-in against the users table, sign-up with
    the default role, sign-out and rehydration from storage. */
module UseAuth {
  import opened Wrappers

  datatype User = User(id: string, email: string, roleId: int)

  /** A row of the users table as the query returns it; `roleId` is `None` when the stored
      value is not a number. */
  datatype UserRow = UserRow(id: Option<string>, email: Option<string>, roleId: Option<int>)

  /** What the single-row query for an email gives back. */
  datatype QueryOutcome =
    | QueryFailed(error: string)   // the client reports an error
    | QueryReturned(row: Option<UserRow>)
    | QueryThrew(thrown: string)

  datatype AuthResult = AuthData(user: User) | AuthError(error: string)

  /** A string is truthy when present and non-empty. */
  predicate Truthy(s: Option<string>)
  {
    s.Some? && s.value != ""
  }

  /** `authenticateUser`: the query's error, a missing row, a row without id, email or
      numeric role id, or a thrown error all fail; otherwise the user is the row's id,
      email and role id. The password plays no part. */
  function AuthenticateUser(email: string, password: string, query: QueryOutcome): (r: AuthResult)
    ensures r.AuthData? <==>
      (query.QueryReturned? && query.row.Some? &&
       Truthy(query.row.value.id) && Truthy(query.row.value.email) && query.row.value.roleId.Some?)
    ensures r.AuthData? ==> r.user == User(query.row.value.id.value, query.row.value.email.value, query.row.value.roleId.value)
    ensures r.AuthData? ==> r.user.id != "" && r.user.email != ""
    ensures query.QueryFailed? ==> r == AuthError(query.error)
    ensures query.QueryThrew? ==> r == AuthError(query.thrown)
  {
    match query
    case QueryFailed(e) => AuthError(e)
    case QueryThrew(e) => AuthError(e)
    case QueryReturned(row) =>
      if row.None? then AuthError("Invalid login credentials")
      else if !Truthy(row.value.id) || !Truthy(row.value.email) || row.value.roleId.None? then AuthError("Invalid user data")
      else AuthData(User(row.value.id.value, row.value.email.value, row.value.roleId.value))
  }

  /** Whatever the password, the outcome is the same: only the row found for the email
      decides. */
  lemma PasswordIsIgnored(email: string, p1: string, p2: string, query: QueryOutcome)
    ensures AuthenticateUser(email, p1, query) == AuthenticateUser(email, p2, query)
  {
  }

  const DefaultSignUpRole: int := 5

  /** The request `signUp` sends: the credentials and the metadata with the default role. */
  datatype SignUpCall = SignUpCall(email: string, password: string, fullName: string, roleId: int)

  /** What is persisted under "auth-storage". */
  datatype Persisted = Persisted(user: Option<User>, isLoading: bool)

  /** What rehydration finds: a stored state, nothing stored, or a failure. */
  datatype Rehydration = Restored(state: Persisted) | NothingStored | HydrationFailed

  class AuthStore {
    var user: Option<User>
    var isLoading: bool

    /** A signed-in store is never loading. */
    predicate Valid()
      reads this
    {
      user.Some? ==> !isLoading
    }

    constructor()
      ensures Valid()
      ensures user.None? && isLoading
    {
      user := None;
      isLoading := true;
    }

    /** `signIn`: on success the store holds the authenticated user and is no longer
        loading; on any failure it holds no user and is no longer loading. */
    method SignIn(email: string, password: string, query: QueryOutcome) returns (signedIn: Option<User>, error: Option<string>)
      requires Valid()
      modifies this
      ensures Valid()
      ensures !isLoading && user == signedIn
      ensures signedIn.None? <==> error.Some?
      ensures AuthenticateUser(email, password, query).AuthData? ==> signedIn == Some(AuthenticateUser(email, password, query).user)
      ensures AuthenticateUser(email, password, query).AuthError? ==> error == Some(AuthenticateUser(email, password, query).error)
    {
      var r := AuthenticateUser(email, password, query);
      if r.AuthError? {
        user, isLoading := None, false;
        return None, Some(r.error);
      }
      user, isLoading := Some(r.user), false;
      return Some(r.user), None;
    }

    /** `signUp`: sends the credentials with role 5 and reports the service's error; the
        store itself is left alone. */
    method SignUp(email: string, password: string, fullName: string, serviceError: Option<string>)
      returns (call: SignUpCall, error: Option<string>)
      ensures call.roleId == DefaultSignUpRole
      ensures call.email == email && call.password == password && call.fullName == fullName
      ensures error == serviceError
    {
      call := SignUpCall(email, password, fullName, DefaultSignUpRole);
      error := serviceError;
    }

    /** `signOut`: when the service call returns, the store holds no user and is not loading;
        when it throws, nothing changes. */
    method SignOut(succeeded: bool)
      requires Valid()
      modifies this
      ensures Valid()
      ensures succeeded ==> user.None? && !isLoading
      ensures !succeeded ==> user == old(user) && isLoading == old(isLoading)
    {
      if succeeded {
        user, isLoading := None, false;
      }
    }

    /** Rehydration: a stored state is merged in; once hydration finishes the store is no
        longer loading; a failed hydration changes nothing. */
    method Rehydrate(found: Rehydration)
      requires Valid()
      modifies this
      ensures Valid()
      ensures found.Restored? ==> user == found.state.user && !isLoading
      ensures found.NothingStored? ==> user == old(user) && !isLoading
      ensures found.HydrationFailed? ==> user == old(user) && isLoading == old(isLoading)
    {
      match found {
        case Restored(state) =>
          user, isLoading := state.user, state.isLoading;
          isLoading := false;
        case NothingStored =>
          isLoading := false;
        case HydrationFailed =>
      }
    }
  }
}
