/** The user table's filter by name or email and by role. */
module UsersList {
  import opened Wrappers
  import Str = Text
  import Seqs

  datatype ListUser = ListUser(id: int, fullName: string, email: string, roleId: Option<int>)

  datatype UserFilter = UserFilter(search: string, role: string)

  const AllRoles: string := "all"

  predicate MatchesSearch(u: ListUser, search: string)
  {
    Str.Includes(Str.Lower(u.fullName), Str.Lower(search)) || Str.Includes(Str.Lower(u.email), Str.Lower(search))
  }

  predicate MatchesRole(u: ListUser, role: string)
  {
    role == AllRoles || (u.roleId.Some? && Str.IntToString(u.roleId.value) == role)
  }

  /** `filteredUsers`: the users whose name or email contains the search text, ignoring
      ASCII case, and whose role matches; in the original order. */
  function FilteredUsers(users: seq<ListUser>, f: UserFilter): (r: seq<ListUser>)
    ensures forall u :: u in r <==> u in users && MatchesSearch(u, f.search) && MatchesRole(u, f.role)
  {
    Seqs.Filter(users, (u: ListUser) => MatchesSearch(u, f.search) && MatchesRole(u, f.role))
  }

  /** The result is a subsequence of the users. */
  lemma FilteredUsersInOrder(users: seq<ListUser>, f: UserFilter)
    ensures Seqs.IsSubsequence(FilteredUsers(users, f), users)
  {
    Seqs.FilterIsSubsequence(users, (u: ListUser) => MatchesSearch(u, f.search) && MatchesRole(u, f.role));
  }

  /** An empty search matches every user, so with role "all" nothing is filtered out. */
  lemma EmptySearchKeepsAll(users: seq<ListUser>)
    ensures forall u :: MatchesSearch(u, "")
    ensures FilteredUsers(users, UserFilter("", AllRoles)) == users
  {
    forall u: ListUser
      ensures MatchesSearch(u, "")
    {
      assert Str.OccursAt(Str.Lower(u.fullName), Str.Lower(""), 0);
    }
    Seqs.FilterAll(users, (u: ListUser) => MatchesSearch(u, "") && MatchesRole(u, AllRoles));
  }

  /** The search ignores ASCII case: any search finds the same users as its lower-cased
      form, two searches that differ only in case find the same users, and a user's own
      name, in any case, finds that user. */
  lemma SearchIgnoresCase(u: ListUser, search: string, other: string)
    ensures MatchesSearch(u, search) <==> MatchesSearch(u, Str.Lower(search))
    ensures Str.Lower(search) == Str.Lower(other) ==> (MatchesSearch(u, search) <==> MatchesSearch(u, other))
    ensures Str.Lower(search) == Str.Lower(u.fullName) ==> MatchesSearch(u, search)
  {
    Str.LowerIdempotent(search);
    var l := Str.Lower(u.fullName);
    assert Str.OccursAt(l, l, 0);
  }

  /** A user without a role id matches only role "all"; a role id string matches exactly
      the users with that id. */
  lemma RoleMatch(u: ListUser, roleId: int)
    ensures u.roleId.None? ==> forall role :: MatchesRole(u, role) <==> role == AllRoles
    ensures MatchesRole(u, Str.IntToString(roleId)) <==> u.roleId == Some(roleId)
  {
    Str.IntToStringNotWord(roleId, AllRoles);
    if u.roleId.Some? {
      Str.IntToStringInjective(u.roleId.value, roleId);
    }
  }
}
