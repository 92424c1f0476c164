/**
 * The users page: its role filter, the list updates after a save, the badge
 * mappings, the statistics strip and the initial fetch.
 */
module UsersPage {
  import opened Wrappers
  import opened JsStrings
  import opened AuthService
  import opened Notifications
  import RoleAssignment

  /** One row of the users table. */
  datatype UserRow = UserRow(
    id: string,
    systemRole: Option<string>,
    status: Option<string>,
    hubspotUserId: Option<string>,
    lastLogin: Option<string>)

  const AllRoles: string := "all"

  predicate HasRole(u: UserRow, role: string) {
    u.systemRole == Some(role)
  }

  /** `users.filter(u => u.systemRole === role)`, in table order. */
  function WithRole(users: seq<UserRow>, role: string): (r: seq<UserRow>)
    ensures |r| <= |users|
    ensures forall k | 0 <= k < |r| :: HasRole(r[k], role)
    ensures forall u :: u in r <==> u in users && HasRole(u, role)
  {
    if users == [] then []
    else (if HasRole(users[0], role) then [users[0]] else []) + WithRole(users[1..], role)
  }

  /** `filteredUsers`: every user for `'all'`, otherwise the users holding exactly that system role. */
  function FilteredUsers(users: seq<UserRow>, roleFilter: string): (r: seq<UserRow>)
    ensures roleFilter == AllRoles ==> r == users
    ensures roleFilter != AllRoles ==> r == WithRole(users, roleFilter)
  {
    if roleFilter == AllRoles then users else WithRole(users, roleFilter)
  }

  /** The role filter keeps the table's order: filtering a concatenation filters each part in turn. */
  lemma {:induction false} WithRoleAppend(xs: seq<UserRow>, ys: seq<UserRow>, role: string)
    ensures WithRole(xs + ys, role) == WithRole(xs, role) + WithRole(ys, role)
    decreases |xs|
  {
    if xs == [] {
      assert xs + ys == ys;
    } else {
      assert (xs + ys)[0] == xs[0];
      assert (xs + ys)[1..] == xs[1..] + ys;
      WithRoleAppend(xs[1..], ys, role);
    }
  }

  /** `prev.map(u => u.id === saved.id ? saved : u)`. */
  function ReplaceById(users: seq<UserRow>, saved: UserRow): (r: seq<UserRow>)
    ensures |r| == |users|
    ensures forall k | 0 <= k < |users| :: r[k] == if users[k].id == saved.id then saved else users[k]
  {
    if users == [] then [] else [if users[0].id == saved.id then saved else users[0]] + ReplaceById(users[1..], saved)
  }

  /** Saving the same user twice leaves the list as saving once. */
  lemma ReplaceByIdIdempotent(users: seq<UserRow>, saved: UserRow)
    ensures ReplaceById(ReplaceById(users, saved), saved) == ReplaceById(users, saved)
  {
  }

  /** Once replaced, every row with the saved id is the saved user; the ids of all rows are kept. */
  lemma ReplaceByIdKeepsIds(users: seq<UserRow>, saved: UserRow)
    ensures forall k | 0 <= k < |users| :: ReplaceById(users, saved)[k].id == users[k].id
    ensures saved in users ==> saved in ReplaceById(users, saved)
  {
    if saved in users {
      var k :| 0 <= k < |users| && users[k] == saved;
      assert ReplaceById(users, saved)[k] == saved;
    }
  }

  const Success: string := "badge-success"
  const Failure: string := "badge-error"
  const Primary: string := "badge-primary"
  const Neutral: string := "badge-neutral"

  /** `getStatusColor`: active and suspended users have their own badges, every other status is neutral. */
  function StatusColor(status: Option<string>): (c: string)
    ensures c == Success <==> status == Some("active")
    ensures c == Failure <==> status == Some("suspended")
    ensures c == Neutral <==> status != Some("active") && status != Some("suspended")
  {
    assert Success != Failure && Success != Neutral && Failure != Neutral;
    if status == Some("active") then Success
    else if status == Some("suspended") then Failure
    else Neutral
  }

  /** `getRoleBadgeClass`: administrators and application managers have their own badges, every other role is neutral. */
  function RoleBadgeClass(role: Option<string>): (c: string)
    ensures c == Failure <==> role == Some("administrator")
    ensures c == Primary <==> role == Some("app_manager")
    ensures c == Neutral <==> role != Some("administrator") && role != Some("app_manager")
  {
    assert Failure != Primary && Failure != Neutral && Primary != Neutral;
    if role == Some("administrator") then Failure
    else if role == Some("app_manager") then Primary
    else Neutral
  }

  /** Only the known statuses and roles get a colour; everything else, a missing value included, is neutral. */
  lemma UnknownBadgesAreNeutral(status: Option<string>, role: Option<string>)
    ensures status != Some("active") && status != Some("suspended") ==> StatusColor(status) == "badge-neutral"
    ensures StatusColor(Some("inactive")) == "badge-neutral"
    ensures role != Some("administrator") && role != Some("app_manager") ==> RoleBadgeClass(role) == "badge-neutral"
    ensures RoleBadgeClass(Some("user")) == "badge-neutral"
  {
    assert "inactive"[0] != "active"[0] && "inactive"[0] != "suspended"[0];
    assert "user"[0] != "administrator"[0] && "user"[0] != "app_manager"[0];
  }

  /**
   * `formatDate`: a missing or empty date reads `'Never'`; any other is
   * rendered by the locale formatter, which is a parameter of the model.
   */
  function FormatDate(dateString: Option<string>, render: string -> string): (r: string)
    ensures !Truthy(dateString) ==> r == "Never"
    ensures Truthy(dateString) ==> r == render(dateString.value)
  {
    if Truthy(dateString) then render(dateString.value) else "Never"
  }

  /** How many users satisfy `p`: the statistics strip's `users.filter(p).length`. */
  function Count(users: seq<UserRow>, p: UserRow -> bool): (n: nat)
    ensures n <= |users|
  {
    if users == [] then 0 else (if p(users[0]) then 1 else 0) + Count(users[1..], p)
  }

  predicate IsActiveUser(u: UserRow) { u.status == Some("active") }
  predicate IsAdministrator(u: UserRow) { HasRole(u, "administrator") }
  predicate IsAppManager(u: UserRow) { HasRole(u, "app_manager") }
  predicate IsHubspotLinked(u: UserRow) { Truthy(u.hubspotUserId) }

  /** Users satisfying two exclusive predicates are counted at most once between them. */
  lemma {:induction false} DisjointCountsBounded(users: seq<UserRow>, p: UserRow -> bool, q: UserRow -> bool)
    requires forall u :: !(p(u) && q(u))
    ensures Count(users, p) + Count(users, q) <= |users|
    decreases |users|
  {
    if users != [] {
      DisjointCountsBounded(users[1..], p, q);
    }
  }

  /** The strip's counts: each at most the total, and administrators plus managers at most the total. */
  lemma StatisticsBounded(users: seq<UserRow>)
    ensures Count(users, IsActiveUser) <= |users| && Count(users, IsHubspotLinked) <= |users|
    ensures Count(users, IsAdministrator) + Count(users, IsAppManager) <= |users|
  {
    assert "administrator"[1] != "app_manager"[1];
    DisjointCountsBounded(users, IsAdministrator, IsAppManager);
  }

  /** A role's count in the strip is the length of the table under that role's filter. */
  lemma {:induction false} RoleCountMatchesFilter(users: seq<UserRow>, role: string)
    ensures Count(users, u => HasRole(u, role)) == |WithRole(users, role)|
    decreases |users|
  {
    if users != [] {
      RoleCountMatchesFilter(users[1..], role);
    }
  }

  /**
   * The page hands the role dialog a signed-in user built from the sign-in
   * session's id, name, email and picture only: with no `systemRole` on it,
   * the dialog's gate refuses every scope.
   */
  lemma PageUserCannotChangeRoles(id: string, scope: RoleAssignment.Scope)
    ensures RoleAssignment.CanChangeRole(Some(RoleAssignment.CurrentUser(id, None, None)), scope) == Some(false)
  {
  }

  const UsersFallback: string := "Failed to get users"
  const AppsFallback: string := "Failed to get applications"
  const FetchUsersFallback: string := "Failed to fetch users"
  const LoadFailedPrefix: string := "Failed to load data: "

  /** What reading `data.users` throws when the body has no `data`. */
  const MissingDataError: string := "Cannot read properties of undefined (reading 'users')"

  /** One application as the page stores it. */
  type AppRow = RoleAssignment.AppOption

  class UsersList {
    var users: seq<UserRow>
    var applications: seq<AppRow>
    var loading: bool
    var toasts: seq<Toast>

    constructor ()
      ensures users == [] && applications == [] && loading && toasts == []
    {
      users := [];
      applications := [];
      loading := true;
      toasts := [];
    }

    /**
     * `fetchData`: the two calls settle together. A thrown call, a users body
     * without success, or one without `data`, empties the list and raises one
     * error toast; otherwise the list is replaced and the applications are
     * replaced only when their body reports success and holds data.
     */
    method FetchData(usersAnswer: WrapperAnswer<seq<UserRow>>, appsAnswer: WrapperAnswer<seq<AppRow>>)
      modifies this
      ensures !loading
      ensures var ok := usersAnswer.Body? && usersAnswer.success && usersAnswer.data.Some? && appsAnswer.Body?;
        && (ok ==> users == usersAnswer.data.value && toasts == old(toasts))
        && (!ok ==> users == [] && |toasts| == |old(toasts)| + 1 && toasts[..|old(toasts)|] == old(toasts))
        && (ok && appsAnswer.success && appsAnswer.data.Some? ==> applications == appsAnswer.data.value)
        && (!(ok && appsAnswer.success && appsAnswer.data.Some?) ==> applications == old(applications))
      ensures usersAnswer.Thrown? ==>
        toasts == old(toasts) + [ErrorToast(LoadFailedPrefix + ThrownMessage(usersAnswer.backendMessage, UsersFallback))]
      ensures usersAnswer.Body? && appsAnswer.Thrown? ==>
        toasts == old(toasts) + [ErrorToast(LoadFailedPrefix + ThrownMessage(appsAnswer.backendMessage, AppsFallback))]
      ensures usersAnswer.Body? && !usersAnswer.success && appsAnswer.Body? ==>
        toasts == old(toasts) + [ErrorToast(LoadFailedPrefix + Or(usersAnswer.message, FetchUsersFallback))]
      ensures usersAnswer.Body? && usersAnswer.success && usersAnswer.data.None? && appsAnswer.Body? ==>
        toasts == old(toasts) + [ErrorToast(LoadFailedPrefix + MissingDataError)]
    {
      loading := true;
      var failure: Option<string> := None;
      if usersAnswer.Thrown? {
        failure := Some(ThrownMessage(usersAnswer.backendMessage, UsersFallback));
      } else if appsAnswer.Thrown? {
        failure := Some(ThrownMessage(appsAnswer.backendMessage, AppsFallback));
      } else if !usersAnswer.success {
        failure := Some(Or(usersAnswer.message, FetchUsersFallback));
      } else if usersAnswer.data.None? {
        failure := Some(MissingDataError);
      } else {
        users := usersAnswer.data.value;
        if appsAnswer.success && appsAnswer.data.Some? {
          applications := appsAnswer.data.value;
        }
      }
      if failure.Some? {
        toasts := toasts + [ErrorToast(LoadFailedPrefix + failure.value)];
        users := [];
      }
      loading := false;
    }

    /** `handleUserSaved`: an edit replaces the rows with the saved id; an addition puts the new user first. */
    method HandleUserSaved(saved: UserRow, editing: bool)
      modifies this
      ensures editing ==> users == ReplaceById(old(users), saved)
      ensures !editing ==> users == [saved] + old(users)
      ensures applications == old(applications) && loading == old(loading) && toasts == old(toasts)
    {
      if editing {
        users := ReplaceById(users, saved);
      } else {
        users := [saved] + users;
      }
    }

    /** The refresh after a role or profile change: only a successful body with data replaces the list. */
    method RefreshUsers(answer: WrapperAnswer<seq<UserRow>>)
      modifies this
      ensures answer.Body? && answer.success && answer.data.Some? ==> users == answer.data.value
      ensures !(answer.Body? && answer.success && answer.data.Some?) ==> users == old(users)
      ensures applications == old(applications) && loading == old(loading) && toasts == old(toasts)
    {
      if answer.Body? && answer.success && answer.data.Some? {
        users := answer.data.value;
      }
    }
  }
}
