/**
 * The role-assignment dialog: who may change a role in which scope, the
 * role preselected when the scope changes, the scope options offered, and
 * the save flow that picks the global or the per-application endpoint.
 */
module RoleAssignment {
  import opened Wrappers
  import opened JsStrings
  import opened AuthService

  const Administrator: string := "administrator"
  const AppManager: string := "app_manager"
  const PlainUser: string := "user"

  /** One entry of a user's application list. */
  datatype UserApp = UserApp(applicationId: int, systemRole: Option<string>)

  /** The signed-in user; `userApplications` may be missing. */
  datatype CurrentUser = CurrentUser(id: string, systemRole: Option<string>, userApplications: Option<seq<UserApp>>)

  /** The user whose role is being changed. */
  datatype TargetUser = TargetUser(id: string, firstName: Option<string>, systemRole: Option<string>)

  /** The selected scope: `'global'`, or the numeric id of one application. */
  datatype Scope = Global | ForApp(appId: int)

  /** `list.find(p)`: the first entry satisfying `p`. */
  function Find(list: seq<UserApp>, p: UserApp -> bool): (r: Option<UserApp>)
    ensures r.Some? <==> exists k | 0 <= k < |list| :: p(list[k])
    ensures r.Some? ==> exists k | 0 <= k < |list| :: list[k] == r.value && p(list[k]) && forall m | 0 <= m < k :: !p(list[m])
  {
    if list == [] then None
    else if p(list[0]) then Some(list[0])
    else
      var rest := Find(list[1..], p);
      assert forall k | 1 <= k < |list| :: list[k] == list[1..][k - 1];
      rest
  }

  predicate ManagesApp(ua: UserApp, appId: int) {
    ua.applicationId == appId && ua.systemRole == Some(AppManager)
  }

  /**
   * `canChangeRole()`. `None` is the `TypeError` the source throws when no
   * user is signed in and an application scope is selected: its
   * `currentUser.systemRole` has no optional chaining.
   */
  function CanChangeRole(current: Option<CurrentUser>, scope: Scope): (r: Option<bool>)
    ensures r.None? <==> current.None? && scope.ForApp?
    ensures r == Some(true) ==>
      current.Some? && (current.value.systemRole == Some(Administrator)
                        || (scope.ForApp? && current.value.systemRole == Some(AppManager)))
  {
    var role := if current.Some? then current.value.systemRole else None;
    if scope.Global? then Some(role == Some(Administrator))
    else if role == Some(Administrator) then Some(true)
    else if current.None? then None
    else if role == Some(AppManager) then
      match current.value.userApplications
      case None => Some(false)
      case Some(uas) => Some(Find(uas, ua => ManagesApp(ua, scope.appId)).Some?)
    else Some(false)
  }

  /** The global scope is open exactly to administrators, and to nobody when nobody is signed in. */
  lemma GlobalScopeOnlyForAdministrators(current: Option<CurrentUser>)
    ensures CanChangeRole(current, Global) == Some(current.Some? && current.value.systemRole == Some(Administrator))
  {
  }

  /** An administrator may change the role in every application scope. */
  lemma AdministratorAlwaysAllowed(current: CurrentUser, scope: Scope)
    requires current.systemRole == Some(Administrator)
    ensures CanChangeRole(Some(current), scope) == Some(true)
  {
  }

  /**
   * An application manager may change the role in an application scope
   * exactly when their own list holds a manager entry for that application.
   */
  lemma ManagerAllowedIffManagesApp(current: CurrentUser, appId: int)
    requires current.systemRole == Some(AppManager)
    ensures CanChangeRole(Some(current), ForApp(appId)) ==
      Some(current.userApplications.Some? &&
           exists k | 0 <= k < |current.userApplications.value| :: ManagesApp(current.userApplications.value[k], appId))
  {
    if current.userApplications.Some? {
      var uas := current.userApplications.value;
      var r := Find(uas, ua => ManagesApp(ua, appId));
      assert r.Some? <==> exists k | 0 <= k < |uas| :: ManagesApp(uas[k], appId);
    }
  }

  /** Every other signed-in user is refused in every scope. */
  lemma OthersDenied(current: CurrentUser, scope: Scope)
    requires current.systemRole != Some(Administrator) && current.systemRole != Some(AppManager)
    ensures CanChangeRole(Some(current), scope) == Some(false)
  {
  }

  /** With nobody signed in, asking about an application scope throws. */
  lemma NobodySignedInThrowsForAppScope(appId: int)
    ensures CanChangeRole(None, ForApp(appId)).None?
  {
  }

  /**
   * `loading || !canChangeRole()`, the save button's `disabled`: always set
   * while saving, when the gate is not consulted; otherwise it throws along
   * with the gate (`None`), or is the gate's answer negated.
   */
  function SaveDisabled(loading: bool, can: Option<bool>): (d: Option<bool>)
    ensures loading ==> d == Some(true)
    ensures !loading ==> (d.None? <==> can.None?)
    ensures !loading && can.Some? ==> d == Some(!can.value)
  {
    if loading then Some(true)
    else match can
      case None => None
      case Some(b) => Some(!b)
  }

  /** Whenever the button can be pressed, the signed-in user may change the role in that scope. */
  lemma EnabledSaveIsPermitted(loading: bool, current: Option<CurrentUser>, scope: Scope)
    requires SaveDisabled(loading, CanChangeRole(current, scope)) == Some(false)
    ensures !loading && CanChangeRole(current, scope) == Some(true)
  {
  }

  predicate ForApplication(ua: UserApp, appId: int) {
    ua.applicationId == appId
  }

  /**
   * The role preselected for a scope: the target user's global role, or the
   * role of the first entry of their application list for that application,
   * either one defaulting to `'user'`.
   */
  function ScopeRole(user: Option<TargetUser>, userApps: seq<UserApp>, scope: Scope): (r: string)
    ensures r != ""
    ensures scope.Global? && user.Some? && Truthy(user.value.systemRole) ==> r == user.value.systemRole.value
    ensures scope.Global? && !(user.Some? && Truthy(user.value.systemRole)) ==> r == PlainUser
    ensures scope.ForApp? && (forall k | 0 <= k < |userApps| :: userApps[k].applicationId != scope.appId) ==> r == PlainUser
    ensures scope.ForApp? ==> forall k | 0 <= k < |userApps| ::
      (userApps[k].applicationId == scope.appId && Truthy(userApps[k].systemRole)
       && forall m | 0 <= m < k :: userApps[m].applicationId != scope.appId)
      ==> r == userApps[k].systemRole.value
    ensures scope.ForApp? ==> forall k | 0 <= k < |userApps| ::
      (userApps[k].applicationId == scope.appId && !Truthy(userApps[k].systemRole)
       && forall m | 0 <= m < k :: userApps[m].applicationId != scope.appId)
      ==> r == PlainUser
  {
    match scope
    case Global => Or(if user.Some? then user.value.systemRole else None, PlainUser)
    case ForApp(id) =>
      var found := Find(userApps, ua => ForApplication(ua, id));
      FirstMatchIsUnique(userApps, ua => ForApplication(ua, id), found);
      Or(if found.Some? then found.value.systemRole else None, PlainUser)
  }

  /** Two first matches are the same entry. */
  lemma FirstMatchIsUnique(list: seq<UserApp>, p: UserApp -> bool, found: Option<UserApp>)
    requires found == Find(list, p)
    ensures forall k | 0 <= k < |list| :: (p(list[k]) && forall m | 0 <= m < k :: !p(list[m])) ==> found == Some(list[k])
  {
    forall k | 0 <= k < |list| && p(list[k]) && forall m | 0 <= m < k :: !p(list[m])
      ensures found == Some(list[k])
    {
      var j :| 0 <= j < |list| && list[j] == found.value && p(list[j]) && forall m | 0 <= m < j :: !p(list[m]);
      assert !(j < k) && !(k < j);
    }
  }

  /** An application the scope select may list. */
  datatype AppOption = AppOption(id: int, displayName: Option<string>, display_name: Option<string>,
                                 isActive: Option<bool>, is_active: Option<bool>)

  predicate OfferedApp(a: AppOption) {
    a.isActive == Some(true) || a.is_active == Some(true)
  }

  /** `applications.filter(app => app.isActive || app.is_active)`. */
  function ActiveAppOptions(apps: seq<AppOption>): (r: seq<AppOption>)
    ensures |r| <= |apps|
    ensures forall a :: a in r <==> a in apps && OfferedApp(a)
  {
    if apps == [] then []
    else (if OfferedApp(apps[0]) then [apps[0]] else []) + ActiveAppOptions(apps[1..])
  }

  /** The filter keeps order: options from a concatenation are the options of each part in turn. */
  lemma {:induction false} ActiveAppOptionsAppend(xs: seq<AppOption>, ys: seq<AppOption>)
    ensures ActiveAppOptions(xs + ys) == ActiveAppOptions(xs) + ActiveAppOptions(ys)
    decreases |xs|
  {
    if xs == [] {
      assert xs + ys == ys;
    } else {
      assert (xs + ys)[0] == xs[0];
      assert (xs + ys)[1..] == xs[1..] + ys;
      ActiveAppOptionsAppend(xs[1..], ys);
    }
  }

  const AdministratorBadge: string := "bg-red-100 text-red-800 border border-red-200"
  const AppManagerBadge: string := "bg-blue-100 text-blue-800 border border-blue-200"
  const UserBadge: string := "bg-gray-100 text-gray-800 border border-gray-200"

  /** `getRoleBadgeClass`: the two privileged roles have their own badges; every other role, or none, the grey one. */
  function RoleBadgeClass(role: Option<string>): (c: string)
    ensures c == AdministratorBadge <==> role == Some(Administrator)
    ensures c == AppManagerBadge <==> role == Some(AppManager)
    ensures c == UserBadge <==> role != Some(Administrator) && role != Some(AppManager)
  {
    assert AdministratorBadge != AppManagerBadge && AdministratorBadge != UserBadge && AppManagerBadge != UserBadge;
    if role == Some(Administrator) then AdministratorBadge
    else if role == Some(AppManager) then AppManagerBadge
    else UserBadge
  }

  const AdministratorDescription: string := "Full system access - can manage all users, applications, and settings"
  const AppManagerDescription: string := "Can assign users and manage settings for specific applications"
  const UserDescription: string := "Can access assigned applications"

  /** `getRoleDescription`: one text per privileged role, and the `'user'` text for every other role. */
  function RoleDescription(role: Option<string>): (d: string)
    ensures d == AdministratorDescription <==> role == Some(Administrator)
    ensures d == AppManagerDescription <==> role == Some(AppManager)
    ensures d == UserDescription <==> role != Some(Administrator) && role != Some(AppManager)
  {
    assert AdministratorDescription != AppManagerDescription && AdministratorDescription != UserDescription;
    assert AppManagerDescription != UserDescription;
    if role == Some(Administrator) then AdministratorDescription
    else if role == Some(AppManager) then AppManagerDescription
    else UserDescription
  }

  /** Any role other than the two privileged ones, a missing one included, is styled and described as `'user'`. */
  lemma UnknownRoleFallsBackToUser(role: Option<string>)
    requires role != Some(Administrator) && role != Some(AppManager)
    ensures RoleBadgeClass(role) == RoleBadgeClass(Some(PlainUser))
    ensures RoleDescription(role) == RoleDescription(Some(PlainUser))
  {
  }

  /** `${x}` of a value that may be undefined. */
  function Interpolated(x: Option<string>): string {
    if x.Some? then x.value else "undefined"
  }

  /** One role-setting call: the global endpoint, or the per-application one. */
  datatype RoleCall =
    | SetGlobalSystemRole(userId: string, role: string, adminUserId: string)
    | SetAppSystemRole(userId: string, applicationId: int, role: string, adminUserId: string)

  const SaveFallback: string := "Failed to update role"
  const GlobalFallback: string := "Failed to set global system role"
  const AppFallback: string := "Failed to set app system role"

  /** What reading `.id` of a missing user throws; the save catches it. */
  const NullUserError: string := "Cannot read properties of null (reading 'id')"

  /** An application as the success message looks it up, by id. */
  datatype NamedApp = NamedApp(id: int, display_name: Option<string>)

  /** `applications.find(a => a.id === applicationId)`: the first application with that id. */
  function FindNamed(apps: seq<NamedApp>, id: int): (r: Option<NamedApp>)
    ensures r.Some? ==> r.value in apps && r.value.id == id
    ensures r.Some? ==> exists k | 0 <= k < |apps| :: apps[k] == r.value && forall j | 0 <= j < k :: apps[j].id != id
    ensures r.None? ==> forall a | a in apps :: a.id != id
  {
    if apps == [] then None else if apps[0].id == id then Some(apps[0]) else FindNamed(apps[1..], id)
  }

  /** The success banner of a save in a scope. */
  function SavedBanner(user: TargetUser, scope: Scope, role: string, apps: seq<NamedApp>): string {
    match scope
    case Global =>
      "Successfully updated " + Interpolated(user.firstName) + "'s global role to " + role
    case ForApp(id) =>
      var app := FindNamed(apps, id);
      "Successfully updated " + Interpolated(user.firstName) + "'s role for "
      + Interpolated(if app.Some? then app.value.display_name else None) + " to " + role
  }

  class RoleAssignmentDialog {
    var selectedScope: Scope
    var selectedRole: string
    var userApplications: seq<UserApp>
    var loading: bool
    var error: Option<string>
    var success: Option<string>
    var roleCalls: seq<RoleCall>
    var closeScheduled: bool

    constructor (user: Option<TargetUser>)
      ensures selectedScope == Global && selectedRole == ScopeRole(user, [], Global)
      ensures userApplications == [] && !loading && error == None && success == None
      ensures roleCalls == [] && !closeScheduled
    {
      selectedScope := Global;
      selectedRole := Or(if user.Some? then user.value.systemRole else None, PlainUser);
      userApplications := [];
      loading := false;
      error := None;
      success := None;
      roleCalls := [];
      closeScheduled := false;
    }

    /**
     * The open effect: with a user and an open dialog, resets the role to the
     * user's global one and loads their applications; `answer` is the
     * backend's answer to that load, whose failure leaves the list alone.
     */
    method Open(user: Option<TargetUser>, isOpen: bool, answer: WrapperAnswer<seq<UserApp>>)
      modifies this
      ensures user.Some? && isOpen ==> selectedRole == ScopeRole(user, userApplications, Global)
      ensures user.Some? && isOpen && answer.Body? ==> userApplications == answer.data.GetOr([])
      ensures !(user.Some? && isOpen && answer.Body?) ==> userApplications == old(userApplications)
      ensures !(user.Some? && isOpen) ==> selectedRole == old(selectedRole)
      ensures selectedScope == old(selectedScope) && loading == old(loading)
      ensures error == old(error) && success == old(success)
      ensures roleCalls == old(roleCalls) && closeScheduled == old(closeScheduled)
    {
      if user.Some? && isOpen {
        if answer.Body? {
          userApplications := answer.data.GetOr([]);
        }
        selectedRole := Or(user.value.systemRole, PlainUser);
      }
    }

    /** The scope select's `onChange`: switches scope and preselects that scope's role. */
    method ChangeScope(user: Option<TargetUser>, scope: Scope)
      modifies this
      ensures selectedScope == scope
      ensures selectedRole == ScopeRole(user, userApplications, scope)
      ensures userApplications == old(userApplications) && loading == old(loading)
      ensures error == old(error) && success == old(success)
      ensures roleCalls == old(roleCalls) && closeScheduled == old(closeScheduled)
    {
      selectedScope := scope;
      if scope.Global? {
        selectedRole := Or(if user.Some? then user.value.systemRole else None, PlainUser);
      } else {
        var userApp := Find(userApplications, ua => ForApplication(ua, scope.appId));
        selectedRole := Or(if userApp.Some? then userApp.value.systemRole else None, PlainUser);
      }
    }

    /**
     * `handleSave`: the global scope calls the global endpoint, an
     * application scope the per-application one with that id. A missing
     * user or signed-in user makes the call throw before it is sent.
     */
    method HandleSave(user: Option<TargetUser>, current: Option<CurrentUser>, apps: seq<NamedApp>,
                      answer: WrapperAnswer<bool>)
      modifies this
      ensures !loading
      ensures selectedScope == old(selectedScope) && selectedRole == old(selectedRole)
      ensures userApplications == old(userApplications)
      ensures (user.None? || current.None?) ==>
        && roleCalls == old(roleCalls) && error == Some(NullUserError) && success == None
        && closeScheduled == old(closeScheduled)
      ensures user.Some? && current.Some? ==>
        roleCalls == old(roleCalls) + [
          match selectedScope
          case Global => SetGlobalSystemRole(user.value.id, selectedRole, current.value.id)
          case ForApp(id) => SetAppSystemRole(user.value.id, id, selectedRole, current.value.id)]
      ensures user.Some? && current.Some? && answer.Body? && answer.success ==>
        && success == Some(SavedBanner(user.value, selectedScope, selectedRole, apps))
        && error == None && closeScheduled
      ensures user.Some? && current.Some? && !(answer.Body? && answer.success) ==>
        && error == Some(CallError(answer, if selectedScope.Global? then GlobalFallback else AppFallback, SaveFallback))
        && success == None && closeScheduled == old(closeScheduled)
    {
      loading := true;
      error := None;
      success := None;
      if user.None? || current.None? {
        error := Some(NullUserError);
      } else {
        var fallback: string;
        match selectedScope {
          case Global =>
            roleCalls := roleCalls + [SetGlobalSystemRole(user.value.id, selectedRole, current.value.id)];
            fallback := GlobalFallback;
          case ForApp(id) =>
            roleCalls := roleCalls + [SetAppSystemRole(user.value.id, id, selectedRole, current.value.id)];
            fallback := AppFallback;
        }
        if answer.Body? && answer.success {
          success := Some(SavedBanner(user.value, selectedScope, selectedRole, apps));
          closeScheduled := true;
        } else {
          error := Some(CallError(answer, fallback, SaveFallback));
        }
      }
      loading := false;
    }
  }
}
