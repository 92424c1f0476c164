/**
 * The roles page: a fixed list of roles, its application filter, the
 * permission colours and labels, the statistics strip and the permission
 * matrix.
 */
module RolesPage {
  import opened JsStrings

  datatype Role = Role(id: string, name: string, applicationId: string, permissions: seq<string>, userCount: nat)

  /** The page's fixed role list. */
  const SeedRoles: seq<Role> := [
    Role("1", "Admin", "1", ["read", "write", "delete", "manage_users", "manage_settings"], 3),
    Role("2", "Sales Manager", "1", ["read", "write", "manage_team"], 5),
    Role("3", "Sales Rep", "1", ["read", "write"], 17),
    Role("4", "Calculator Admin", "2", ["read", "write", "manage_rates", "export_data"], 2),
    Role("5", "Permit Manager", "3", ["read", "write", "approve_permits", "manage_documents"], 8),
    Role("6", "HubSpot Sync Admin", "4", ["read", "write", "manage_sync", "configure_mappings"], 4)
  ]

  const AllApplications: string := "all"

  function ForApplication(roles: seq<Role>, appId: string): (r: seq<Role>)
    ensures |r| <= |roles|
    ensures forall k | 0 <= k < |r| :: r[k].applicationId == appId
    ensures forall x :: x in r <==> x in roles && x.applicationId == appId
  {
    if roles == [] then []
    else (if roles[0].applicationId == appId then [roles[0]] else []) + ForApplication(roles[1..], appId)
  }

  /** `filteredRoles`: all roles for `'all'`, otherwise exactly the roles of that application. */
  function FilteredRoles(roles: seq<Role>, selectedApp: string): (r: seq<Role>)
    ensures selectedApp == AllApplications ==> r == roles
    ensures selectedApp != AllApplications ==> r == ForApplication(roles, selectedApp)
  {
    if selectedApp == AllApplications then roles else ForApplication(roles, selectedApp)
  }

  /** The application filter keeps order: filtering a concatenation filters each part in turn. */
  lemma {:induction false} ForApplicationAppend(xs: seq<Role>, ys: seq<Role>, appId: string)
    ensures ForApplication(xs + ys, appId) == ForApplication(xs, appId) + ForApplication(ys, appId)
    decreases |xs|
  {
    if xs == [] {
      assert xs + ys == ys;
    } else {
      assert (xs + ys)[0] == xs[0];
      assert (xs + ys)[1..] == xs[1..] + ys;
      ForApplicationAppend(xs[1..], ys, appId);
    }
  }

  /** The colour table behind `getPermissionColor`. */
  const PermissionColors: map<string, string> := map[
    "read" := "bg-green-100 text-green-800",
    "write" := "bg-blue-100 text-blue-800",
    "delete" := "bg-red-100 text-red-800",
    "manage_users" := "bg-purple-100 text-purple-800",
    "manage_settings" := "bg-orange-100 text-orange-800",
    "manage_team" := "bg-indigo-100 text-indigo-800",
    "manage_rates" := "bg-yellow-100 text-yellow-800",
    "export_data" := "bg-pink-100 text-pink-800",
    "approve_permits" := "bg-teal-100 text-teal-800",
    "manage_documents" := "bg-cyan-100 text-cyan-800",
    "manage_sync" := "bg-lime-100 text-lime-800",
    "configure_mappings" := "bg-amber-100 text-amber-800"
  ]

  const DefaultPermissionColor: string := "bg-gray-100 text-gray-800"

  /** `colors[permission] || 'bg-gray-100 text-gray-800'`. */
  function PermissionColor(permission: string): (c: string)
    ensures permission in PermissionColors ==> c == PermissionColors[permission]
    ensures permission !in PermissionColors ==> c == DefaultPermissionColor
    ensures c != ""
  {
    if permission in PermissionColors && PermissionColors[permission] != "" then PermissionColors[permission]
    else DefaultPermissionColor
  }

  /** Every permission of the fixed roles has its own colour rather than the default. */
  lemma SeedPermissionsAreColoured()
    ensures forall r, p | r in SeedRoles && p in r.permissions :: p in PermissionColors
  {
  }

  /** `roles.reduce((sum, role) => sum + role.userCount, 0)`. */
  function TotalAssignments(roles: seq<Role>): (n: nat)
    ensures forall k | 0 <= k < |roles| :: roles[k].userCount <= n
    ensures n == 0 <==> forall k | 0 <= k < |roles| :: roles[k].userCount == 0
  {
    if roles == [] then 0
    else
      var rest := TotalAssignments(roles[1..]);
      assert forall k | 1 <= k < |roles| :: roles[k] == roles[1..][k - 1];
      roles[0].userCount + rest
  }

  lemma {:induction false} TotalAssignmentsAppend(xs: seq<Role>, ys: seq<Role>)
    ensures TotalAssignments(xs + ys) == TotalAssignments(xs) + TotalAssignments(ys)
    decreases |xs|
  {
    if xs == [] {
      assert xs + ys == ys;
    } else {
      assert (xs + ys)[0] == xs[0];
      assert (xs + ys)[1..] == xs[1..] + ys;
      TotalAssignmentsAppend(xs[1..], ys);
    }
  }

  /** The per-application totals add up to the page total. */
  lemma {:induction false} TotalSplitsByApplication(roles: seq<Role>, appId: string)
    ensures TotalAssignments(ForApplication(roles, appId)) <= TotalAssignments(roles)
    decreases |roles|
  {
    if roles != [] {
      TotalSplitsByApplication(roles[1..], appId);
      var head := if roles[0].applicationId == appId then [roles[0]] else [];
      TotalAssignmentsAppend(head, ForApplication(roles[1..], appId));
      assert head == [] || head[1..] == [];
    }
  }

  /** `new Set(roles.map(role => role.applicationId))`. */
  function ApplicationIds(roles: seq<Role>): (ids: set<string>)
    ensures forall a :: a in ids <==> exists k | 0 <= k < |roles| :: roles[k].applicationId == a
  {
    if roles == [] then {} else {roles[0].applicationId} + ApplicationIds(roles[1..])
  }

  /** `new Set(roles.flatMap(role => role.permissions))`. */
  function UniquePermissions(roles: seq<Role>): (ps: set<string>)
    ensures forall p :: p in ps <==> exists k | 0 <= k < |roles| :: p in roles[k].permissions
  {
    if roles == [] then {}
    else
      var rest := UniquePermissions(roles[1..]);
      assert forall k | 1 <= k < |roles| :: roles[k] == roles[1..][k - 1];
      (set p | p in roles[0].permissions) + rest
  }

  /** There are never more distinct applications than roles. */
  lemma {:induction false} ApplicationCountBounded(roles: seq<Role>)
    ensures |ApplicationIds(roles)| <= |roles|
    decreases |roles|
  {
    if roles != [] {
      ApplicationCountBounded(roles[1..]);
    }
  }

  /** With the fixed roles the strip shows 6 roles and 39 assignments. */
  lemma SeedTotals()
    ensures |SeedRoles| == 6
    ensures TotalAssignments(SeedRoles) == 39
  {
    var s := SeedRoles;
    assert TotalAssignments(s[5..]) == 4 by { assert s[5..][1..] == []; }
    assert s[4..][1..] == s[5..] && s[3..][1..] == s[4..] && s[2..][1..] == s[3..];
    assert s[1..][1..] == s[2..] && s[0..][1..] == s[1..] && s[0..] == s;
  }

  /** With the fixed roles the applications are 1 to 4. */
  lemma SeedApplicationIds()
    ensures ApplicationIds(SeedRoles) == {"1", "2", "3", "4"}
  {
    var s := SeedRoles;
    assert ApplicationIds(s[5..]) == {"4"} by { assert s[5..][1..] == []; }
    assert ApplicationIds(s[4..]) == {"3", "4"} by { assert s[4..][1..] == s[5..]; }
    assert ApplicationIds(s[3..]) == {"2", "3", "4"} by { assert s[3..][1..] == s[4..]; }
    assert ApplicationIds(s[2..]) == {"1", "2", "3", "4"} by { assert s[2..][1..] == s[3..]; }
    assert ApplicationIds(s[1..]) == {"1", "2", "3", "4"} by { assert s[1..][1..] == s[2..]; }
    assert s[0..][1..] == s[1..] && s[0..] == s;
  }

  /** So the strip counts 4 applications. */
  lemma SeedApplicationCount()
    ensures |ApplicationIds(SeedRoles)| == 4
  {
    SeedApplicationIds();
    assert "1"[0] != "2"[0] && "1"[0] != "3"[0] && "1"[0] != "4"[0];
    assert "2"[0] != "3"[0] && "2"[0] != "4"[0] && "3"[0] != "4"[0];
    FourDistinct("1", "2", "3", "4");
  }

  lemma FourDistinct(a: string, b: string, c: string, d: string)
    requires a != b && a != c && a != d && b != c && b != d && c != d
    ensures |{a, b, c, d}| == 4
  {
    assert {a, b, c, d} == {a} + {b} + {c} + {d};
    assert |{a} + {b}| == 2;
    assert |{a} + {b} + {c}| == 3;
  }

  /** Every entry of the colour table is a permission of some fixed role. */
  lemma SeedColoursAreUsed()
    ensures forall p | p in PermissionColors :: p in UniquePermissions(SeedRoles)
  {
    var s := SeedRoles;
    forall p | p in PermissionColors ensures p in UniquePermissions(s) {
      var k := if p in s[0].permissions then 0 else if p in s[1].permissions then 1
        else if p in s[3].permissions then 3 else if p in s[4].permissions then 4 else 5;
      assert p in s[k].permissions;
    }
  }

  /** With the fixed roles the distinct permissions are exactly the twelve the colour table names. */
  lemma SeedPermissionSet()
    ensures UniquePermissions(SeedRoles) == PermissionColors.Keys
  {
    SeedPermissionsAreColoured();
    SeedColoursAreUsed();
  }

  /** `permission.replace('_', ' ')`: only the first underscore becomes a space. */
  function PermissionLabel(p: string): (r: string)
    ensures |r| == |p|
    ensures forall k | 0 <= k < |p| ::
      r[k] == if p[k] == '_' && (forall m | 0 <= m < k :: p[m] != '_') then ' ' else p[k]
  {
    if p == "" then ""
    else if p[0] == '_' then " " + p[1..]
    else
      var rest := PermissionLabel(p[1..]);
      assert forall k | 1 <= k < |p| :: p[k] == p[1..][k - 1];
      [p[0]] + rest
  }

  /** A label with a second underscore keeps it: `a_b_c` reads `a b_c`. */
  lemma PermissionLabelExample()
    ensures PermissionLabel("a_b_c") == "a b_c"
  {
    var p, r := "a_b_c", PermissionLabel("a_b_c");
    assert p[0] != '_' && p[1] == '_' && p[3] == '_';
    assert r[0] == 'a' && r[1] == ' ' && r[2] == 'b' && r[3] == '_' && r[4] == 'c';
  }

  /** The matrix's three columns. */
  predicate HasRead(r: Role) { "read" in r.permissions }
  predicate HasWrite(r: Role) { "write" in r.permissions }

  /**
   * `role.permissions.some(p => p.includes('manage'))`: in particular any
   * `manage_…` permission ticks the column.
   */
  predicate HasManage(r: Role)
    ensures (exists k | 0 <= k < |r.permissions| :: "manage" <= r.permissions[k]) ==> HasManage(r)
  {
    exists k | 0 <= k < |r.permissions| :: Contains(r.permissions[k], "manage")
  }

  /** The three columns depend only on which permissions a role holds, not on their order or repetition. */
  lemma MatrixDependsOnPermissions(r1: Role, r2: Role)
    requires forall p :: p in r1.permissions <==> p in r2.permissions
    ensures HasRead(r1) == HasRead(r2) && HasWrite(r1) == HasWrite(r2) && HasManage(r1) == HasManage(r2)
  {
    if HasManage(r1) {
      var k :| 0 <= k < |r1.permissions| && Contains(r1.permissions[k], "manage");
      assert r1.permissions[k] in r2.permissions;
      var j :| 0 <= j < |r2.permissions| && r2.permissions[j] == r1.permissions[k];
    }
    if HasManage(r2) {
      var k :| 0 <= k < |r2.permissions| && Contains(r2.permissions[k], "manage");
      assert r2.permissions[k] in r1.permissions;
      var j :| 0 <= j < |r1.permissions| && r1.permissions[j] == r2.permissions[k];
    }
  }

  lemma ReadWriteDoNotManage()
    ensures !Contains("read", "manage") && !Contains("write", "manage")
  {
    assert "read"[1..] == "ead" && "ead"[1..] == "ad" && "ad"[1..] == "d" && "d"[1..] == "";
    assert "write"[1..] == "rite" && "rite"[1..] == "ite" && "ite"[1..] == "te" && "te"[1..] == "e" && "e"[1..] == "";
  }

  /** Every fixed role can read and write; all but the sales representative can manage. */
  lemma SeedMatrix()
    ensures forall k | 0 <= k < |SeedRoles| :: HasRead(SeedRoles[k]) && HasWrite(SeedRoles[k])
    ensures !HasManage(SeedRoles[2])
    ensures forall k | 0 <= k < |SeedRoles| && k != 2 :: HasManage(SeedRoles[k])
  {
    SalesRepCannotManage();
    OthersManage();
  }

  lemma SalesRepCannotManage()
    ensures !HasManage(SeedRoles[2])
  {
    ReadWriteDoNotManage();
    var ps := SeedRoles[2].permissions;
    assert ps == ["read", "write"];
    assert forall m | 0 <= m < |ps| :: !Contains(ps[m], "manage");
  }

  lemma OthersManage()
    ensures forall k | 0 <= k < |SeedRoles| && k != 2 :: HasManage(SeedRoles[k])
  {
    var s := SeedRoles;
    assert Contains(s[0].permissions[3], "manage");
    assert Contains(s[1].permissions[2], "manage");
    assert Contains(s[3].permissions[2], "manage");
    assert Contains(s[4].permissions[3], "manage");
    assert Contains(s[5].permissions[2], "manage");
  }
}
