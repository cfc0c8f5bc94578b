/**
 * Permission checks: the backend service
 * (backend/app/services/permission_service.py) that decides from the
 * user's role, and the frontend hook (frontend/src/hooks/usePermissions.jsx)
 * that decides from the list of codes the backend sent.
 *
 * The role-permission join is a sequence of grants; a role id of 0 stands
 * for a user without a role.
 */
module Permissions {
  import opened Common

  const SuperAdmin: string := "SUPER_ADMIN"
  const Wildcard: string := "*"

  datatype User = User(legacyRole: string, roleId: int)

  /** A row of the role-permission join: role `roleId` holds permission `code`. */
  datatype Grant = Grant(roleId: int, code: string)

  /** The codes granted to a role, in join order. */
  function RoleCodes(grants: seq<Grant>, roleId: int): (r: seq<string>)
    ensures forall c :: c in r <==> Grant(roleId, c) in grants
  {
    if grants == [] then []
    else
      var init := RoleCodes(grants[..|grants| - 1], roleId);
      var g := grants[|grants| - 1];
      assert forall x :: x in grants <==> x in grants[..|grants| - 1] || x == g;
      if g.roleId == roleId then init + [g.code] else init
  }

  /** `get_user_permissions`: ["*"] for a super admin, [] without a role, else the role's codes. */
  function UserPermissions(user: User, grants: seq<Grant>): (r: seq<string>)
    ensures user.legacyRole == SuperAdmin ==> r == [Wildcard]
    ensures user.legacyRole != SuperAdmin && user.roleId == 0 ==> r == []
    ensures user.legacyRole != SuperAdmin && user.roleId != 0 ==> forall c :: c in r <==> Grant(user.roleId, c) in grants
  {
    if user.legacyRole == SuperAdmin then [Wildcard]
    else if user.roleId == 0 then []
    else RoleCodes(grants, user.roleId)
  }

  /** `has_permission`: a super admin always; without a role never; else iff the role holds the code. */
  predicate HasPermission(user: User, code: string, grants: seq<Grant>)
  {
    if user.legacyRole == SuperAdmin then true
    else if user.roleId == 0 then false
    else exists g :: g in grants && g.roleId == user.roleId && g.code == code
  }

  lemma HasPermissionCases(user: User, code: string, grants: seq<Grant>)
    ensures user.legacyRole == SuperAdmin ==> HasPermission(user, code, grants)
    ensures user.legacyRole != SuperAdmin ==>
      (HasPermission(user, code, grants) <==> user.roleId != 0 && code in UserPermissions(user, grants))
  {
    if user.legacyRole != SuperAdmin && user.roleId != 0 && code in UserPermissions(user, grants) {
      assert Grant(user.roleId, code) in grants;
    }
  }

  /** `has_any_permission`: the loop with its early return. */
  method HasAnyPermission(user: User, codes: seq<string>, grants: seq<Grant>) returns (b: bool)
    ensures b <==> user.roleId != 0 && exists i :: 0 <= i < |codes| && HasPermission(user, codes[i], grants)
  {
    if user.roleId == 0 {
      return false;
    }
    for i := 0 to |codes|
      invariant forall j :: 0 <= j < i ==> !HasPermission(user, codes[j], grants)
    {
      if HasPermission(user, codes[i], grants) {
        return true;
      }
    }
    return false;
  }

  /** `has_all_permissions`: the loop with its early return. */
  method HasAllPermissions(user: User, codes: seq<string>, grants: seq<Grant>) returns (b: bool)
    ensures b <==> user.roleId != 0 && forall i :: 0 <= i < |codes| ==> HasPermission(user, codes[i], grants)
  {
    if user.roleId == 0 {
      return false;
    }
    for i := 0 to |codes|
      invariant forall j :: 0 <= j < i ==> HasPermission(user, codes[j], grants)
    {
      if !HasPermission(user, codes[i], grants) {
        return false;
      }
    }
    return true;
  }

  /**
   * A super admin without a role passes `has_permission` for any code, yet
   * `has_any_permission` of that one code refuses: an endpoint guarded by
   * `require_any_permission` is closed to them.
   */
  method SuperAdminWithoutRoleRefusedAny() returns (single: bool, anyOf: bool)
    ensures single && !anyOf
  {
    var admin := User(SuperAdmin, 0);
    single := HasPermission(admin, "reports.view", []);
    anyOf := HasAnyPermission(admin, ["reports.view"], []);
  }

  predicate Privileged(user: User)
  {
    user.legacyRole == SuperAdmin || user.roleId != 0
  }

  /** `has_any_permission` with the super-admin rule ahead of the role test, as `has_permission` has it. */
  function HasAnyPermissionAdminFirst(user: User, codes: seq<string>, grants: seq<Grant>): (b: bool)
    ensures b <==> Privileged(user) && exists i :: 0 <= i < |codes| && HasPermission(user, codes[i], grants)
  {
    if user.legacyRole != SuperAdmin && user.roleId == 0 then false
    else if codes == [] then false
    else HasPermission(user, codes[0], grants) || HasAnyPermissionAdminFirst(user, codes[1..], grants)
  }

  /** With the super-admin rule first, any-of a single code is exactly `has_permission`. */
  lemma AdminFirstAnyOfOne(user: User, code: string, grants: seq<Grant>)
    ensures HasAnyPermissionAdminFirst(user, [code], grants) == HasPermission(user, code, grants)
  {
  }

  // ---------------------------------------------------------------------
  // usePermissions
  // ---------------------------------------------------------------------

  /** `hasPermission`. */
  predicate UiHas(permissions: seq<string>, code: string)
  {
    Wildcard in permissions || code in permissions
  }

  /** `hasAnyPermission`. */
  predicate UiHasAny(permissions: seq<string>, codes: seq<string>)
  {
    Wildcard in permissions || exists i :: 0 <= i < |codes| && codes[i] in permissions
  }

  /** `hasAllPermissions`. */
  predicate UiHasAll(permissions: seq<string>, codes: seq<string>)
  {
    Wildcard in permissions || forall i :: 0 <= i < |codes| ==> codes[i] in permissions
  }

  /** One code: any-of and all-of both reduce to the single check. */
  lemma UiSingleCode(permissions: seq<string>, code: string)
    ensures UiHasAny(permissions, [code]) == UiHas(permissions, code)
    ensures UiHasAll(permissions, [code]) == UiHas(permissions, code)
  {
    assert [code][0] == code;
  }

  /** No codes: all-of holds, any-of only with the wildcard. */
  lemma UiEmptyCodes(permissions: seq<string>)
    ensures UiHasAll(permissions, [])
    ensures UiHasAny(permissions, []) <==> Wildcard in permissions
  {
  }

  /** Any-of and all-of are the single check taken over some code or over every code. */
  lemma UiAnyIsSomeSingle(permissions: seq<string>, codes: seq<string>)
    ensures UiHasAny(permissions, codes) <==> Wildcard in permissions || exists i :: 0 <= i < |codes| && UiHas(permissions, codes[i])
    ensures UiHasAll(permissions, codes) <==> Wildcard in permissions || forall i :: 0 <= i < |codes| ==> UiHas(permissions, codes[i])
  {
  }

  /** After a failed load the list is empty: every single and any-of check fails. */
  lemma UiFailedLoadDenies(code: string, codes: seq<string>)
    ensures !UiHas([], code) && !UiHasAny([], codes)
  {
  }

  /**
   * `get_my_permissions`, the endpoint the hook loads from: a super admin
   * gets every permission in the catalogue (not the wildcard), a user
   * without a role nothing, anyone else the codes of their role.
   */
  function MyPermissions(user: User, catalogue: seq<string>, grants: seq<Grant>): (r: seq<string>)
    ensures user.legacyRole == SuperAdmin ==> r == catalogue
    ensures user.legacyRole != SuperAdmin && user.roleId == 0 ==> r == []
    ensures user.legacyRole != SuperAdmin && user.roleId != 0 ==> forall c :: c in r <==> Grant(user.roleId, c) in grants
  {
    if user.legacyRole == SuperAdmin then catalogue
    else if user.roleId == 0 then []
    else RoleCodes(grants, user.roleId)
  }

  /**
   * On the list `get_my_permissions` sends, the hook's single check gives
   * the backend's answer for every code in the catalogue, as long as no
   * permission is spelled "*"; for a super admin a code outside the
   * catalogue is refused by the hook though the backend admits it.
   */
  lemma {:induction false} UiAgreesWithBackend(user: User, code: string, catalogue: seq<string>, grants: seq<Grant>)
    requires Wildcard !in catalogue
    requires forall g :: g in grants ==> g.code != Wildcard
    ensures code in catalogue ==> UiHas(MyPermissions(user, catalogue, grants), code) == HasPermission(user, code, grants)
    ensures user.legacyRole == SuperAdmin ==> (UiHas(MyPermissions(user, catalogue, grants), code) <==> code in catalogue)
    ensures user.legacyRole != SuperAdmin ==> UiHas(MyPermissions(user, catalogue, grants), code) == HasPermission(user, code, grants)
  {
    HasPermissionCases(user, code, grants);
    if user.legacyRole != SuperAdmin && user.roleId != 0 {
      assert MyPermissions(user, catalogue, grants) == UserPermissions(user, grants);
    }
  }
}
