/**
 * The role editor (frontend/src/pages/RoleManagement.jsx): toggling single
 * permissions and whole modules in the role form, grouping the permission
 * catalogue by module, and expanding a role's row with its permissions
 * fetched once and cached.
 */
module Roles {
  import opened Common

  datatype Permission = Permission(id: int, code: string, moduleName: string)

  // ---------------------------------------------------------------------
  // Selection toggles
  // ---------------------------------------------------------------------

  /** Every occurrence of `x` removed (`filter((id) => id !== x)`). */
  function Remove(ids: seq<int>, x: int): (r: seq<int>)
    ensures forall y :: y in r <==> y in ids && y != x
    ensures NoDuplicates(ids) ==> NoDuplicates(r)
  {
    if ids == [] then []
    else
      var init := Remove(ids[..|ids| - 1], x);
      var last := ids[|ids| - 1];
      assert forall y :: y in ids <==> y in ids[..|ids| - 1] || y == last;
      assert NoDuplicates(ids) ==> NoDuplicates(ids[..|ids| - 1]) && last !in ids[..|ids| - 1];
      if last == x then init else init + [last]
  }

  lemma {:induction false} RemoveAbsent(ids: seq<int>, x: int)
    requires x !in ids
    ensures Remove(ids, x) == ids
  {
    if ids != [] {
      RemoveAbsent(ids[..|ids| - 1], x);
      InitLast(ids);
    }
  }

  /** `togglePermission`: drop the id when selected, else append it. */
  function TogglePermission(ids: seq<int>, id: int): (r: seq<int>)
    ensures id in ids ==> id !in r
    ensures id !in ids ==> r == ids + [id]
    ensures forall y :: y != id ==> (y in r <==> y in ids)
    ensures NoDuplicates(ids) ==> NoDuplicates(r)
  {
    if id in ids then Remove(ids, id) else ids + [id]
  }

  /** Toggling twice gives back the same selection; an id that was not selected leaves the list exactly as it was. */
  lemma ToggleTwice(ids: seq<int>, id: int)
    ensures forall y :: y in TogglePermission(TogglePermission(ids, id), id) <==> y in ids
    ensures id !in ids ==> TogglePermission(TogglePermission(ids, id), id) == ids
  {
    if id !in ids {
      RemoveAbsent(ids, id);
      assert Remove(ids + [id], id) == Remove(ids, id);
    }
  }

  /** Every id not in `moduleIds` kept, in order (`filter((id) => !modulePermIds.includes(id))`). */
  function RemoveAll(ids: seq<int>, moduleIds: seq<int>): (r: seq<int>)
    ensures forall y :: y in r <==> y in ids && y !in moduleIds
  {
    if ids == [] then []
    else
      var init := RemoveAll(ids[..|ids| - 1], moduleIds);
      var last := ids[|ids| - 1];
      assert forall y :: y in ids <==> y in ids[..|ids| - 1] || y == last;
      if last in moduleIds then init else init + [last]
  }

  predicate AllSelected(ids: seq<int>, moduleIds: seq<int>)
  {
    forall i :: 0 <= i < |moduleIds| ==> moduleIds[i] in ids
  }

  /**
   * `toggleModulePermissions`: when every id of the moduleIds is selected,
   * remove them all; otherwise add the missing ones, keeping each id once.
   */
  function ToggleModule(ids: seq<int>, moduleIds: seq<int>): (r: seq<int>)
    ensures AllSelected(ids, moduleIds) ==> forall y :: y in r <==> y in ids && y !in moduleIds
    ensures !AllSelected(ids, moduleIds) ==> NoDuplicates(r) && forall y :: y in r <==> y in ids || y in moduleIds
    ensures forall y :: y !in moduleIds ==> (y in r <==> y in ids)
  {
    if AllSelected(ids, moduleIds) then RemoveAll(ids, moduleIds) else Distinct(ids + moduleIds)
  }

  /** A second moduleIds toggle after one that selected the moduleIds clears it again. */
  lemma ToggleModuleTwiceClears(ids: seq<int>, moduleIds: seq<int>)
    requires !AllSelected(ids, moduleIds)
    ensures forall y :: y in ToggleModule(ToggleModule(ids, moduleIds), moduleIds) <==> y in ids && y !in moduleIds
  {
    var once := ToggleModule(ids, moduleIds);
    assert AllSelected(once, moduleIds);
  }

  // ---------------------------------------------------------------------
  // groupedPermissions
  // ---------------------------------------------------------------------

  /** The permissions of one module, in catalogue order. */
  function OfModule(perms: seq<Permission>, moduleName: string): (r: seq<Permission>)
    ensures forall p :: p in r <==> p in perms && p.moduleName == moduleName
  {
    if perms == [] then []
    else
      var init := OfModule(perms[..|perms| - 1], moduleName);
      var last := perms[|perms| - 1];
      assert forall p :: p in perms <==> p in perms[..|perms| - 1] || p == last;
      if last.moduleName == moduleName then init + [last] else init
  }

  lemma {:induction false} NoneOfModule(perms: seq<Permission>, moduleName: string)
    requires forall p :: p in perms ==> p.moduleName != moduleName
    ensures OfModule(perms, moduleName) == []
  {
    if perms != [] {
      NoneOfModule(perms[..|perms| - 1], moduleName);
    }
  }

  /** `groupedPermissions`: the `reduce` that pushes each permission onto its module's list. */
  method GroupByModule(perms: seq<Permission>) returns (groups: map<string, seq<Permission>>)
    ensures forall m :: m in groups <==> exists p :: p in perms && p.moduleName == m
    ensures forall m :: m in groups ==> groups[m] == OfModule(perms, m)
  {
    groups := map[];
    for i := 0 to |perms|
      invariant forall m :: m in groups <==> exists p :: p in perms[..i] && p.moduleName == m
      invariant forall m :: m in groups ==> groups[m] == OfModule(perms[..i], m)
    {
      var p := perms[i];
      assert perms[..i + 1] == perms[..i] + [p];
      assert perms[..i + 1][..i] == perms[..i];
      if p.moduleName !in groups {
        groups := groups[p.moduleName := []];
        NoneOfModule(perms[..i], p.moduleName);
      }
      groups := groups[p.moduleName := groups[p.moduleName] + [p]];
    }
    assert perms[..|perms|] == perms;
  }

  /** The groups partition the catalogue: each permission is in its own module's group and in no other. */
  lemma GroupsPartition(perms: seq<Permission>, p: Permission, m: string)
    requires p in perms
    ensures p in OfModule(perms, p.moduleName)
    ensures m != p.moduleName ==> p !in OfModule(perms, m)
  {
  }

  /** Within a group the permissions keep their catalogue order. */
  lemma {:induction false} GroupKeepsOrder(perms: seq<Permission>, m: string, i: int, j: int)
    requires NoDuplicates(perms)
    requires 0 <= i < j < |OfModule(perms, m)|
    ensures exists a, b :: 0 <= a < b < |perms| && perms[a] == OfModule(perms, m)[i] && perms[b] == OfModule(perms, m)[j]
  {
    var init := perms[..|perms| - 1];
    var last := perms[|perms| - 1];
    var g := OfModule(perms, m);
    assert NoDuplicates(init);
    if last.moduleName == m && j == |g| - 1 {
      assert g[i] in OfModule(init, m);
      var a :| 0 <= a < |init| && init[a] == g[i];
      assert perms[a] == g[i] && perms[|perms| - 1] == g[j];
    } else {
      assert g[i] == OfModule(init, m)[i] && g[j] == OfModule(init, m)[j];
      GroupKeepsOrder(init, m, i, j);
      var a, b :| 0 <= a < b < |init| && init[a] == g[i] && init[b] == g[j];
      assert perms[a] == init[a] && perms[b] == init[b];
    }
  }

  // ---------------------------------------------------------------------
  // Expanding a role
  // ---------------------------------------------------------------------

  /** The expanded row and the cache of fetched role permissions. */
  class RoleExpansion {
    var expanded: Option<int>
    var cache: map<int, seq<Permission>>

    constructor()
      ensures expanded == None && cache == map[]
    {
      expanded := None;
      cache := map[];
    }

    /**
     * `toggleRoleExpansion`. `response` is what `getRole` returns when it is
     * called (None when the request fails). Reports whether it was called.
     */
    method Toggle(roleId: int, response: Option<seq<Permission>>) returns (fetched: bool)
      modifies this
      ensures old(expanded) == Some(roleId) ==> expanded == None && cache == old(cache) && !fetched
      ensures old(expanded) != Some(roleId) ==> expanded == Some(roleId)
      ensures fetched <==> old(expanded) != Some(roleId) && roleId !in old(cache)
      ensures fetched && response.Some? ==> cache == old(cache)[roleId := response.value]
      ensures !(fetched && response.Some?) ==> cache == old(cache)
    {
      if expanded == Some(roleId) {
        expanded := None;
        return false;
      }
      expanded := Some(roleId);
      fetched := false;
      if roleId !in cache {
        fetched := true;
        if response.Some? {
          cache := cache[roleId := response.value];
        }
      }
    }
  }

  /** Once a role's permissions are cached, expanding it again never fetches. */
  method CachedRoleNotRefetched(view: RoleExpansion, roleId: int, perms: seq<Permission>, later: Option<seq<Permission>>)
    returns (first: bool, second: bool)
    requires view.expanded == None && roleId !in view.cache
    modifies view
    ensures first && !second
    ensures roleId in view.cache && view.cache[roleId] == perms
  {
    first := view.Toggle(roleId, Some(perms));
    var _ := view.Toggle(roleId, later);
    second := view.Toggle(roleId, later);
  }
}
