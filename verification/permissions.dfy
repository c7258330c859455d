/** A user's permission list and the three mutations the permission-manager
    route applies to it, as pure functions. The handlers in PermissionRoute
    compute these step by step (through Mutations); the lemmas in
    PermissionLemmas state what they promise. */
module Permissions {
  import opened Optional

  type AppId = string
  type Role = string

  /** One element of a user's `permissions` list: the roles the user holds
      in one calling application. */
  datatype Permission = Permission(appId: AppId, roles: seq<Role>)

  /** `permissions.findIndex(p => p.appId === appId)`: the index of the first
      entry for `appId`, or -1 when there is none. */
  function AppIndex(ps: seq<Permission>, appId: AppId): (i: int)
    ensures -1 <= i < |ps|
    ensures i == -1 <==> forall j :: 0 <= j < |ps| ==> ps[j].appId != appId
    ensures 0 <= i ==> ps[i].appId == appId && forall j :: 0 <= j < i ==> ps[j].appId != appId
  {
    if |ps| == 0 then -1
    else if ps[0].appId == appId then 0
    else
      var k := AppIndex(ps[1..], appId);
      if k == -1 then -1 else k + 1
  }

  /** `s.indexOf(x)`: the index of the first occurrence of `x`, or -1. */
  function IndexOf<T(==)>(s: seq<T>, x: T): (i: int)
    ensures -1 <= i < |s|
    ensures i == -1 <==> x !in s
    ensures 0 <= i ==> s[i] == x && x !in s[..i]
  {
    if |s| == 0 then -1
    else if s[0] == x then 0
    else
      var k := IndexOf(s[1..], x);
      assert k >= 0 ==> s[..k + 1] == [s[0]] + s[1..][..k];
      if k == -1 then -1 else k + 1
  }

  /** `s.splice(i, 1)`: the sequence with the element at `i` taken out. */
  function RemoveAt<T>(s: seq<T>, i: nat): (r: seq<T>)
    requires i < |s|
    ensures |r| == |s| - 1
    ensures forall j :: 0 <= j < i ==> r[j] == s[j]
    ensures forall j :: i <= j < |r| ==> r[j] == s[j + 1]
    ensures multiset(r) == multiset(s) - multiset{s[i]}
  {
    assert s == s[..i] + [s[i]] + s[i + 1..];
    s[..i] + s[i + 1..]
  }

  /** `indexOf` followed by `splice` when the index is not -1: one occurrence
      of `x`, the first, is taken out; a sequence without `x` is unchanged. */
  function RemoveFirst<T(==)>(s: seq<T>, x: T): (r: seq<T>)
    ensures x !in s ==> r == s
    ensures x in s ==> |r| == |s| - 1 && multiset(r) == multiset(s) - multiset{x}
    ensures x in s ==> r[..IndexOf(s, x)] == s[..IndexOf(s, x)]
    ensures x in s ==> forall j :: IndexOf(s, x) <= j < |r| ==> r[j] == s[j + 1]
  {
    var k := IndexOf(s, x);
    if k == -1 then s else RemoveAt(s, k)
  }

  /** The roles of the first entry for `appId`, the one every handler acts on. */
  function RolesOf(ps: seq<Permission>, appId: AppId): Option<seq<Role>> {
    var i := AppIndex(ps, appId);
    if i == -1 then None else Some(ps[i].roles)
  }

  /** The first entry for `appId` exists and holds `role`: POST's test
      (`find`, then `roles.includes`) for answering without a write. */
  predicate HasRole(ps: seq<Permission>, appId: AppId, role: Role) {
    RolesOf(ps, appId).Some? && role in RolesOf(ps, appId).value
  }

  /** The entries for applications other than `appId`, in their order. */
  function OtherApps(ps: seq<Permission>, appId: AppId): seq<Permission> {
    if ps == [] then []
    else if ps[0].appId == appId then OtherApps(ps[1..], appId)
    else [ps[0]] + OtherApps(ps[1..], appId)
  }

  /** At most one entry per application. */
  predicate UniqueApps(ps: seq<Permission>) {
    forall i, j :: 0 <= i < j < |ps| ==> ps[i].appId != ps[j].appId
  }

  /** No entry whose roles are empty. */
  predicate NoEmptyRoles(ps: seq<Permission>) {
    forall i :: 0 <= i < |ps| ==> ps[i].roles != []
  }

  /** At most one entry per application and no entry with empty roles: POST
      and PATCH push a new entry only when `find`/`findIndex` found none, and
      DELETE splices out an entry its revoke left empty. */
  predicate WellFormed(ps: seq<Permission>) {
    UniqueApps(ps) && NoEmptyRoles(ps)
  }

  /** POST: grant `role` in `appId`. A role already held changes nothing; a
      missing role is pushed onto the entry's roles; a missing entry is pushed
      onto the list as `{appId, [role]}`. */
  function Grant(ps: seq<Permission>, appId: AppId, role: Role): seq<Permission> {
    var i := AppIndex(ps, appId);
    if i == -1 then ps + [Permission(appId, [role])]
    else if role in ps[i].roles then ps
    else ps[i := ps[i].(roles := ps[i].roles + [role])]
  }

  /** PATCH: in the entry for `appId`, take out the first `oldRole` if there
      is one, then push `newRole` in any case; a missing entry is pushed onto
      the list as `{appId, [newRole]}`. */
  function Replace(ps: seq<Permission>, appId: AppId, oldRole: Role, newRole: Role): seq<Permission> {
    var i := AppIndex(ps, appId);
    if i == -1 then ps + [Permission(appId, [newRole])]
    else ps[i := ps[i].(roles := RemoveFirst(ps[i].roles, oldRole) + [newRole])]
  }

  /** DELETE: in the entry for `appId`, take out the first `role`; an entry
      left without roles is taken out of the list. A missing entry or role
      changes nothing. */
  function Revoke(ps: seq<Permission>, appId: AppId, role: Role): seq<Permission> {
    var i := AppIndex(ps, appId);
    if i == -1 then ps
    else
      var k := IndexOf(ps[i].roles, role);
      if k == -1 then ps
      else
        var rest := RemoveAt(ps[i].roles, k);
        if |rest| == 0 then RemoveAt(ps, i)
        else ps[i := ps[i].(roles := rest)]
  }
}
