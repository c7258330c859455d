/** The handlers' list surgery, step by step: the searches `findIndex` and
    `indexOf` as linear scans, then `push` and `splice` on the fetched
    permission list. Each method is proved to compute the function of
    Permissions that specifies it. */
module Mutations {
  import opened Permissions

  /** `permissions.findIndex(p => p.appId === appId)` (also what `find` looks at). */
  method FindAppIndex(ps: seq<Permission>, appId: AppId) returns (index: int)
    ensures index == AppIndex(ps, appId)
  {
    index := 0;
    while index < |ps|
      invariant 0 <= index <= |ps|
      invariant forall j :: 0 <= j < index ==> ps[j].appId != appId
    {
      if ps[index].appId == appId {
        return;
      }
      index := index + 1;
    }
    index := -1;
  }

  /** `roles.indexOf(role)`. */
  method FindRole(roles: seq<Role>, role: Role) returns (index: int)
    ensures index == IndexOf(roles, role)
  {
    index := 0;
    while index < |roles|
      invariant 0 <= index <= |roles|
      invariant role !in roles[..index]
    {
      if roles[index] == role {
        return;
      }
      assert roles[..index + 1] == roles[..index] + [roles[index]];
      index := index + 1;
    }
    index := -1;
  }

  /** POST, lines 33-41: `changed` is false exactly when the role is already
      held, the case in which the handler returns before writing back. */
  method GrantRole(ps: seq<Permission>, appId: AppId, role: Role)
    returns (updated: seq<Permission>, changed: bool)
    ensures changed <==> !HasRole(ps, appId, role)
    ensures updated == Grant(ps, appId, role)
  {
    var index := FindAppIndex(ps, appId);
    if index != -1 {
      var entry := ps[index];
      if role in entry.roles {
        return ps, false;
      }
      updated := ps[index := entry.(roles := entry.roles + [role])];
    } else {
      updated := ps + [Permission(appId, [role])];
    }
    changed := true;
  }

  /** PATCH, lines 62-73. */
  method ReplaceRole(ps: seq<Permission>, appId: AppId, oldRole: Role, newRole: Role)
    returns (updated: seq<Permission>)
    ensures updated == Replace(ps, appId, oldRole, newRole)
  {
    var index := FindAppIndex(ps, appId);
    if index != -1 {
      var roles := ps[index].roles;
      var oldRoleIndex := FindRole(roles, oldRole);
      if oldRoleIndex != -1 {
        roles := RemoveAt(roles, oldRoleIndex);
      }
      roles := roles + [newRole];
      updated := ps[index := ps[index].(roles := roles)];
    } else {
      updated := ps + [Permission(appId, [newRole])];
    }
  }

  /** DELETE, lines 92-104. */
  method RevokeRole(ps: seq<Permission>, appId: AppId, role: Role)
    returns (updated: seq<Permission>)
    ensures updated == Revoke(ps, appId, role)
  {
    updated := ps;
    var index := FindAppIndex(ps, appId);
    if index != -1 {
      var roleIndex := FindRole(ps[index].roles, role);
      if roleIndex != -1 {
        var roles := RemoveAt(ps[index].roles, roleIndex);
        updated := ps[index := ps[index].(roles := roles)];
        if |updated[index].roles| == 0 {
          updated := RemoveAt(updated, index);
        }
      }
    }
  }
}
