/** What grant, replace and revoke promise about a permission list. */
module PermissionLemmas {
  import opened Optional
  import opened Permissions

  // ---- Locating the entry after a mutation ----

  /** Pushing an entry for an application that had none makes it the one found. */
  lemma AppIndexAppend(ps: seq<Permission>, e: Permission)
    requires AppIndex(ps, e.appId) == -1
    ensures AppIndex(ps + [e], e.appId) == |ps|
  {
    var i := AppIndex(ps + [e], e.appId);
    assert (ps + [e])[|ps|].appId == e.appId;
  }

  /** Rewriting the found entry, keeping its application, keeps it the one found. */
  lemma AppIndexUpdate(ps: seq<Permission>, e: Permission)
    requires 0 <= AppIndex(ps, e.appId)
    ensures AppIndex(ps[AppIndex(ps, e.appId) := e], e.appId) == AppIndex(ps, e.appId)
  {
    var i := AppIndex(ps, e.appId);
    var q := ps[i := e];
    var k := AppIndex(q, e.appId);
    assert q[i].appId == e.appId;
  }

  // ---- Entries of other applications ----

  lemma {:induction false} OtherAppsAppend(ps: seq<Permission>, e: Permission)
    ensures OtherApps(ps + [e], e.appId) == OtherApps(ps, e.appId)
  {
    if ps == [] {
      assert OtherApps([e][1..], e.appId) == [];
    } else {
      assert (ps + [e])[1..] == ps[1..] + [e];
      OtherAppsAppend(ps[1..], e);
    }
  }

  lemma {:induction false} OtherAppsUpdate(ps: seq<Permission>, i: nat, e: Permission)
    requires i < |ps| && ps[i].appId == e.appId
    ensures OtherApps(ps[i := e], e.appId) == OtherApps(ps, e.appId)
  {
    if i > 0 {
      assert ps[i := e][1..] == ps[1..][i - 1 := e];
      OtherAppsUpdate(ps[1..], i - 1, e);
    } else {
      assert ps[i := e][1..] == ps[1..];
    }
  }

  lemma {:induction false} OtherAppsRemove(ps: seq<Permission>, i: nat)
    requires i < |ps|
    ensures OtherApps(RemoveAt(ps, i), ps[i].appId) == OtherApps(ps, ps[i].appId)
  {
    if i > 0 {
      assert RemoveAt(ps, i) == [ps[0]] + RemoveAt(ps[1..], i - 1);
      assert RemoveAt(ps, i)[1..] == RemoveAt(ps[1..], i - 1);
      OtherAppsRemove(ps[1..], i - 1);
    } else {
      assert RemoveAt(ps, i) == ps[1..];
    }
  }

  /** `HasRole` is the test of POST's early return: the entry `find` returns,
      the first for the application, exists and `includes` the role. */
  lemma HasRoleIsFindIncludes(ps: seq<Permission>, appId: AppId, role: Role)
    ensures HasRole(ps, appId, role) <==>
      exists i :: 0 <= i < |ps| && ps[i].appId == appId && role in ps[i].roles &&
        forall j :: 0 <= j < i ==> ps[j].appId != appId
  {
    if HasRole(ps, appId, role) {
      var i := AppIndex(ps, appId);
      assert ps[i].appId == appId && role in ps[i].roles;
    }
  }

  // ---- Grant (POST) ----

  /** Granting twice is granting once. */
  lemma GrantIdempotent(ps: seq<Permission>, appId: AppId, role: Role)
    ensures Grant(Grant(ps, appId, role), appId, role) == Grant(ps, appId, role)
  {
    var i := AppIndex(ps, appId);
    if i == -1 {
      AppIndexAppend(ps, Permission(appId, [role]));
    } else if role !in ps[i].roles {
      AppIndexUpdate(ps, ps[i].(roles := ps[i].roles + [role]));
    }
  }

  /** After a grant the application holds the role: pushed at the end of its
      roles when it lacked it, in a new entry at the end of the list when it
      had none, and a role already held leaves the list as it was. */
  lemma GrantRoles(ps: seq<Permission>, appId: AppId, role: Role)
    ensures HasRole(Grant(ps, appId, role), appId, role)
    ensures HasRole(ps, appId, role) ==> Grant(ps, appId, role) == ps
    ensures RolesOf(ps, appId).None? ==>
      Grant(ps, appId, role) == ps + [Permission(appId, [role])]
    ensures RolesOf(ps, appId).Some? && role !in RolesOf(ps, appId).value ==>
      RolesOf(Grant(ps, appId, role), appId) == Some(RolesOf(ps, appId).value + [role])
  {
    var i := AppIndex(ps, appId);
    if i == -1 {
      AppIndexAppend(ps, Permission(appId, [role]));
    } else if role !in ps[i].roles {
      AppIndexUpdate(ps, ps[i].(roles := ps[i].roles + [role]));
    }
  }

  /** A grant removes no entry and no role: every entry keeps its place and
      application, its roles are a prefix of what it holds afterwards, every
      entry but the one found is untouched, and at most one entry is added. */
  lemma GrantNeverRemoves(ps: seq<Permission>, appId: AppId, role: Role)
    ensures var g := Grant(ps, appId, role);
      |ps| <= |g| <= |ps| + 1 &&
      (AppIndex(ps, appId) != -1 ==> |g| == |ps|) &&
      (forall j :: 0 <= j < |ps| ==> g[j].appId == ps[j].appId && ps[j].roles <= g[j].roles) &&
      (forall j :: 0 <= j < |ps| && j != AppIndex(ps, appId) ==> g[j] == ps[j])
  {
  }

  /** A grant leaves the entries of every other application as they were. */
  lemma GrantKeepsOthers(ps: seq<Permission>, appId: AppId, role: Role)
    ensures OtherApps(Grant(ps, appId, role), appId) == OtherApps(ps, appId)
  {
    var i := AppIndex(ps, appId);
    if i == -1 {
      OtherAppsAppend(ps, Permission(appId, [role]));
    } else if role !in ps[i].roles {
      OtherAppsUpdate(ps, i, ps[i].(roles := ps[i].roles + [role]));
    }
  }

  /** A grant keeps one entry per application and adds no empty entry. */
  lemma GrantPreservesWellFormed(ps: seq<Permission>, appId: AppId, role: Role)
    ensures UniqueApps(ps) ==> UniqueApps(Grant(ps, appId, role))
    ensures NoEmptyRoles(ps) ==> NoEmptyRoles(Grant(ps, appId, role))
    ensures WellFormed(ps) ==> WellFormed(Grant(ps, appId, role))
  {
  }

  // ---- Replace (PATCH) ----

  /** After a replace the application holds `newRole`, as the last of its
      roles. An existing entry loses one `oldRole` if it had one and gains one
      `newRole` in any case; a missing entry is added as `{appId, [newRole]}`
      at the end of the list. */
  lemma ReplaceRoles(ps: seq<Permission>, appId: AppId, oldRole: Role, newRole: Role)
    ensures HasRole(Replace(ps, appId, oldRole, newRole), appId, newRole)
    ensures RolesOf(ps, appId).None? ==>
      Replace(ps, appId, oldRole, newRole) == ps + [Permission(appId, [newRole])]
    ensures RolesOf(ps, appId).Some? ==>
      var before := RolesOf(ps, appId).value;
      var after := RolesOf(Replace(ps, appId, oldRole, newRole), appId);
      after.Some? &&
      after.value == RemoveFirst(before, oldRole) + [newRole] &&
      |after.value| == |before| - (if oldRole in before then 1 else 0) + 1 &&
      after.value[|after.value| - 1] == newRole &&
      multiset(after.value) == multiset(before) - multiset{oldRole} + multiset{newRole}
  {
    var i := AppIndex(ps, appId);
    if i == -1 {
      AppIndexAppend(ps, Permission(appId, [newRole]));
    } else {
      var rest := RemoveFirst(ps[i].roles, oldRole);
      AppIndexUpdate(ps, ps[i].(roles := rest + [newRole]));
      assert multiset(rest + [newRole]) == multiset(rest) + multiset{newRole};
    }
  }

  /** Replace does not look for duplicates: replacing a role not held by one
      already held leaves that role twice. */
  lemma ReplaceCanDuplicate()
    ensures Replace([Permission("app1", ["admin"])], "app1", "editor", "admin")
         == [Permission("app1", ["admin", "admin"])]
  {
    assert AppIndex([Permission("app1", ["admin"])], "app1") == 0;
    assert "admin" != "editor";
    assert RemoveFirst(["admin"], "editor") == ["admin"];
    assert ["admin"] + ["admin"] == ["admin", "admin"];
  }

  lemma ReplaceKeepsOthers(ps: seq<Permission>, appId: AppId, oldRole: Role, newRole: Role)
    ensures OtherApps(Replace(ps, appId, oldRole, newRole), appId) == OtherApps(ps, appId)
  {
    var i := AppIndex(ps, appId);
    if i == -1 {
      OtherAppsAppend(ps, Permission(appId, [newRole]));
    } else {
      OtherAppsUpdate(ps, i, ps[i].(roles := RemoveFirst(ps[i].roles, oldRole) + [newRole]));
    }
  }

  /** A replace edits the entry it found where it stands: with an entry for
      `appId` the list keeps its length, the entry its place and application,
      and every other position is untouched. */
  lemma ReplaceInPlace(ps: seq<Permission>, appId: AppId, oldRole: Role, newRole: Role)
    requires AppIndex(ps, appId) != -1
    ensures var r, i := Replace(ps, appId, oldRole, newRole), AppIndex(ps, appId);
      |r| == |ps| && r[i].appId == appId &&
      forall j :: 0 <= j < |ps| && j != i ==> r[j] == ps[j]
  {
  }

  lemma ReplacePreservesWellFormed(ps: seq<Permission>, appId: AppId, oldRole: Role, newRole: Role)
    ensures UniqueApps(ps) ==> UniqueApps(Replace(ps, appId, oldRole, newRole))
    ensures NoEmptyRoles(ps) ==> NoEmptyRoles(Replace(ps, appId, oldRole, newRole))
    ensures WellFormed(ps) ==> WellFormed(Replace(ps, appId, oldRole, newRole))
  {
  }

  // ---- Revoke (DELETE) ----

  /** Revoke changes the list exactly when the application holds the role. */
  lemma RevokeUnchangedIff(ps: seq<Permission>, appId: AppId, role: Role)
    ensures Revoke(ps, appId, role) == ps <==> !HasRole(ps, appId, role)
  {
  }

  /** In a list with one entry per application, revoke takes exactly one
      occurrence of the role, the first, out of the application's roles, and
      drops the entry rather than leave it empty. */
  lemma RevokeRoles(ps: seq<Permission>, appId: AppId, role: Role)
    requires UniqueApps(ps) && HasRole(ps, appId, role)
    ensures var before := RolesOf(ps, appId).value;
      var after := RolesOf(Revoke(ps, appId, role), appId);
      (if |before| == 1 then after.None?
       else after.Some? && after.value == RemoveFirst(before, role)) &&
      |before| - 1 == (if after.None? then 0 else |after.value|) &&
      multiset(if after.None? then [] else after.value) == multiset(before) - multiset{role}
  {
    var i := AppIndex(ps, appId);
    var rest := RemoveAt(ps[i].roles, IndexOf(ps[i].roles, role));
    if |rest| == 0 {
      var r := RemoveAt(ps, i);
      forall j | 0 <= j < |r| ensures r[j].appId != appId {
        if j < i { assert r[j] == ps[j]; } else { assert r[j] == ps[j + 1]; }
      }
    } else {
      AppIndexUpdate(ps, ps[i].(roles := rest));
    }
  }

  /** Revoke takes only the first occurrence: a role held twice is still held. */
  lemma RevokeLeavesDuplicate()
    ensures Revoke([Permission("app1", ["admin", "admin"])], "app1", "admin")
         == [Permission("app1", ["admin"])]
  {
    assert AppIndex([Permission("app1", ["admin", "admin"])], "app1") == 0;
    assert IndexOf(["admin", "admin"], "admin") == 0;
    assert RemoveAt(["admin", "admin"], 0) == ["admin"];
  }

  lemma RevokeKeepsOthers(ps: seq<Permission>, appId: AppId, role: Role)
    ensures OtherApps(Revoke(ps, appId, role), appId) == OtherApps(ps, appId)
  {
    var i := AppIndex(ps, appId);
    if i != -1 {
      var k := IndexOf(ps[i].roles, role);
      if k != -1 {
        var rest := RemoveAt(ps[i].roles, k);
        if |rest| == 0 {
          OtherAppsRemove(ps, i);
        } else {
          OtherAppsUpdate(ps, i, ps[i].(roles := rest));
        }
      }
    }
  }

  /** A revoke edits the entry it found where it stands, or splices exactly
      that entry out; every other entry keeps its relative place. */
  lemma RevokeInPlace(ps: seq<Permission>, appId: AppId, role: Role)
    requires AppIndex(ps, appId) != -1
    ensures var r, i := Revoke(ps, appId, role), AppIndex(ps, appId);
      r == RemoveAt(ps, i) ||
      (|r| == |ps| && r[i].appId == appId && forall j :: 0 <= j < |ps| && j != i ==> r[j] == ps[j])
  {
  }

  lemma RevokePreservesWellFormed(ps: seq<Permission>, appId: AppId, role: Role)
    ensures UniqueApps(ps) ==> UniqueApps(Revoke(ps, appId, role))
    ensures NoEmptyRoles(ps) ==> NoEmptyRoles(Revoke(ps, appId, role))
    ensures WellFormed(ps) ==> WellFormed(Revoke(ps, appId, role))
  {
    var i := AppIndex(ps, appId);
    if i != -1 {
      var k := IndexOf(ps[i].roles, role);
      if k != -1 && |RemoveAt(ps[i].roles, k)| == 0 {
        var r := RemoveAt(ps, i);
        if UniqueApps(ps) {
          forall a, b | 0 <= a < b < |r| ensures r[a].appId != r[b].appId {
            var a', b' := if a < i then a else a + 1, if b < i then b else b + 1;
            assert r[a] == ps[a'] && r[b] == ps[b'];
          }
        }
      }
    }
  }

  // ---- Grant followed by revoke ----

  /** Granting a role the application lacks and then revoking it restores the
      list, provided the application's entry, if any, was not empty. */
  lemma GrantThenRevoke(ps: seq<Permission>, appId: AppId, role: Role)
    requires !HasRole(ps, appId, role)
    requires RolesOf(ps, appId) != Some([])
    ensures Revoke(Grant(ps, appId, role), appId, role) == ps
  {
    var i := AppIndex(ps, appId);
    var g := Grant(ps, appId, role);
    if i == -1 {
      AppIndexAppend(ps, Permission(appId, [role]));
      assert IndexOf([role], role) == 0;
      assert RemoveAt(g, |ps|) == ps;
    } else {
      var rs := ps[i].roles;
      AppIndexUpdate(ps, ps[i].(roles := rs + [role]));
      assert IndexOf(rs + [role], role) == |rs|;
      assert RemoveAt(rs + [role], |rs|) == rs;
    }
  }

  /** The exception: an entry that was already empty is dropped by the revoke. */
  lemma GrantThenRevokeDropsEmptyEntry(ps: seq<Permission>, appId: AppId, role: Role)
    requires RolesOf(ps, appId) == Some([])
    ensures Revoke(Grant(ps, appId, role), appId, role) == RemoveAt(ps, AppIndex(ps, appId))
    ensures Revoke(Grant(ps, appId, role), appId, role) != ps
  {
  }

  // ---- Worked examples ----

  lemma ExampleGrantFresh()
    ensures Grant([], "app1", "admin") == [Permission("app1", ["admin"])]
  {
  }

  lemma ExampleGrantHeld()
    ensures Grant([Permission("app1", ["admin"])], "app1", "admin") == [Permission("app1", ["admin"])]
  {
  }

  lemma ExampleRevokeOne()
    ensures Revoke([Permission("app1", ["admin", "editor"])], "app1", "admin")
         == [Permission("app1", ["editor"])]
  {
    assert AppIndex([Permission("app1", ["admin", "editor"])], "app1") == 0;
    assert IndexOf(["admin", "editor"], "admin") == 0;
    assert RemoveAt(["admin", "editor"], 0) == ["editor"];
  }

  lemma ExampleRevokeLast()
    ensures Revoke([Permission("app1", ["editor"])], "app1", "editor") == []
  {
  }
}
