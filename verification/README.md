# Permission manager: a Dafny model

The permission-manager API route keeps, on each user record, a list of
permission entries `{appId, roles}`: the roles the user holds in each calling
application. Four handlers use that list:

- GET returns the user's whole list, with the entries of every application,
  whichever application asks. The caller's identity is used only to accept or
  reject its authorization code.
- POST grants a role in the calling application's entry.
- PATCH replaces one role by another in the calling application's entry.
- DELETE revokes a role from the calling application's entry and drops the
  entry once it has no roles left.

Every handler runs the same guard chain before it touches the store. A missing
field is answered with M019. An authorization code the verifier rejects is
answered with M002. An unknown user is answered with M020. Only then does
GET return the fetched list. POST, PATCH and DELETE change it and write it
back with `updateUser`, except that POST writes nothing when the role is
already held.

The model has five modules:

- `Optional` (optional.dfy): the `Option` type.
- `Permissions` (permissions.dfy): the entry datatype, the searches
  `findIndex` / `indexOf` and `splice` as functions, and the three mutations
  `Grant`, `Replace` and `Revoke` as pure functions over the list.
- `PermissionLemmas` (permission_lemmas.dfy): what the mutations promise.
  Idempotence of grant, what each operation does to the calling application's
  roles, "nothing else changes", preservation of the list invariant (one entry
  per application, no empty entry), grant followed by revoke, and the worked
  examples.
- `Mutations` (mutations.dfy): the handlers' list surgery step by step. The
  two searches are linear scans with loop invariants. Each mutation method is
  proved equal to its function in `Permissions`.
- `PermissionRoute` (route.dfy): the four handlers. Each takes the store, the
  verifier and the request fields already extracted. It returns the response
  envelope and the calls it made to its collaborators, in order. POST, PATCH
  and DELETE also return the store after those calls. GET never writes and
  returns no store.

The collaborators are parameters:

- The authorization verifier is a function `AuthCode -> Option<AppId>`.
- The user store is a `map<UserId, seq<Permission>>`. `getUserById` is a map
  lookup. `updateUser(id, {permissions})` replaces that user's list.
- The message catalog is the enumeration `M002 | M015 | M019 | M020`.

A field counts as missing when it is absent or the empty string, which is what
`!x` does for a string.

Granting a role the application lacks and then revoking it restores the list.
This holds also when the grant created the entry, because the revoke removes the
entry again. An entry whose roles were already empty is the exception: the grant
fills it and the revoke drops it. `GrantThenRevoke` and
`GrantThenRevokeDropsEmptyEntry` prove the two cases. A role the application
already holds is different: the grant does nothing and the revoke then takes the
role away.

## Model

| member | source | states |
|---|---|---|
| `Permissions.AppIndex` | src/app/api/permission-manager/route.ts:62 | `findIndex` on `appId`: -1 exactly when no entry has the application, otherwise the index of the first entry that has it |
| `Permissions.IndexOf` | src/app/api/permission-manager/route.ts:65 | `indexOf`: -1 exactly when the role is absent, otherwise an index holding it with no earlier occurrence |
| `Permissions.RemoveAt` | src/app/api/permission-manager/route.ts:98 | `splice(i, 1)`: one element shorter, elements before `i` kept in place, later ones shifted down by one, and the multiset loses exactly `s[i]` |
| `Permissions.RemoveFirst` | src/app/api/permission-manager/route.ts:65-66 | `indexOf` then `splice`: unchanged without the role; otherwise one element shorter, one occurrence fewer in the multiset, the prefix before the first occurrence kept, and every later element shifted down by one in order |
| `Permissions.RolesOf` | src/app/api/permission-manager/route.ts:62-65 | the roles of the first entry for the application, the entry every handler acts on, or none when `findIndex` finds no entry |
| `Permissions.Grant` | src/app/api/permission-manager/route.ts:33-41 | the list POST writes back: unchanged when the first entry for the application holds the role; otherwise the role pushed onto that entry's roles; with no entry, `{appId, [role]}` pushed onto the list |
| `Permissions.Replace` | src/app/api/permission-manager/route.ts:62-73 | the list PATCH writes back: in the first entry for the application, the first `oldRole` spliced out if present and `newRole` pushed in any case; with no entry, `{appId, [newRole]}` pushed onto the list |
| `Permissions.Revoke` | src/app/api/permission-manager/route.ts:92-104 | the list DELETE writes back: in the first entry for the application, the first occurrence of the role spliced out, and the entry spliced out of the list if no roles remain; unchanged when the entry or the role is missing |
| `Permissions.HasRole` | src/app/api/permission-manager/route.ts:33-36 | the test of POST's early return: the first entry for the application exists and includes the role |
| `PermissionLemmas.HasRoleIsFindIncludes` | src/app/api/permission-manager/route.ts:33-36 | `HasRole` holds exactly when some entry for the application with no earlier entry for it (what `find` returns) includes the role |
| `PermissionLemmas.GrantIdempotent` | src/app/api/permission-manager/route.ts:33-41 | granting the same role twice gives the same list as granting it once |
| `PermissionLemmas.GrantRoles` | src/app/api/permission-manager/route.ts:33-41 | after a grant the application holds the role; a role already held leaves the list unchanged; a missing role is appended at the end of the entry's roles; with no entry, `{appId, [role]}` is appended at the end of the list |
| `PermissionLemmas.GrantNeverRemoves` | src/app/api/permission-manager/route.ts:33-41 | a grant adds at most one entry, and none when the application already has an entry; every existing entry keeps its place and application; its old roles are a prefix of its new ones; every entry except the one found is unchanged |
| `PermissionLemmas.GrantKeepsOthers` | src/app/api/permission-manager/route.ts:37-40 | the entries of all other applications, in order, are the same before and after a grant |
| `PermissionLemmas.GrantPreservesWellFormed` | src/app/api/permission-manager/route.ts:33-41 | a grant keeps "at most one entry per application" and "no empty-role entry", each on its own and together as `WellFormed` |
| `PermissionLemmas.ReplaceRoles` | src/app/api/permission-manager/route.ts:62-73 | after a replace the application holds `newRole`, as the last of its roles; with an entry, its roles become the old roles with the first `oldRole` taken out (if any), the others in their order, and `newRole` pushed at the end; the length becomes old length − (1 if `oldRole` was held, else 0) + 1, and the multiset loses one `oldRole` and gains one `newRole`; with no entry, `{appId, [newRole]}` is appended at the end of the list |
| `PermissionLemmas.ReplaceCanDuplicate` | src/app/api/permission-manager/route.ts:65-67 | replace does not check for duplicates: replacing an absent `editor` by a held `admin` leaves `admin` twice |
| `PermissionLemmas.ReplaceKeepsOthers` | src/app/api/permission-manager/route.ts:62-73 | the entries of all other applications are the same before and after a replace |
| `PermissionLemmas.ReplaceInPlace` | src/app/api/permission-manager/route.ts:62-67 | with an entry for the application, a replace keeps the list's length, the entry's index and application, and every other position unchanged |
| `PermissionLemmas.ReplacePreservesWellFormed` | src/app/api/permission-manager/route.ts:62-73 | a replace keeps "at most one entry per application" and "no empty-role entry", each on its own and together as `WellFormed` |
| `PermissionLemmas.RevokeUnchangedIff` | src/app/api/permission-manager/route.ts:92-104 | a revoke leaves the list unchanged if and only if the application's entry is absent or lacks the role |
| `PermissionLemmas.RevokeRoles` | src/app/api/permission-manager/route.ts:95-102 | in a list with one entry per application, a revoke of a held role removes only its first occurrence; the roles lose exactly one occurrence; an entry whose last role goes is removed, not left empty |
| `PermissionLemmas.RevokeLeavesDuplicate` | src/app/api/permission-manager/route.ts:95-98 | revoking a role held twice leaves it held once |
| `PermissionLemmas.RevokeKeepsOthers` | src/app/api/permission-manager/route.ts:92-104 | the entries of all other applications are the same before and after a revoke |
| `PermissionLemmas.RevokeInPlace` | src/app/api/permission-manager/route.ts:92-102 | with an entry for the application, a revoke either splices out exactly that entry or keeps the list's length, the entry's index and application, and every other position unchanged |
| `PermissionLemmas.RevokePreservesWellFormed` | src/app/api/permission-manager/route.ts:92-104 | a revoke keeps "at most one entry per application" and "no empty-role entry", each on its own and together as `WellFormed` |
| `PermissionLemmas.GrantThenRevoke` | src/app/api/permission-manager/route.ts:92-102 | granting a role the application lacks and then revoking it (the grant is lines 37-40) gives back the original list, unless the application's entry had empty roles |
| `PermissionLemmas.GrantThenRevokeDropsEmptyEntry` | src/app/api/permission-manager/route.ts:100-102 | for an entry with empty roles, grant followed by revoke removes that entry, so the list differs from the original |
| `PermissionLemmas.ExampleGrantFresh` | src/app/api/permission-manager/route.ts:39-40 | granting `admin` in `app1` on an empty list gives `[{app1, [admin]}]` |
| `PermissionLemmas.ExampleGrantHeld` | src/app/api/permission-manager/route.ts:36 | granting a held `admin` leaves `[{app1, [admin]}]` unchanged |
| `PermissionLemmas.ExampleRevokeOne` | src/app/api/permission-manager/route.ts:95-98 | revoking `admin` from `[{app1, [admin, editor]}]` gives `[{app1, [editor]}]` |
| `PermissionLemmas.ExampleRevokeLast` | src/app/api/permission-manager/route.ts:100-102 | revoking `editor` from `[{app1, [editor]}]` gives `[]` |
| `Mutations.FindAppIndex` | src/app/api/permission-manager/route.ts:62 | the linear scan returns `AppIndex`, the first entry for the application or -1 |
| `Mutations.FindRole` | src/app/api/permission-manager/route.ts:65 | the linear scan returns `IndexOf`, the first occurrence of the role or -1 |
| `Mutations.GrantRole` | src/app/api/permission-manager/route.ts:33-41 | the mutated list equals `Grant`; the "changed" flag is false exactly when the application already holds the role (the early return at line 36) |
| `Mutations.ReplaceRole` | src/app/api/permission-manager/route.ts:62-73 | the mutated list equals `Replace` |
| `Mutations.RevokeRole` | src/app/api/permission-manager/route.ts:92-104 | the mutated list equals `Revoke` |
| `PermissionRoute.Missing` | src/app/api/permission-manager/route.ts:12 | the `!x` guard on a field: the field is absent or the empty string (also lines 27, 54 and 84) |
| `PermissionRoute.Persist` | src/app/api/permission-manager/route.ts:43 | calls with no write leave the store unchanged; calls whose only write is the last one leave the store with that user's list replaced |
| `PermissionRoute.Get` | src/app/api/permission-manager/route.ts:9-18 | a missing field gives M019 with no call; a rejected authorization gives M002 after only the verifier call; otherwise the user is looked up, and the result is M020 or success with exactly the stored list, every application's entries included, whatever application the code resolves to; the store is never changed |
| `PermissionRoute.Post` | src/app/api/permission-manager/route.ts:21-46 | the same guard chain, with no write on any error path; for a known user, success, and a single write of `Grant(list)` unless the role was already held, in which case nothing is written |
| `PermissionRoute.Patch` | src/app/api/permission-manager/route.ts:48-77 | the same guard chain over four fields, with no write on any error path; for a known user, success and a single write of `Replace(list)` |
| `PermissionRoute.Delete` | src/app/api/permission-manager/route.ts:79-109 | the same guard chain, with no write on any error path; for a known user, success and a single write of `Revoke(list)`, even when that list is unchanged |

## Left out

- src/config/auth.config.ts (provider list, sign-in, token and session callbacks) is not part of this model. It is framework wiring that delegates to collaborators and copies fields between framework objects.
- src/actions/database/deleteImageByURL.ts is not part of this model. It is storage I/O.
- HTTP and JSON plumbing (`NextRequest`, `NextResponse`, `request.json()`, headers, query parameters) is left out. The handlers take the fields already extracted, as optional strings.
- A body field that is present but not a string (a number, say) is not modelled, and neither is how `!x` treats it. Every field is an optional string.
- The catalog's message texts and numeric status codes are left out. The response carries the message identifier and the status `success`/`error`.
- The internals of `verifyAuthorization`, `getUserById` and `updateUser` are left out. A collaborator that fails or rejects makes the real handler throw, and that is not modelled. A user record whose `permissions` field is missing is not modelled either.
- Only the `permissions` field of the user record is modelled. `updateUser` is modelled as replacing that user's list.
- The source mutates the fetched `userData.permissions` and the entry returned by `find` in place, so those two alias each other. The model updates the list as a value instead. The fetched record belongs to the request until `updateUser`, so nothing outside the handler observes the difference.
- Concurrency between requests is not modelled. The source has no locking, so two overlapping read-modify-write cycles on the same user can lose an update.
- PermissionLemmas.RevokeRoles: assumes one entry per application. With two entries for the same application, dropping the first makes the later one the entry found, and the lemma's statement about "the application's roles" would no longer hold.
