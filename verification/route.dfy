/** The four handlers of the permission-manager route. Each runs the same guard
    chain (missing field, then authorization, then user lookup). GET then
    returns the fetched permission list; POST, PATCH and DELETE apply their
    mutation to it and write it back, except that POST writes nothing when the
    role is already held.

    The collaborators are not modelled: the authorization verifier is the
    parameter `verify`, the user store is a map from user id to permission
    list, and the message catalog is the enumeration MessageId. Every handler
    returns, besides its response, the calls it made to the verifier and the
    store in the order it made them. POST, PATCH and DELETE also return the
    store those calls leave behind; GET, which never writes, does not. */
module PermissionRoute {
  import opened Optional
  import opened Permissions
  import Mutations

  type UserId = string
  type AuthCode = string

  /** The user store, reduced to each user's permission list. */
  type Store = map<UserId, seq<Permission>>

  /** The catalog entries the route uses: M002 authorization rejected,
      M015 success, M019 a required field missing, M020 user not found. */
  datatype MessageId = M002 | M015 | M019 | M020

  datatype Status = Success | Error

  /** The response envelope `{status, message, data?}`. */
  datatype Response = Response(status: Status, message: MessageId, data: Option<seq<Permission>>)

  /** A call to a collaborator: `verifyAuthorization`, `getUserById`, or
      `updateUser(id, {permissions})`. */
  datatype Call =
    | VerifyAuthorization(code: AuthCode)
    | GetUserById(id: UserId)
    | UpdateUser(id: UserId, permissions: seq<Permission>)

  /** `!field` on a header, query parameter or body field: absent or empty. */
  predicate Missing(field: Option<string>) {
    field.None? || field.value == ""
  }

  function Failure(message: MessageId): Response {
    Response(Error, message, None)
  }

  const Done := Response(Success, M015, None)

  /** The store after the writes among `calls`, applied in order. */
  function Persist(store: Store, calls: seq<Call>): (after: Store)
    ensures (forall i :: 0 <= i < |calls| ==> !calls[i].UpdateUser?) ==> after == store
    ensures |calls| > 0 && calls[|calls| - 1].UpdateUser? &&
            (forall i :: 0 <= i < |calls| - 1 ==> !calls[i].UpdateUser?) ==>
      after == store[calls[|calls| - 1].id := calls[|calls| - 1].permissions]
    decreases |calls|
  {
    if calls == [] then store
    else
      var next := if calls[0].UpdateUser? then store[calls[0].id := calls[0].permissions] else store;
      Persist(next, calls[1..])
  }

  /** GET, lines 9-18: the user's whole permission list, the entries of every
      application, for any caller whose code is accepted. */
  method Get(store: Store, verify: AuthCode -> Option<AppId>,
             authorization: Option<AuthCode>, userId: Option<UserId>)
    returns (response: Response, calls: seq<Call>)
    ensures Persist(store, calls) == store
    ensures Missing(userId) || Missing(authorization) ==>
      response == Failure(M019) && calls == []
    ensures !Missing(userId) && !Missing(authorization) && verify(authorization.value).None? ==>
      response == Failure(M002) && calls == [VerifyAuthorization(authorization.value)]
    ensures !Missing(userId) && !Missing(authorization) && verify(authorization.value).Some? ==>
      calls == [VerifyAuthorization(authorization.value), GetUserById(userId.value)] &&
      response == if userId.value in store then Response(Success, M015, Some(store[userId.value]))
                  else Failure(M020)
  {
    if Missing(userId) || Missing(authorization) {
      return Failure(M019), [];
    }
    var code, id := authorization.value, userId.value;
    calls := [VerifyAuthorization(code)];
    var appInfo := verify(code);
    if appInfo.None? {
      return Failure(M002), calls;
    }
    calls := calls + [GetUserById(id)];
    if id !in store {
      return Failure(M020), calls;
    }
    response := Response(Success, M015, Some(store[id]));
  }

  /** POST, lines 21-46: grant `role` to the user in the calling application.
      A role already held is answered with success and nothing is written. */
  method Post(store: Store, verify: AuthCode -> Option<AppId>,
              authorization: Option<AuthCode>, userId: Option<UserId>, role: Option<Role>)
    returns (response: Response, calls: seq<Call>, updated: Store)
    ensures updated == Persist(store, calls)
    ensures Missing(authorization) || Missing(userId) || Missing(role) ==>
      response == Failure(M019) && calls == []
    ensures !Missing(authorization) && !Missing(userId) && !Missing(role) &&
            verify(authorization.value).None? ==>
      response == Failure(M002) && calls == [VerifyAuthorization(authorization.value)]
    ensures !Missing(authorization) && !Missing(userId) && !Missing(role) &&
            verify(authorization.value).Some? && userId.value !in store ==>
      response == Failure(M020) &&
      calls == [VerifyAuthorization(authorization.value), GetUserById(userId.value)]
    ensures !Missing(authorization) && !Missing(userId) && !Missing(role) &&
            verify(authorization.value).Some? && userId.value in store ==>
      var ps, app := store[userId.value], verify(authorization.value).value;
      response == Done &&
      calls == [VerifyAuthorization(authorization.value), GetUserById(userId.value)] +
               (if HasRole(ps, app, role.value) then []
                else [UpdateUser(userId.value, Grant(ps, app, role.value))])
  {
    if Missing(authorization) || Missing(userId) || Missing(role) {
      return Failure(M019), [], store;
    }
    var code, id, newRole := authorization.value, userId.value, role.value;
    calls := [VerifyAuthorization(code)];
    var appInfo := verify(code);
    if appInfo.None? {
      return Failure(M002), calls, store;
    }
    calls := calls + [GetUserById(id)];
    if id !in store {
      return Failure(M020), calls, store;
    }
    var permissions, changed := Mutations.GrantRole(store[id], appInfo.value, newRole);
    if !changed {
      return Done, calls, store;
    }
    calls := calls + [UpdateUser(id, permissions)];
    updated := store[id := permissions];
    response := Done;
  }

  /** PATCH, lines 48-77: replace `oldRole` by `newRole` for the user in the
      calling application, writing the list back in every successful case. */
  method Patch(store: Store, verify: AuthCode -> Option<AppId>,
               authorization: Option<AuthCode>, userId: Option<UserId>,
               newRole: Option<Role>, oldRole: Option<Role>)
    returns (response: Response, calls: seq<Call>, updated: Store)
    ensures updated == Persist(store, calls)
    ensures Missing(authorization) || Missing(userId) || Missing(newRole) || Missing(oldRole) ==>
      response == Failure(M019) && calls == []
    ensures !Missing(authorization) && !Missing(userId) && !Missing(newRole) && !Missing(oldRole) &&
            verify(authorization.value).None? ==>
      response == Failure(M002) && calls == [VerifyAuthorization(authorization.value)]
    ensures !Missing(authorization) && !Missing(userId) && !Missing(newRole) && !Missing(oldRole) &&
            verify(authorization.value).Some? && userId.value !in store ==>
      response == Failure(M020) &&
      calls == [VerifyAuthorization(authorization.value), GetUserById(userId.value)]
    ensures !Missing(authorization) && !Missing(userId) && !Missing(newRole) && !Missing(oldRole) &&
            verify(authorization.value).Some? && userId.value in store ==>
      var ps, app := store[userId.value], verify(authorization.value).value;
      response == Done &&
      calls == [VerifyAuthorization(authorization.value), GetUserById(userId.value),
                UpdateUser(userId.value, Replace(ps, app, oldRole.value, newRole.value))]
  {
    if Missing(authorization) || Missing(userId) || Missing(newRole) || Missing(oldRole) {
      return Failure(M019), [], store;
    }
    var code, id := authorization.value, userId.value;
    calls := [VerifyAuthorization(code)];
    var appInfo := verify(code);
    if appInfo.None? {
      return Failure(M002), calls, store;
    }
    calls := calls + [GetUserById(id)];
    if id !in store {
      return Failure(M020), calls, store;
    }
    var permissions := Mutations.ReplaceRole(store[id], appInfo.value, oldRole.value, newRole.value);
    calls := calls + [UpdateUser(id, permissions)];
    updated := store[id := permissions];
    response := Done;
  }

  /** DELETE, lines 79-109: revoke `role` from the user in the calling
      application. The list is written back even when nothing was revoked. */
  method Delete(store: Store, verify: AuthCode -> Option<AppId>,
                authorization: Option<AuthCode>, userId: Option<UserId>, role: Option<Role>)
    returns (response: Response, calls: seq<Call>, updated: Store)
    ensures updated == Persist(store, calls)
    ensures Missing(authorization) || Missing(userId) || Missing(role) ==>
      response == Failure(M019) && calls == []
    ensures !Missing(authorization) && !Missing(userId) && !Missing(role) &&
            verify(authorization.value).None? ==>
      response == Failure(M002) && calls == [VerifyAuthorization(authorization.value)]
    ensures !Missing(authorization) && !Missing(userId) && !Missing(role) &&
            verify(authorization.value).Some? && userId.value !in store ==>
      response == Failure(M020) &&
      calls == [VerifyAuthorization(authorization.value), GetUserById(userId.value)]
    ensures !Missing(authorization) && !Missing(userId) && !Missing(role) &&
            verify(authorization.value).Some? && userId.value in store ==>
      var ps, app := store[userId.value], verify(authorization.value).value;
      response == Done &&
      calls == [VerifyAuthorization(authorization.value), GetUserById(userId.value),
                UpdateUser(userId.value, Revoke(ps, app, role.value))]
  {
    if Missing(authorization) || Missing(userId) || Missing(role) {
      return Failure(M019), [], store;
    }
    var code, id := authorization.value, userId.value;
    calls := [VerifyAuthorization(code)];
    var appInfo := verify(code);
    if appInfo.None? {
      return Failure(M002), calls, store;
    }
    calls := calls + [GetUserById(id)];
    if id !in store {
      return Failure(M020), calls, store;
    }
    var permissions := Mutations.RevokeRole(store[id], appInfo.value, role.value);
    calls := calls + [UpdateUser(id, permissions)];
    updated := store[id := permissions];
    response := Done;
  }
}
