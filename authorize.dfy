/** The `authorize(requiredRoles)` middleware of
    src/middlewares/authorize.middleware.ts: a decision over the authenticated
    user, its role and store, and the store the request resolved to. */
module Authorization {
  import opened Wrappers
  import opened Orders

  datatype Role = SuperAdmin | StoreAdmin | Customer

  /** `req.user` as the middleware reads it. `role` is None when the user
      row carries no role, as rows of the `users` table do (it has no such
      column). */
  datatype AuthUser = AuthUser(id: UserId, role: Option<Role>, storeId: Option<string>)

  /** Let the request through, or answer with a status code and message. */
  datatype Decision = Allow | Deny(code: int, message: string)

  /** The user belongs to a store (a truthy `storeId`) other than the one
      resolved for the request. */
  predicate TenantMismatch(user: AuthUser, store: Option<string>) {
    store.Some? && user.storeId.Some? && user.storeId.value != "" && user.storeId.value != store.value
  }

  function Authorize(requiredRoles: seq<Role>, user: Option<AuthUser>, store: Option<string>): (d: Decision)
    ensures d == Allow <==>
      user.Some? && (user.value.role == Some(SuperAdmin) ||
                     (!TenantMismatch(user.value, store) && user.value.role.Some? && user.value.role.value in requiredRoles))
    ensures d.Deny? && d.code == 401 <==> user.None?
    ensures d.Deny? ==> d.code == 401 || d.code == 403
    ensures user.Some? && user.value.role != Some(SuperAdmin) && TenantMismatch(user.value, store) ==>
      d == Deny(403, "Access denied: User not associated with this store")
  {
    if user.None? then Deny(401, "Authentication required")
    else if user.value.role == Some(SuperAdmin) then Allow
    else if TenantMismatch(user.value, store) then Deny(403, "Access denied: User not associated with this store")
    else if user.value.role.Some? && user.value.role.value in requiredRoles then Allow
    else Deny(403, "Access denied: Insufficient permissions")
  }

  /** Adding roles to the required list never turns an allowed request away. */
  lemma AuthorizeMonotone(requiredRoles: seq<Role>, moreRoles: seq<Role>, user: Option<AuthUser>, store: Option<string>)
    requires forall r :: r in requiredRoles ==> r in moreRoles
    ensures Authorize(requiredRoles, user, store) == Allow ==> Authorize(moreRoles, user, store) == Allow
  {
  }

  /** The store check comes first: a user of another store is refused as
      "not associated" even when its role is among the required ones, and a
      user with no store, or a request with no store, is never refused by it. */
  lemma TenantCheckPrecedesRoleCheck(requiredRoles: seq<Role>, user: AuthUser, store: Option<string>)
    requires user.role != Some(SuperAdmin)
    ensures TenantMismatch(user, store) ==>
      Authorize(requiredRoles, Some(user), store) == Deny(403, "Access denied: User not associated with this store")
    ensures store.None? || user.storeId.None? || user.storeId.value == "" ==>
      Authorize(requiredRoles, Some(user), store)
        == (if user.role.Some? && user.role.value in requiredRoles then Allow
            else Deny(403, "Access denied: Insufficient permissions"))
  {
  }

  /** A signed-in user without a role is refused with 403 whatever the
      required roles: `includes(undefined)` is false. */
  lemma RoleUnsetIsRefused(requiredRoles: seq<Role>, user: AuthUser, store: Option<string>)
    requires user.role.None?
    ensures Authorize(requiredRoles, Some(user), store).Deny?
    ensures Authorize(requiredRoles, Some(user), store).code == 403
  {
  }
}
