/** The role gate that guards every route: before a handler runs, the current
    user must exist, be active and hold one of the roles the route allows.
    Looking the user up from the login token is outside this model; the
    result of that lookup is an input. */
module Access {
  import opened Common

  /** The part of a user record the gate reads. */
  datatype User = User(isActive: bool, role: string)

  /** Why the gate refused the call. */
  datatype Denial =
    | UserNotFound                  // 404 "User not found"
    | AccountInactive               // 403 "User account is inactive"
    | InsufficientPermissions(requiredRoles: seq<string>, yourRole: string)
                                    // 403 "Insufficient permissions"

  /** The HTTP status of a refusal. */
  function DenialStatus(d: Denial): (c: int)
    ensures c == 404 <==> d.UserNotFound?
    ensures c == 404 || c == 403
  {
    if d.UserNotFound? then 404 else 403
  }

  /** The error text of a refusal. */
  function DenialMessage(d: Denial): string {
    match d
    case UserNotFound => "User not found"
    case AccountInactive => "User account is inactive"
    case InsufficientPermissions(_, _) => "Insufficient permissions"
  }

  /** What the guarded route answers: the handler's own result, or a refusal. */
  datatype Gated<+T> = Proceed(value: T) | Deny(denial: Denial)

  /** The user may call a route that allows `allowedRoles`. */
  predicate Authorized(allowedRoles: seq<string>, user: Option<User>) {
    user.Some? && user.value.isActive && user.value.role in allowedRoles
  }

  /** The gate: a missing user is refused with 404, an inactive one with 403,
      one whose role is not allowed with 403 naming the allowed roles and the
      user's role; any other user gets exactly what the handler returns. */
  function RoleRequired<T>(allowedRoles: seq<string>, user: Option<User>, handler: () -> T): (r: Gated<T>)
    ensures r.Proceed? <==> Authorized(allowedRoles, user)
    ensures r.Proceed? ==> r.value == handler()
    ensures user.None? ==> r == Deny(UserNotFound)
    ensures user.Some? && !user.value.isActive ==> r == Deny(AccountInactive)
    ensures r.Deny? && user.Some? && user.value.isActive ==>
              r.denial == InsufficientPermissions(allowedRoles, user.value.role)
  {
    match user
    case None => Deny(UserNotFound)
    case Some(u) =>
      if !u.isActive then Deny(AccountInactive)
      else if u.role !in allowedRoles then Deny(InsufficientPermissions(allowedRoles, u.role))
      else Proceed(handler())
  }

  /** Whether the gate lets a user through does not depend on the handler. */
  lemma DecisionIgnoresHandler<T>(allowedRoles: seq<string>, user: Option<User>, f: () -> T, g: () -> T)
    ensures RoleRequired(allowedRoles, user, f).Proceed? == RoleRequired(allowedRoles, user, g).Proceed?
    ensures RoleRequired(allowedRoles, user, f).Deny? ==>
              RoleRequired(allowedRoles, user, f) == RoleRequired(allowedRoles, user, g)
  {
  }

  /** Allowing more roles never locks anyone out. */
  lemma WiderRolesAdmitMore<T>(narrow: seq<string>, wide: seq<string>, user: Option<User>, handler: () -> T)
    requires forall role :: role in narrow ==> role in wide
    requires RoleRequired(narrow, user, handler).Proceed?
    ensures RoleRequired(wide, user, handler) == RoleRequired(narrow, user, handler)
  {
  }

  // The role lists of the insurance-company routes.

  /** Listing and reading companies. */
  const ReadRoles: seq<string> := ["admin", "manager", "receptionist", "technician", "accountant"]
  /** Creating and updating companies. */
  const WriteRoles: seq<string> := ["admin", "manager"]
  /** Deleting a company. */
  const DeleteRoles: seq<string> := ["admin"]

  /** Whoever may delete a company may also change one, and whoever may change
      one may also read them; a manager may change but not delete. */
  lemma InsuranceRolesNested(user: Option<User>)
    ensures Authorized(DeleteRoles, user) ==> Authorized(WriteRoles, user)
    ensures Authorized(WriteRoles, user) ==> Authorized(ReadRoles, user)
    ensures Authorized(WriteRoles, Some(User(true, "manager")))
    ensures !Authorized(DeleteRoles, Some(User(true, "manager")))
  {
  }

  /** An inactive admin is refused everywhere, with 403. */
  lemma InactiveAdminRefused<T>(allowedRoles: seq<string>, handler: () -> T)
    ensures var r := RoleRequired(allowedRoles, Some(User(false, "admin")), handler);
            r.Deny? && DenialStatus(r.denial) == 403 && DenialMessage(r.denial) == "User account is inactive"
  {
  }
}
