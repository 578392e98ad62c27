/** The `verifyOwner` middleware: a request may go on to its handler only
    when the authenticated user's id is the `:id` of the route. */
module OwnerCheck {
  import opened Wrappers

  /** The roles an account can hold. The check never looks at it. */
  datatype Role = Styler | Partner | Admin

  /** `req.user` as the authentication middleware leaves it: `id` is the
      string form of `_id`, `None` when `_id` is missing. */
  datatype AuthUser = AuthUser(id: Option<string>, role: Role)

  /** What the middleware does with the request: answer it with an error, or
      call `next()` and send nothing. */
  datatype Decision = Reject(status: int, error: string) | CallNext

  const Unauthorized := Reject(401, "Unauthorized")
  const Forbidden := Reject(403, "Access denied. You can only access your own data.")
  /** Sent when the check itself throws: `req.user._id.toString()` on a user
      without an `_id`. */
  const CheckFailed := Reject(500, "Authorization check failed")

  /** The decision for `req.user` and `req.params.id` (`None` when the route
      has no `:id`, where the strict comparison with a string is false). */
  function VerifyOwner(user: Option<AuthUser>, routeId: Option<string>): (d: Decision)
    ensures user.None? ==> d == Unauthorized
    ensures user.Some? && user.value.id.None? ==> d == CheckFailed
    ensures user.Some? && user.value.id.Some? && Some(user.value.id.value) != routeId ==> d == Forbidden
    ensures d == CallNext <==> user.Some? && user.value.id.Some? && Some(user.value.id.value) == routeId
  {
    match user
    case None => Unauthorized
    case Some(u) =>
      match u.id
      case None => CheckFailed
      case Some(userId) =>
        if routeId != Some(userId) then Forbidden else CallNext
  }

  /** The decision does not depend on the role: an administrator is treated
      like anyone else. */
  lemma RoleIsIgnored(u: AuthUser, role: Role, routeId: Option<string>)
    ensures VerifyOwner(Some(u.(role := role)), routeId) == VerifyOwner(Some(u), routeId)
  {
  }

  /** An administrator who is not the owner is refused with 403. */
  lemma AdminGetsNoBypass(adminId: string, routeId: Option<string>)
    requires routeId != Some(adminId)
    ensures VerifyOwner(Some(AuthUser(Some(adminId), Admin)), routeId) == Forbidden
  {
  }

  /** Every refusal is one of the three statuses the middleware sends. */
  lemma RejectStatuses(user: Option<AuthUser>, routeId: Option<string>)
    ensures VerifyOwner(user, routeId).Reject? ==> VerifyOwner(user, routeId).status in {401, 403, 500}
  {
  }
}
