/** src/middlewares/checkRole.js: `checkRole(...roles)` lets a request through
    when the authenticated user's `role` is one of `roles`. */
module CheckRole {
  import opened Common
  import opened Library

  /** The role the decoded token carries, if any (`req.user.role`). */
  function RoleOf(user: Claims): Option<string> {
    if "role" in user then Some(user["role"]) else None
  }

  /** The decision of `checkRole(...roles)` for the `req.user` the
      authentication middleware left: 401 without a user, 403 when its role
      is missing or not listed, `next()` otherwise. */
  function Check(roles: seq<string>, user: Option<Claims>): (r: Outcome)
    ensures r == Respond(401) <==> user.None?
    ensures r == Respond(403) <==> user.Some? && !(RoleOf(user.value).Some? && RoleOf(user.value).value in roles)
    ensures r == Next <==> user.Some? && "role" in user.value && user.value["role"] in roles
  {
    if user.None? then Respond(401)
    else if RoleOf(user.value).None? || RoleOf(user.value).value !in roles then Respond(403)
    else Next
  }

  /** Any listed role suffices: adding roles to the list never turns an
      allowed user away. */
  lemma MoreRolesAllowMore(roles: seq<string>, extra: seq<string>, user: Option<Claims>)
    requires Check(roles, user) == Next
    ensures Check(roles + extra, user) == Next && Check(extra + roles, user) == Next
  {
  }

  /** An empty role list turns every request away. */
  lemma EmptyListDeniesAll(user: Option<Claims>)
    ensures Check([], user) != Next
  {
  }

  /** A user without a `role` claim is refused by every role check. */
  lemma NoRoleNoAccess(roles: seq<string>, user: Claims)
    requires "role" !in user
    ensures Check(roles, Some(user)) == Respond(403)
  {
  }
}
