/** The role gate of the academy portal (middleware/role.js): a request goes on to its
    handler exactly when the authenticated user's role is one of the listed roles. */
module RoleGate {
  import opened Common

  /** What the middleware does with a request: call `next`, or answer on its own. */
  datatype Gate = Next | Refuse(status: nat, message: string)

  const DeniedMessage: string := "Access denied: insufficient permissions"

  /** `role(roles)(req, res, next)` for a user with role `role` */
  function Check(roles: seq<string>, role: string): (g: Gate)
    ensures g.Next? <==> role in roles
    ensures g.Refuse? ==> g == Refuse(403, DeniedMessage)
  {
    if role in roles then Next else Refuse(403, DeniedMessage)
  }

  /** An empty role list refuses every request, and listing more roles never refuses a
      request that was let through. */
  lemma CheckMonotone(roles: seq<string>, more: seq<string>, role: string)
    ensures Check([], role).Refuse?
    ensures Check(roles, role).Next? ==> Check(roles + more, role).Next? && Check(more + roles, role).Next?
  {
    if role in roles {
      var i :| 0 <= i < |roles| && roles[i] == role;
      assert (roles + more)[i] == role;
      assert (more + roles)[|more| + i] == role;
    }
  }
}
