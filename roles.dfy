/**
 * `utils/predicates/roles/RolesPredicate.java`: which roles may use the
 * client-facing endpoints. The `Roles` enum is not part of this model; the
 * constants this service names are listed, and `OtherRole` stands for any
 * further constant.
 */
module Roles {

  datatype Role = RoleUser | RoleManager | RoleClient | RoleAdmin | OtherRole(name: string)

  /** `getRolesClientUserManagerPredicate`: ROLE_USER, ROLE_MANAGER and ROLE_CLIENT, and nothing else. */
  function RolesClientUserManagerPredicate(): (accepts: Role -> bool)
    ensures forall r: Role :: accepts(r) <==> r == RoleUser || r == RoleManager || r == RoleClient
  {
    (r: Role) => r.RoleUser? || r.RoleManager? || r.RoleClient?
  }

  /** ROLE_ADMIN, the role this service mints for its own calls to the shop service, is not accepted. */
  lemma AdminRejected()
    ensures !RolesClientUserManagerPredicate()(RoleAdmin)
    ensures forall n :: !RolesClientUserManagerPredicate()(OtherRole(n))
  {
  }
}
