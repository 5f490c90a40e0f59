/**
 * The role gate: a role named `X` in `hasRole('X')` is satisfied by a
 * credential holding the authority string `"ROLE_" + X`.
 */
module Security {
  import opened Wrappers

  datatype Role = SUPERADMIN | SYSTEM_ADMINISTRATOR

  const RolePrefix := "ROLE_"

  function RoleName(r: Role): string
  {
    match r
    case SUPERADMIN => "SUPERADMIN"
    case SYSTEM_ADMINISTRATOR => "SYSTEM_ADMINISTRATOR"
  }

  /** Reads an authority string back as the role it grants, if any. */
  function RoleOf(authority: string): Option<Role>
  {
    if |authority| < |RolePrefix| || authority[..|RolePrefix|] != RolePrefix then None
    else if authority[|RolePrefix|..] == RoleName(SUPERADMIN) then Some(SUPERADMIN)
    else if authority[|RolePrefix|..] == RoleName(SYSTEM_ADMINISTRATOR) then Some(SYSTEM_ADMINISTRATOR)
    else None
  }

  /** The authority string that satisfies `hasRole` for `r`. */
  function Authority(r: Role): (a: string)
    ensures |a| > |RolePrefix| && a[..|RolePrefix|] == RolePrefix
    ensures RoleOf(a) == Some(r)
  {
    RolePrefix + RoleName(r)
  }

  /** The only authority string granting `r` is `Authority(r)`. */
  lemma OnlyAuthorityGrants(a: string, r: Role)
    requires RoleOf(a) == Some(r)
    ensures a == Authority(r)
  {
  }

  /** Distinct roles need distinct authorities: no role implies another. */
  lemma AuthorityInjective(r: Role, s: Role)
    ensures Authority(r) == Authority(s) <==> r == s
  {
  }

  /** `hasRole(r)` against the credential's set of granted authorities. */
  predicate HasRole(authorities: set<string>, r: Role)
  {
    Authority(r) in authorities
  }

  /** The gate admits exactly the credentials holding some authority that reads as `r`. */
  lemma HasRoleIffGranted(authorities: set<string>, r: Role)
    ensures HasRole(authorities, r) <==> exists a :: a in authorities && RoleOf(a) == Some(r)
  {
    if a :| a in authorities && RoleOf(a) == Some(r) {
      OnlyAuthorityGrants(a, r);
    }
  }
}
