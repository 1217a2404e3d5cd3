/**
 * The coarse-grained user roles and their precedence order
 * (admin > manager > staff; any other role string ranks below all three).
 */
module Roles {
  const AdminRole: string := "admin"
  const ManagerRole: string := "manager"
  const StaffRole: string := "staff"

  /** The precedence table of `has_role_at_least`, with 0 for a role it does not list. */
  function Rank(role: string): (n: nat)
    ensures n <= 3
    ensures n == 3 <==> role == AdminRole
    ensures n == 2 <==> role == ManagerRole
    ensures n == 1 <==> role == StaffRole
  {
    if role == StaffRole then 1
    else if role == ManagerRole then 2
    else if role == AdminRole then 3
    else 0
  }

  /** Admin, the top of the order. */
  function IsAdmin(role: string): (r: bool)
    ensures r <==> Rank(role) == 3
  {
    role == AdminRole
  }

  /** Manager or higher. */
  function IsManager(role: string): (r: bool)
    ensures r <==> Rank(role) >= 2
  {
    role == ManagerRole || role == AdminRole
  }

  /** Any of the three defined roles. */
  function IsStaffRole(role: string): (r: bool)
    ensures r <==> Rank(role) >= 1
  {
    role == StaffRole || role == ManagerRole || role == AdminRole
  }

  /** Exact role equality. */
  function HasRole(role: string, other: string): (r: bool)
    ensures r ==> Rank(role) == Rank(other)
    ensures Rank(role) > 0 && Rank(role) == Rank(other) ==> r
  {
    role == other
  }

  /** Admin > Manager > Staff, with any other role below all three. */
  function HasRoleAtLeast(role: string, other: string): (r: bool)
    ensures r <==> role == AdminRole
                   || (role == ManagerRole && other != AdminRole)
                   || (role == StaffRole && other != AdminRole && other != ManagerRole)
                   || (other != AdminRole && other != ManagerRole && other != StaffRole)
  {
    Rank(role) >= Rank(other)
  }

  /** The three role predicates are thresholds of the precedence order. */
  lemma RolePredicatesAreThresholds(role: string)
    ensures IsAdmin(role) <==> HasRoleAtLeast(role, AdminRole)
    ensures IsManager(role) <==> HasRoleAtLeast(role, ManagerRole)
    ensures IsStaffRole(role) <==> HasRoleAtLeast(role, StaffRole)
  {
  }

  lemma HasRoleAtLeastReflexive(role: string)
    ensures HasRoleAtLeast(role, role)
  {
  }

  lemma HasRoleAtLeastTransitive(a: string, b: string, c: string)
    requires HasRoleAtLeast(a, b) && HasRoleAtLeast(b, c)
    ensures HasRoleAtLeast(a, c)
  {
  }

  /** Any two roles are comparable. */
  lemma HasRoleAtLeastTotal(a: string, b: string)
    ensures HasRoleAtLeast(a, b) || HasRoleAtLeast(b, a)
  {
  }

  /** The precedence checks of the role test suite. */
  lemma PrecedenceExamples()
    ensures HasRoleAtLeast(AdminRole, ManagerRole)
    ensures HasRoleAtLeast(ManagerRole, StaffRole)
    ensures !HasRoleAtLeast(StaffRole, ManagerRole)
  {
  }

  /** An unknown role (such as "viewer") is at least only the other unknown roles. */
  lemma UnknownRoleRanksLowest(role: string, other: string)
    requires !IsStaffRole(role)
    ensures HasRoleAtLeast(role, other) <==> !IsStaffRole(other)
  {
  }

  /**
   * `has_module_perms`: admins may use every app; for everyone else the
   * framework's own answer (a parameter here) is returned.
   */
  function HasModulePerms(role: string, appLabel: string, basePerms: string -> bool): (r: bool)
    ensures IsAdmin(role) ==> r
    ensures !IsAdmin(role) ==> r == basePerms(appLabel)
  {
    if IsAdmin(role) then true else basePerms(appLabel)
  }
}
