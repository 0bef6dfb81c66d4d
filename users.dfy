/** `model.User`: an application account and the permissions its role
    grants. Role comparisons are exact and case-sensitive. */
module Users {
  import opened Common

  /** A `java.time.LocalDateTime`, as an opaque instant. */
  type DateTime = int

  datatype User = User(
    id: int,
    username: JStr,
    email: JStr,
    fullName: JStr,
    role: JStr,
    registrationDate: Option<Date>,
    lastLogin: Option<DateTime>,
    active: bool)

  const RoleAdmin := "Admin"
  const RoleAttorney := "Attorney"
  const RoleStaff := "Staff"
  const RoleFinance := "Finance"
  const RoleReadOnly := "ReadOnly"

  /** `new User()`: active, registered today, never logged in. */
  function NewUser(today: Date): (u: User)
    ensures u.active && u.registrationDate == Some(today) && IsNewAccount(u)
    ensures u.role.None? && !CanModifyCases(u) && !CanViewFinancials(u)
  {
    User(0, None, None, None, None, Some(today), None, true)
  }

  /** `new User(username, email, fullName, role)` */
  function NewUserWithRole(today: Date, username: JStr, email: JStr, fullName: JStr, role: JStr): (u: User)
    ensures u.active && u.registrationDate == Some(today) && IsNewAccount(u) && u.role == role
  {
    NewUser(today).(username := username, email := email, fullName := fullName, role := role)
  }

  predicate IsAdmin(u: User) { u.role == Some(RoleAdmin) }
  predicate IsAttorney(u: User) { u.role == Some(RoleAttorney) }
  predicate IsFinance(u: User) { u.role == Some(RoleFinance) }
  predicate IsStaff(u: User) { u.role == Some(RoleStaff) }
  predicate IsReadOnly(u: User) { u.role == Some(RoleReadOnly) }

  /** `canModifyCases`: admins, attorneys and staff. */
  function CanModifyCases(u: User): (r: bool)
    ensures r <==> IsAdmin(u) || IsAttorney(u) || IsStaff(u)
    ensures r ==> !IsFinance(u) && !IsReadOnly(u)
  {
    IsAdmin(u) || IsAttorney(u) || IsStaff(u)
  }

  /** `canViewFinancials`: admins, finance and attorneys. */
  function CanViewFinancials(u: User): (r: bool)
    ensures r <==> IsAdmin(u) || IsFinance(u) || IsAttorney(u)
    ensures r ==> !IsStaff(u) && !IsReadOnly(u)
  {
    IsAdmin(u) || IsFinance(u) || IsAttorney(u)
  }

  /** `canModifyFinancials`: admins and finance; whoever may modify
      financials may also view them. */
  function CanModifyFinancials(u: User): (r: bool)
    ensures r <==> IsAdmin(u) || IsFinance(u)
    ensures r ==> CanViewFinancials(u)
  {
    IsAdmin(u) || IsFinance(u)
  }

  /** `canManageUsers`: admins only, and an admin holds every permission. */
  function CanManageUsers(u: User): (r: bool)
    ensures r <==> IsAdmin(u)
    ensures r ==> CanModifyCases(u) && CanViewFinancials(u) && CanModifyFinancials(u)
  {
    IsAdmin(u)
  }

  /** A read-only user holds none of the four permissions. */
  lemma ReadOnlyHasNoPermission(u: User)
    requires IsReadOnly(u)
    ensures !CanModifyCases(u) && !CanViewFinancials(u) && !CanModifyFinancials(u) && !CanManageUsers(u)
  {
  }

  /** Role matching is case-sensitive: "admin" is not an administrator. */
  lemma RoleMatchIsCaseSensitive(u: User)
    requires u.role == Some("admin")
    ensures !IsAdmin(u) && !CanManageUsers(u)
  {
    assert "admin"[0] != RoleAdmin[0];
  }

  /** `isNewAccount`: the user has never logged in. */
  predicate IsNewAccount(u: User)
  {
    u.lastLogin.None?
  }

  /** `getDisplayName`: the full name followed by the role in parentheses. */
  function DisplayName(u: User): (r: string)
    ensures var n := |Render(u.fullName)|;
            |r| == n + |Render(u.role)| + 3 && r[..n] == Render(u.fullName) &&
            r[n..n + 2] == " (" && r[n + 2..|r| - 1] == Render(u.role) && r[|r| - 1] == ')'
  {
    Render(u.fullName) + " (" + Render(u.role) + ")"
  }
}
