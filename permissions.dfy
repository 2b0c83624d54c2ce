/**
 * The role-based permission classes of `backend/api`. A role is the stored
 * `user_role` string, compared case-sensitively with 'Admin' and 'Employee'.
 */
module Permissions {
  /** `request.user`: Django's anonymous user, or a stored user with its role string. */
  datatype Requester = Anonymous | Member(userId: int, role: string)

  /** Django REST framework's `SAFE_METHODS`. */
  const SafeMethods: set<string> := {"GET", "HEAD", "OPTIONS"}

  /** The role values `User.ROLE_CHOICES` stores. */
  const StoredRoles: set<string> := {"admin", "investor", "employee"}

  /** `IsAdmin`. */
  predicate IsAdmin(u: Requester) {
    u.Member? && u.role == "Admin"
  }

  /** `IsStaffOrAdmin`. */
  predicate IsStaffOrAdmin(u: Requester) {
    u.Member? && u.role in ["Admin", "Employee"]
  }

  /** `IsAdminOrEmployee`: the same test, with `request.user` (always truthy) checked first. */
  function IsAdminOrEmployee(u: Requester): (allowed: bool)
    ensures allowed == IsStaffOrAdmin(u)
    ensures IsAdmin(u) ==> allowed
  {
    u.Member? && (u.role == "Admin" || u.role == "Employee")
  }

  /**
   * `IsAdminOrEmployeeReadOnly`: an Admin may use any method, an Employee only
   * the safe ones, anyone else nothing.
   */
  function IsAdminOrEmployeeReadOnly(u: Requester, method_: string): (allowed: bool)
    ensures allowed <==> IsAdmin(u) || (IsStaffOrAdmin(u) && method_ in SafeMethods)
    ensures allowed ==> IsStaffOrAdmin(u)
  {
    if u.Member? then
      if u.role == "Admin" then true
      else u.role == "Employee" && method_ in SafeMethods
    else false
  }

  /** What `IsSelfOrAdmin.has_object_permission` does. */
  datatype Decision = Allow | Deny | RaisesAttributeError

  /** The object a view checks against: a user row or some other row. */
  datatype Target = UserRow(id: int) | OtherRow

  /**
   * `IsSelfOrAdmin`: an Admin, or the user the object is. There is no
   * authentication check, so the anonymous user, which has no `user_role`,
   * raises AttributeError.
   */
  function IsSelfOrAdmin(u: Requester, obj: Target): (d: Decision)
    ensures d == RaisesAttributeError <==> u.Anonymous?
    ensures d == Allow <==> IsAdmin(u) || (u.Member? && obj == UserRow(u.userId))
  {
    match u
    case Anonymous => RaisesAttributeError
    case Member(id, role) =>
      if role == "Admin" then Allow
      else if obj == UserRow(id) then Allow
      else Deny
  }

  /** Everything `IsAdmin` allows, every other class allows too, whatever the method or object. */
  lemma AdminPassesEveryClass(u: Requester, method_: string, obj: Target)
    requires IsAdmin(u)
    ensures IsStaffOrAdmin(u) && IsAdminOrEmployee(u)
    ensures IsAdminOrEmployeeReadOnly(u, method_) && IsSelfOrAdmin(u, obj) == Allow
  {
  }

  /** An Employee is allowed exactly the safe methods by the read-only class. */
  lemma EmployeeReadsOnly(id: int, method_: string)
    ensures IsAdminOrEmployeeReadOnly(Member(id, "Employee"), method_) <==> method_ in SafeMethods
  {
  }

  /**
   * The comparison is case-sensitive: a user whose role is one of the stored
   * lower-case values passes none of the role classes, and only reaches its
   * own user row.
   */
  lemma StoredRolesPassNoRoleCheck(id: int, role: string, method_: string, obj: Target)
    requires role in StoredRoles
    ensures !IsAdmin(Member(id, role)) && !IsStaffOrAdmin(Member(id, role))
    ensures !IsAdminOrEmployee(Member(id, role)) && !IsAdminOrEmployeeReadOnly(Member(id, role), method_)
    ensures IsSelfOrAdmin(Member(id, role), obj) == Allow <==> obj == UserRow(id)
  {
  }

  /** The anonymous user passes no role class. */
  lemma AnonymousPassesNothing(method_: string)
    ensures !IsAdmin(Anonymous) && !IsStaffOrAdmin(Anonymous) && !IsAdminOrEmployee(Anonymous)
    ensures !IsAdminOrEmployeeReadOnly(Anonymous, method_)
  {
  }
}
