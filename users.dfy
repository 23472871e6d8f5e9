/** Users: the legacy role string, the optional RBAC role and the lock-out
    window (app/app/models/user.py). Clock readings are integer seconds. */
module Users {
  import opened Common
  import Roles

  /** `UserRole`, the legacy role enumeration, and the strings it stores. */
  datatype UserRole = Admin | Pathologist | Cytotechnologist | Physician | ItAdmin {
    function Value(): string {
      match this
      case Admin => "admin"
      case Pathologist => "pathologist"
      case Cytotechnologist => "cytotechnologist"
      case Physician => "physician"
      case ItAdmin => "it_admin"
    }
  }

  datatype User = User(
    id: Id,
    email: string,
    username: Option<string>,
    name: string,
    role: string,                  // legacy role string
    roleRef: Option<Roles.Role>,   // `role_ref`, the RBAC role if one is linked
    isActive: bool,
    isVerified: bool,
    mfaEnabled: bool,
    lockedUntil: Option<int>)

  /** A user row as inserted with the column defaults: physician, active,
      unverified, no MFA, no RBAC role, not locked. */
  function NewUser(id: Id, email: string, name: string): (u: User)
    ensures u.role == Physician.Value()
    ensures u.roleRef == None && u.lockedUntil == None
    ensures u.isActive && !u.isVerified && !u.mfaEnabled
    ensures u.id == id && u.email == email && u.name == name
  {
    User(id, email, None, name, Physician.Value(), None, true, false, false, None)
  }

  /** `is_locked`: locked exactly while the clock is strictly before `locked_until`. */
  function IsLocked(u: User, now: int): (locked: bool)
    ensures u.lockedUntil == None ==> !locked
    ensures u.lockedUntil.Some? ==> (locked <==> now < u.lockedUntil.value)
  {
    match u.lockedUntil
    case None => false
    case Some(until) => now < until
  }

  /** The account unlocks at `locked_until` itself and stays unlocked after it. */
  lemma UnlocksAtLockedUntil(u: User, now: int)
    requires u.lockedUntil.Some?
    ensures IsLocked(u, now) <==> now < u.lockedUntil.value
    ensures !IsLocked(u, u.lockedUntil.value)
  {
  }

  /** `User.has_permission`: the linked role decides; without one, only the
      legacy admin string is allowed, and then for everything. */
  function HasPermission(u: User, resource: string, action: string): (allowed: bool)
    ensures u.roleRef.Some? ==> (allowed <==> Roles.HasPermission(u.roleRef.value, resource, action))
    ensures u.roleRef.None? ==> (allowed <==> u.role == Admin.Value())
  {
    match u.roleRef
    case Some(r) => Roles.HasPermission(r, resource, action)
    case None => u.role == Admin.Value()
  }

  /** Without a linked role, every user whose legacy role is not "admin", a
      pathologist included, is denied every action on every resource. */
  lemma LegacyNonAdminDeniedEverything(u: User)
    requires u.roleRef.None? && u.role != Admin.Value()
    ensures forall resource, action :: !HasPermission(u, resource, action)
  {
  }

  /** Without a linked role the legacy admin is allowed everything, including
      resources that no seeded role lists. */
  lemma LegacyAdminAllowedEverything(u: User)
    requires u.roleRef.None? && u.role == Admin.Value()
    ensures forall resource, action :: HasPermission(u, resource, action)
  {
  }

  /** A pathologist linked to the seeded pathologist role may sign off; the
      same user without the link may not. */
  lemma PathologistSignOffNeedsRoleRef(u: User)
    requires u.role == Pathologist.Value()
    ensures u.(roleRef := Some(Roles.PathologistRole)).role == u.role
    ensures HasPermission(u.(roleRef := Some(Roles.PathologistRole)), "annotations", "sign_off")
    ensures !HasPermission(u.(roleRef := None), "annotations", "sign_off")
  {
    assert "sign_off" in Roles.PathologistRole.permissions["annotations"];
  }
}
