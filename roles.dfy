/** Role-based access control: a role maps resource names to the actions it
    allows, with "*" standing for every action on that resource
    (app/app/models/role.py). */
module Roles {

  datatype Role = Role(roleName: string, description: string, permissions: map<string, seq<string>>)

  const Wildcard: string := "*"

  /** `permissions.get(resource, [])`: an unlisted resource has no actions. */
  function Actions(r: Role, resource: string): (acts: seq<string>)
    ensures resource !in r.permissions ==> acts == []
    ensures resource in r.permissions ==> acts == r.permissions[resource]
  {
    if resource in r.permissions then r.permissions[resource] else []
  }

  /** `Role.has_permission`: allowed iff the action itself or "*" is listed for
      the resource; a resource missing from the map allows nothing. */
  function HasPermission(r: Role, resource: string, action: string): (allowed: bool)
    ensures allowed <==>
      resource in r.permissions && (action in r.permissions[resource] || Wildcard in r.permissions[resource])
  {
    var acts := Actions(r, resource);
    action in acts || Wildcard in acts
  }

  lemma UnknownResourceDeniesAll(r: Role, resource: string)
    requires resource !in r.permissions
    ensures forall action :: !HasPermission(r, resource, action)
  {
  }

  /** A "*" entry grants every action on its resource, listed or not. */
  lemma WildcardGrantsAll(r: Role, resource: string)
    requires resource in r.permissions && Wildcard in r.permissions[resource]
    ensures forall action :: HasPermission(r, resource, action)
  {
  }

  // ---------------------------------------------------------------------------
  // DEFAULT_ROLES, the seed data

  const AdminResources: seq<string> :=
    ["users", "patients", "samples", "diagnoses", "annotations", "audit", "settings"]

  const AdminRole: Role := Role("admin", "System administrator with full access",
    map["users" := ["*"], "patients" := ["*"], "samples" := ["*"], "diagnoses" := ["*"],
        "annotations" := ["*"], "audit" := ["*"], "settings" := ["*"]])

  const PathologistRole: Role := Role("pathologist", "Pathologist - can review and approve diagnoses",
    map["patients" := ["read"], "samples" := ["read", "write"],
        "diagnoses" := ["read", "write", "approve"],
        "annotations" := ["read", "write", "sign_off"], "audit" := ["read"]])

  const CytotechnologistRole: Role := Role("cytotechnologist",
    "Cytotechnologist - screens samples, flags abnormalities",
    map["patients" := ["read"], "samples" := ["read", "write"], "diagnoses" := ["read", "write"],
        "annotations" := ["read", "write"], "audit" := ["read"]])

  const PhysicianRole: Role := Role("physician", "Physician - manages patients and orders screenings",
    map["patients" := ["read", "write"], "samples" := ["read", "write"], "diagnoses" := ["read"],
        "annotations" := ["read"], "audit" := ["read"]])

  const ItAdminRole: Role := Role("it_admin", "IT Administrator - manages integrations and system health",
    map["users" := ["read"], "settings" := ["read", "write"], "integrations" := ["*"],
        "audit" := ["read"]])

  const DefaultRoles: seq<Role> :=
    [AdminRole, PathologistRole, CytotechnologistRole, PhysicianRole, ItAdminRole]

  /** The seeded admin may do anything on its seven resources, and nothing on
      `integrations`, which it does not list: the admin bypass is data. */
  lemma AdminSeed()
    ensures forall resource, action :: resource in AdminResources ==> HasPermission(AdminRole, resource, action)
    ensures forall action :: !HasPermission(AdminRole, "integrations", action)
  {
    forall resource, action | resource in AdminResources
      ensures HasPermission(AdminRole, resource, action)
    {
      WildcardGrantsAll(AdminRole, resource);
    }
    assert "integrations" !in AdminRole.permissions;
  }

  /** Of the seeded roles exactly admin (through "*") and pathologist may sign
      annotations off. */
  lemma SignOffSeed()
    ensures forall r :: r in DefaultRoles ==>
      (HasPermission(r, "annotations", "sign_off") <==> r.roleName == "admin" || r.roleName == "pathologist")
  {
    assert !HasPermission(CytotechnologistRole, "annotations", "sign_off");
    assert !HasPermission(PhysicianRole, "annotations", "sign_off");
    assert !HasPermission(ItAdminRole, "annotations", "sign_off");
  }

  /** it_admin's only wildcard is `integrations`, and it has no access to patients. */
  lemma ItAdminSeed()
    ensures forall resource ::
      (resource in ItAdminRole.permissions && Wildcard in ItAdminRole.permissions[resource]) <==> resource == "integrations"
    ensures forall action :: !HasPermission(ItAdminRole, "patients", action)
  {
    assert "patients" !in ItAdminRole.permissions;
  }

  /** The seeded role names are distinct (`role_name` is unique). */
  lemma SeedNamesDistinct()
    ensures forall i, j :: 0 <= i < j < |DefaultRoles| ==> DefaultRoles[i].roleName != DefaultRoles[j].roleName
  {
  }
}
