/** The role-to-permission table behind `hasPermission`. The role is the
    result of the profile lookup, taken as an input: `None` when there is no
    signed-in user or no profile. */
module Permissions {
  import opened Optional

  const Patient: string := "patient"
  const Practitioner: string := "practitioner"
  const Admin: string := "admin"

  const PatientPermissions: seq<string> := ["read_own_data", "update_own_profile"]

  const PractitionerPermissions: seq<string> :=
    ["read_own_data", "update_own_profile", "read_patient_data", "create_assessment", "update_assessment"]

  const AdminPermissions: seq<string> :=
    ["read_own_data", "update_own_profile", "read_patient_data", "create_assessment", "update_assessment",
     "manage_users", "view_audit_logs"]

  /** The permission the data retention job asks for. */
  const ManageDataRetention: string := "manage_data_retention"

  /** `rolePermissions[role]`: the list of a known role, `None` for any other string. */
  function RolePermissions(role: string): (r: Option<seq<string>>)
    ensures r.Some? <==> role in {Patient, Practitioner, Admin}
  {
    if role == Patient then Some(PatientPermissions)
    else if role == Practitioner then Some(PractitionerPermissions)
    else if role == Admin then Some(AdminPermissions)
    else None
  }

  /** `hasPermission`: false without a role (null or empty); otherwise whether
      the role's list includes the permission, false for an unknown role. */
  function HasPermission(role: Option<string>, permission: string): bool
  {
    if role.None? || role.value == "" then false
    else
      match RolePermissions(role.value)
      case None => false
      case Some(ps) => permission in ps
  }

  /** A role's seniority: patient below practitioner below admin. */
  function Rank(role: string): (n: nat)
    ensures n > 0 <==> role in {Patient, Practitioner, Admin}
  {
    if role == Patient then 1
    else if role == Practitioner then 2
    else if role == Admin then 3
    else 0
  }

  /** Without a role nothing is granted; with one, a permission is granted
      exactly when the role is known and its list contains the permission. */
  lemma HasPermissionSpec(role: Option<string>, permission: string)
    ensures role.None? ==> !HasPermission(role, permission)
    ensures role.Some? ==>
      (HasPermission(role, permission) <==>
        RolePermissions(role.value).Some? && permission in RolePermissions(role.value).value)
    ensures role.Some? && role.value !in {Patient, Practitioner, Admin} ==> !HasPermission(role, permission)
  {
  }

  /** The lists are nested: every patient permission is a practitioner
      permission, and every practitioner permission is an admin permission. */
  lemma PermissionsNested()
    ensures forall p :: p in PatientPermissions ==> p in PractitionerPermissions
    ensures forall p :: p in PractitionerPermissions ==> p in AdminPermissions
    ensures |PatientPermissions| < |PractitionerPermissions| < |AdminPermissions|
  {
  }

  /** A more senior role holds every permission of a less senior one. */
  lemma {:induction false} RankMonotone(junior: string, senior: string, permission: string)
    requires 0 < Rank(junior) <= Rank(senior)
    requires HasPermission(Some(junior), permission)
    ensures HasPermission(Some(senior), permission)
  {
    PermissionsNested();
  }

  /** Only admins may manage users or read the audit logs. */
  lemma AdminOnly(role: Option<string>)
    ensures HasPermission(role, "manage_users") <==> role == Some(Admin)
    ensures HasPermission(role, "view_audit_logs") <==> role == Some(Admin)
  {
  }

  /** No role holds the data retention permission, so the retention job is
      always refused. */
  lemma DataRetentionNeverGranted(role: Option<string>)
    ensures !HasPermission(role, ManageDataRetention)
  {
  }
}
