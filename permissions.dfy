/**
 * The role/capability table of the web console and its authorization query
 * (web/src/context/permissions.tsx).
 *
 * Roles, resources and actions are the string keys the table is indexed by,
 * so that a key the table lacks reads as `undefined`, as optional chaining does.
 */
module Permissions {
  import opened Wrappers

  /** One resource's capability record; `download` is an optional member. */
  datatype Permission = Permission(view: bool, create: bool, update: bool, delete: bool, download: Option<bool>)

  const AdminRole: string := "admin"
  const UserRole: string := "user"

  /** The resources and actions the table is written for. */
  const Resources: seq<string> := ["users", "export", "config", "logs"]
  const Actions: seq<string> := ["view", "create", "update", "delete", "download"]

  const AdminRow: map<string, Permission> := map[
    "users" := Permission(true, true, true, true, Some(true)),
    "export" := Permission(true, true, true, true, Some(true)),
    "config" := Permission(true, true, true, true, Some(true)),
    "logs" := Permission(true, true, true, true, Some(true))
  ]

  const UserRow: map<string, Permission> := map[
    "users" := Permission(false, false, false, false, Some(false)),
    "export" := Permission(true, false, false, false, Some(true)),
    "config" := Permission(false, false, false, false, Some(false)),
    "logs" := Permission(false, false, false, false, Some(false))
  ]

  /** The constant table, role -> resource -> capabilities. */
  const Table: map<string, map<string, Permission>> := map[AdminRole := AdminRow, UserRole := UserRow]

  /** Property access `permission[action]`; a key that is not a member is `undefined`. */
  function ActionValue(p: Permission, action: string): (v: Option<bool>)
    ensures v.None? <==> action !in Actions || (action == "download" && p.download.None?)
  {
    match action
    case "view" => Some(p.view)
    case "create" => Some(p.create)
    case "update" => Some(p.update)
    case "delete" => Some(p.delete)
    case "download" => p.download
    case _ => None
  }

  /**
   * `permissions[role]?.[resource]?.[action]`: defined exactly for the two roles,
   * the four resources and the five actions the table is written for.
   */
  function Lookup(role: string, resource: string, action: string): (v: Option<bool>)
    ensures v.Some? <==> role in Table && resource in Resources && action in Actions
  {
    if role in Table && resource in Table[role] then ActionValue(Table[role][resource], action) else None
  }

  /**
   * `verifyPermission`: admin is allowed without consulting the table; any other
   * role gets its table entry, and a missing role, resource or action is `false`.
   */
  function VerifyPermission(role: string, resource: string, action: string): (allowed: bool)
    ensures role == AdminRole ==> allowed
    ensures allowed && role != AdminRole ==>
      role == UserRole && resource == "export" && (action == "view" || action == "download")
  {
    if role == AdminRole then true
    else Lookup(role, resource, action).GetOr(false)
  }

  /** The `verifyPermission` of the context's default value, used when no provider is mounted. */
  function DefaultVerifyPermission(role: string, resource: string, action: string): (allowed: bool)
    ensures allowed ==> VerifyPermission(role, resource, action)
  {
    false
  }

  /** The user role is granted exactly `export.view` and `export.download`. */
  lemma UserGrants(resource: string, action: string)
    ensures VerifyPermission(UserRole, resource, action) <==>
      resource == "export" && (action == "view" || action == "download")
  {
  }

  /** A role the table does not name is denied everything (fail closed), and nothing throws. */
  lemma UnknownRoleDenied(role: string, resource: string, action: string)
    requires role != AdminRole && role != UserRole
    ensures !VerifyPermission(role, resource, action)
  {
  }

  /** Every entry of the admin row is `true`, so the bypass agrees with a plain table lookup. */
  lemma AdminBypassAgreesWithTable(resource: string, action: string)
    requires resource in Resources && action in Actions
    ensures Lookup(AdminRole, resource, action) == Some(true)
    ensures VerifyPermission(AdminRole, resource, action) == Lookup(AdminRole, resource, action).GetOr(false)
  {
  }

  /** Whatever the table grants the user role, it also grants the admin role. */
  lemma UserRowWithinAdminRow(resource: string, action: string)
    ensures Lookup(UserRole, resource, action) == Some(true) ==> Lookup(AdminRole, resource, action) == Some(true)
  {
  }

  /**
   * Every row of the table defines every resource, and every record defines
   * all five actions, `download` included.
   */
  lemma TableComplete(role: string, resource: string, action: string)
    requires role in Table && resource in Resources && action in Actions
    ensures resource in Table[role] && Lookup(role, resource, action).Some?
  {
  }

  /**
   * The default context denies every query, so without a provider even the admin
   * role, which the provider always allows, is denied.
   */
  lemma DefaultContextFailsClosed(role: string, resource: string, action: string)
    ensures !DefaultVerifyPermission(role, resource, action)
    ensures role == AdminRole ==>
      VerifyPermission(role, resource, action) && !DefaultVerifyPermission(role, resource, action)
  {
  }
}
