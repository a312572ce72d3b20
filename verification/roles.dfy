/**
 The two roles a caller may claim. The role arrives as an optional request
 header; anything other than exactly "admin" or "user" is refused before any
 booking operation runs, so the engine itself only ever sees a `Role`.
 */
module Roles {
  import opened Wrappers

  datatype Role = Admin | User

  /** The header value that names `role`. */
  function RoleName(role: Role): string
  {
    match role
    case Admin => "admin"
    case User => "user"
  }

  /** Resolves the role header; `None` stands for the refusal of a missing or unknown role. */
  function ResolveRole(header: Option<string>): (r: Option<Role>)
    ensures r.Some? <==> header == Some("admin") || header == Some("user")
  {
    if header == Some("admin") then Some(Admin)
    else if header == Some("user") then Some(User)
    else None
  }

  /** Resolving is the inverse of naming, in both directions. */
  lemma ResolveRoleRoundTrip(header: Option<string>, role: Role)
    ensures ResolveRole(Some(RoleName(role))) == Some(role)
    ensures ResolveRole(header) == Some(role) ==> header == Some(RoleName(role))
  {
  }
}
