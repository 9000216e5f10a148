/**
 * The session gate: the two guards that run before the profile and
 * add-job handlers, over the email a session carries (`None` when the
 * session has none).
 */
module Gate {
  import opened Wrappers

  /** The one administrator account. */
  const AdminEmail: string := "admin@example.com"

  /** JavaScript truthiness of a session value: `undefined` and `""` are falsy. */
  predicate Truthy(user: Option<string>) {
    user.Some? && user.value != ""
  }

  /** The email a request is served for, or `None` when it is sent back to sign in. */
  function AuthRequired(user: Option<string>): (r: Option<string>)
    ensures r.None? <==> (user == None || user == Some(""))
    ensures r.Some? ==> user == r && r.value != ""
  {
    if Truthy(user) then user else None
  }

  /** Whether a request may reach an administrator handler. */
  function AdminRequired(user: Option<string>): (admitted: bool)
    ensures admitted <==> user == Some(AdminEmail)
    ensures admitted ==> AuthRequired(user) == user
  {
    user == Some(AdminEmail)
  }
}
