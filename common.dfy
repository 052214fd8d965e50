/** Shared vocabulary of the portal's API routes: optional values, handler
    results, HTTP errors, roles and the authenticated session. */
module Common {

  datatype Option<+T> = None | Some(value: T) {
    function GetOr(default: T): T {
      match this
      case Some(v) => v
      case None => default
    }
  }

  /** The outcome of a route handler: a JSON body, or an error response. */
  datatype Result<+R> = Success(value: R) | Failure(error: HttpError)

  /** An error response: its HTTP status and the `error` text of its JSON body. */
  datatype HttpError = HttpError(status: int, message: string)

  const Unauthorized := HttpError(401, "Unauthorized")
  const Forbidden := HttpError(403, "Forbidden")

  /** The roles of the database's Role enum. */
  datatype Role = User | Employee | Admin

  function RoleName(r: Role): string {
    match r
    case User => "USER"
    case Employee => "EMPLOYEE"
    case Admin => "ADMIN"
  }

  /** Reads a role name back into the enum; any other text is not a role. */
  function ParseRole(s: string): (r: Option<Role>)
    ensures r.Some? ==> RoleName(r.value) == s
  {
    if s == "USER" then Some(User)
    else if s == "EMPLOYEE" then Some(Employee)
    else if s == "ADMIN" then Some(Admin)
    else None
  }

  /** Every role survives being written out and read back. */
  lemma ParseRoleName(r: Role)
    ensures ParseRole(RoleName(r)) == Some(r)
  {
  }

  /** The user of the session as the authentication layer hands it over; the
      role is a plain string that is compared with the enum's names. */
  datatype Session = Session(userId: string, email: string, role: string)

  /** ADMIN or EMPLOYEE: the roles allowed to create orders and list services. */
  predicate IsStaff(role: string) {
    role == RoleName(Admin) || role == RoleName(Employee)
  }

  predicate IsAdmin(role: string) {
    role == RoleName(Admin)
  }

  /** JavaScript truthiness of an optional string: present and non-empty. */
  predicate Truthy(s: Option<string>) {
    s.Some? && s.value != ""
  }

  /** `s ? s : null` and `s || null` on an optional string. */
  function OrNull(s: Option<string>): (r: Option<string>)
    ensures r.Some? <==> Truthy(s)
    ensures r.Some? ==> r == s
  {
    if Truthy(s) then s else None
  }
}
