/**
 * The hard-coded credentials pseudo-backend (app/services/auth_service.py).
 * The session token, `secrets.token_hex(16)`, is a parameter.
 */
module AuthService {
  import opened Wrappers

  /** One entry of the `USERS` table. */
  datatype UserData = UserData(password: string, role: string, name: string)

  /** What `validate_credentials` returns for a valid login. */
  datatype Session = Session(email: string, role: string, name: string, token: string)

  const USERS: map<string, UserData> := map[
    "admin@prontoa.test" := UserData("AdminPass123", "admin", "Administrador"),
    "worker@prontoa.test" := UserData("WorkerPass123", "trabajador", "Trabajador")]

  const VALID_ROLES := ["admin", "trabajador"]

  /** `is_valid_role`. */
  predicate IsValidRole(role: string) {
    role in VALID_ROLES
  }

  /** `get_user_by_email`: `USERS.get(email)`. */
  function UserByEmail(email: string): (r: Option<UserData>)
    ensures r.Some? <==> email in USERS
    ensures r.Some? ==> r.value == USERS[email]
  {
    if email in USERS then Some(USERS[email]) else None
  }

  /**
   * `validate_credentials`: a session iff the email is known and the
   * password is exactly the stored one, carrying the table's role and name.
   */
  function ValidateCredentials(email: string, password: string, token: string): (r: Option<Session>)
    ensures r.Some? <==> email in USERS && USERS[email].password == password
    ensures r.Some? ==> r.value == Session(email, USERS[email].role, USERS[email].name, token)
  {
    match UserByEmail(email)
    case Some(u) => if u.password == password then Some(Session(email, u.role, u.name, token)) else None
    case None => None
  }

  /** Every role in the table is a valid one, so every session carries a valid role. */
  lemma SessionRoleIsValid(email: string, password: string, token: string)
    ensures ValidateCredentials(email, password, token).Some? ==>
      IsValidRole(ValidateCredentials(email, password, token).value.role)
  {
  }
}
