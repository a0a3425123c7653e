/**
 * The sign-in screen's credential logic over the map of registered users,
 * keyed by email. Passwords are compared as plain strings.
 */
module Auth {

  datatype UserRecord = UserRecord(name: string, password: string)

  datatype Mode = SignIn | Register

  datatype Outcome = LoggedIn(user: string) | Rejected(message: string)

  datatype AuthResult = AuthResult(users: map<string, UserRecord>, outcome: Outcome)

  const MissingFields: string := "Please fill in all fields"
  const BadCredentials: string := "Invalid email or password"

  /** Every field the mode asks for is filled in: email and password, and the name when registering. */
  predicate FieldsFilled(mode: Mode, email: string, password: string, name: string) {
    email != [] && password != [] && (mode == Register ==> name != [])
  }

  /**
   * Submitting the form. A missing field is rejected and nothing is stored;
   * registering stores (or overwrites) the entry for `email` and logs in
   * under `name`; signing in logs in under the stored name exactly when
   * `email` is registered with this very password, and stores nothing.
   */
  function Submit(users: map<string, UserRecord>, mode: Mode,
                  email: string, password: string, name: string): (r: AuthResult)
    ensures !FieldsFilled(mode, email, password, name) ==>
              r == AuthResult(users, Rejected(MissingFields))
    ensures FieldsFilled(mode, email, password, name) && mode == Register ==>
              r.users == users[email := UserRecord(name, password)] && r.outcome == LoggedIn(name)
    ensures mode == SignIn ==> r.users == users
    ensures mode == SignIn && FieldsFilled(mode, email, password, name) ==>
              (r.outcome.LoggedIn? <==> email in users && users[email].password == password)
    ensures r.outcome.LoggedIn? && mode == SignIn ==> r.outcome.user == users[email].name
    ensures mode == SignIn && FieldsFilled(mode, email, password, name) && r.outcome.Rejected? ==>
              r.outcome.message == BadCredentials
  {
    if !FieldsFilled(mode, email, password, name) then
      AuthResult(users, Rejected(MissingFields))
    else if mode == Register then
      AuthResult(users[email := UserRecord(name, password)], LoggedIn(name))
    else if email in users && users[email].password == password then
      AuthResult(users, LoggedIn(users[email].name))
    else
      AuthResult(users, Rejected(BadCredentials))
  }

  /** Once registered, the same email and password sign in under the registered name. */
  lemma RegisterThenSignIn(users: map<string, UserRecord>, email: string, password: string, name: string)
    requires FieldsFilled(Register, email, password, name)
    ensures Submit(Submit(users, Register, email, password, name).users, SignIn, email, password, "")
         == AuthResult(users[email := UserRecord(name, password)], LoggedIn(name))
  {
  }

  /**
   * Registering an email that is already taken replaces its entry: the old
   * password stops working and other emails are unaffected.
   */
  lemma RegisterOverwrites(users: map<string, UserRecord>, email: string, password: string, name: string,
                           oldPassword: string, other: string, otherPassword: string)
    requires FieldsFilled(Register, email, password, name)
    requires oldPassword != password && other != email
    ensures Submit(users[email := UserRecord(name, password)], SignIn, email, oldPassword, "").outcome.Rejected?
    ensures Submit(users[email := UserRecord(name, password)], SignIn, other, otherPassword, "")
         == AuthResult(users[email := UserRecord(name, password)], Submit(users, SignIn, other, otherPassword, "").outcome)
  {
  }
}
