/** The login route of the API: a check of e-mail and password against a constant
    table holding one demo account. Nothing is stored or changed. The token is
    built from the clock in the original; here it is an opaque parameter. */
module LoginApi {
  import opened Common

  datatype Account = Account(id: string, email: string, password: string, name: string)

  /** A user as the response shows it: there is no password field. */
  datatype PublicUser = PublicUser(id: string, email: string, name: string)

  /** What POST answers, with its HTTP status. */
  datatype Response =
    | LoggedIn(user: PublicUser, token: string)
    | Failed(code: nat, error: string)
  {
    function Status(): nat
    {
      match this
      case LoggedIn(_, _) => 200
      case Failed(code, _) => code
    }
  }

  const DemoEmail: string := "demo@classconnect.edu"
  const DemoPassword: string := "demo123"

  /** The route's constant user table. */
  const Accounts: map<string, Account> :=
    map[DemoEmail := Account("1", DemoEmail, DemoPassword, "Demo User")]

  /** POST: 400 when a field is missing or empty; 401 with one and the same message
      for an unknown e-mail and for a wrong password; otherwise the stored user
      without the password, and the token. */
  function Login(email: Option<string>, password: Option<string>, token: string): (r: Response)
    ensures !Truthy(email) || !Truthy(password) ==> r == Failed(400, "Email and password are required")
    ensures Truthy(email) && Truthy(password) && email.value !in Accounts ==>
      r == Failed(401, "Invalid email or password")
    ensures Truthy(email) && Truthy(password) && email.value in Accounts
            && Accounts[email.value].password != password.value ==>
      r == Failed(401, "Invalid email or password")
    ensures r.LoggedIn? ==>
      && email.Some? && email.value in Accounts
      && var a := Accounts[email.value];
      && r.user == PublicUser(a.id, a.email, a.name)
      && r.token == token
  {
    if !Truthy(email) || !Truthy(password) then
      Failed(400, "Email and password are required")
    else if email.value !in Accounts || Accounts[email.value].password != password.value then
      Failed(401, "Invalid email or password")
    else
      var user := Accounts[email.value];
      LoggedIn(PublicUser(user.id, user.email, user.name), token)
  }

  /** Exactly one pair of credentials succeeds: the seeded demo account. */
  lemma OnlyDemoAccountLogsIn(email: Option<string>, password: Option<string>, token: string)
    ensures Login(email, password, token).LoggedIn? <==> email == Some(DemoEmail) && password == Some(DemoPassword)
    ensures Login(email, password, token).LoggedIn? ==>
      Login(email, password, token).user == PublicUser("1", DemoEmail, "Demo User")
  {
  }
}
