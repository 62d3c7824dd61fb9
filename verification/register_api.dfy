/** The registration route of the API: a process-wide map from e-mail address to
    user, filled by POST after three checks in a fixed order. It is its own map,
    separate from the login route's table. The id comes from the clock in the
    original; here it is a parameter. */
module RegisterApi {
  import opened Common

  /** A registered user as stored, password included. */
  datatype StoredUser = StoredUser(id: string, email: string, password: string, name: string)

  /** A user as the response shows it: there is no password field. */
  datatype PublicUser = PublicUser(id: string, email: string, name: string)

  /** What POST answers, with its HTTP status. */
  datatype Response =
    | Registered(user: PublicUser)
    | Failed(code: nat, error: string)
  {
    function Status(): nat
    {
      match this
      case Registered(_) => 201
      case Failed(code, _) => code
    }
  }

  /** The shortest password the route accepts. */
  const MinPasswordLength: nat := 6

  /** The module-level `users` map. */
  class UserRegistry {
    var users: map<string, StoredUser>

    constructor ()
      ensures users == map[]
    {
      users := map[];
    }

    /** POST: 400 when a field is missing or empty, then 400 when the password is
        shorter than 6 characters, then 409 when the e-mail is taken; otherwise
        exactly one entry, keyed by the e-mail, is added. Every rejection leaves
        the map as it was. */
    method Register(name: Option<string>, email: Option<string>, password: Option<string>, id: string)
      returns (r: Response)
      modifies this
      ensures r.Failed? ==> users == old(users)
      ensures !Truthy(name) || !Truthy(email) || !Truthy(password) ==>
        r == Failed(400, "Name, email, and password are required")
      ensures Truthy(name) && Truthy(email) && Truthy(password) && |password.value| < MinPasswordLength ==>
        r == Failed(400, "Password must be at least 6 characters")
      ensures Truthy(name) && Truthy(email) && Truthy(password) && |password.value| >= MinPasswordLength
              && email.value in old(users) ==>
        r == Failed(409, "User already exists")
      ensures Truthy(name) && Truthy(email) && Truthy(password) && |password.value| >= MinPasswordLength
              && email.value !in old(users) ==>
        && users == old(users)[email.value := StoredUser(id, email.value, password.value, name.value)]
        && users.Keys == old(users).Keys + {email.value}
        && |users| == |old(users)| + 1
        && r == Registered(PublicUser(id, email.value, name.value))
        && r.Status() == 201
    {
      if !Truthy(name) || !Truthy(email) || !Truthy(password) {
        return Failed(400, "Name, email, and password are required");
      }
      if |password.value| < MinPasswordLength {
        return Failed(400, "Password must be at least 6 characters");
      }
      if email.value in users {
        return Failed(409, "User already exists");
      }
      var newUser := StoredUser(id, email.value, password.value, name.value);
      users := users[email.value := newUser];
      r := Registered(PublicUser(newUser.id, newUser.email, newUser.name));
    }
  }
}
