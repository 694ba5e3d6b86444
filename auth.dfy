/**
 * Sign-in against the two built-in accounts, the session's current user and the
 * role check that gates the administrator screens. Persisting the session in the
 * browser's storage is not modelled.
 */
module Auth {
  import opened Wrappers

  /** 'admin' | 'cajero'. */
  datatype Role = Admin | Cashier

  /** A user account (`User`). */
  datatype User = User(id: string, username: string, role: Role, name: string)

  /** The built-in accounts, in their order. */
  const Users: seq<User> := [
    User("1", "admin", Admin, "Administrador"),
    User("2", "cajero", Cashier, "Cajero")
  ]

  /** The password of each built-in account, by username. */
  const Passwords: map<string, string> := map["admin" := "admin123", "cajero" := "cajero123"]

  /** `USERS.find(u => u.username === username)`. */
  function FindUser(accounts: seq<User>, username: string): (r: Option<User>)
    ensures r.Some? ==> r.value in accounts && r.value.username == username
    ensures r.None? <==> forall u :: u in accounts ==> u.username != username
  {
    if accounts == [] then None
    else if accounts[0].username == username then Some(accounts[0])
    else FindUser(accounts[1..], username)
  }

  /**
   * The decision inside `login`: the account with that username, provided the stored
   * password for that username is exactly the one given.
   */
  function Authenticate(username: string, password: string): (r: Option<User>)
    ensures r.Some? <==>
      (exists u :: u in Users && u.username == username) &&
      username in Passwords && Passwords[username] == password
    ensures r.Some? ==> r.value in Users && r.value.username == username
  {
    match FindUser(Users, username)
    case None => None
    case Some(u) =>
      if username in Passwords && Passwords[username] == password then Some(u) else None
  }

  /** Only the two built-in credential pairs sign in, each as its own account. */
  lemma OnlyBuiltInCredentials(username: string, password: string)
    ensures Authenticate(username, password).Some? <==>
      (username == "admin" && password == "admin123") ||
      (username == "cajero" && password == "cajero123")
    ensures Authenticate("admin", "admin123") == Some(Users[0])
    ensures Authenticate("cajero", "cajero123") == Some(Users[1])
  {
    assert Users[0] in Users && Users[1] in Users;
    if Authenticate(username, password).Some? {
      var u :| u in Users && u.username == username;
      assert u == Users[0] || u == Users[1];
    }
  }

  /**
   * `hasRole`: no one signed in has no role, an administrator has every role, and a
   * cashier has only the cashier role.
   */
  function HasRole(user: Option<User>, role: Role): (r: bool)
    ensures user.None? ==> !r
    ensures user.Some? && user.value.role == Admin ==> r
    ensures user.Some? && user.value.role != Admin ==> (r <==> user.value.role == role)
  {
    match user
    case None => false
    case Some(u) => if u.role == Admin then true else u.role == role
  }

  /** A signed-in user has the cashier role whatever their account; only administrators have the administrator role. */
  lemma RolesAreNested(user: Option<User>)
    ensures HasRole(user, Admin) ==> HasRole(user, Cashier)
    ensures HasRole(user, Cashier) <==> user.Some?
    ensures HasRole(user, Admin) <==> user.Some? && user.value.role == Admin
  {
  }

  /** The session (`user` of the authentication context). */
  class Session {
    var user: Option<User>

    /** The session as loaded: the stored user when one was saved, otherwise no one. */
    constructor (saved: Option<User>)
      ensures user == saved
    {
      user := saved;
    }

    /** `isAuthenticated`. */
    function IsAuthenticated(): (r: bool)
      reads this
      ensures !r ==> forall role :: !HasRole(user, role)
      ensures r ==> HasRole(user, Cashier)
    {
      user.Some?
    }

    /** `login`: on success the account becomes the session user; on failure nothing changes. */
    method Login(username: string, password: string) returns (ok: bool)
      modifies this
      ensures ok <==> Authenticate(username, password).Some?
      ensures ok ==> user == Authenticate(username, password)
      ensures !ok ==> user == old(user)
    {
      var found := Authenticate(username, password);
      if found.Some? {
        user := found;
        return true;
      }
      return false;
    }

    /** `logout`. */
    method Logout()
      modifies this
      ensures user.None?
    {
      user := None;
    }
  }
}
