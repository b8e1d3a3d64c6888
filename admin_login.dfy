/** The administrator login page: a fixed credential pair that yields a fixed admin session. */
module AdminLoginPage {
  import opened Wrappers
  import opened Domain
  import opened Storage
  import opened Auth
  import opened Routes

  /** `adminLoginSchema`: a username of at least 3 characters and a password of at least 6. */
  predicate AdminLoginSchema(username: string, password: string) {
    |username| >= 3 && |password| >= 6
  }

  const AdminUsername: string := "admin"
  const AdminPassword: string := "admin123"

  /** The session record granted to the administrator; `createdAt` is the moment of login. */
  function AdminSessionUser(now: int): (u: User)
    ensures IsAdminUser(u) && u.id == "admin-1" && u.miembroActivo && u.cargo in Cargos
    ensures u.createdAt == now
  {
    User("admin-1", "Administrador", "Sistema", "ADMIN", "0000000000", "1990-01-01",
         None, "Lider", true, Some(true), "admin123", now)
  }

  /** The session granted for a credential pair, if any. */
  function AdminLoginDecision(username: string, password: string, now: int): (r: Option<User>)
    ensures r.Some? <==> username == AdminUsername && password == AdminPassword
    ensures r.Some? ==> r.value == AdminSessionUser(now)
  {
    if username == AdminUsername && password == AdminPassword then Some(AdminSessionUser(now)) else None
  }

  /** The fixed pair passes the form's own schema, so the form can submit it. */
  lemma AdminCredentialsPassSchema()
    ensures AdminLoginSchema(AdminUsername, AdminPassword)
  {
  }

  /** The page's `onSubmit`: the fixed pair logs the admin in; anything else changes nothing. */
  method SubmitAdminLogin(auth: AuthProvider, username: string, password: string, now: int) returns (granted: bool)
    requires AdminLoginSchema(username, password)
    modifies auth, auth.storage
    ensures granted <==> username == AdminUsername && password == AdminPassword
    ensures granted ==> auth.user == Some(AdminSessionUser(now)) &&
                        auth.storage.items == old(auth.storage.items)[SessionKey := UserObject(AdminSessionUser(now))]
    ensures !granted ==> auth.user == old(auth.user) && auth.storage.items == old(auth.storage.items)
    ensures auth.isLoading == old(auth.isLoading)
  {
    var session := AdminLoginDecision(username, password, now);
    granted := session.Some?;
    if granted {
      auth.Login(session.value);
    }
  }

  /** The page redirects a session that is already an admin to `/admin`, and shows the form otherwise. */
  function AdminLoginRedirect(user: Option<User>): (to: Option<string>)
    ensures to.Some? <==> user.Some? && IsAdminUser(user.value)
    ensures to.Some? ==> to.value == "/admin"
  {
    if user.Some? && IsAdminUser(user.value) then Some("/admin") else None
  }

  /** The admin session opens every page of the application. */
  lemma AdminSessionOpensEveryPage(path: string, now: int)
    ensures Visit(path, false, Some(AdminSessionUser(now))) == RenderPage
  {
  }
}
