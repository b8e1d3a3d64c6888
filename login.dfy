/** The member login page: its schema, the credential lookup and where a session lands. */
module LoginPage {
  import opened Wrappers
  import opened Domain
  import opened Storage
  import opened Auth
  import opened Routes

  /** `loginSchema`: a cédula of at least 6 characters and a password of at least 4. */
  predicate LoginSchema(cedula: string, password: string) {
    |cedula| >= 6 && |password| >= 4
  }

  predicate Matches(u: User, cedula: string, password: string) {
    u.cedula == cedula && u.password == password
  }

  /** `users.find(u => u.cedula === cedula && u.password === password)`, as an index. */
  function FindByCredentials(users: seq<User>, cedula: string, password: string): (r: Option<nat>)
    ensures r.Some? ==> r.value < |users| && Matches(users[r.value], cedula, password)
    ensures r.Some? ==> forall j :: 0 <= j < r.value ==> !Matches(users[j], cedula, password)
    ensures r.None? <==> forall j :: 0 <= j < |users| ==> !Matches(users[j], cedula, password)
  {
    if users == [] then None
    else if Matches(users[0], cedula, password) then Some(0)
    else match FindByCredentials(users[1..], cedula, password)
      case None => None
      case Some(i) => Some(i + 1)
  }

  /** `user.isAdmin ? '/admin' : '/dashboard'` */
  function HomeFor(u: User): (path: string)
    ensures path == "/admin" <==> IsAdminUser(u)
    ensures path == "/dashboard" <==> !IsAdminUser(u)
  {
    if IsAdminUser(u) then "/admin" else "/dashboard"
  }

  datatype LoginOutcome =
    | LoggedIn(user: User, goTo: string)
    | WrongCredentials
    | StorageError      // the stored user list could not be read as a list

  /** What `onSubmit` decides, from the storage as it stands. */
  function LoginDecision(items: map<string, Entry>, cedula: string, password: string): (o: LoginOutcome)
    ensures o.StorageError? <==> ReadUsers(items).None?
    ensures o.LoggedIn? ==> FindByCredentials(ReadUsers(items).value, cedula, password).Some?
    ensures o.LoggedIn? ==>
              var i := FindByCredentials(ReadUsers(items).value, cedula, password).value;
              o.user == ReadUsers(items).value[i] &&
              forall j :: 0 <= j < i ==> !Matches(ReadUsers(items).value[j], cedula, password)
    ensures o.LoggedIn? ==> Matches(o.user, cedula, password) && o.goTo == HomeFor(o.user)
    ensures o.WrongCredentials? ==> forall j :: 0 <= j < |ReadUsers(items).value| ==> !Matches(ReadUsers(items).value[j], cedula, password)
  {
    match ReadUsers(items)
    case None => StorageError
    case Some(users) =>
      match FindByCredentials(users, cedula, password)
      case None => WrongCredentials
      case Some(i) => LoggedIn(users[i], HomeFor(users[i]))
  }

  /** The page's `onSubmit`: on a match the user is logged in, otherwise nothing changes. */
  method SubmitLogin(auth: AuthProvider, cedula: string, password: string) returns (o: LoginOutcome)
    requires LoginSchema(cedula, password)
    modifies auth, auth.storage
    ensures o == LoginDecision(old(auth.storage.items), cedula, password)
    ensures o.LoggedIn? ==> auth.user == Some(o.user) && auth.storage.items == old(auth.storage.items)[SessionKey := UserObject(o.user)]
    ensures !o.LoggedIn? ==> auth.user == old(auth.user) && auth.storage.items == old(auth.storage.items)
    ensures auth.isLoading == old(auth.isLoading)
  {
    o := LoginDecision(auth.storage.items, cedula, password);
    if o.LoggedIn? {
      auth.Login(o.user);
    }
  }

  /** The page itself redirects a user who already has a session. */
  function LoginRedirect(user: Option<User>): (to: Option<string>)
    ensures to.None? <==> user.None?
    ensures user.Some? ==> to == Some(HomeFor(user.value))
  {
    match user
    case None => None
    case Some(u) => Some(HomeFor(u))
  }

  /** Wherever a login sends a user, the guard lets that user in. */
  lemma HomeIsOpenToItsUser(u: User)
    ensures Visit(HomeFor(u), false, Some(u)) == RenderPage
  {
    RouteKeys();
    if IsAdminUser(u) {
      assert forall j :: 0 <= j < 7 ==> |PathKey(RouteTable[j].0)| != 6;
      AccessAt(RouteTable, "/admin", 7);
    } else {
      assert forall j :: 0 <= j < 3 ==> |PathKey(RouteTable[j].0)| != 10;
      AccessAt(RouteTable, "/dashboard", 3);
    }
  }
}
