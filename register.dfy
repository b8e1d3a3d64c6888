/** The registration page: its schema, the duplicate-cédula guard and the append to the user list. */
module RegisterPage {
  import opened Wrappers
  import opened Text
  import opened Domain
  import opened Storage
  import LoginPage

  /** The form as submitted; `correo` is absent, empty or an address. */
  datatype RegisterForm = RegisterForm(
    nombre: string,
    apellido: string,
    cedula: string,
    telefono: string,
    fechaNacimiento: string,
    correo: Option<string>,
    cargo: string,
    miembroActivo: bool,
    password: string,
    confirmPassword: string)

  /** `registerSchema`, including the refinement that the two passwords agree. */
  predicate RegisterSchema(f: RegisterForm) {
    && |f.nombre| >= 2
    && |f.apellido| >= 2
    && |f.cedula| >= 6
    && |f.telefono| >= 10
    && |f.fechaNacimiento| >= 1
    && (f.correo.None? || f.correo.value == "" || IsEmail(f.correo.value))
    && f.cargo in Cargos
    && |f.password| >= 6
    && f.password == f.confirmPassword
  }

  /** The user record built from the form; `id` is the creation time as text. */
  function NewUser(f: RegisterForm, id: string, now: int): (u: User)
    ensures u.isAdmin == Some(false) && !IsAdminUser(u)
    ensures u.correo.None? <==> f.correo.None? || f.correo.value == ""
    ensures u.correo.Some? ==> u.correo == f.correo
    ensures u.cedula == f.cedula && u.password == f.password && u.miembroActivo == f.miembroActivo
    ensures u.nombre == f.nombre && u.apellido == f.apellido && u.cargo == f.cargo
  {
    User(id, f.nombre, f.apellido, f.cedula, f.telefono, f.fechaNacimiento,
         if f.correo.None? || f.correo.value == "" then None else f.correo,
         f.cargo, f.miembroActivo, Some(false), f.password, now)
  }

  /** `users.find(u => u.cedula === c)` is truthy (a found user object always is). */
  function CedulaTaken(users: seq<User>, c: string): (b: bool)
    ensures b <==> exists i :: 0 <= i < |users| && users[i].cedula == c
  {
    if users == [] then false
    else users[0].cedula == c || (assert forall i :: 1 <= i < |users| ==> users[i] == users[1..][i - 1];
                                   CedulaTaken(users[1..], c))
  }

  ghost predicate DistinctCedulas(users: seq<User>) {
    forall i, j :: 0 <= i < j < |users| ==> users[i].cedula != users[j].cedula
  }

  datatype RegisterOutcome = Registered | DuplicateCedula | StorageError

  /** The page's `onSubmit`: reject a known cédula, otherwise append the new user. */
  method SubmitRegistration(storage: LocalStorage, f: RegisterForm, id: string, now: int) returns (o: RegisterOutcome)
    requires RegisterSchema(f)
    modifies storage
    ensures ReadUsers(old(storage.items)).None? ==> o == StorageError && storage.items == old(storage.items)
    ensures ReadUsers(old(storage.items)).Some? && CedulaTaken(ReadUsers(old(storage.items)).value, f.cedula) ==>
              o == DuplicateCedula && storage.items == old(storage.items)
    ensures ReadUsers(old(storage.items)).Some? && !CedulaTaken(ReadUsers(old(storage.items)).value, f.cedula) ==>
              o == Registered &&
              storage.items == old(storage.items)[UsersKey := UserList(ReadUsers(old(storage.items)).value + [NewUser(f, id, now)])]
  {
    var existing := ReadUsers(storage.items);
    if existing.None? {
      return StorageError;
    }
    if CedulaTaken(existing.value, f.cedula) {
      return DuplicateCedula;
    }
    storage.SetItem(UsersKey, UserList(existing.value + [NewUser(f, id, now)]));
    o := Registered;
  }

  /** A registration that is accepted keeps the stored cédulas pairwise distinct. */
  lemma RegistrationKeepsCedulasDistinct(users: seq<User>, f: RegisterForm, id: string, now: int)
    requires DistinctCedulas(users) && !CedulaTaken(users, f.cedula)
    ensures DistinctCedulas(users + [NewUser(f, id, now)])
  {
    var us := users + [NewUser(f, id, now)];
    forall i, j | 0 <= i < j < |us| ensures us[i].cedula != us[j].cedula {
      if j == |users| {
        assert us[i] == users[i];
      }
    }
  }

  /**
   * The registration schema is stricter than the login schema (a password of 6 characters
   * against 4), so registered credentials always pass the login form.
   */
  lemma RegistrationPassesLoginSchema(f: RegisterForm)
    requires RegisterSchema(f)
    ensures LoginPage.LoginSchema(f.cedula, f.password)
  {
  }

  /** What the schema guarantees of the stored user: a known role, and an address when an e-mail is kept. */
  lemma RegisteredUserWellFormed(f: RegisterForm, id: string, now: int)
    requires RegisterSchema(f)
    ensures var u := NewUser(f, id, now);
            u.cargo in Cargos && |u.cedula| >= 6 && |u.password| >= 6 && |u.telefono| >= 10
            && (u.correo.Some? ==> IsEmail(u.correo.value))
  {
  }

  /** Right after registering, the new credentials log in as the new user, who lands on `/dashboard`. */
  lemma {:induction false} RegisteredUserCanLogIn(items: map<string, Entry>, f: RegisterForm, id: string, now: int)
    requires RegisterSchema(f)
    requires ReadUsers(items).Some? && !CedulaTaken(ReadUsers(items).value, f.cedula)
    ensures LoginPage.LoginSchema(f.cedula, f.password)
    ensures LoginPage.LoginDecision(items[UsersKey := UserList(ReadUsers(items).value + [NewUser(f, id, now)])], f.cedula, f.password)
            == LoginPage.LoggedIn(NewUser(f, id, now), "/dashboard")
  {
    var users := ReadUsers(items).value;
    var u := NewUser(f, id, now);
    FindAfterFreshCedula(users, u);
  }

  lemma {:induction false} FindAfterFreshCedula(users: seq<User>, u: User)
    requires !CedulaTaken(users, u.cedula)
    ensures LoginPage.FindByCredentials(users + [u], u.cedula, u.password) == Some(|users|)
    decreases |users|
  {
    if users == [] {
    } else {
      assert (users + [u])[1..] == users[1..] + [u];
      assert !CedulaTaken(users[1..], u.cedula);
      FindAfterFreshCedula(users[1..], u);
    }
  }
}
