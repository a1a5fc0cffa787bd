/**
 * The sign-in screen: a form with a user name and a password, a switch
 * between signing in and creating an account, and the local user list and
 * session slot it reads and writes.  Signing in finds the first stored user
 * with both fields equal; creating an account refuses a user name already
 * present, so the stored names stay pairwise distinct.
 */
module AuthView {
  import opened JsValue
  import opened Text

  datatype User = User(username: string, password: string, id: string)

  /** The two named inputs of the form. */
  datatype FieldName = UsernameField | PasswordField

  const LoginError: string := "Usuario o contraseña incorrectos"
  const TakenError: string := "El nombre de usuario ya existe"

  /** `users.find(p)`, as the index of the first user satisfying `p`. */
  function FindFirst(users: seq<User>, p: User -> bool): (r: Option<nat>)
    ensures r.Some? ==> r.value < |users| && p(users[r.value])
                        && forall j :: 0 <= j < r.value ==> !p(users[j])
    ensures r.None? ==> forall j :: 0 <= j < |users| ==> !p(users[j])
  {
    if users == [] then None
    else if p(users[0]) then Some(0)
    else match FindFirst(users[1..], p)
      case None => None
      case Some(k) => Some(k + 1)
  }

  function Credentials(username: string, password: string): User -> bool
  {
    (u: User) => u.username == username && u.password == password
  }

  function NamedAs(username: string): User -> bool
  {
    (u: User) => u.username == username
  }

  ghost predicate DistinctUsernames(users: seq<User>)
  {
    forall i, j :: 0 <= i < j < |users| ==> users[i].username != users[j].username
  }

  /** With distinct names, the first user matching a name and a password is the only one. */
  lemma FindUnique(users: seq<User>, i: nat)
    requires DistinctUsernames(users) && i < |users|
    ensures FindFirst(users, Credentials(users[i].username, users[i].password)) == Some(i)
  {
    var p := Credentials(users[i].username, users[i].password);
    assert p(users[i]);
  }

  /** Appending a user whose name is not taken keeps the names distinct. */
  lemma AppendFreshName(users: seq<User>, u: User)
    requires DistinctUsernames(users) && FindFirst(users, NamedAs(u.username)).None?
    ensures DistinctUsernames(users + [u])
    ensures forall v :: v in users ==> v in users + [u]
  {
    var all := users + [u];
    forall i, j | 0 <= i < j < |all|
      ensures all[i].username != all[j].username
    {
      assert all[i] == users[i];
      if j < |users| {
        assert all[j] == users[j];
      } else {
        assert !NamedAs(u.username)(users[i]);
      }
    }
  }

  /** The view's state, with the stored user list and session slot it works on. */
  class AuthForm {
    var isLogin: bool
    var username: string
    var password: string
    var error: string
    var loading: bool
    /** The stored user list. */
    var users: seq<User>
    /** The stored session. */
    var session: Option<User>
    /** The user handed to the application on success. */
    var loggedIn: Option<User>

    /** Stored names are pairwise distinct, and a session names a stored user. */
    ghost predicate Valid()
      reads this
    {
      DistinctUsernames(users) && (session.Some? ==> session.value in users)
    }

    /** The stored list is one this view wrote, so its names are distinct. */
    constructor (stored: seq<User>)
      requires DistinctUsernames(stored)
      ensures Valid()
      ensures isLogin && username == "" && password == "" && error == "" && !loading
      ensures users == stored && session.None? && loggedIn.None?
    {
      isLogin := true;
      username := "";
      password := "";
      error := "";
      loading := false;
      users := stored;
      session := None;
      loggedIn := None;
    }

    /** `handleChange`: the edited field takes the new value and the error is cleared. */
    method HandleChange(name: FieldName, value: string)
      modifies this`username, this`password, this`error
      ensures name == UsernameField ==> username == value && password == old(password)
      ensures name == PasswordField ==> password == value && username == old(username)
      ensures error == ""
    {
      match name {
        case UsernameField => username := value;
        case PasswordField => password := value;
      }
      error := "";
    }

    /** The link under the form switches between signing in and creating an account. */
    method ToggleMode()
      modifies this`isLogin
      ensures isLogin == !old(isLogin)
    {
      isLogin := !isLogin;
    }

    /**
     * `handleSubmit`, with its delay elapsed.  Signing in stores and hands
     * over the first user with both fields equal, or reports the error.
     * Creating an account refuses a taken name; otherwise it appends the
     * form as a user with id `now` in decimal, stores the list and the new
     * session, and hands the user over.  Loading stays on after a success.
     */
    method HandleSubmit(now: nat)
      requires Valid()
      modifies this`loading, this`error, this`users, this`session, this`loggedIn
      ensures Valid()
      ensures isLogin ==> users == old(users)
      ensures isLogin ==>
                var found := FindFirst(users, Credentials(username, password));
                (found.Some? ==> session == loggedIn == Some(users[found.value]) && loading
                                 && error == old(error))
                && (found.None? ==> session == old(session) && loggedIn == old(loggedIn)
                                    && error == LoginError && !loading)
      ensures !isLogin ==>
                var taken := FindFirst(old(users), NamedAs(username));
                (taken.Some? ==> users == old(users) && session == old(session) && loggedIn == old(loggedIn)
                                 && error == TakenError && !loading)
                && (taken.None? ==>
                      var newUser := User(username, password, ShowNat(now));
                      users == old(users) + [newUser] && session == loggedIn == Some(newUser)
                      && loading && error == old(error))
    {
      if isLogin {
        SubmitLogin();
      } else {
        SubmitRegister(now);
      }
    }

    /** The sign-in branch of `handleSubmit`. */
    method SubmitLogin()
      requires Valid()
      modifies this`loading, this`error, this`session, this`loggedIn
      ensures Valid()
      ensures var found := FindFirst(users, Credentials(username, password));
              (found.Some? ==> session == loggedIn == Some(users[found.value]) && loading
                               && error == old(error))
              && (found.None? ==> session == old(session) && loggedIn == old(loggedIn)
                                  && error == LoginError && !loading)
    {
      loading := true;
      var found := FindFirst(users, Credentials(username, password));
      if found.Some? {
        session := Some(users[found.value]);
        loggedIn := Some(users[found.value]);
      } else {
        error := LoginError;
        loading := false;
      }
    }

    /** The create-account branch of `handleSubmit`. */
    method SubmitRegister(now: nat)
      requires Valid()
      modifies this`loading, this`error, this`users, this`session, this`loggedIn
      ensures Valid()
      ensures var taken := FindFirst(old(users), NamedAs(username));
              (taken.Some? ==> users == old(users) && session == old(session) && loggedIn == old(loggedIn)
                               && error == TakenError && !loading)
              && (taken.None? ==>
                    var newUser := User(username, password, ShowNat(now));
                    users == old(users) + [newUser] && session == loggedIn == Some(newUser)
                    && loading && error == old(error))
    {
      loading := true;
      if FindFirst(users, NamedAs(username)).Some? {
        error := TakenError;
        loading := false;
      } else {
        var newUser := User(username, password, ShowNat(now));
        AppendFreshName(users, newUser);
        users := users + [newUser];
        session := Some(newUser);
        loggedIn := Some(newUser);
      }
    }
  }

  /** Signing in succeeds exactly when some stored user has both fields equal. */
  lemma LoginSucceedsIff(users: seq<User>, username: string, password: string)
    ensures FindFirst(users, Credentials(username, password)).Some? <==>
              exists i :: 0 <= i < |users| && users[i].username == username && users[i].password == password
  {
    var found := FindFirst(users, Credentials(username, password));
    if found.Some? {
      var i := found.value;
      assert users[i].username == username && users[i].password == password;
    }
  }

  /**
   * After creating an account, switching to sign-in and submitting the same
   * form signs in as the new user.
   */
  method RegisterThenLogin(form: AuthForm, now: nat, later: nat)
    requires form.Valid() && !form.isLogin
    requires FindFirst(form.users, NamedAs(form.username)).None?
    modifies form
    ensures form.Valid() && form.isLogin
    ensures form.loggedIn == Some(User(old(form.username), old(form.password), ShowNat(now)))
    ensures form.session == form.loggedIn
    ensures form.users == old(form.users) + [User(old(form.username), old(form.password), ShowNat(now))]
  {
    ghost var u := User(form.username, form.password, ShowNat(now));
    form.HandleSubmit(now);
    assert form.users == old(form.users) + [u];
    var i := |form.users| - 1;
    form.ToggleMode();
    FindUnique(form.users, i);
    assert form.users[i] == u;
    form.HandleSubmit(later);
  }
}
