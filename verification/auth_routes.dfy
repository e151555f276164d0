/**
 * The `/login`, `/register` and `/logout` routes as transitions over the
 * user table and the login session. The forms' validators decide whether a
 * submission is accepted; an accepted registration stores one user and
 * sends the visitor to the login page without logging them in.
 */
module AuthRoutes {
  import opened Wrappers
  import opened Security
  import opened AuthModels

  // ------------------------------------------------------------------ forms

  datatype LoginForm = LoginForm(email: string, password: string, rememberMe: bool)

  datatype RegistrationForm = RegistrationForm(
    firstName: string, lastName: string, email: string, password: string, confirmPassword: string)

  /** A request to a form route: a plain GET, or a POST carrying the form and whether its CSRF token checked out. */
  datatype Submission<F> = Get | Post(form: F, csrfValid: bool)

  /** The whitespace characters blank-field checking recognises here: the ASCII ones only (Python's `str.strip()` also removes other Unicode whitespace). */
  predicate IsSpace(c: char)
  {
    c == ' ' || c == '\t' || c == '\n' || c == '\r' || c as int == 11 || c as int == 12
  }

  /** `s.lstrip()`: drop the leading whitespace. */
  function TrimStart(s: string): (r: string)
    ensures |r| <= |s| && r == s[|s| - |r|..]
    ensures forall i :: 0 <= i < |s| - |r| ==> IsSpace(s[i])
    ensures r != [] ==> !IsSpace(r[0])
  {
    if s != [] && IsSpace(s[0]) then TrimStart(s[1..]) else s
  }

  /** `s.rstrip()`: drop the trailing whitespace. */
  function TrimEnd(s: string): (r: string)
    ensures |r| <= |s| && r == s[..|r|]
    ensures forall i :: |r| <= i < |s| ==> IsSpace(s[i])
    ensures r != [] ==> !IsSpace(r[|r| - 1])
  {
    if s != [] && IsSpace(s[|s| - 1]) then TrimEnd(s[..|s| - 1]) else s
  }

  /** The `DataRequired()` validator on a text field: the data is non-empty and so is `data.strip()`. */
  predicate Required(s: string)
  {
    s != "" && TrimEnd(TrimStart(s)) != ""
  }

  /** A field passes `DataRequired()` iff it holds a character that is not whitespace. */
  lemma RequiredIffNonSpace(s: string)
    ensures Required(s) <==> exists i :: 0 <= i < |s| && !IsSpace(s[i])
  {
    var t := TrimStart(s);
    var u := TrimEnd(t);
    if u != [] {
      var k := |s| - |t|;
      assert s[k] == t[0] == u[0];
    } else {
      forall i | 0 <= i < |s|
        ensures IsSpace(s[i])
      {
        var k := |s| - |t|;
        if i >= k {
          assert s[i] == t[i - k];
        }
      }
    }
  }

  /** `LoginForm.validate_on_submit()`; the `Email()` validator is the parameter `isEmail`. */
  predicate LoginSubmitted(request: Submission<LoginForm>, isEmail: string -> bool)
  {
    && request.Post? && request.csrfValid
    && Required(request.form.email) && isEmail(request.form.email)
    && Required(request.form.password)
  }

  /** Only a POST with a valid CSRF token is accepted, and then the email and the password are not blank. */
  lemma LoginAccepted(request: Submission<LoginForm>, isEmail: string -> bool)
    requires LoginSubmitted(request, isEmail)
    ensures request.Post? && request.csrfValid && isEmail(request.form.email)
    ensures exists i :: 0 <= i < |request.form.email| && !IsSpace(request.form.email[i])
    ensures exists i :: 0 <= i < |request.form.password| && !IsSpace(request.form.password[i])
  {
    RequiredIffNonSpace(request.form.email);
    RequiredIffNonSpace(request.form.password);
  }

  /** `RegistrationForm.validate_on_submit()`, including `EqualTo('password')` on the confirmation. */
  predicate RegistrationSubmitted(request: Submission<RegistrationForm>, isEmail: string -> bool)
  {
    && request.Post? && request.csrfValid
    && var f := request.form;
    && Required(f.firstName) && Required(f.lastName)
    && Required(f.email) && isEmail(f.email)
    && Required(f.password)
    && Required(f.confirmPassword) && f.confirmPassword == f.password
  }

  /**
   * Only a POST with a valid CSRF token is accepted, and then no field is
   * blank and the confirmation equals the password.
   */
  lemma RegistrationAccepted(request: Submission<RegistrationForm>, isEmail: string -> bool)
    requires RegistrationSubmitted(request, isEmail)
    ensures request.Post? && request.csrfValid && isEmail(request.form.email)
    ensures request.form.confirmPassword == request.form.password
    ensures exists i :: 0 <= i < |request.form.firstName| && !IsSpace(request.form.firstName[i])
    ensures exists i :: 0 <= i < |request.form.lastName| && !IsSpace(request.form.lastName[i])
    ensures exists i :: 0 <= i < |request.form.email| && !IsSpace(request.form.email[i])
    ensures exists i :: 0 <= i < |request.form.password| && !IsSpace(request.form.password[i])
  {
    RequiredIffNonSpace(request.form.firstName);
    RequiredIffNonSpace(request.form.lastName);
    RequiredIffNonSpace(request.form.email);
    RequiredIffNonSpace(request.form.password);
  }

  // -------------------------------------------------------------- responses

  datatype Endpoint = MainIndex | AuthLogin
  datatype Page = LoginPage | RegisterPage
  datatype Flash = InvalidEmailOrPassword | RegistrationDone

  /** What a route returns; `ServerError` is an exception the route does not catch. */
  datatype Response =
    | Redirect(to: Endpoint, flash: Option<Flash>)
    | Render(page: Page)
    | ServerError

  // ---------------------------------------------------------------- session

  /** The login session: the id `login_user` stored and the remember-me choice. */
  class Session {
    var userId: Option<int>
    var remember: bool

    constructor ()
      ensures userId == None && !remember
    {
      userId := None;
      remember := false;
    }
  }

  /** `current_user`: the user the session's id loads, if any. */
  function CurrentUser(store: UserStore, session: Session): (r: Option<User>)
    reads store, store.users.Values, session
    requires store.Valid()
    ensures r.Some? ==> r.value in store.users.Values && r.value.id == session.userId
    ensures r.None? <==> session.userId.None? || session.userId.value !in store.users
  {
    match session.userId
    case None => None
    case Some(id) => store.LoadUser(id)
  }

  /** `current_user.is_authenticated`. */
  predicate IsAuthenticated(store: UserStore, session: Session)
    reads store, store.users.Values, session
    requires store.Valid()
  {
    CurrentUser(store, session).Some?
  }

  // ----------------------------------------------------------------- routes

  /**
   * `login`: an authenticated visitor is sent to the index untouched; an
   * accepted form looks the email up exactly and checks the password; an
   * unknown email and a wrong password give the same response.
   */
  method Login(store: UserStore, session: Session, request: Submission<LoginForm>, isEmail: string -> bool)
    returns (resp: Response)
    requires store.Valid()
    modifies session
    ensures old(IsAuthenticated(store, session)) ==> resp == Redirect(MainIndex, None) && unchanged(session)
    ensures !old(IsAuthenticated(store, session)) && !LoginSubmitted(request, isEmail) ==>
              resp == Render(LoginPage) && unchanged(session)
    ensures !old(IsAuthenticated(store, session)) && LoginSubmitted(request, isEmail) ==>
              var f := request.form;
              var found := store.FindByEmail(f.email);
              if found.Some? && found.value.CheckPassword(f.password) then
                && resp == Redirect(MainIndex, None)
                && session.userId == found.value.id && session.remember == f.rememberMe
                && CurrentUser(store, session) == found
              else
                resp == Redirect(AuthLogin, Some(InvalidEmailOrPassword)) && unchanged(session)
  {
    if IsAuthenticated(store, session) {
      return Redirect(MainIndex, None);
    }
    if !LoginSubmitted(request, isEmail) {
      return Render(LoginPage);
    }
    var f := request.form;
    var user := store.FindByEmail(f.email);
    if user.None? || !user.value.CheckPassword(f.password) {
      return Redirect(AuthLogin, Some(InvalidEmailOrPassword));
    }
    session.userId := user.value.id;
    session.remember := f.rememberMe;
    resp := Redirect(MainIndex, None);
  }

  /**
   * `register`: an authenticated visitor is sent to the index; an accepted
   * form stores one new user with the submitted names, email and a hash of
   * the submitted password, and redirects to the login page without logging
   * in. The email is not checked beforehand: a taken email makes the commit
   * fail on the UNIQUE constraint, which the route does not catch.
   */
  method Register(store: UserStore, session: Session, request: Submission<RegistrationForm>,
                  isEmail: string -> bool, hashSalt: string)
    returns (resp: Response)
    requires store.Valid()
    modifies store
    ensures store.Valid() && unchanged(session)
    ensures old(IsAuthenticated(store, session)) ==>
              resp == Redirect(MainIndex, None) && store.users == old(store.users)
    ensures !old(IsAuthenticated(store, session)) && !RegistrationSubmitted(request, isEmail) ==>
              resp == Render(RegisterPage) && store.users == old(store.users)
    ensures !old(IsAuthenticated(store, session)) && RegistrationSubmitted(request, isEmail)
            && old(store.FindByEmail(request.form.email)).Some? ==>
              resp == ServerError && store.users == old(store.users)
    ensures !old(IsAuthenticated(store, session)) && RegistrationSubmitted(request, isEmail)
            && old(store.FindByEmail(request.form.email)).None? ==>
              var f, id := request.form, old(store.nextId);
              && resp == Redirect(AuthLogin, Some(RegistrationDone))
              && id !in old(store.users) && id in store.users
              && store.users == old(store.users)[id := store.users[id]]
              && var u := store.users[id];
              && fresh(u) && u.id == Some(id)
              && u.firstName == f.firstName && u.lastName == f.lastName && u.email == f.email
              && u.passwordHash == Some(Hash(f.password, hashSalt)) && u.CheckPassword(f.password)
              && u.roleId == Some(DefaultRoleId)
  {
    if IsAuthenticated(store, session) {
      return Redirect(MainIndex, None);
    }
    if !RegistrationSubmitted(request, isEmail) {
      return Render(RegisterPage);
    }
    var f := request.form;
    var user := new User(f.firstName, f.lastName, f.email);
    user.SetPassword(f.password, hashSalt);
    var ok := store.Insert(user);
    if !ok {
      return ServerError;
    }
    resp := Redirect(AuthLogin, Some(RegistrationDone));
  }

  /** `logout`: clear the session if someone is logged in; always back to the index. */
  method Logout(store: UserStore, session: Session) returns (resp: Response)
    requires store.Valid()
    modifies session
    ensures resp == Redirect(MainIndex, None)
    ensures !IsAuthenticated(store, session)
    ensures old(IsAuthenticated(store, session)) ==> session.userId == None && !session.remember
    ensures !old(IsAuthenticated(store, session)) ==> unchanged(session)
  {
    if IsAuthenticated(store, session) {
      session.userId := None;
      session.remember := false;
    }
    resp := Redirect(MainIndex, None);
  }

  /** The email and password an accepted registration carries also pass the login form. */
  lemma RegistrationGivesLogin(form: RegistrationForm, rememberMe: bool, isEmail: string -> bool)
    requires RegistrationSubmitted(Post(form, true), isEmail)
    ensures LoginSubmitted(Post(LoginForm(form.email, form.password, rememberMe), true), isEmail)
  {
  }

  /**
   * Registering and then logging in with the same email and password logs
   * the new user in: the hash `register` stores accepts the password typed
   * at login.
   */
  method RegisterThenLogin(store: UserStore, session: Session, form: RegistrationForm, rememberMe: bool,
                           isEmail: string -> bool, hashSalt: string)
    returns (registered: Response, loggedIn: Response)
    requires store.Valid() && session.userId == None
    requires RegistrationSubmitted(Post(form, true), isEmail) && store.FindByEmail(form.email).None?
    modifies store, session
    ensures store.Valid()
    ensures registered == Redirect(AuthLogin, Some(RegistrationDone))
    ensures loggedIn == Redirect(MainIndex, None)
    ensures CurrentUser(store, session).Some? && CurrentUser(store, session).value.email == form.email
    ensures session.remember == rememberMe
  {
    registered := Register(store, session, Post(form, true), isEmail, hashSalt);
    var login := LoginForm(form.email, form.password, rememberMe);
    RegistrationGivesLogin(form, rememberMe, isEmail);
    loggedIn := Login(store, session, Post(login, true), isEmail);
  }
}
