/**
 * The desktop client's `AuthService` (electron-app/auth.js): the login and registration checks
 * that run before a request, the live password-confirmation check, the routing of a failed
 * registration's message to a form field, and the session kept in `localStorage` (`auth_token`,
 * `user`, `is_guest`) and in the `token`/`user` fields. Requests and their replies are
 * parameters; the page navigation is a field.
 */
module Auth {
  import opened Wrappers
  import opened Text

  /** The inputs an error can be attached to. */
  datatype Field =
    | LoginUsername | LoginPassword
    | RegisterUsername | RegisterEmail | RegisterPassword | RegisterConfirmPassword

  /** One `showError(field, message)`. */
  datatype FieldError = FieldError(field: Field, message: string)

  const LoginEmptyMessage: string := "Ingresa usuario y contraseña"
  const RegisterEmptyMessage: string := "Completa todos los campos"
  const ShortPasswordMessage: string := "La contraseña debe tener al menos 6 caracteres"
  const MismatchMessage: string := "Las contraseñas no coinciden"
  const LoginFailedMessage: string := "Credenciales incorrectas"
  const RegisterFailedMessage: string := "Error en el registro"
  const MinPasswordLength: nat := 6

  /**
   * The check `handleLogin` runs before sending anything: the username is trimmed, the password
   * is not. On failure both login inputs are marked, the message going to the username.
   */
  function LoginCheck(username: string, password: string): (errs: seq<FieldError>)
    ensures errs == [] <==> Trim(username) != "" && password != ""
    ensures errs != [] ==> errs == [FieldError(LoginUsername, LoginEmptyMessage), FieldError(LoginPassword, "")]
  {
    if Trim(username) == "" || password == "" then
      [FieldError(LoginUsername, LoginEmptyMessage), FieldError(LoginPassword, "")]
    else []
  }

  /** The three checks `handleRegister` runs in order: empty field, short password, mismatch. */
  function RegisterCheck(username: string, email: string, password: string, confirm: string): (e: Option<FieldError>)
    ensures e == None <==>
      Trim(username) != "" && Trim(email) != "" && Utf16Length(password) >= MinPasswordLength && password == confirm
  {
    if Trim(username) == "" || Trim(email) == "" || password == "" || confirm == "" then
      Some(FieldError(RegisterUsername, RegisterEmptyMessage))
    else if Utf16Length(password) < MinPasswordLength then
      Some(FieldError(RegisterPassword, ShortPasswordMessage))
    else if password != confirm then
      Some(FieldError(RegisterConfirmPassword, MismatchMessage))
    else None
  }

  /**
   * The order of the checks: an empty field is reported whatever the passwords are; a short
   * password is reported before a mismatch; a mismatch only when the rest is fine.
   */
  lemma RegisterCheckOrder(username: string, email: string, password: string, confirm: string)
    ensures (Trim(username) == "" || Trim(email) == "" || password == "" || confirm == "") ==>
      RegisterCheck(username, email, password, confirm) == Some(FieldError(RegisterUsername, RegisterEmptyMessage))
    ensures RegisterCheck(username, email, password, confirm) == Some(FieldError(RegisterPassword, ShortPasswordMessage))
      <==> Trim(username) != "" && Trim(email) != "" && confirm != "" && 0 < Utf16Length(password) < MinPasswordLength
    ensures RegisterCheck(username, email, password, confirm) == Some(FieldError(RegisterConfirmPassword, MismatchMessage))
      <==> Trim(username) != "" && Trim(email) != "" && confirm != "" && Utf16Length(password) >= MinPasswordLength
           && password != confirm
  {
  }

  /**
   * Username and email are trimmed and passwords are not: a username of blanks is refused as
   * empty, while six blanks are an acceptable password.
   */
  lemma {:induction false} TrimmingAppliesToNamesOnly(username: string, email: string, password: string)
    requires forall i :: 0 <= i < |username| ==> IsJsWhitespace(username[i])
    requires Trim(email) != ""
    requires Utf16Length(password) >= MinPasswordLength && forall i :: 0 <= i < |password| ==> IsJsWhitespace(password[i])
    ensures RegisterCheck(username, email, password, password) == Some(FieldError(RegisterUsername, RegisterEmptyMessage))
    ensures RegisterCheck(username + "x", email, password, password) == None
  {
    TrimEmptyIffBlank(username);
    var named := username + "x";
    assert !IsJsWhitespace(named[|named| - 1]);
    TrimEmptyIffBlank(named);
  }

  /**
   * The length rule counts UTF-16 code units, as JavaScript's `length` does: three emoji are
   * three characters but six units, so they pass the six-character minimum.
   */
  lemma SurrogatePairsCountTwice(username: string, email: string)
    requires Trim(username) != "" && Trim(email) != ""
    ensures var p := "\U{1F600}\U{1F600}\U{1F600}";
      |p| == 3 && Utf16Length(p) == 6 && RegisterCheck(username, email, p, p) == None
  {
    var p := "\U{1F600}\U{1F600}\U{1F600}";
    assert p[1..][1..][1..] == [];
  }

  /**
   * The live check on the two password inputs: the mismatch message is shown only when both
   * are filled in and differ; otherwise the error is cleared (None).
   */
  function ConfirmFeedback(password: string, confirm: string): (m: Option<string>)
    ensures m.Some? <==> password != "" && confirm != "" && password != confirm
    ensures m.Some? ==> m.value == MismatchMessage
  {
    if password != "" && confirm != "" && password != confirm then Some(MismatchMessage) else None
  }

  /** The live check never disagrees with the submit-time mismatch check once both are filled. */
  lemma LiveCheckAgreesWithSubmit(username: string, email: string, password: string, confirm: string)
    requires Trim(username) != "" && Trim(email) != "" && Utf16Length(password) >= MinPasswordLength && confirm != ""
    ensures ConfirmFeedback(password, confirm).Some? <==>
      RegisterCheck(username, email, password, confirm) == Some(FieldError(RegisterConfirmPassword, MismatchMessage))
  {
  }

  /** `data.detail || fallback`: a missing or empty detail gives the fallback message. */
  function DetailOr(detail: Option<string>, fallback: string): (m: string)
    ensures fallback != "" ==> m != ""
    ensures detail.Some? && detail.value != "" ==> m == detail.value
  {
    if detail.Some? && detail.value != "" then detail.value else fallback
  }

  /**
   * Where a failed registration's message is shown: a message mentioning "email" goes to the
   * email input, else one mentioning "username" to the username input, and any other message is
   * replaced by the generic one on the username input.
   */
  function RouteRegisterError(message: string): (e: FieldError)
    ensures e.field == RegisterEmail <==> Contains(message, "email")
    ensures e.field == RegisterEmail || e.field == RegisterUsername
    ensures e.message == message <==> Contains(message, "email") || Contains(message, "username")
                                      || message == RegisterFailedMessage
    ensures e.message == message || e.message == RegisterFailedMessage
  {
    if Contains(message, "email") then FieldError(RegisterEmail, message)
    else if Contains(message, "username") then FieldError(RegisterUsername, message)
    else FieldError(RegisterUsername, RegisterFailedMessage)
  }

  /** A message naming both wins for the email input; the server's own text is kept. */
  lemma RoutingPrefersEmail(prefix: string, middle: string, suffix: string)
    ensures RouteRegisterError(prefix + "email" + middle + "username" + suffix)
      == FieldError(RegisterEmail, prefix + "email" + middle + "username" + suffix)
  {
    var m := prefix + "email" + middle + "username" + suffix;
    assert OccursAt(m, "email", |prefix|) by {
      assert m[|prefix|..|prefix| + 5] == "email";
    }
    ContainsAt(m, "email", |prefix|);
  }

  /** The outcome of a `POST /login`: the token and user, a refusal, or a failure to connect. */
  datatype LoginReply =
    | LoggedIn(access_token: string, user: string)
    | Refused(detail: Option<string>)
    | Unreachable(errorMessage: string)

  /** The outcome of a `POST /register`. */
  datatype RegisterReply =
    | Registered
    | RegisterRefused(detail: Option<string>)
    | RegisterUnreachable(errorMessage: string)

  /** What a registration submit leads to: the messages shown and the login it schedules. */
  datatype RegisterOutcome = RegisterOutcome(shown: seq<FieldError>, requestSent: bool,
                                             autoLogin: Option<(string, string)>)

  /**
   * `handleRegister`: nothing is sent unless the three checks pass; a success schedules the
   * automatic login with the trimmed username and the password as typed; a failure routes its
   * message.
   */
  method HandleRegister(username: string, email: string, password: string, confirm: string, reply: RegisterReply)
    returns (o: RegisterOutcome)
    ensures o.requestSent <==> RegisterCheck(username, email, password, confirm) == None
    ensures !o.requestSent ==> o.shown == [RegisterCheck(username, email, password, confirm).value]
                               && o.autoLogin == None
    ensures o.autoLogin.Some? <==> o.requestSent && reply == Registered
    ensures o.autoLogin.Some? ==> o.autoLogin.value == (Trim(username), password) && o.shown == []
    ensures o.requestSent && reply.RegisterRefused? ==>
      o.shown == [RouteRegisterError(DetailOr(reply.detail, RegisterFailedMessage))]
    ensures o.requestSent && reply.RegisterUnreachable? ==> o.shown == [RouteRegisterError(reply.errorMessage)]
  {
    var check := RegisterCheck(username, email, password, confirm);
    if check.Some? {
      o := RegisterOutcome([check.value], false, None);
      return;
    }
    var u := Trim(username);
    match reply
    case Registered =>
      o := RegisterOutcome([], true, Some((u, password)));
    case RegisterRefused(detail) =>
      o := RegisterOutcome([RouteRegisterError(DetailOr(detail, RegisterFailedMessage))], true, None);
    case RegisterUnreachable(message) =>
      o := RegisterOutcome([RouteRegisterError(message)], true, None);
  }

  /** The pages the service navigates to. */
  const AppPage: string := "index.html"
  const AuthPage: string := "auth.html"

  /** The guest flag in a stored session: the `is_guest` key holds exactly the text "true". */
  predicate GuestFlag(store: map<string, string>)
  {
    "is_guest" in store && store["is_guest"] == "true"
  }

  /** The service: its fields, the browser's `localStorage`, the page and the active tab. */
  class AuthService {
    var token: Option<string>
    var user: Option<string>
    var store: map<string, string>
    var location: string
    var activeTab: string

    /** Reads the saved session back from storage. */
    constructor (saved: map<string, string>)
      ensures store == saved && location == AuthPage && activeTab == "login"
      ensures token == (if "auth_token" in saved then Some(saved["auth_token"]) else None)
      ensures user == (if "user" in saved then Some(saved["user"]) else None)
    {
      store := saved;
      location := AuthPage;
      activeTab := "login";
      token := if "auth_token" in saved then Some(saved["auth_token"]) else None;
      user := if "user" in saved then Some(saved["user"]) else None;
    }

    /** `isAuthenticated`: the token field is present and not empty. */
    predicate IsAuthenticated()
      reads this
    {
      Truthy(token)
    }

    /** `isGuest`: the stored session carries the guest flag. */
    predicate IsGuest()
      reads this
    {
      GuestFlag(store)
    }

    /** Saves a granted session in the fields and in storage and opens the app. */
    method SaveSession(accessToken: string, newUser: string)
      modifies this
      ensures token == Some(accessToken) && user == Some(newUser)
      ensures store == old(store)["auth_token" := accessToken]["user" := newUser]
      ensures location == AppPage && activeTab == old(activeTab)
    {
      token := Some(accessToken);
      user := Some(newUser);
      store := store["auth_token" := accessToken];
      store := store["user" := newUser];
      location := AppPage;
    }

    /**
     * `handleLogin`: nothing is sent unless both inputs are filled in; a granted login saves the
     * session (the guest flag is left as it was); a refusal shows the server's detail or the
     * default message on the password input.
     */
    method HandleLogin(username: string, password: string, reply: LoginReply)
      returns (shown: seq<FieldError>, requestSent: bool)
      modifies this
      ensures requestSent <==> LoginCheck(username, password) == []
      ensures !requestSent ==> shown == LoginCheck(username, password)
      ensures requestSent && reply.LoggedIn? ==>
        && token == Some(reply.access_token) && user == Some(reply.user)
        && store == old(store)["auth_token" := reply.access_token]["user" := reply.user]
        && location == AppPage && shown == []
      ensures requestSent && reply.Refused? ==>
        shown == [FieldError(LoginPassword, DetailOr(reply.detail, LoginFailedMessage))]
      ensures requestSent && reply.Unreachable? ==> shown == [FieldError(LoginPassword, reply.errorMessage)]
      ensures !(requestSent && reply.LoggedIn?) ==> unchanged(this)
      ensures ("is_guest" in store) == ("is_guest" in old(store))
      ensures "is_guest" in store ==> store["is_guest"] == old(store)["is_guest"]
    {
      var check := LoginCheck(username, password);
      if check != [] {
        shown, requestSent := check, false;
        return;
      }
      requestSent := true;
      match reply
      case LoggedIn(accessToken, newUser) =>
        SaveSession(accessToken, newUser);
        shown := [];
      case Refused(detail) =>
        shown := [FieldError(LoginPassword, DetailOr(detail, LoginFailedMessage))];
      case Unreachable(message) =>
        shown := [FieldError(LoginPassword, message)];
    }

    /** `handleAutoLogin`: a granted login saves the session; anything else returns to the login tab. */
    method HandleAutoLogin(reply: LoginReply)
      modifies this
      ensures reply.LoggedIn? ==>
        && token == Some(reply.access_token) && user == Some(reply.user)
        && store == old(store)["auth_token" := reply.access_token]["user" := reply.user]
        && location == AppPage
      ensures !reply.LoggedIn? ==>
        token == old(token) && user == old(user) && store == old(store) && location == old(location)
        && activeTab == "login"
    {
      if reply.LoggedIn? {
        SaveSession(reply.access_token, reply.user);
      } else {
        activeTab := "login";
      }
    }

    /** `continueAsGuest`: sets the guest flag and opens the app; the session is kept. */
    method ContinueAsGuest()
      modifies this
      ensures store == old(store)["is_guest" := "true"] && location == AppPage
      ensures token == old(token) && user == old(user) && activeTab == old(activeTab)
      ensures IsGuest() && IsAuthenticated() == old(IsAuthenticated())
    {
      store := store["is_guest" := "true"];
      location := AppPage;
    }

    /**
     * `logout`: removes exactly the three session keys and returns to the login page. The
     * `token` and `user` fields are not cleared, so `IsAuthenticated` keeps its value until the
     * page reloads.
     */
    method Logout()
      modifies this
      ensures store == old(store) - {"auth_token", "user", "is_guest"} && location == AuthPage
      ensures forall k :: k in old(store) && k !in {"auth_token", "user", "is_guest"} ==>
                k in store && store[k] == old(store)[k]
      ensures token == old(token) && user == old(user)
      ensures !IsGuest() && IsAuthenticated() == old(IsAuthenticated())
    {
      store := store - {"auth_token", "user", "is_guest"};
      location := AuthPage;
    }
  }
}
