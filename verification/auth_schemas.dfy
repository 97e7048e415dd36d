/** The authentication request schemas: login, registration, token refresh, password
    reset and password change. Registration and the new-password fields apply the
    same rules as user creation; login and the current password only refuse blanks. */
module AuthSchemas {
  import opened Wrappers
  import opened Text
  import opened UserSchemas

  /** A field that must hold some non-blank text and is returned stripped. */
  function RequireText(v: string, err: ValidationError): (r: Result<string, ValidationError>)
    ensures r.Err? <==> Strip(v) == ""
    ensures r.Err? ==> r.error == err
    ensures r.Ok? ==> r.value == Strip(v) && r.value != ""
    ensures r.Ok? ==> !IsSpace(r.value[0]) && !IsSpace(r.value[|r.value| - 1])
  {
    if Strip(v) == "" then Err(err) else Ok(Strip(v))
  }

  /** A field that must not be empty and is returned as given. */
  function RequireNonEmpty(v: string, err: ValidationError): (r: Result<string, ValidationError>)
    ensures r.Err? <==> v == ""
    ensures r.Err? ==> r.error == err
    ensures r.Ok? ==> r.value == v
  {
    if v == "" then Err(err) else Ok(v)
  }

  /** Text that has been through `RequireText` passes it again unchanged. */
  lemma RequireTextIdempotent(v: string, err: ValidationError)
    requires RequireText(v, err).Ok?
    ensures RequireText(RequireText(v, err).value, err) == RequireText(v, err)
  {
    StripFixed(Strip(v));
  }

  /** A username stored at registration passes the login check unchanged. */
  lemma RegisteredUsernameLogsIn(v: string)
    requires ValidateUsername(v).Ok?
    ensures RequireText(ValidateUsername(v).value, UsernameEmpty) == Ok(ValidateUsername(v).value)
  {
    StoredUsernameUnchanged(ValidateUsername(v).value);
  }

  lemma StoredUsernameUnchanged(u: string)
    requires |u| >= 3 && forall i :: 0 <= i < |u| ==> UsernameChar(u[i])
    ensures RequireText(u, UsernameEmpty) == Ok(u)
  {
    assert forall i :: 0 <= i < |u| ==> !IsSpace(u[i]);
    StripNoSpace(u);
  }

  datatype LoginRequest = LoginRequest(username: string, password: string)

  /** `UserLogin`: the username must not be blank and is stripped; the password must
      not be empty and is kept as given, with no strength rule. */
  function ValidateLogin(q: LoginRequest): (r: Result<LoginRequest, seq<FieldError>>)
    ensures r.Ok? <==> Strip(q.username) != "" && q.password != ""
    ensures r.Ok? ==> r.value == LoginRequest(Strip(q.username), q.password)
    ensures r.Err? ==> (FieldError("username", UsernameEmpty) in r.error <==> Strip(q.username) == "")
    ensures r.Err? ==> (FieldError("password", PasswordEmpty) in r.error <==> q.password == "")
  {
    var u := RequireText(q.username, UsernameEmpty);
    var p := RequireNonEmpty(q.password, PasswordEmpty);
    var errors := FieldErrors("username", u) + FieldErrors("password", p);
    if errors == [] then Ok(LoginRequest(u.value, p.value)) else Err(errors)
  }

  datatype RegisterRequest = RegisterRequest(
    username: string, email: string, password: string, firstName: string, lastName: string,
    tenantId: Option<int>, role: Option<string>)

  datatype Registration = Registration(
    username: string, email: string, password: string, firstName: string, lastName: string,
    tenantId: Option<int>, role: string)

  /** `UserRegister`: the same username, password, name and role rules as user
      creation, with the role "cashier" when none is given. */
  function ValidateRegister(q: RegisterRequest): (r: Result<Registration, seq<FieldError>>)
    ensures r.Ok? <==> ValidateUsername(q.username).Ok? && ValidatePassword(q.password).Ok?
                       && ValidateName(q.firstName).Ok? && ValidateName(q.lastName).Ok?
                       && RoleOrDefault(q.role).Ok?
    ensures r.Ok? ==> r.value == Registration(ValidateUsername(q.username).value, q.email, q.password,
                                              ValidateName(q.firstName).value, ValidateName(q.lastName).value,
                                              q.tenantId, RoleOrDefault(q.role).value)
    ensures r.Ok? && q.role.None? ==> r.value.role == "cashier"
    ensures r.Err? && ValidatePassword(q.password).Err? ==>
              FieldError("password", ValidatePassword(q.password).error) in r.error
    ensures r.Err? ==> 1 <= |r.error| <= 5
  {
    var u := ValidateUsername(q.username);
    var p := ValidatePassword(q.password);
    var f := ValidateName(q.firstName);
    var l := ValidateName(q.lastName);
    var ro := RoleOrDefault(q.role);
    var errors := FieldErrors("username", u) + FieldErrors("password", p) + FieldErrors("first_name", f)
                  + FieldErrors("last_name", l) + FieldErrors("role", ro);
    if errors == [] then Ok(Registration(u.value, q.email, p.value, f.value, l.value, q.tenantId, ro.value))
    else Err(errors)
  }

  /** `TokenRefresh`: the token must not be blank and is stripped. */
  function ValidateTokenRefresh(token: string): (r: Result<string, seq<FieldError>>)
    ensures r.Ok? <==> Strip(token) != ""
    ensures r.Ok? ==> r.value == Strip(token)
    ensures r.Err? ==> r.error == [FieldError("refresh_token", RefreshTokenEmpty)]
  {
    match RequireText(token, RefreshTokenEmpty)
    case Ok(t) => Ok(t)
    case Err(e) => Err([FieldError("refresh_token", e)])
  }

  datatype PasswordResetConfirmRequest = PasswordResetConfirmRequest(token: string, newPassword: string)

  /** `PasswordResetConfirm`: only the new password is checked, by the user-creation
      rule; the token is taken as given. */
  function ValidatePasswordResetConfirm(q: PasswordResetConfirmRequest): (r: Result<PasswordResetConfirmRequest, seq<FieldError>>)
    ensures r.Ok? <==> |q.newPassword| >= 8 && HasUpper(q.newPassword) && HasLower(q.newPassword) && HasDigit(q.newPassword)
    ensures r.Ok? ==> r.value == q
    ensures r.Err? ==> r.error == [FieldError("new_password", ValidatePassword(q.newPassword).error)]
  {
    match ValidatePassword(q.newPassword)
    case Ok(p) => Ok(q.(newPassword := p))
    case Err(e) => Err([FieldError("new_password", e)])
  }

  datatype PasswordChangeRequest = PasswordChangeRequest(currentPassword: string, newPassword: string)

  /** `PasswordChange`: the current password only has to be non-empty; the new one
      follows the user-creation rule. Both are kept as given. */
  function ValidatePasswordChange(q: PasswordChangeRequest): (r: Result<PasswordChangeRequest, seq<FieldError>>)
    ensures r.Ok? <==> q.currentPassword != "" && ValidatePassword(q.newPassword).Ok?
    ensures r.Ok? ==> r.value == q
    ensures r.Err? ==> (FieldError("current_password", CurrentPasswordEmpty) in r.error <==> q.currentPassword == "")
    ensures r.Err? ==> 1 <= |r.error| <= 2
  {
    var c := RequireNonEmpty(q.currentPassword, CurrentPasswordEmpty);
    var n := ValidatePassword(q.newPassword);
    var errors := FieldErrors("current_password", c) + FieldErrors("new_password", n);
    if errors == [] then Ok(PasswordChangeRequest(c.value, n.value)) else Err(errors)
  }

  /** A password accepted as a new password is accepted at login, but not the other
      way round: login takes any non-empty password. */
  lemma LoginWeakerThanNewPassword(username: string, password: string)
    requires Strip(username) != ""
    ensures ValidatePassword(password).Ok? ==> ValidateLogin(LoginRequest(username, password)).Ok?
    ensures ValidateLogin(LoginRequest(username, "x")).Ok? && ValidatePassword("x").Err?
  {
  }
}
