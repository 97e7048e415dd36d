/** The request schemas for users: the field validators that check and normalise a
    username, a password, first and last names, a role and a phone number, and the
    validation of whole create and update requests, which reports every failing
    field in field order. */
module UserSchemas {
  import opened Wrappers
  import opened Text

  datatype ValidationError =
    | UsernameTooShort
    | UsernameBadCharacters
    | UsernameEmpty
    | PasswordTooShort
    | PasswordNoUppercase
    | PasswordNoLowercase
    | PasswordNoDigit
    | PasswordEmpty
    | CurrentPasswordEmpty
    | NameEmpty
    | NameTooShort
    | RoleNotAllowed
    | PhoneTooShort
    | RefreshTokenEmpty

  /** A failing field of a request and why it failed. */
  datatype FieldError = FieldError(field: string, error: ValidationError)

  /** The roles a user may hold. */
  const AllowedRoles: seq<string> := ["admin", "manager", "supervisor", "cashier", "auditor"]

  /** The role a request gets when it names none; a default is not validated. */
  const DefaultRole: string := "cashier"

  /** A character a stored username may hold. */
  predicate UsernameChar(c: char) {
    IsLower(c) || IsDigit(c) || c == '_' || c == '-'
  }

  /** Every character of `v` other than '_' and '-' is a letter or digit, when what is
      left after removing those two consists of letters and digits. */
  lemma {:induction false} UsernameShape(v: string)
    requires forall i :: 0 <= i < |Remove(Remove(v, '_'), '-')| ==> IsAlnum(Remove(Remove(v, '_'), '-')[i])
    ensures forall i :: 0 <= i < |v| ==> IsAlnum(v[i]) || v[i] == '_' || v[i] == '-'
  {
    if v != [] {
      var rest := Remove(Remove(v[1..], '_'), '-');
      if v[0] == '_' {
        assert Remove(Remove(v, '_'), '-') == rest;
      } else if v[0] == '-' {
        assert Remove(v, '_') == [v[0]] + Remove(v[1..], '_');
        assert Remove(Remove(v, '_'), '-') == rest;
      } else {
        assert Remove(v, '_') == [v[0]] + Remove(v[1..], '_');
        assert Remove(Remove(v, '_'), '-') == [v[0]] + rest;
        assert forall i :: 0 <= i < |rest| ==> rest[i] == Remove(Remove(v, '_'), '-')[i + 1];
      }
      UsernameShape(v[1..]);
      assert forall i :: 1 <= i < |v| ==> v[i] == v[1..][i - 1];
    }
  }

  /** The `username` validator: at least 3 characters once stripped, and nothing but
      letters, digits, '_' and '-'. The character test runs on the unstripped value, so
      surrounding whitespace is refused and the stripping on return never changes
      anything: an accepted username comes back lower-cased and otherwise as given. */
  function ValidateUsername(v: string): (r: Result<string, ValidationError>)
    ensures r.Ok? <==> |Strip(v)| >= 3 && IsAlnumString(Remove(Remove(v, '_'), '-'))
    ensures r == Err(UsernameTooShort) <==> |Strip(v)| < 3
    ensures r.Ok? ==> r.value == Lower(v) && |r.value| >= 3
    ensures r.Ok? ==> forall i :: 0 <= i < |r.value| ==> UsernameChar(r.value[i])
  {
    if |Strip(v)| < 3 then Err(UsernameTooShort)
    else if !IsAlnumString(Remove(Remove(v, '_'), '-')) then Err(UsernameBadCharacters)
    else
      UsernameShape(v);
      UsernameUnstripped(v);
      UsernameLowered(v);
      Ok(Lower(Strip(v)))
  }

  /** A username that passes the character test has no whitespace to strip. */
  lemma UsernameUnstripped(v: string)
    requires forall i :: 0 <= i < |v| ==> IsAlnum(v[i]) || v[i] == '_' || v[i] == '-'
    ensures Strip(v) == v
  {
    assert forall i :: 0 <= i < |v| ==> !IsSpace(v[i]);
    StripNoSpace(v);
  }

  /** Lower-casing such a username leaves only characters a stored username may hold. */
  lemma UsernameLowered(v: string)
    requires forall i :: 0 <= i < |v| ==> IsAlnum(v[i]) || v[i] == '_' || v[i] == '-'
    ensures forall i :: 0 <= i < |v| ==> UsernameChar(Lower(v)[i])
  {
    forall i | 0 <= i < |v|
      ensures UsernameChar(Lower(v)[i])
    {
      assert Lower(v)[i] == ToLower(v[i]);
    }
  }

  /** The `password` validator: at least 8 characters with an upper-case letter, a
      lower-case letter and a digit; the first rule broken is the one reported, and an
      accepted password is returned unchanged. */
  function ValidatePassword(v: string): (r: Result<string, ValidationError>)
    ensures r.Ok? <==> |v| >= 8 && HasUpper(v) && HasLower(v) && HasDigit(v)
    ensures r.Ok? ==> r.value == v
    ensures r == Err(PasswordTooShort) <==> |v| < 8
    ensures r == Err(PasswordNoUppercase) <==> |v| >= 8 && !HasUpper(v)
    ensures r == Err(PasswordNoLowercase) <==> |v| >= 8 && HasUpper(v) && !HasLower(v)
    ensures r == Err(PasswordNoDigit) <==> |v| >= 8 && HasUpper(v) && HasLower(v) && !HasDigit(v)
  {
    if |v| < 8 then Err(PasswordTooShort)
    else if !HasUpper(v) then Err(PasswordNoUppercase)
    else if !HasLower(v) then Err(PasswordNoLowercase)
    else if !HasDigit(v) then Err(PasswordNoDigit)
    else Ok(v)
  }

  /** The first and last name validator: refused when blank or a single character once
      stripped; an accepted name is stripped and title-cased, so it starts with neither
      whitespace nor a lower-case letter. */
  function ValidateName(v: string): (r: Result<string, ValidationError>)
    ensures r == Err(NameEmpty) <==> Strip(v) == ""
    ensures r == Err(NameTooShort) <==> |Strip(v)| == 1
    ensures r.Ok? <==> |Strip(v)| >= 2
    ensures r.Ok? ==> r.value == Title(Strip(v)) && |r.value| >= 2
    ensures r.Ok? ==> !IsSpace(r.value[0]) && !IsLower(r.value[0]) && !IsSpace(r.value[|r.value| - 1])
  {
    var s := Strip(v);
    if s == "" then Err(NameEmpty)
    else if |s| < 2 then Err(NameTooShort)
    else
      var t := Title(s);
      assert !IsSpace(t[0]) && !IsLower(t[0]);
      assert !IsSpace(t[|t| - 1]);
      Ok(t)
  }

  /** The `role` validator: one of the five roles, returned unchanged. */
  function ValidateRole(v: string): (r: Result<string, ValidationError>)
    ensures r.Ok? <==> v in AllowedRoles
    ensures r.Ok? ==> r.value == v
    ensures r.Err? ==> r.error == RoleNotAllowed
  {
    if v in AllowedRoles then Ok(v) else Err(RoleNotAllowed)
  }

  /** A role field with its default: an omitted role is the default role, which the
      validator does not see; a given role must pass it. */
  function RoleOrDefault(role: Option<string>): (r: Result<string, ValidationError>)
    ensures role.None? ==> r == Ok(DefaultRole) && DefaultRole in AllowedRoles
    ensures role.Some? ==> r == ValidateRole(role.value)
    ensures r.Ok? ==> r.value in AllowedRoles
  {
    if role.None? then Ok(DefaultRole) else ValidateRole(role.value)
  }

  /** The `UserCreate` phone validator: a non-empty phone must have 10 characters once
      stripped and is stored stripped; an empty or missing phone is stored as none. */
  function ValidatePhone(v: Option<string>): (r: Result<Option<string>, ValidationError>)
    ensures r.Err? <==> HasText(v) && |Strip(v.value)| < 10
    ensures r.Err? ==> r.error == PhoneTooShort
    ensures !HasText(v) ==> r == Ok(None)
    ensures HasText(v) && r.Ok? ==> r.value == Some(Strip(v.value)) && |r.value.value| >= 10
  {
    if HasText(v) && |Strip(v.value)| < 10 then Err(PhoneTooShort)
    else if HasText(v) then Ok(Some(Strip(v.value)))
    else Ok(None)
  }

  /** The `UserUpdate` phone validator: only a phone with some non-blank text shorter
      than 10 characters is refused, so a blank phone is accepted and stored stripped,
      as the empty string. */
  function ValidatePhoneUpdate(v: Option<string>): (r: Result<Option<string>, ValidationError>)
    ensures r.Err? <==> v.Some? && Strip(v.value) != "" && |Strip(v.value)| < 10
    ensures r.Err? ==> r.error == PhoneTooShort
    ensures !HasText(v) ==> r == Ok(None)
    ensures HasText(v) && r.Ok? ==> r.value == Some(Strip(v.value))
  {
    if v.Some? && Strip(v.value) != "" && |Strip(v.value)| < 10 then Err(PhoneTooShort)
    else if HasText(v) then Ok(Some(Strip(v.value)))
    else Ok(None)
  }

  /** A blank phone is refused when a user is created but accepted, as the empty
      string, when a user is updated. */
  lemma BlankPhoneOnlyOnUpdate()
    ensures ValidatePhone(Some("   ")).Err?
    ensures ValidatePhoneUpdate(Some("   ")) == Ok(Some(""))
  {
    StripEmpty("   ");
  }

  /** The `UserUpdate` name validator: a missing name passes through. */
  function ValidateNameUpdate(v: Option<string>): (r: Result<Option<string>, ValidationError>)
    ensures v.None? ==> r == Ok(None)
    ensures v.Some? ==> (r.Ok? <==> ValidateName(v.value).Ok?)
    ensures v.Some? && r.Ok? ==> r.value == Some(ValidateName(v.value).value)
    ensures v.Some? && r.Err? ==> r.error == ValidateName(v.value).error
  {
    if v.None? then Ok(None)
    else
      match ValidateName(v.value)
      case Ok(n) => Ok(Some(n))
      case Err(e) => Err(e)
  }

  /** The `UserUpdate` role validator: a missing role passes through. */
  function ValidateRoleUpdate(v: Option<string>): (r: Result<Option<string>, ValidationError>)
    ensures v.None? ==> r == Ok(None)
    ensures v.Some? ==> (r.Ok? <==> v.value in AllowedRoles)
    ensures r.Ok? ==> r.value == v
  {
    if v.None? || v.value in AllowedRoles then Ok(v) else Err(RoleNotAllowed)
  }

  /** The one-entry error report of a field, or nothing when it passed. */
  function FieldErrors<T>(field: string, r: Result<T, ValidationError>): (es: seq<FieldError>)
    ensures es == [] <==> r.Ok?
    ensures r.Err? ==> es == [FieldError(field, r.error)]
  {
    if r.Ok? then [] else [FieldError(field, r.error)]
  }

  datatype UserCreateRequest = UserCreateRequest(
    username: string, email: string, firstName: string, lastName: string,
    phone: Option<string>, role: Option<string>, password: string, tenantId: int)

  /** A request whose fields all passed, with the values the validators returned. */
  datatype NewUser = NewUser(
    username: string, email: string, firstName: string, lastName: string,
    phone: Option<string>, role: string, password: string, tenantId: int)

  /** `UserCreate`: every field's validator runs; the request is accepted when all
      pass, and otherwise every failing field is reported, in field order. */
  function ValidateUserCreate(q: UserCreateRequest): (r: Result<NewUser, seq<FieldError>>)
    ensures r.Ok? <==> ValidateUsername(q.username).Ok? && ValidateName(q.firstName).Ok?
                       && ValidateName(q.lastName).Ok? && ValidatePhone(q.phone).Ok?
                       && RoleOrDefault(q.role).Ok? && ValidatePassword(q.password).Ok?
    ensures r.Err? ==> 1 <= |r.error| <= 6
  {
    Gather(q, ValidateUsername(q.username), ValidateName(q.firstName), ValidateName(q.lastName),
           ValidatePhone(q.phone), RoleOrDefault(q.role), ValidatePassword(q.password))
  }

  /** An accepted request yields the values the field validators returned, with the
      e-mail, password and tenant as given. */
  lemma UserCreateValues(q: UserCreateRequest)
    requires ValidateUserCreate(q).Ok?
    ensures ValidateUserCreate(q).value == NewUser(ValidateUsername(q.username).value, q.email,
                                                   ValidateName(q.firstName).value, ValidateName(q.lastName).value,
                                                   ValidatePhone(q.phone).value, RoleOrDefault(q.role).value,
                                                   q.password, q.tenantId)
  {
  }

  /** A rejected request reports the username first and the password last. */
  lemma UserCreateErrorOrder(q: UserCreateRequest)
    requires ValidateUserCreate(q).Err?
    ensures ValidateUsername(q.username).Err? ==>
              ValidateUserCreate(q).error[0] == FieldError("username", ValidateUsername(q.username).error)
    ensures ValidatePassword(q.password).Err? ==>
              ValidateUserCreate(q).error[|ValidateUserCreate(q).error| - 1] == FieldError("password", ValidatePassword(q.password).error)
  {
  }

  /** The outcomes of the six field validators of `UserCreate`, combined: a user when
      all passed, otherwise one error per failing field in field order. */
  function Gather(q: UserCreateRequest, u: Result<string, ValidationError>, f: Result<string, ValidationError>,
                  l: Result<string, ValidationError>, ph: Result<Option<string>, ValidationError>,
                  ro: Result<string, ValidationError>, pw: Result<string, ValidationError>): (r: Result<NewUser, seq<FieldError>>)
    ensures r.Ok? <==> u.Ok? && f.Ok? && l.Ok? && ph.Ok? && ro.Ok? && pw.Ok?
    ensures r.Ok? ==> r.value == NewUser(u.value, q.email, f.value, l.value, ph.value, ro.value, pw.value, q.tenantId)
    ensures r.Err? ==> 1 <= |r.error| <= 6
    ensures r.Err? && u.Err? ==> r.error[0] == FieldError("username", u.error)
    ensures r.Err? && pw.Err? ==> r.error[|r.error| - 1] == FieldError("password", pw.error)
  {
    var errors := FieldErrors("username", u) + FieldErrors("first_name", f) + FieldErrors("last_name", l)
                  + FieldErrors("phone", ph) + FieldErrors("role", ro) + FieldErrors("password", pw);
    if errors == [] then
      Ok(NewUser(u.value, q.email, f.value, l.value, ph.value, ro.value, pw.value, q.tenantId))
    else Err(errors)
  }

  datatype UserUpdateRequest = UserUpdateRequest(
    email: Option<string>, firstName: Option<string>, lastName: Option<string>,
    phone: Option<string>, role: Option<string>, isActive: Option<bool>)

  /** `UserUpdate`: only the fields present are checked, and a request that leaves a
      field out leaves it out of the result too. */
  function ValidateUserUpdate(q: UserUpdateRequest): (r: Result<UserUpdateRequest, seq<FieldError>>)
    ensures r.Ok? <==> ValidateNameUpdate(q.firstName).Ok? && ValidateNameUpdate(q.lastName).Ok?
                       && ValidatePhoneUpdate(q.phone).Ok? && ValidateRoleUpdate(q.role).Ok?
    ensures r.Ok? ==> r.value.email == q.email && r.value.isActive == q.isActive && r.value.role == q.role
    ensures r.Ok? ==> (r.value.firstName.None? <==> q.firstName.None?) && (r.value.lastName.None? <==> q.lastName.None?)
    ensures r.Ok? && !HasText(q.phone) ==> r.value.phone.None?
    ensures q.firstName.None? && q.lastName.None? && q.phone.None? && q.role.None? ==> r == Ok(q)
    ensures r.Err? ==> 1 <= |r.error| <= 4
    ensures r.Ok? ==> r.value == q.(firstName := ValidateNameUpdate(q.firstName).value,
                                     lastName := ValidateNameUpdate(q.lastName).value,
                                     phone := ValidatePhoneUpdate(q.phone).value)
  {
    var f := ValidateNameUpdate(q.firstName);
    var l := ValidateNameUpdate(q.lastName);
    var ph := ValidatePhoneUpdate(q.phone);
    var ro := ValidateRoleUpdate(q.role);
    var errors := FieldErrors("first_name", f) + FieldErrors("last_name", l)
                  + FieldErrors("phone", ph) + FieldErrors("role", ro);
    if errors == [] then Ok(q.(firstName := f.value, lastName := l.value, phone := ph.value, role := ro.value))
    else Err(errors)
  }
}
