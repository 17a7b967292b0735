/**
 * cvgezgini/api/auth/serializers.py: field validation and the business rules
 * of login, registration, password change and password reset.
 */
module AuthSerializers {

  import opened Wrappers
  import opened Settings
  import opened Exceptions
  import opened Passwords
  import opened Accounts
  import Queries

  // ---------------------------------------------------------------- errors

  /** rest_framework's ErrorDetail: a message and a machine-readable code. */
  datatype ErrorDetail = ErrorDetail(message: string, code: string)

  /** `serializer.errors`: per-field errors, or the errors `validate` raised. */
  datatype ValidationErrors =
    | FieldErrors(fields: seq<(string, ErrorDetail)>)
    | NonFieldErrors(details: seq<ErrorDetail>)

  /** What `serializer.is_valid()` ends in. Exceptions other than a
      ValidationError are not caught by it and leave the request. */
  datatype Validation<+T> = Valid(data: T) | Invalid(errors: ValidationErrors) | Crashed(e: Exception)

  /** What a `validate` or `update` method ends in: the user row it accepted,
      the ValidationError it raised, or another exception. */
  datatype Checked = Accepted(userId: nat) | Rejected(detail: ErrorDetail) | Failed(e: Exception)

  const RequiredError := ErrorDetail("This field is required.", "required")
  const BlankError := ErrorDetail("This field may not be blank.", "blank")
  const InvalidEmailError := ErrorDetail("Enter a valid email address.", "invalid")
  /** A `ValidationError()` raised with no message. */
  const InvalidInput := ErrorDetail("Invalid input.", "invalid")
  /** What `validate_password` reports through the register serializer's field. */
  const PasswordValidatorsError := ErrorDetail("The password does not satisfy AUTH_PASSWORD_VALIDATORS.", "invalid")

  // ---------------------------------------------------------------- fields

  /** A `CharField` (required, blank not allowed): its error, if any. */
  function CharFieldError(v: Option<string>): (e: Option<ErrorDetail>)
    ensures e.None? <==> v.Some? && v.value != ""
  {
    if v.None? then Some(RequiredError)
    else if v.value == "" then Some(BlankError)
    else None
  }

  /** An `EmailField` (required, blank not allowed, e-mail syntax): its error, if any. */
  function EmailFieldError(cfg: Config, v: Option<string>): (e: Option<ErrorDetail>)
    ensures e.None? <==> v.Some? && v.value != "" && cfg.isEmailAddress(v.value)
  {
    if CharFieldError(v).Some? then CharFieldError(v)
    else if !cfg.isEmailAddress(v.value) then Some(InvalidEmailError)
    else None
  }

  /** The field errors of a serializer, in field order. */
  function Collect(checks: seq<(string, Option<ErrorDetail>)>): (errs: seq<(string, ErrorDetail)>)
    ensures errs == [] <==> forall k :: 0 <= k < |checks| ==> checks[k].1.None?
  {
    if checks == [] then []
    else
      var rest := Collect(checks[1..]);
      if checks[0].1.Some? then [(checks[0].0, checks[0].1.value)] + rest else rest
  }

  /** Python truthiness of an optional string: present and not empty. */
  predicate Truthy(s: Option<string>) {
    s.Some? && s.value != ""
  }

  /** `User.objects.get(email=email)` */
  function UserByEmail(users: seq<User>, email: string): (r: Queries.Lookup)
    ensures r.DoesNotExist? <==> forall i :: 0 <= i < |users| ==> users[i].email != email
    ensures r.Found? ==> r.index < |users| && users[r.index].email == email
    ensures r.Found? ==> forall j :: 0 <= j < |users| && j != r.index ==> users[j].email != email
    ensures r.MultipleObjectsReturned? <==>
              exists i, j :: 0 <= i < j < |users| && users[i].email == email && users[j].email == email
  {
    Queries.Get(users, (u: User) => u.email == email)
  }

  // ---------------------------------------------------------------- login

  datatype LoginData = LoginData(email: Option<string>, password: Option<string>)

  const CredentialsRequired := ErrorDetail("Email veya şifre gerekli.", "authorization")
  const BadCredentials := ErrorDetail("Sağlanan kimlik bilgileriyle oturum açılamıyor.", "authorization")

  /** `EmailLoginSerializer.validate(attrs)`. An unknown e-mail and a wrong
      password end in the same error. */
  function LoginValidate(cfg: Config, users: seq<User>, attrs: LoginData): (r: Checked)
    ensures !(Truthy(attrs.email) && Truthy(attrs.password)) ==> r == Rejected(CredentialsRequired)
    ensures Truthy(attrs.email) && Truthy(attrs.password) ==>
              match UserByEmail(users, attrs.email.value)
              case DoesNotExist => r == Rejected(BadCredentials)
              case MultipleObjectsReturned => r == Failed(MultipleObjectsReturned)
              case Found(i) =>
                if CheckPassword(cfg, users[i].password, attrs.password.value) then r == Accepted(i)
                else r == Rejected(BadCredentials)
    ensures r.Accepted? ==>
              && r.userId < |users|
              && users[r.userId].email == attrs.email.value
              && CheckPassword(cfg, users[r.userId].password, attrs.password.value)
  {
    if !(Truthy(attrs.email) && Truthy(attrs.password)) then Rejected(CredentialsRequired)
    else
      match UserByEmail(users, attrs.email.value)
      case DoesNotExist => Rejected(BadCredentials)
      case MultipleObjectsReturned => Failed(MultipleObjectsReturned)
      case Found(i) =>
        if CheckPassword(cfg, users[i].password, attrs.password.value) then Accepted(i)
        else Rejected(BadCredentials)
  }

  function LoginFieldErrors(cfg: Config, data: LoginData): (errs: seq<(string, ErrorDetail)>)
    ensures errs == [] <==>
              Truthy(data.email) && cfg.isEmailAddress(data.email.value) && Truthy(data.password)
  {
    var checks := [("email", EmailFieldError(cfg, data.email)), ("password", CharFieldError(data.password))];
    assert checks[0].1 == EmailFieldError(cfg, data.email);
    assert checks[1].1 == CharFieldError(data.password);
    Collect(checks)
  }

  /** `EmailLoginSerializer(data=...).is_valid()`: fields first, then `validate`. */
  function LoginIsValid(cfg: Config, users: seq<User>, data: LoginData): (r: Validation<nat>)
    ensures r.Valid? ==> LoginFieldErrors(cfg, data) == []
    ensures r.Valid? ==> r.data < |users| && users[r.data].email == data.email.value
                         && CheckPassword(cfg, users[r.data].password, data.password.value)
    ensures r.Crashed? ==> r.e == MultipleObjectsReturned
  {
    var errs := LoginFieldErrors(cfg, data);
    if errs != [] then Invalid(FieldErrors(errs))
    else
      match LoginValidate(cfg, users, data)
      case Accepted(i) => Valid(i)
      case Rejected(d) => Invalid(NonFieldErrors([d]))
      case Failed(e) => Crashed(e)
  }

  /** Whoever asks, an unknown e-mail and a known e-mail with a wrong
      password get the same answer from the login serializer. */
  lemma {:induction false} UnknownEmailLooksLikeWrongPassword(
    cfg: Config, users: seq<User>, unknownEmail: string, password: string, email: string, wrongPassword: string)
    requires LoginFieldErrors(cfg, LoginData(Some(unknownEmail), Some(password))) == []
    requires LoginFieldErrors(cfg, LoginData(Some(email), Some(wrongPassword))) == []
    requires UserByEmail(users, unknownEmail).DoesNotExist?
    requires UserByEmail(users, email).Found?
    requires !CheckPassword(cfg, users[UserByEmail(users, email).index].password, wrongPassword)
    ensures LoginIsValid(cfg, users, LoginData(Some(unknownEmail), Some(password))) ==
            LoginIsValid(cfg, users, LoginData(Some(email), Some(wrongPassword)))
            == Invalid(NonFieldErrors([BadCredentials]))
  {
  }

  /** With well-formed fields and exactly one user holding the e-mail, login
      is decided by that user's password alone. */
  lemma {:induction false} LoginByTheOnlyHolder(cfg: Config, users: seq<User>, i: nat, email: string, password: string)
    requires email != "" && cfg.isEmailAddress(email) && password != ""
    requires i < |users| && users[i].email == email
    requires forall j :: 0 <= j < |users| && j != i ==> users[j].email != email
    ensures LoginIsValid(cfg, users, LoginData(Some(email), Some(password))) ==
              if CheckPassword(cfg, users[i].password, password) then Valid(i)
              else Invalid(NonFieldErrors([BadCredentials]))
  {
    var data := LoginData(Some(email), Some(password));
    assert LoginFieldErrors(cfg, data) == [];
    assert UserByEmail(users, email) == Queries.Found(i);
  }

  /** Once the fields have passed, both are present and non-empty, so the
      guard at the top of `validate` never fires from `is_valid`. */
  lemma ValidateGuardUnreachable(cfg: Config, users: seq<User>, data: LoginData)
    requires LoginFieldErrors(cfg, data) == []
    ensures LoginValidate(cfg, users, data) != Rejected(CredentialsRequired)
  {
  }

  /** Rewriting a row without touching its e-mail does not change what a
      lookup by e-mail finds. */
  lemma {:induction false} UserByEmailAfterUpdate(users: seq<User>, i: nat, u: User, email: string)
    requires i < |users| && u.email == users[i].email
    ensures UserByEmail(users[i := u], email) == UserByEmail(users, email)
  {
    var after := users[i := u];
    assert forall k :: 0 <= k < |users| ==> after[k].email == users[k].email;
  }

  /** A lookup by the e-mail of a row appended after `users`. */
  lemma {:induction false} UserByEmailAfterAppend(users: seq<User>, u: User)
    ensures UserByEmail(users + [u], u.email) ==
              if UserByEmail(users, u.email).DoesNotExist? then Queries.Found(|users|)
              else Queries.MultipleObjectsReturned
  {
    var after := users + [u];
    assert after[|users|].email == u.email;
    assert forall k :: 0 <= k < |users| ==> after[k] == users[k];
    if !UserByEmail(users, u.email).DoesNotExist? {
      var a :| 0 <= a < |users| && users[a].email == u.email;
      assert after[a].email == u.email;
    }
  }

  // ---------------------------------------------------------------- register

  datatype RegisterData = RegisterData(
    email: Option<string>, password: Option<string>, firstName: Option<string>, lastName: Option<string>)

  /** The register serializer's `password` field: a CharField whose validator
      is `validate_password`. */
  function RegisterPasswordError(cfg: Config, v: Option<string>): (e: Option<ErrorDetail>)
    ensures e.None? <==> v.Some? && v.value != "" && ValidatePassword(cfg, v.value)
  {
    if CharFieldError(v).Some? then CharFieldError(v)
    else if !ValidatePassword(cfg, v.value) then Some(PasswordValidatorsError)
    else None
  }

  function RegisterFieldErrors(cfg: Config, data: RegisterData): (errs: seq<(string, ErrorDetail)>)
    ensures errs == [] <==>
              && data.email.Some? && data.email.value != "" && cfg.isEmailAddress(data.email.value)
              && data.password.Some? && data.password.value != "" && ValidatePassword(cfg, data.password.value)
  {
    var checks := [("password", RegisterPasswordError(cfg, data.password)), ("email", EmailFieldError(cfg, data.email))];
    assert checks[0].1 == RegisterPasswordError(cfg, data.password);
    assert checks[1].1 == EmailFieldError(cfg, data.email);
    Collect(checks)
  }

  /** An optional name the model stores as "" when it is not given. */
  function OrEmpty(s: Option<string>): string {
    if s.Some? then s.value else ""
  }

  /** The user row `RegisterSerializer.create` leaves behind. */
  function RegisteredUser(cfg: Config, email: string, password: string, firstName: string, lastName: string): (u: User)
    ensures u.email == email && u.firstName == firstName && u.lastName == lastName
    ensures u.fullName == FullName(firstName, lastName)
    ensures CheckPassword(cfg, u.password, password) && u.isActive && u.lastLogin.None?
  {
    Saved(User(email, SetPassword(cfg, password), firstName, lastName, "", true, None))
  }

  /** The code row registration and forgot-password step one ask for: an
      e-mail code with default expiry. */
  predicate IsDefaultEmailCode(cfg: Config, row: VerifyCode, email: string, now: int) {
    && row.value == email && row.isEmail && !row.isPhone
    && row.expireAt == DefaultExpiry(cfg, now)
    && IsGeneratedCode(cfg, row.code)
  }

  /** `RegisterSerializer.create(validated_data)`: create the user, store the
      password hash, then try to generate and send an e-mail code; failures of
      the last two are only logged. */
  method RegisterCreate(db: Database, cfg: Config, email: string, password: string,
                        firstName: string, lastName: string, now: int)
    returns (id: nat)
    requires db.Valid()
    modifies db
    ensures db.Valid()
    ensures id == |old(db.users)|
    ensures db.users == old(db.users) + [RegisteredUser(cfg, email, password, firstName, lastName)]
    ensures db.profiles == old(db.profiles) && db.tokens == old(db.tokens)
    ensures HasValue(old(db.codes), email) ==> db.codes == old(db.codes)
    ensures !HasValue(old(db.codes), email) ==>
              |db.codes| == |old(db.codes)| + 1 && db.codes[..|old(db.codes)|] == old(db.codes) &&
              IsDefaultEmailCode(cfg, db.codes[|old(db.codes)|], email, now)
  {
    var created := User(email, Unusable, firstName, lastName, "", true, None);
    id := db.CreateUser(created);
    db.SaveUser(id, db.users[id].(password := SetPassword(cfg, password)));
    var generated := db.GenerateVerifyCode(cfg, email, true, false, None, None, now);
    if generated.Success? {
      // send() raises CodeExpired or TypeError in some settings; it is logged
      var _ := Send(cfg, generated.value, now);
    }
  }

  /** Whatever is stored already, the password just registered logs in, as
      long as no earlier user has the same e-mail; if one has, the login
      serializer's lookup raises MultipleObjectsReturned. */
  lemma {:induction false} RegisteredPasswordLogsIn(
    cfg: Config, users: seq<User>, email: string, password: string, firstName: string, lastName: string)
    requires email != "" && cfg.isEmailAddress(email) && password != ""
    ensures var after := users + [RegisteredUser(cfg, email, password, firstName, lastName)];
            LoginIsValid(cfg, after, LoginData(Some(email), Some(password))) ==
              if UserByEmail(users, email).DoesNotExist? then Valid(|users|) else Crashed(MultipleObjectsReturned)
  {
    var u := RegisteredUser(cfg, email, password, firstName, lastName);
    var data := LoginData(Some(email), Some(password));
    UserByEmailAfterAppend(users, u);
    assert LoginFieldErrors(cfg, data) == [];
    if UserByEmail(users, email).DoesNotExist? {
      assert (users + [u])[|users|] == u;
      assert LoginValidate(cfg, users + [u], data) == Accepted(|users|);
    } else {
      assert LoginValidate(cfg, users + [u], data) == Failed(MultipleObjectsReturned);
    }
  }

  // ---------------------------------------------------------------- profile output

  /** `UserProfileSerializer(instance=user).data`: exactly these three fields. */
  datatype ProfileData = ProfileData(email: Option<string>, firstName: string, lastName: string)

  /** The objects `get_email` can be handed. */
  datatype Instance = UserInstance(user: User) | InstanceWithoutEmail

  /** `UserProfileSerializer.get_email(obj)`: None whenever `obj` has an
      `email` attribute, which every User has; otherwise reading
      `obj.email.number` raises. */
  function GetEmail(obj: Instance): (r: Result<Option<string>, Exception>)
    ensures r.Success? <==> obj.UserInstance?
    ensures r.Success? ==> r.value.None?
  {
    match obj
    case UserInstance(_) => Success(None)
    case InstanceWithoutEmail => Failure(AttributeError)
  }

  /** The profile of a user: no password, and the e-mail always null. */
  function ProfileOf(u: User): (p: ProfileData)
    ensures p.email.None? && p.firstName == u.firstName && p.lastName == u.lastName
  {
    ProfileData(GetEmail(UserInstance(u)).value, u.firstName, u.lastName)
  }

  // ---------------------------------------------------------------- update password

  datatype UpdatePasswordData = UpdatePasswordData(oldPassword: Option<string>, newPassword: Option<string>)

  const WrongPassword := ErrorDetail("Mevcut şifre yanlış!", "wrong-password")
  const WeakPassword := ErrorDetail("Şifre en az 8 karakterden uzun ve güçlü olmalı.", "weak-password")

  function UpdatePasswordFieldErrors(data: UpdatePasswordData): (errs: seq<(string, ErrorDetail)>)
    ensures errs == [] <==> Truthy(data.oldPassword) && Truthy(data.newPassword)
  {
    var checks := [("old_password", CharFieldError(data.oldPassword)), ("new_password", CharFieldError(data.newPassword))];
    assert checks[0].1 == CharFieldError(data.oldPassword);
    assert checks[1].1 == CharFieldError(data.newPassword);
    Collect(checks)
  }

  /** The checks of `UpdatePasswordSerializer.update`: the old password first,
      the strength of the new one second. */
  function UpdatePasswordCheck(cfg: Config, u: User, oldPassword: string, newPassword: string): (r: Option<ErrorDetail>)
    ensures !CheckPassword(cfg, u.password, oldPassword) ==> r == Some(WrongPassword)
    ensures CheckPassword(cfg, u.password, oldPassword) && !ValidatePassword(cfg, newPassword) ==> r == Some(WeakPassword)
    ensures r.None? <==> CheckPassword(cfg, u.password, oldPassword) && ValidatePassword(cfg, newPassword)
  {
    if !CheckPassword(cfg, u.password, oldPassword) then Some(WrongPassword)
    else if !ValidatePassword(cfg, newPassword) then Some(WeakPassword)
    else None
  }

  /** `UpdatePasswordSerializer.update(instance, validated_data)` for the
      instance stored as row `id`. */
  method UpdatePasswordUpdate(db: Database, cfg: Config, id: nat, oldPassword: string, newPassword: string)
    returns (r: Option<ErrorDetail>)
    requires db.Valid() && id < |db.users|
    modifies db
    ensures db.Valid()
    ensures r == UpdatePasswordCheck(cfg, old(db.users[id]), oldPassword, newPassword)
    ensures r.Some? ==> db.users == old(db.users)
    ensures r.None? ==> db.users == old(db.users)[id := old(db.users[id]).(password := SetPassword(cfg, newPassword))]
    ensures db.codes == old(db.codes) && db.profiles == old(db.profiles) && db.tokens == old(db.tokens)
  {
    r := UpdatePasswordCheck(cfg, db.users[id], oldPassword, newPassword);
    if r.None? {
      db.SaveUser(id, db.users[id].(password := SetPassword(cfg, newPassword)));
    }
  }

  // ---------------------------------------------------------------- forgot password

  datatype ForgotPasswordData = ForgotPasswordData(email: Option<string>, code: Option<string>, newPassword: Option<string>)

  const CodeWrongOrExpired := ErrorDetail("Kod yanlış veya süresi dolmuş.", "invalid")
  const WeakResetPassword := ErrorDetail("Şifre en az 8 karakterden uzun ve güçlü olmalı.", "invalid")

  function ForgotPasswordFieldErrors(cfg: Config, data: ForgotPasswordData): (errs: seq<(string, ErrorDetail)>)
    ensures errs == [] <==>
              Truthy(data.email) && cfg.isEmailAddress(data.email.value) && Truthy(data.code) && Truthy(data.newPassword)
  {
    var checks := [("email", EmailFieldError(cfg, data.email)),
                   ("code", CharFieldError(data.code)),
                   ("new_password", CharFieldError(data.newPassword))];
    assert checks[0].1 == EmailFieldError(cfg, data.email);
    assert checks[1].1 == CharFieldError(data.code);
    assert checks[2].1 == CharFieldError(data.newPassword);
    Collect(checks)
  }

  /** The checks of `ForgotPasswordSerializer.validate`, in order: the user,
      the code row (a missing one raises DoesNotExist, so the `if not
      verifycode` test after it never fires), `is_valid`, the new password. */
  function ForgotPasswordCheck(cfg: Config, users: seq<User>, codes: seq<VerifyCode>,
                               email: string, code: string, newPassword: string, now: int): (r: Checked)
    ensures r.Accepted? <==>
              && UserByEmail(users, email).Found?
              && GetByValue(codes, email).Found?
              && IsValid(codes, email, code, now)
              && ValidatePassword(cfg, newPassword)
    ensures r.Accepted? ==> r.userId < |users| && users[r.userId].email == email
    ensures UserByEmail(users, email).DoesNotExist? ==> r == Rejected(InvalidInput)
    ensures UserByEmail(users, email).MultipleObjectsReturned? ==> r == Failed(MultipleObjectsReturned)
    ensures UserByEmail(users, email).Found? && !HasValue(codes, email) ==> r == Failed(DoesNotExist)
    ensures UserByEmail(users, email).Found? && GetByValue(codes, email).MultipleObjectsReturned? ==>
              r == Failed(MultipleObjectsReturned)
    ensures UserByEmail(users, email).Found? && GetByValue(codes, email).Found? && !IsValid(codes, email, code, now) ==>
              r == Rejected(CodeWrongOrExpired)
    ensures UserByEmail(users, email).Found? && GetByValue(codes, email).Found? && IsValid(codes, email, code, now) &&
            !ValidatePassword(cfg, newPassword) ==>
              r == Rejected(WeakResetPassword)
  {
    match UserByEmail(users, email)
    case DoesNotExist => Rejected(InvalidInput)
    case MultipleObjectsReturned => Failed(MultipleObjectsReturned)
    case Found(i) =>
      match GetByValue(codes, email)
      case DoesNotExist => Failed(DoesNotExist)
      case MultipleObjectsReturned => Failed(MultipleObjectsReturned)
      case Found(_) =>
        if !IsValid(codes, email, code, now) then Rejected(CodeWrongOrExpired)
        else if !ValidatePassword(cfg, newPassword) then Rejected(WeakResetPassword)
        else Accepted(i)
  }

  /** `ForgotPasswordSerializer.validate(attrs)`: the checks, then the new
      password is stored. The code row is left as it is. */
  method ForgotPasswordValidate(db: Database, cfg: Config, email: string, code: string, newPassword: string, now: int)
    returns (r: Checked)
    requires db.Valid()
    modifies db
    ensures db.Valid()
    ensures r == ForgotPasswordCheck(cfg, old(db.users), old(db.codes), email, code, newPassword, now)
    ensures !r.Accepted? ==> db.users == old(db.users)
    ensures r.Accepted? ==> db.users == old(db.users)[r.userId := old(db.users)[r.userId].(password := SetPassword(cfg, newPassword))]
    ensures db.codes == old(db.codes) && db.profiles == old(db.profiles) && db.tokens == old(db.tokens)
  {
    r := ForgotPasswordCheck(cfg, db.users, db.codes, email, code, newPassword, now);
    if r.Accepted? {
      db.SaveUser(r.userId, db.users[r.userId].(password := SetPassword(cfg, newPassword)));
    }
  }

  /** `ForgotPasswordSerializer(data=...).is_valid()`. */
  method ForgotPasswordIsValid(db: Database, cfg: Config, data: ForgotPasswordData, now: int)
    returns (r: Validation<nat>)
    requires db.Valid()
    modifies db
    ensures db.Valid()
    ensures ForgotPasswordFieldErrors(cfg, data) != [] ==>
              r == Invalid(FieldErrors(ForgotPasswordFieldErrors(cfg, data))) && db.users == old(db.users)
    ensures ForgotPasswordFieldErrors(cfg, data) == [] ==>
              match ForgotPasswordCheck(cfg, old(db.users), old(db.codes), data.email.value, data.code.value,
                                        data.newPassword.value, now)
              case Accepted(i) =>
                r == Valid(i) &&
                db.users == old(db.users)[i := old(db.users)[i].(password := SetPassword(cfg, data.newPassword.value))]
              case Rejected(d) => r == Invalid(NonFieldErrors([d])) && db.users == old(db.users)
              case Failed(e) => r == Crashed(e) && db.users == old(db.users)
    ensures db.codes == old(db.codes) && db.profiles == old(db.profiles) && db.tokens == old(db.tokens)
  {
    var errs := ForgotPasswordFieldErrors(cfg, data);
    if errs != [] {
      return Invalid(FieldErrors(errs));
    }
    var checked := ForgotPasswordValidate(db, cfg, data.email.value, data.code.value, data.newPassword.value, now);
    match checked
    case Accepted(i) => r := Valid(i);
    case Rejected(d) => r := Invalid(NonFieldErrors([d]));
    case Failed(e) => r := Crashed(e);
  }

  /** Whatever is stored, a reset the serializer accepts lets the new
      password log in to the same account. */
  lemma {:induction false} ResetPasswordLogsIn(cfg: Config, users: seq<User>, codes: seq<VerifyCode>,
                                               email: string, code: string, newPassword: string, now: int)
    requires email != "" && cfg.isEmailAddress(email) && newPassword != ""
    requires ForgotPasswordCheck(cfg, users, codes, email, code, newPassword, now).Accepted?
    ensures var i := ForgotPasswordCheck(cfg, users, codes, email, code, newPassword, now).userId;
            var after := users[i := users[i].(password := SetPassword(cfg, newPassword))];
            LoginIsValid(cfg, after, LoginData(Some(email), Some(newPassword))) == Valid(i)
  {
    var i := ForgotPasswordCheck(cfg, users, codes, email, code, newPassword, now).userId;
    UserByEmailAfterUpdate(users, i, users[i].(password := SetPassword(cfg, newPassword)), email);
  }

}
