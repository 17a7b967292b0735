/**
 * Whole conversations with the API, each on a fresh database: the flows the
 * repository's tests exercise (cvgezgini/api/auth/tests.py), and what the
 * code as written does when the same e-mail is registered twice, registered
 * and then reset, or reset after its code has expired.
 *
 * The hasher and the validators stay abstract: each scenario asks only that
 * they treat the passwords it uses as the tests expect (the new password is
 * strong, a wrong password does not hash like the right one).
 */
module AuthScenarios {

  import opened Wrappers
  import opened Settings
  import opened Exceptions
  import opened Passwords
  import opened Accounts
  import opened AuthSerializers
  import opened AuthViews

  /** Settings under which the code a user receives can be typed back into
      the `code` field, which refuses an empty value. */
  predicate CodesAreTypable(cfg: Config) {
    if cfg.useFallbackCode then cfg.fallbackCode != "" else cfg.verifyCodeLength > 0
  }

  /** A user row as `User.objects.create_user` leaves it. */
  function CreatedUser(cfg: Config, email: string, password: string): User {
    User(email, SetPassword(cfg, password), "", "", "", true, None)
  }

  /** A store holding one user, with the given e-mail and password, who has
      asked for a reset code: what forgot-password step one leaves behind. */
  method UserWithResetCode(cfg: Config, email: string, password: string, now: int)
    returns (db: Database, id: nat, step1: Response, code: string)
    requires email != "" && cfg.isEmailAddress(email)
    requires CodesAreTypable(cfg)
    ensures fresh(db) && db.Valid()
    ensures step1 == Response(200, Detail(MsgMailSent))
    ensures id == 0 && db.users == [Saved(CreatedUser(cfg, email, password))] && db.tokens == map[]
    ensures |db.codes| == 1 && IsDefaultEmailCode(cfg, db.codes[0], email, now) && code == db.codes[0].code
    ensures code != ""
  {
    db := new Database();
    id := db.CreateUser(CreatedUser(cfg, email, password));
    step1 := ForgotFirstStepPost(db, cfg, true, Some(email), now);
    code := db.codes[|db.codes| - 1].code;   // VerifyCode.objects.filter().last()
  }

  /** In a table of one row, `is_valid` for its value holds exactly for its
      code and exactly before its expiry. */
  lemma OnlyCodeIsValid(codes: seq<VerifyCode>, code: string, t: int)
    requires |codes| == 1
    ensures HasValue(codes, codes[0].value)
    ensures IsValid(codes, codes[0].value, code, t) <==> code == codes[0].code && t < codes[0].expireAt
  {
    IsValidAfterInsert([], codes[0], code, t);
    assert [] + [codes[0]] == codes;
  }

  /** A store holding one user, with the given e-mail and password, who has
      just logged in once. */
  method UserLoggedInOnce(cfg: Config, email: string, password: string, now: int)
    returns (db: Database, id: nat, resp: Response)
    requires email != "" && cfg.isEmailAddress(email) && password != ""
    ensures fresh(db) && db.Valid()
    ensures id == 0 && |db.users| == 1 && db.users[0].email == email
    ensures db.users[0].password == SetPassword(cfg, password) && db.users[0].isActive
    ensures resp.status == 200 && resp.body.TokenBody? && db.tokens == map[0 := resp.body.token]
  {
    db := new Database();
    id := db.CreateUser(CreatedUser(cfg, email, password));
    LoginByTheOnlyHolder(cfg, db.users, id, email, password);
    resp := LoginPost(db, cfg, true, LoginData(Some(email), Some(password)), now);
  }

  /** `LoginWithEmailTestCase`: the right password gets a token, a wrong one
      a 400 whose error code is "authorization". */
  method LogInWithRightAndWrongPassword(cfg: Config, email: string, password: string, wrongPassword: string, now: int)
    returns (valid: Response, notValid: Response)
    requires email != "" && cfg.isEmailAddress(email)
    requires password != "" && wrongPassword != "" && cfg.digest(wrongPassword) != cfg.digest(password)
    ensures valid.status == 200 && valid.body.TokenBody?
    ensures notValid == Response(400, Errors(NonFieldErrors([BadCredentials])))
    ensures notValid.body.errors.details[0].code == "authorization"
  {
    var db, id, resp := UserLoggedInOnce(cfg, email, password, now);
    valid := resp;
    LoginByTheOnlyHolder(cfg, db.users, id, email, wrongPassword);
    notValid := LoginPost(db, cfg, true, LoginData(Some(email), Some(wrongPassword)), now);
  }

  /** `RegisterViewTestCase` followed by a login: registration answers 201
      with the profile (no password, e-mail null), stores the user, and the
      registered password then logs in. */
  method RegisterThenLogIn(cfg: Config, email: string, password: string, firstName: string, lastName: string, now: int)
    returns (registered: Response, stored: bool, loggedIn: Response)
    requires email != "" && cfg.isEmailAddress(email)
    requires password != "" && ValidatePassword(cfg, password)
    ensures registered == Response(201, ProfileBody(ProfileData(None, firstName, lastName)))
    ensures stored
    ensures loggedIn.status == 200 && loggedIn.body.TokenBody?
  {
    var db := new Database();
    registered := RegisterPost(db, cfg, true, RegisterData(Some(email), Some(password), Some(firstName), Some(lastName)), now);
    stored := |db.users| == 1 && db.users[0].email == email;
    LoginByTheOnlyHolder(cfg, db.users, 0, email, password);
    loggedIn := LoginPost(db, cfg, true, LoginData(Some(email), Some(password)), now);
  }

  /** A second login of the same user returns the token of the first. */
  method LogInTwice(cfg: Config, email: string, password: string, now: int, later: int)
    returns (first: Response, second: Response)
    requires email != "" && cfg.isEmailAddress(email) && password != ""
    ensures first.status == 200 && first.body.TokenBody?
    ensures second == first
  {
    var db, id, resp := UserLoggedInOnce(cfg, email, password, now);
    first := resp;
    LoginByTheOnlyHolder(cfg, db.users, id, email, password);
    second := LoginPost(db, cfg, true, LoginData(Some(email), Some(password)), later);
  }

  /** A deactivated user with the right password is refused with 403 and
      gets no token. */
  method InactiveUserLogsIn(cfg: Config, email: string, password: string, now: int)
    returns (resp: Response, tokenCount: nat)
    requires email != "" && cfg.isEmailAddress(email) && password != ""
    ensures resp == Response(403, Detail(MsgInactive))
    ensures tokenCount == 0
  {
    var db := new Database();
    var id := db.CreateUser(CreatedUser(cfg, email, password).(isActive := false));
    LoginByTheOnlyHolder(cfg, db.users, id, email, password);
    resp := LoginPost(db, cfg, true, LoginData(Some(email), Some(password)), now);
    tokenCount := |db.tokens|;
  }

  /** `UpdatePassword.test_update`: a wrong old password, then a weak new
      one, are refused and change nothing; the third request changes it. */
  method ChangePasswordThreeTimes(cfg: Config, password: string, wrongPassword: string,
                                  weakPassword: string, newPassword: string)
    returns (r1: Response, checks1: bool, r2: Response, checks2: bool, r3: Response, checks3: bool)
    requires wrongPassword != "" && weakPassword != "" && newPassword != "" && password != ""
    requires cfg.digest(wrongPassword) != cfg.digest(password)
    requires cfg.digest(newPassword) != cfg.digest(password)
    requires cfg.digest(weakPassword) != cfg.digest(password)
    requires !ValidatePassword(cfg, weakPassword) && ValidatePassword(cfg, newPassword)
    ensures r1 == Response(400, ErrorList([WrongPassword])) && !checks1
    ensures r2 == Response(400, ErrorList([WeakPassword])) && r2.body.details[0].code == "weak-password" && !checks2
    ensures r3 == Response(200, Detail(MsgPasswordChanged)) && checks3
  {
    var db := new Database();
    var id := db.CreateUser(CreatedUser(cfg, "", password));
    r1 := UpdatePasswordPut(db, cfg, id, UpdatePasswordData(Some(wrongPassword), Some(newPassword)));
    checks1 := CheckPassword(cfg, db.users[id].password, newPassword);
    r2 := UpdatePasswordPut(db, cfg, id, UpdatePasswordData(Some(password), Some(weakPassword)));
    checks2 := CheckPassword(cfg, db.users[id].password, weakPassword);
    r3 := UpdatePasswordPut(db, cfg, id, UpdatePasswordData(Some(password), Some(newPassword)));
    checks3 := CheckPassword(cfg, db.users[id].password, newPassword);
  }

  /** `ForgotPasswordWithemail.test_forgot_password`, then a login with the
      new password: step one answers 200 and stores a code, step two with
      that code (read back as the last row) answers 200 and sets the
      password, which then logs in. */
  method ResetPassword(cfg: Config, email: string, password: string, newPassword: string, now: int, later: int)
    returns (step1: Response, step2: Response, checks: bool, loggedIn: Response)
    requires email != "" && cfg.isEmailAddress(email) && password != ""
    requires newPassword != "" && ValidatePassword(cfg, newPassword)
    requires CodesAreTypable(cfg)
    requires now <= later < now + cfg.codeExpireTime
    ensures step1 == Response(200, Detail(MsgMailSent))
    ensures step2 == Response(200, Detail(MsgPasswordReset))
    ensures checks
    ensures loggedIn.status == 200 && loggedIn.body.TokenBody?
  {
    var db, id, step, code := UserWithResetCode(cfg, email, password, now);
    step1 := step;
    OnlyCodeIsValid(db.codes, code, later);
    assert ForgotPasswordCheck(cfg, db.users, db.codes, email, code, newPassword, later) == Accepted(id);
    step2 := ForgotSecondStepPost(db, cfg, true, ForgotPasswordData(Some(email), Some(code), Some(newPassword)), later);
    checks := CheckPassword(cfg, db.users[id].password, newPassword);
    LoginByTheOnlyHolder(cfg, db.users, id, email, newPassword);
    loggedIn := LoginPost(db, cfg, true, LoginData(Some(email), Some(newPassword)), later);
  }

  /** Codes are not consumed: within its lifetime one code resets the
      password twice. */
  method ResetTwiceWithOneCode(cfg: Config, email: string, password: string, first: string, second: string,
                               now: int, later: int, latest: int)
    returns (reset1: Response, reset2: Response, checks: bool)
    requires email != "" && cfg.isEmailAddress(email) && password != ""
    requires first != "" && ValidatePassword(cfg, first) && second != "" && ValidatePassword(cfg, second)
    requires CodesAreTypable(cfg)
    requires now <= later <= latest < now + cfg.codeExpireTime
    ensures reset1 == reset2 == Response(200, Detail(MsgPasswordReset))
    ensures checks
  {
    var db, id, _, code := UserWithResetCode(cfg, email, password, now);
    OnlyCodeIsValid(db.codes, code, later);
    OnlyCodeIsValid(db.codes, code, latest);
    assert ForgotPasswordCheck(cfg, db.users, db.codes, email, code, first, later) == Accepted(id);
    reset1 := ForgotSecondStepPost(db, cfg, true, ForgotPasswordData(Some(email), Some(code), Some(first)), later);
    assert ForgotPasswordCheck(cfg, db.users, db.codes, email, code, second, latest) == Accepted(id);
    reset2 := ForgotSecondStepPost(db, cfg, true, ForgotPasswordData(Some(email), Some(code), Some(second)), latest);
    checks := CheckPassword(cfg, db.users[id].password, second);
  }

  /** Once the code has expired the reset is refused and the old password
      stays. */
  method ResetAfterExpiry(cfg: Config, email: string, password: string, newPassword: string, now: int, later: int)
    returns (step2: Response, checks: bool)
    requires email != "" && cfg.isEmailAddress(email) && password != ""
    requires newPassword != "" && ValidatePassword(cfg, newPassword)
    requires CodesAreTypable(cfg)
    requires now + cfg.codeExpireTime <= later
    ensures step2 == Response(400, Errors(NonFieldErrors([CodeWrongOrExpired])))
    ensures checks
  {
    var db, id, _, code := UserWithResetCode(cfg, email, password, now);
    OnlyCodeIsValid(db.codes, code, later);
    assert ForgotPasswordCheck(cfg, db.users, db.codes, email, code, newPassword, later) == Rejected(CodeWrongOrExpired);
    step2 := ForgotSecondStepPost(db, cfg, true, ForgotPasswordData(Some(email), Some(code), Some(newPassword)), later);
    checks := CheckPassword(cfg, db.users[id].password, password);
  }

  /** Step one answers an unknown e-mail exactly as it answers a known one,
      and stores no code for it. */
  method ForgotUnknownAndKnownEmail(cfg: Config, known: string, unknown: string, password: string, now: int)
    returns (forUnknown: Response, codesAfterUnknown: nat, forKnown: Response, codesAfterKnown: nat)
    requires known != "" && cfg.isEmailAddress(known) && unknown != "" && cfg.isEmailAddress(unknown)
    requires known != unknown
    ensures forUnknown == forKnown == Response(200, Detail(MsgMailSent))
    ensures codesAfterUnknown == 0 && codesAfterKnown == 1
  {
    var db := new Database();
    var id := db.CreateUser(CreatedUser(cfg, known, password));
    assert UserByEmail(db.users, unknown).DoesNotExist?;
    forUnknown := ForgotFirstStepPost(db, cfg, true, Some(unknown), now);
    codesAfterUnknown := |db.codes|;
    assert db.codes == [] && UserByEmail(db.users, known).Found?;
    forKnown := ForgotFirstStepPost(db, cfg, true, Some(known), now);
    codesAfterKnown := |db.codes|;
  }

  /** Registration leaves a code row for the e-mail, and `generate` does not
      replace it: asking for a reset afterwards breaks the unique index and
      the server answers 500. */
  method RegisterThenForgotPassword(cfg: Config, email: string, password: string, now: int, later: int)
    returns (registered: Response, step1: Response)
    requires email != "" && cfg.isEmailAddress(email)
    requires password != "" && ValidatePassword(cfg, password)
    ensures registered.status == 201
    ensures step1 == Response(500, ServerError(IntegrityError))
  {
    var db := new Database();
    registered := RegisterPost(db, cfg, true, RegisterData(Some(email), Some(password), None, None), now);
    step1 := ForgotFirstStepPost(db, cfg, true, Some(email), later);
  }

  /** Nothing stops a second registration with the same e-mail: both answer
      201 and the store then holds two users with that e-mail. */
  method SameEmailRegisteredTwice(cfg: Config, email: string, password: string, now: int)
    returns (db: Database, first: Response, second: Response)
    requires email != "" && cfg.isEmailAddress(email)
    requires password != "" && ValidatePassword(cfg, password)
    ensures fresh(db) && db.Valid()
    ensures first.status == 201 && second.status == 201
    ensures |db.users| == 2 && db.users[0].email == email && db.users[1].email == email
  {
    db := new Database();
    var data := RegisterData(Some(email), Some(password), None, None);
    first := RegisterPost(db, cfg, true, data, now);
    second := RegisterPost(db, cfg, true, data, now);
  }

  /** After the same e-mail is registered twice, every lookup by it finds
      two users, and login and reset both answer 500. */
  method RegisterTwice(cfg: Config, email: string, password: string, now: int)
    returns (first: Response, second: Response, loggedIn: Response, step1: Response)
    requires email != "" && cfg.isEmailAddress(email)
    requires password != "" && ValidatePassword(cfg, password)
    ensures first.status == 201 && second.status == 201
    ensures loggedIn == Response(500, ServerError(MultipleObjectsReturned))
    ensures step1 == Response(500, ServerError(MultipleObjectsReturned))
  {
    var db;
    db, first, second := SameEmailRegisteredTwice(cfg, email, password, now);
    assert UserByEmail(db.users, email).MultipleObjectsReturned?;
    loggedIn := LoginPost(db, cfg, true, LoginData(Some(email), Some(password)), now);
    step1 := ForgotFirstStepPost(db, cfg, true, Some(email), now);
  }
}
