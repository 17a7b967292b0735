/**
 * cvgezgini/api/auth/views.py: the five endpoints. Each view takes the
 * verdict of the `CanAttemptPerm` permission as the boolean `allowed`; a
 * refused request gets DRF's 403 and touches nothing.
 */
module AuthViews {

  import opened Wrappers
  import opened Settings
  import opened Exceptions
  import opened Passwords
  import opened Accounts
  import opened AuthSerializers

  /** The body of a response. */
  datatype Body =
    | Detail(text: string)                 // {"detail": text}
    | TokenBody(token: string)             // {"token": key}
    | ProfileBody(profile: ProfileData)
    | Errors(errors: ValidationErrors)     // serializer.errors
    | ErrorList(details: seq<ErrorDetail>) // a ValidationError raised outside is_valid
    | ServerError(e: Exception)            // an uncaught exception
    | PermissionDenied

  datatype Response = Response(status: int, body: Body)

  const Denied := Response(403, PermissionDenied)

  const MsgInactive := "Hesabınız aktif değil!"
  const MsgPasswordChanged := "Şifreniz başarıyla güncellendi!"
  const MsgMailSent := "Mail gönderildi."
  const MsgPasswordReset := "Şifre başarıyla güncellendi."

  /** The row `update_last_login` writes. */
  function LoggedIn(u: User, now: int): (r: User)
    ensures r.lastLogin == Some(now)
    ensures r.(lastLogin := u.lastLogin) == u
  {
    u.(lastLogin := Some(now))
  }

  /** `LoginWithEmailView.post`. */
  method LoginPost(db: Database, cfg: Config, allowed: bool, data: LoginData, now: int)
    returns (resp: Response)
    requires db.Valid()
    modifies db
    ensures db.Valid()
    ensures db.codes == old(db.codes) && db.profiles == old(db.profiles)
    ensures !allowed ==> resp == Denied && db.users == old(db.users) && db.tokens == old(db.tokens)
    ensures allowed && LoginIsValid(cfg, old(db.users), data).Invalid? ==>
              && resp == Response(400, Errors(LoginIsValid(cfg, old(db.users), data).errors))
              && db.users == old(db.users) && db.tokens == old(db.tokens)
    ensures allowed && LoginIsValid(cfg, old(db.users), data).Crashed? ==>
              && resp == Response(500, ServerError(LoginIsValid(cfg, old(db.users), data).e))
              && db.users == old(db.users) && db.tokens == old(db.tokens)
    ensures allowed && LoginIsValid(cfg, old(db.users), data).Valid? ==>
              var id := LoginIsValid(cfg, old(db.users), data).data;
              && id < |old(db.users)|
              && (!old(db.users)[id].isActive ==>
                    resp == Response(403, Detail(MsgInactive)) && db.users == old(db.users) && db.tokens == old(db.tokens))
              && (old(db.users)[id].isActive && id in old(db.tokens) ==>
                    && resp == Response(200, TokenBody(old(db.tokens)[id]))
                    && db.tokens == old(db.tokens)
                    && db.users == old(db.users)[id := LoggedIn(old(db.users)[id], now)])
              && (old(db.users)[id].isActive && id !in old(db.tokens) ==>
                    || (&& resp.status == 200 && resp.body.TokenBody?
                        && resp.body.token !in old(db.tokens).Values
                        && db.tokens == old(db.tokens)[id := resp.body.token]
                        && db.users == old(db.users)[id := LoggedIn(old(db.users)[id], now)])
                    || (&& resp == Response(500, ServerError(IntegrityError)) && old(db.tokens) != map[]
                        && db.users == old(db.users) && db.tokens == old(db.tokens)))
  {
    if !allowed {
      return Denied;
    }
    var checked := LoginIsValid(cfg, db.users, data);
    match checked
    case Invalid(errs) =>
      resp := Response(400, Errors(errs));
    case Crashed(e) =>
      resp := Response(500, ServerError(e));
    case Valid(id) =>
      // the view's own `User.objects.get` finds the row the serializer accepted
      if !db.users[id].isActive {
        return Response(403, Detail(MsgInactive));
      }
      var token := db.GetOrCreateToken(id);
      if token.Failure? {
        return Response(500, ServerError(token.error));
      }
      db.SaveUser(id, LoggedIn(db.users[id], now));
      resp := Response(200, TokenBody(token.value));
  }

  /** `RegisterView.post`: validate, create, answer with the new profile. */
  method RegisterPost(db: Database, cfg: Config, allowed: bool, data: RegisterData, now: int)
    returns (resp: Response)
    requires db.Valid()
    modifies db
    ensures db.Valid()
    ensures db.profiles == old(db.profiles) && db.tokens == old(db.tokens)
    ensures !allowed ==> resp == Denied && db.users == old(db.users) && db.codes == old(db.codes)
    ensures allowed && RegisterFieldErrors(cfg, data) != [] ==>
              && resp == Response(400, Errors(FieldErrors(RegisterFieldErrors(cfg, data))))
              && db.users == old(db.users) && db.codes == old(db.codes)
    ensures allowed && RegisterFieldErrors(cfg, data) == [] ==>
              var u := RegisteredUser(cfg, data.email.value, data.password.value, OrEmpty(data.firstName), OrEmpty(data.lastName));
              && resp == Response(201, ProfileBody(ProfileOf(u)))
              && db.users == old(db.users) + [u]
              && (HasValue(old(db.codes), data.email.value) ==> db.codes == old(db.codes))
              && (!HasValue(old(db.codes), data.email.value) ==>
                    |db.codes| == |old(db.codes)| + 1 && db.codes[..|old(db.codes)|] == old(db.codes) &&
                    IsDefaultEmailCode(cfg, db.codes[|old(db.codes)|], data.email.value, now))
  {
    if !allowed {
      return Denied;
    }
    var errs := RegisterFieldErrors(cfg, data);
    if errs != [] {
      return Response(400, Errors(FieldErrors(errs)));
    }
    var id := RegisterCreate(db, cfg, data.email.value, data.password.value,
                             OrEmpty(data.firstName), OrEmpty(data.lastName), now);
    resp := Response(201, ProfileBody(ProfileOf(db.users[id])));
  }

  /** `UpdatePassword.put` for the authenticated user stored as row `userId`. */
  method UpdatePasswordPut(db: Database, cfg: Config, userId: nat, data: UpdatePasswordData)
    returns (resp: Response)
    requires db.Valid() && userId < |db.users|
    modifies db
    ensures db.Valid()
    ensures db.codes == old(db.codes) && db.profiles == old(db.profiles) && db.tokens == old(db.tokens)
    ensures UpdatePasswordFieldErrors(data) != [] ==>
              resp == Response(400, Errors(FieldErrors(UpdatePasswordFieldErrors(data)))) && db.users == old(db.users)
    ensures UpdatePasswordFieldErrors(data) == [] ==>
              match UpdatePasswordCheck(cfg, old(db.users)[userId], data.oldPassword.value, data.newPassword.value)
              case Some(d) => resp == Response(400, ErrorList([d])) && db.users == old(db.users)
              case None =>
                && resp == Response(200, Detail(MsgPasswordChanged))
                && db.users == old(db.users)[userId := old(db.users)[userId].(password := SetPassword(cfg, data.newPassword.value))]
  {
    var errs := UpdatePasswordFieldErrors(data);
    if errs != [] {
      return Response(400, Errors(FieldErrors(errs)));
    }
    var failed := UpdatePasswordUpdate(db, cfg, userId, data.oldPassword.value, data.newPassword.value);
    if failed.Some? {
      return Response(400, ErrorList([failed.value]));
    }
    resp := Response(200, Detail(MsgPasswordChanged));
  }

  /** `ForgotPasswordWithEmailFirstStep.post`: the same answer whether or not
      the e-mail belongs to a user; a code is generated (and not sent) only
      when it does. */
  method ForgotFirstStepPost(db: Database, cfg: Config, allowed: bool, email: Option<string>, now: int)
    returns (resp: Response)
    requires db.Valid()
    modifies db
    ensures db.Valid()
    ensures db.users == old(db.users) && db.profiles == old(db.profiles) && db.tokens == old(db.tokens)
    ensures resp.status == 200 ==> resp == Response(200, Detail(MsgMailSent))
    ensures resp.status != 200 || email.None? || UserByEmail(old(db.users), email.value).DoesNotExist? ==>
              db.codes == old(db.codes)
    ensures !allowed ==> resp == Denied
    ensures allowed && EmailFieldError(cfg, email).Some? ==>
              resp == Response(400, Errors(FieldErrors([("email", EmailFieldError(cfg, email).value)])))
    ensures allowed && EmailFieldError(cfg, email).None? ==>
              match UserByEmail(old(db.users), email.value)
              case DoesNotExist => resp.status == 200
              case MultipleObjectsReturned => resp == Response(500, ServerError(MultipleObjectsReturned))
              case Found(_) =>
                && (HasValue(old(db.codes), email.value) ==> resp == Response(500, ServerError(IntegrityError)))
                && (!HasValue(old(db.codes), email.value) ==>
                      && resp.status == 200
                      && |db.codes| == |old(db.codes)| + 1 && db.codes[..|old(db.codes)|] == old(db.codes)
                      && IsDefaultEmailCode(cfg, db.codes[|old(db.codes)|], email.value, now))
  {
    if !allowed {
      return Denied;
    }
    var err := EmailFieldError(cfg, email);
    if err.Some? {
      return Response(400, Errors(FieldErrors([("email", err.value)])));
    }
    match UserByEmail(db.users, email.value)
    case DoesNotExist =>
      resp := Response(200, Detail(MsgMailSent));
    case MultipleObjectsReturned =>
      resp := Response(500, ServerError(MultipleObjectsReturned));
    case Found(_) =>
      var generated := db.GenerateVerifyCode(cfg, email.value, true, false, None, None, now);
      if generated.Failure? {
        return Response(500, ServerError(generated.error));
      }
      resp := Response(200, Detail(MsgMailSent));
  }

  /** `ForgotPasswordWithEmailSecondStep.post`: 200 exactly when the
      serializer validates, which is when it has stored the new password. */
  method ForgotSecondStepPost(db: Database, cfg: Config, allowed: bool, data: ForgotPasswordData, now: int)
    returns (resp: Response)
    requires db.Valid()
    modifies db
    ensures db.Valid()
    ensures db.codes == old(db.codes) && db.profiles == old(db.profiles) && db.tokens == old(db.tokens)
    ensures resp.status == 200 ==> resp == Response(200, Detail(MsgPasswordReset))
    ensures resp.status != 200 ==> db.users == old(db.users)
    ensures !allowed ==> resp == Denied
    ensures allowed && ForgotPasswordFieldErrors(cfg, data) != [] ==>
              resp == Response(400, Errors(FieldErrors(ForgotPasswordFieldErrors(cfg, data))))
    ensures allowed && ForgotPasswordFieldErrors(cfg, data) == [] ==>
              match ForgotPasswordCheck(cfg, old(db.users), old(db.codes), data.email.value, data.code.value,
                                        data.newPassword.value, now)
              case Accepted(i) =>
                && resp.status == 200
                && db.users == old(db.users)[i := old(db.users)[i].(password := SetPassword(cfg, data.newPassword.value))]
              case Rejected(d) => resp == Response(400, Errors(NonFieldErrors([d])))
              case Failed(e) => resp == Response(500, ServerError(e))
  {
    if !allowed {
      return Denied;
    }
    var v := ForgotPasswordIsValid(db, cfg, data, now);
    match v
    case Valid(_) =>
      resp := Response(200, Detail(MsgPasswordReset));
    case Invalid(errs) =>
      resp := Response(400, Errors(errs));
    case Crashed(e) =>
      resp := Response(500, ServerError(e));
  }
}
