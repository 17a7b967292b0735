# cvgezgini authentication core, modelled in Dafny

This project models the authentication backend of cvgezgini: its
verification-code lifecycle and the flows that change credentials on top of
it. It covers:

- the `User`, `Profile` and `VerifyCode` models and their `save`, `generate`,
  `generate_code`, `is_valid` and `send` methods
  (`cvgezgini/apps/accounts/models.py`);
- the invite-code generator and the e-mail stub
  (`cvgezgini/apps/accounts/utils.py`);
- the login, register, profile, update-password and forgot-password
  serializers (`cvgezgini/api/auth/serializers.py`);
- the five API views that call them (`cvgezgini/api/auth/views.py`).

The database is one object, `Accounts.Database`, whose fields are the tables
the core touches:

- the user table, a sequence whose positions are the primary keys;
- the verification-code table, in insertion order;
- the profile table, a map from primary key to row;
- the authtoken table, a map from user id to token key.

Its `Valid()` predicate states what the schema and `User.save` guarantee of
every stored state:

- every `full_name` is derived from the first and last names;
- code values are unique;
- profile invite codes and profile users are unique;
- every foreign key points to an existing row;
- no two users share a token key.

Every state-changing method preserves `Valid()` and states its whole new state.

The model follows the code as written, including these behaviours:

- Registration does not check that the e-mail is unused. `UniqueValidator` is
  imported but not attached. Once an address is registered twice, every
  lookup by it raises `MultipleObjectsReturned`, and login and password reset
  answer 500.
- `VerifyCode.generate` inserts with `objects.create` into a column declared
  `unique=True`. A second code for the same value therefore raises
  `IntegrityError`; it does not replace the first row. Registration stores a
  code for the new e-mail, so a password reset requested later for that
  e-mail answers 500.
- `send` refuses only when `expire_at < now`. `is_valid` needs
  `expire_at > now`. At the instant of expiry `send` goes ahead although no
  code is valid any more.
- `send` calls `send_email(email=…, message=…)`, but `send_email` takes no
  parameters. With e-mail sending enabled the call raises `TypeError`, which
  registration logs and swallows.
- `get_email` returns `None` for every user, so the profile's `email` is
  always null.
- Forgot-password step two reads the code row with `objects.get`. When no row
  exists that raises `DoesNotExist` (a 500), so the `if not verifycode` test
  after it can never fire.
- Forgot-password step two answers an unknown e-mail with a bare
  `ValidationError()`, which DRF turns into 400 with `Invalid input.`
- Forgot-password step two reads the code row with `objects.get`, so two rows
  for one value would raise `MultipleObjectsReturned` (a 500). The unique
  column keeps that from happening.
- Codes are never consumed. One code resets the password as often as asked
  until it expires.
- After DRF's field validation both login fields are present and non-empty,
  so the `Email veya şifre gerekli.` guard in `validate` is unreachable from
  `is_valid`.

Collaborators that the core calls but does not define are parameters:

- `Settings.Config` holds the settings the core reads
  (`VERIFY_CODE_LENGTH`, `USE_FALLBACK_CODE`, `VERIFICATION_CODE_FALLBACK`,
  `VERIFICATION_CODE_EXPIRE_TIME`, `ENABLE_SENDING_EMAIL`,
  `ENABLE_SENDING_SMS`).
- It also holds the password hasher, the verdict of the password validators
  and Django's e-mail syntax check, as functions.
- The current time is an integer parameter, in seconds.
- Randomness is nondeterministic choice (`Random.Choices`). The model knows
  only how many characters are drawn and from which pool.
- The `CanAttemptPerm` permission is a boolean `allowed`.

## Model

| member | source | states |
|---|---|---|
| Accounts.Saved | cvgezgini/apps/accounts/models.py:34-36 | the saved row's full name is the first name, a space and the last name; no other column changes |
| Accounts.FullNameKeepsNames | cvgezgini/apps/accounts/models.py:35 | the full name consists of the first name, one space and the last name, in that order, with nothing lost |
| Accounts.Database.CreateUser | cvgezgini/apps/accounts/models.py:34-36 | `objects.create` appends the row as `save` writes it (full name derived) and returns its primary key; the table invariant is kept |
| Accounts.Database.SaveUser | cvgezgini/apps/accounts/models.py:34-36 | saving an instance rewrites only its own row, with the full name derived |
| Accounts.GenerateCode | cvgezgini/apps/accounts/models.py:110-114 | the fallback constant when `USE_FALLBACK_CODE` is set, otherwise exactly `VERIFY_CODE_LENGTH` characters, each a decimal digit |
| Accounts.Database.GenerateVerifyCode | cvgezgini/apps/accounts/models.py:87-108 | fails and stores nothing when both channel flags or neither are set, or when a given code's length is not `VERIFY_CODE_LENGTH`; fails with IntegrityError exactly when a row for the value exists; otherwise appends one row with the value, the flags, the given or generated code, and the given expiry or now plus `VERIFICATION_CODE_EXPIRE_TIME`; code values stay unique |
| Accounts.IsValid | cvgezgini/apps/accounts/models.py:116-118 | `is_valid(value, code)` holds exactly when some row has this value and this code and expires strictly after now; it reads the table and changes nothing; a valid code implies a row for the value exists |
| Accounts.IsValidByTheRowForValue | cvgezgini/apps/accounts/models.py:116-118 | with unique values, `is_valid(value, code)` holds exactly when the one row for the value has this code and expires strictly after now |
| Accounts.IsValidEarlier | cvgezgini/apps/accounts/models.py:116-118 | a code valid at some time was valid at every earlier time; since nothing consumes codes, repeated checks within the lifetime all succeed |
| Accounts.IsValidAfterInsert | cvgezgini/apps/accounts/models.py:102-118 | right after `generate` stores a row for a fresh value, `is_valid` for that value holds exactly for the stored code and exactly before its expiry |
| Accounts.Send | cvgezgini/apps/accounts/models.py:120-133 | raises CodeExpired exactly when `expire_at < now`; otherwise raises TypeError exactly when the row is an e-mail code and e-mail sending is enabled (the stub takes no arguments); otherwise returns normally |
| Accounts.SendAndIsValidDisagreeAtExpiry | cvgezgini/apps/accounts/models.py:116-122 | at `now == expire_at`, `send` does not raise CodeExpired while `is_valid` rejects every code for that value |
| Accounts.InviteCodeTaken | cvgezgini/apps/accounts/models.py:61 | `Profile.objects.filter(invite_code=code).exists()`: holds exactly when some stored profile carries the code |
| Accounts.Database.GetAnInviteCode | cvgezgini/apps/accounts/models.py:58-63 | a returned invite code has six characters of the pool, fits the 8-character column and is held by no stored profile |
| Accounts.Database.SaveProfile | cvgezgini/apps/accounts/models.py:50-56 | an empty invite code is replaced by a free generated one before the write; a given code is kept; with a given code the write succeeds exactly when no unique or foreign-key constraint is broken; with a generated code, once a free code is found, the write succeeds exactly when the user exists and has no other profile, and otherwise raises IntegrityError; the saved code is held by no other profile |
| Accounts.Database.GetOrCreateToken | cvgezgini/api/auth/views.py:31 | a user who has a token gets the same token and nothing changes; otherwise a fresh 40-character key unused by any other user is stored for them, or the insert fails with IntegrityError on a key collision and nothing changes |
| AccountsUtils.CharacterPoolIsUpperAndDigits | cvgezgini/apps/accounts/utils.py:1-4 | a character is in `CHARACTER_POOL` exactly when it is an upper-case ASCII letter or a decimal digit |
| AccountsUtils.GenerateInviteCode | cvgezgini/apps/accounts/utils.py:7-9 | exactly six characters, each in the pool, each A–Z or 0–9 |
| AccountsUtils.SendEmail | cvgezgini/apps/accounts/utils.py:10-11 | a call with no arguments does nothing; a call with any argument raises TypeError |
| Random.Choices | cvgezgini/apps/accounts/utils.py:8 | `random.choices(pool, k=k)` joined: exactly k characters, each drawn from the pool |
| Queries.Filter | cvgezgini/api/auth/serializers.py:147 | `filter` returns the positions of exactly the matching rows, in increasing order |
| Queries.Get | cvgezgini/api/auth/serializers.py:45-48 | `get` raises DoesNotExist exactly when no row matches and MultipleObjectsReturned exactly when two rows match; otherwise it returns the only matching row |
| Passwords.SetPassword | cvgezgini/api/auth/serializers.py:74 | the column holds a hash, never the raw password; afterwards `check_password` accepts exactly the passwords that hash like the new one |
| Accounts.GetByValue | cvgezgini/api/auth/serializers.py:147 | `VerifyCode.objects.get(value=…)` in terms of the stored values: missing exactly when no row has the value, otherwise the one row that has it, and never two rows while the unique constraint holds |
| Accounts.DecimalString | cvgezgini/apps/accounts/models.py:97 | the digits Python's f-string writes for the configured code length: decimal digits, no leading zero, denoting that number |
| AuthSerializers.UserByEmail | cvgezgini/api/auth/serializers.py:46 | `User.objects.get(email=…)` in terms of the stored e-mails: missing exactly when no user has it, multiple exactly when two users have it, otherwise the one user who has it |
| AuthSerializers.UserByEmailAfterUpdate | cvgezgini/api/auth/serializers.py:162-163 | saving a user without changing the e-mail leaves every lookup by e-mail unchanged |
| AuthSerializers.UserByEmailAfterAppend | cvgezgini/api/auth/serializers.py:72 | after a user is created, a lookup by its e-mail finds it if no earlier user had that e-mail, and raises MultipleObjectsReturned otherwise |
| AuthSerializers.LoginFieldErrors | cvgezgini/api/auth/serializers.py:32-35 | the login fields pass exactly when the e-mail is present, non-empty and well-formed and the password is present and non-empty |
| AuthSerializers.LoginValidate | cvgezgini/api/auth/serializers.py:37-51 | missing credentials give the `authorization` error "Email veya şifre gerekli."; an unknown e-mail or a wrong password gives the `authorization` error "Sağlanan kimlik bilgileriyle oturum açılamıyor."; two users with the e-mail raise MultipleObjectsReturned; acceptance means the one user with the e-mail has this password |
| AuthSerializers.LoginIsValid | cvgezgini/api/auth/serializers.py:32-51 | `is_valid` accepts only when the fields pass and the accepted row has the e-mail and the password; the only exception that escapes is MultipleObjectsReturned |
| AuthSerializers.UnknownEmailLooksLikeWrongPassword | cvgezgini/api/auth/serializers.py:44-50 | an unknown e-mail and a known e-mail with a wrong password get the identical error, so the answer does not reveal whether the address is registered |
| AuthSerializers.LoginByTheOnlyHolder | cvgezgini/api/auth/serializers.py:44-51 | when exactly one user has the e-mail and the fields are well-formed, login accepts that user exactly when the password checks, and otherwise gives the `authorization` error |
| AuthSerializers.ValidateGuardUnreachable | cvgezgini/api/auth/serializers.py:40-42 | once the fields have passed, `validate` never raises the missing-credentials error |
| AuthSerializers.RegisterFieldErrors | cvgezgini/api/auth/serializers.py:53-67 | the register fields pass exactly when the e-mail is present, non-empty and well-formed and the password is present, non-empty and accepted by the validators; names are optional and nothing checks that the e-mail is unused |
| AuthSerializers.RegisteredUser | cvgezgini/api/auth/serializers.py:69-75 | the created user keeps the e-mail and names, is active, has never logged in, and stores a hash that `check_password` accepts for the given password |
| AuthSerializers.RegisterCreate | cvgezgini/api/auth/serializers.py:69-90 | the user row is always appended and returned; a signup code row is added exactly when the e-mail has none, and a failure to generate or send does not stop registration |
| AuthSerializers.RegisteredPasswordLogsIn | cvgezgini/api/auth/serializers.py:69-75 | whatever is stored, the registered password then passes login if the e-mail was new, and login raises MultipleObjectsReturned if it was not |
| AuthSerializers.GetEmail | cvgezgini/api/auth/serializers.py:100-103 | `None` for every user; an object without an `email` attribute raises AttributeError |
| AuthSerializers.ProfileOf | cvgezgini/api/auth/serializers.py:93-98 | the profile output is the null e-mail and the first and last names, and has no password |
| AuthSerializers.UpdatePasswordFieldErrors | cvgezgini/api/auth/serializers.py:107-109 | the update-password fields pass exactly when both passwords are present and non-empty |
| AuthSerializers.UpdatePasswordCheck | cvgezgini/api/auth/serializers.py:111-127 | a wrong old password gives `wrong-password` before strength is looked at; a right old password with a weak new one gives `weak-password`; no error exactly when the old password is right and the new one is strong |
| AuthSerializers.UpdatePasswordUpdate | cvgezgini/api/auth/serializers.py:111-132 | on either error no row changes; otherwise only the user's password changes, to the hash of the new one |
| AuthSerializers.ForgotPasswordFieldErrors | cvgezgini/api/auth/serializers.py:135-138 | the reset fields pass exactly when the e-mail is well-formed and the e-mail, the code and the new password are all present and non-empty |
| AuthSerializers.ForgotPasswordCheck | cvgezgini/api/auth/serializers.py:140-160 | acceptance holds exactly when one user has the e-mail, exactly one code row for it exists, `is_valid` holds and the new password is strong; an unknown e-mail gives "Invalid input."; a missing code row raises DoesNotExist and two rows raise MultipleObjectsReturned; a wrong or expired code gives "Kod yanlış veya süresi dolmuş."; a weak new password gives "Şifre en az 8 karakterden uzun ve güçlü olmalı." |
| AuthSerializers.ForgotPasswordValidate | cvgezgini/api/auth/serializers.py:140-165 | the password of the accepted user becomes the hash of the new one; on every failure the user table is unchanged; the code table never changes |
| AuthSerializers.ForgotPasswordIsValid | cvgezgini/api/auth/serializers.py:135-165 | `is_valid`: field errors first, then the checks of `validate`, with the same effect on the tables |
| AuthSerializers.ResetPasswordLogsIn | cvgezgini/api/auth/serializers.py:162-163 | whatever is stored, after an accepted reset the new password passes login for the same user |
| AuthViews.LoggedIn | cvgezgini/api/auth/views.py:32 | `update_last_login` sets the user's last login to now and leaves every other field of the row as it was |
| AuthViews.LoginPost | cvgezgini/api/auth/views.py:23-34 | refused by the permission: 403; failed validation: 400 with the serializer errors and no token; inactive user: 403 "Hesabınız aktif değil!" and no token; otherwise 200 with the user's existing or new token and the last login set to now |
| AuthViews.RegisterPost | cvgezgini/api/auth/views.py:41-46 | 400 with the field errors and nothing stored, or 201 with the new user's profile, the user appended and a code row added exactly when the e-mail had none |
| AuthViews.UpdatePasswordPut | cvgezgini/api/auth/views.py:49-57 | 400 with the field or check error and nothing changed, or 200 "Şifreniz başarıyla güncellendi!" with the request user's password replaced |
| AuthViews.ForgotFirstStepPost | cvgezgini/api/auth/views.py:69-79 | every 200 is "Mail gönderildi."; an unknown e-mail gets 200 and stores no code; a known one stores a code (never sent) or answers 500 when a code row for it exists or two users have it |
| AuthViews.ForgotSecondStepPost | cvgezgini/api/auth/views.py:92-98 | 200 "Şifre başarıyla güncellendi." exactly when the serializer accepts, and then only that user's password changes; 400 with the errors or 500 otherwise, with the users unchanged |
| AuthScenarios.LogInWithRightAndWrongPassword | cvgezgini/api/auth/tests.py:39-68 | on a store holding one user, the right password gets 200 with a token and a wrong one gets 400 whose non-field error code is `authorization` |
| AuthScenarios.RegisterThenLogIn | cvgezgini/api/auth/tests.py:26-37 | registering answers 201 with a profile holding the names and no password, the user is stored, and the registered password then logs in |
| AuthScenarios.LogInTwice | cvgezgini/api/auth/views.py:31-34 | two logins of the same user answer with the same token |
| AuthScenarios.InactiveUserLogsIn | cvgezgini/api/auth/views.py:27-29 | an inactive user with the right password gets 403 and no token is created |
| AuthScenarios.ChangePasswordThreeTimes | cvgezgini/api/auth/tests.py:79-107 | a wrong old password gives 400 and keeps the old password; a weak new one gives 400 `weak-password` and keeps it; a strong one gives 200, and the new password checks |
| AuthScenarios.ResetPassword | cvgezgini/api/auth/tests.py:117-136 | step one answers 200; step two with the last stored code answers 200 "Şifre başarıyla güncellendi."; the new password checks and logs in |
| AuthScenarios.ResetTwiceWithOneCode | cvgezgini/apps/accounts/models.py:116-118 | within its lifetime the same code resets the password twice, both times with 200 |
| AuthScenarios.ResetAfterExpiry | cvgezgini/api/auth/serializers.py:150-151 | once the code has expired, step two answers 400 "Kod yanlış veya süresi dolmuş." and the old password still checks |
| AuthScenarios.ForgotUnknownAndKnownEmail | cvgezgini/api/auth/views.py:69-79 | step one gives an unknown and a known e-mail the same 200 answer, and only the known one gets a code row |
| AuthScenarios.RegisterThenForgotPassword | cvgezgini/apps/accounts/models.py:102-108 | registration stores a code for the e-mail, so a later step one for it answers 500 IntegrityError |
| AuthScenarios.SameEmailRegisteredTwice | cvgezgini/api/auth/serializers.py:53-56 | registering the same e-mail twice answers 201 both times and leaves two users with that e-mail |
| AuthScenarios.RegisterTwice | cvgezgini/api/auth/serializers.py:53-56 | the same e-mail registers twice with 201, after which login and step one both answer 500 MultipleObjectsReturned |

## Left out

- Accounts.Database.GetAnInviteCode: the source retries without bound. The model makes at most `attempts` draws, and `None` means the loop would still be retrying. Termination of the real loop is not modelled.
- Accounts.Database.SaveProfile: inherits the same bound; `StillRetrying` stands for the unbounded retry.
- Password hashing, `check_password` and `validate_password` are Django's. They are the `digest` and `isStrong` functions of `Settings.Config`. The validators' own messages are not modelled: the register serializer reports one fixed message.
- Django's e-mail syntax check is the `isEmailAddress` function of `Settings.Config`. DRF's whitespace trimming of `CharField` input and the `max_length` limits of the columns are not modelled.
- Randomness is nondeterministic choice. The model says nothing about the distribution or the entropy of codes, invite codes or token keys.
- The wall clock and timezones are not modelled: `now` is an integer parameter and `expire_at` an integer.
- `CanAttemptPerm` and its attempt records are not part of this model. The views take its verdict as the boolean `allowed`. `UpdatePassword.put` uses the project's default permissions, and the authenticated `request.user` is given as a row index.
- E-mail and SMS delivery: the SMS branch of `send` is `pass`, and the e-mail stub does nothing. Only the exceptions they raise are modelled. Logging of swallowed errors is not modelled.
- Concurrency, transactions and races between requests are not modelled: every operation runs alone.
- `LoginWithEmailView.post` builds its serializer from `request.POST`, so a JSON body leaves both fields missing and answers 400 "This field is required.". The model's `LoginData` is the form fields as parsed; how the request body is parsed is not modelled.
- `str(code)` for a caller-supplied code that is not a string is not modelled: codes are strings.
- The other models (`Invitation`, `User`'s phone, gender, premium and online fields), routing, the admin, API schemas and translations are not part of this model.
