/**
 * cvgezgini/apps/accounts/models.py: the User, Profile and VerifyCode models
 * and the verification-code lifecycle. The database is one object whose
 * fields are the tables; the current time is a parameter.
 */
module Accounts {

  import opened Wrappers
  import opened Settings
  import opened Exceptions
  import opened Passwords
  import Queries
  import Random
  import AccountsUtils

  // ---------------------------------------------------------------- User

  /** A row of the user table; its primary key is its position in the table. */
  datatype User = User(
    email: string,
    password: PasswordField,
    firstName: string,
    lastName: string,
    fullName: string,
    isActive: bool,
    lastLogin: Option<int>)

  /** `f'{self.first_name} {self.last_name}'` */
  function FullName(firstName: string, lastName: string): string {
    firstName + " " + lastName
  }

  /** The row that `User.save` writes for an instance. */
  function Saved(u: User): (r: User)
    ensures r.fullName == FullName(u.firstName, u.lastName)
    ensures r.(fullName := u.fullName) == u
  {
    u.(fullName := FullName(u.firstName, u.lastName))
  }

  /** The full name keeps both names, split at the space after the first name. */
  lemma FullNameKeepsNames(firstName: string, lastName: string)
    ensures var n := FullName(firstName, lastName);
            |n| == |firstName| + 1 + |lastName| &&
            n[..|firstName|] == firstName && n[|firstName|] == ' ' && n[|firstName| + 1..] == lastName
  {
    var n := FullName(firstName, lastName);
    assert n[..|firstName|] == firstName;
    assert n[|firstName| + 1..] == lastName;
  }

  // ---------------------------------------------------------------- Profile

  /** A row of the profile table. `inviteCode` is "" until `save` assigns one. */
  datatype Profile = Profile(userId: nat, about: Option<string>, inviteCode: string)

  /** `max_length` of the `invite_code` column. */
  const InviteCodeColumnWidth: nat := 8

  /** `Profile.objects.filter(invite_code=code).exists()` */
  predicate InviteCodeTaken(profiles: map<nat, Profile>, code: string): (b: bool)
    ensures b <==> exists p :: p in profiles.Values && p.inviteCode == code
  {
    exists pk :: pk in profiles && profiles[pk].inviteCode == code
  }

  /** Why saving a profile under `pk` breaks a constraint of the table: its
      invite code or its user is another row's, or its user does not exist. */
  predicate ProfileConflicts(profiles: map<nat, Profile>, userCount: nat, pk: nat, p: Profile) {
    || p.userId >= userCount
    || exists q :: q in profiles && q != pk &&
         (profiles[q].inviteCode == p.inviteCode || profiles[q].userId == p.userId)
  }

  /** Why `Profile.save` returned without saving. */
  datatype ProfileSaveError =
    | StillRetrying      // the retry loop has not found a free code within the attempts modelled
    | Raised(e: Exception)

  // ---------------------------------------------------------------- VerifyCode

  /** A row of the verification-code table. `value` is the e-mail or phone. */
  datatype VerifyCode = VerifyCode(
    value: string,
    code: string,
    isEmail: bool,
    isPhone: bool,
    expireAt: int)

  /** The `unique=True` constraint on `value`. */
  predicate UniqueValues(codes: seq<VerifyCode>) {
    forall i, j :: 0 <= i < j < |codes| ==> codes[i].value != codes[j].value
  }

  /** `VerifyCode.objects.filter(value=value).exists()` */
  predicate HasValue(codes: seq<VerifyCode>, value: string) {
    Queries.Exists(codes, (r: VerifyCode) => r.value == value)
  }

  /** `VerifyCode.objects.get(value=value)` */
  function GetByValue(codes: seq<VerifyCode>, value: string): (r: Queries.Lookup)
    ensures r.DoesNotExist? <==> !HasValue(codes, value)
    ensures r.Found? ==> r.index < |codes| && codes[r.index].value == value
    ensures r.Found? ==> forall j :: 0 <= j < |codes| && j != r.index ==> codes[j].value != value
    // the unique column rules the third outcome out
    ensures r.MultipleObjectsReturned? ==> !UniqueValues(codes)
  {
    Queries.Get(codes, (r: VerifyCode) => r.value == value)
  }

  /** What `generate_code` may return. */
  predicate IsGeneratedCode(cfg: Config, code: string) {
    if cfg.useFallbackCode then code == cfg.fallbackCode
    else |code| == cfg.verifyCodeLength && forall i :: 0 <= i < |code| ==> '0' <= code[i] <= '9'
  }

  /** `VerifyCode.generate_code()`: the fallback constant, or random decimal digits. */
  method GenerateCode(cfg: Config) returns (code: string)
    ensures cfg.useFallbackCode ==> code == cfg.fallbackCode
    ensures !cfg.useFallbackCode ==>
              |code| == cfg.verifyCodeLength && forall i :: 0 <= i < |code| ==> '0' <= code[i] <= '9'
  {
    if cfg.useFallbackCode {
      return cfg.fallbackCode;
    }
    code := Random.Choices(AccountsUtils.Digits, cfg.verifyCodeLength);
    forall i | 0 <= i < |code|
      ensures '0' <= code[i] <= '9'
    {
      var k :| 0 <= k < |AccountsUtils.Digits| && AccountsUtils.Digits[k] == code[i];
    }
  }

  /** The expiry `generate` stores when the caller gives none. */
  function DefaultExpiry(cfg: Config, now: int): int {
    now + cfg.codeExpireTime
  }

  /** The number a string of decimal digits denotes. */
  function DecimalValue(s: string): nat
    requires forall i :: 0 <= i < |s| ==> '0' <= s[i] <= '9'
  {
    if |s| == 0 then 0 else DecimalValue(s[..|s| - 1]) * 10 + (s[|s| - 1] as int - '0' as int)
  }

  /** The decimal digits of n, as Python's `str` writes them: no leading zero. */
  function DecimalString(n: nat): (s: string)
    ensures |s| > 0
    ensures forall i :: 0 <= i < |s| ==> '0' <= s[i] <= '9'
    ensures DecimalValue(s) == n
    ensures |s| > 1 ==> s[0] != '0'
  {
    var last := ('0' as int + n % 10) as char;
    if n < 10 then [last]
    else
      var front := DecimalString(n / 10);
      assert (front + [last])[..|front|] == front;
      front + [last]
  }

  const MsgBothChannels := "Both is_email and is_phone should not be True or False."

  function MsgCodeLength(cfg: Config): string {
    "Code length must be " + DecimalString(cfg.verifyCodeLength)
  }

  /** `VerifyCode.is_valid(value, code)`: a row with this value and code that
      expires strictly after `now`. */
  predicate IsValid(codes: seq<VerifyCode>, value: string, code: string, now: int): (b: bool)
    ensures b <==> exists i :: 0 <= i < |codes| && codes[i].value == value && codes[i].code == code && now < codes[i].expireAt
    ensures b ==> HasValue(codes, value)
  {
    Queries.Exists(codes, (r: VerifyCode) => r.value == value && r.code == code && r.expireAt > now)
  }

  /** `VerifyCode.send()`: the exception it raises, if any. The phone branch is
      `pass`; the e-mail branch calls `send_email` with two keyword arguments. */
  function Send(cfg: Config, row: VerifyCode, now: int): (raised: Option<Exception>)
    ensures raised == Some(CodeExpired) <==> row.expireAt < now
    ensures raised == Some(TypeError) <==> now <= row.expireAt && row.isEmail && cfg.enableSendingEmail
    ensures raised.None? <==> now <= row.expireAt && !(row.isEmail && cfg.enableSendingEmail)
  {
    if row.expireAt < now then Some(CodeExpired)
    else if row.isEmail && cfg.enableSendingEmail then AccountsUtils.SendEmail(["email", "message"])
    else None
  }

  /** With values unique, `is_valid` is decided by the one row for the value:
      its code must match and it must expire strictly after `now`. */
  lemma {:induction false} IsValidByTheRowForValue(codes: seq<VerifyCode>, value: string, code: string, now: int)
    requires UniqueValues(codes)
    ensures IsValid(codes, value, code, now) <==>
              match GetByValue(codes, value)
              case Found(i) => codes[i].code == code && now < codes[i].expireAt
              case _ => false
  {
    if IsValid(codes, value, code, now) {
      var i :| 0 <= i < |codes| && codes[i].value == value && codes[i].code == code && codes[i].expireAt > now;
      assert HasValue(codes, value);
    }
  }

  /** A code that is valid at some time was valid at every earlier time. */
  lemma {:induction false} IsValidEarlier(codes: seq<VerifyCode>, value: string, code: string, earlier: int, later: int)
    requires earlier <= later
    requires IsValid(codes, value, code, later)
    ensures IsValid(codes, value, code, earlier)
  {
    var i :| 0 <= i < |codes| && codes[i].value == value && codes[i].code == code && codes[i].expireAt > later;
    assert codes[i].expireAt > earlier;
  }

  /** Right after a row is added for a fresh value, `is_valid` for that value
      holds exactly for its code and exactly before its expiry. */
  lemma {:induction false} IsValidAfterInsert(codes: seq<VerifyCode>, row: VerifyCode, code: string, now: int)
    requires !HasValue(codes, row.value)
    ensures IsValid(codes + [row], row.value, code, now) <==> code == row.code && now < row.expireAt
  {
    var all := codes + [row];
    if IsValid(all, row.value, code, now) {
      var i :| 0 <= i < |all| && all[i].value == row.value && all[i].code == code && all[i].expireAt > now;
      if i < |codes| {
        assert false;
      }
    }
    if code == row.code && now < row.expireAt {
      assert all[|codes|] == row;
    }
  }

  /** At the instant of expiry `send` still goes ahead, although `is_valid`
      already rejects every code for the value: `<` against `>`. */
  lemma {:induction false} SendAndIsValidDisagreeAtExpiry(cfg: Config, codes: seq<VerifyCode>, i: nat, code: string)
    requires UniqueValues(codes)
    requires i < |codes|
    ensures Send(cfg, codes[i], codes[i].expireAt) != Some(CodeExpired)
    ensures !IsValid(codes, codes[i].value, code, codes[i].expireAt)
  {
  }

  // ---------------------------------------------------------------- the database

  /** The four tables the core reads and writes. */
  class Database {
    var users: seq<User>
    var codes: seq<VerifyCode>
    var profiles: map<nat, Profile>
    var tokens: map<nat, string>      // authtoken: user id to token key

    /** What the schema and `User.save` guarantee of every stored state. */
    ghost predicate Valid()
      reads this
    {
      && (forall i :: 0 <= i < |users| ==> users[i].fullName == FullName(users[i].firstName, users[i].lastName))
      && UniqueValues(codes)
      && (forall pk :: pk in profiles ==> profiles[pk].userId < |users| && profiles[pk].inviteCode != "")
      && (forall p, q :: p in profiles && q in profiles && p != q ==>
            profiles[p].inviteCode != profiles[q].inviteCode && profiles[p].userId != profiles[q].userId)
      && (forall u :: u in tokens ==> u < |users|)
      && (forall u, v :: u in tokens && v in tokens && u != v ==> tokens[u] != tokens[v])
    }

    constructor ()
      ensures Valid()
      ensures users == [] && codes == [] && profiles == map[] && tokens == map[]
    {
      users, codes, profiles, tokens := [], [], map[], map[];
    }

    /** `User.objects.create(...)`: a new row, written through `User.save`. */
    method CreateUser(u: User) returns (id: nat)
      requires Valid()
      modifies this`users
      ensures Valid()
      ensures id == |old(users)| && users == old(users) + [Saved(u)]
    {
      id := |users|;
      users := users + [Saved(u)];
    }

    /** `user.save()` for an instance loaded from row `id`. */
    method SaveUser(id: nat, u: User)
      requires Valid()
      requires id < |users|
      modifies this`users
      ensures Valid()
      ensures users == old(users)[id := Saved(u)]
    {
      users := users[id := Saved(u)];
    }

    /** `VerifyCode.generate(value, is_email, is_phone, expire_at, code)`. */
    method GenerateVerifyCode(cfg: Config, value: string, isEmail: bool, isPhone: bool,
                              expireAt: Option<int>, code: Option<string>, now: int)
      returns (r: Result<VerifyCode, Exception>)
      requires Valid()
      modifies this`codes
      ensures Valid()
      ensures r.Failure? ==> codes == old(codes)
      ensures r.Success? ==> codes == old(codes) + [r.value]
      ensures isEmail == isPhone ==> r == Failure(DjangoValidationError(MsgBothChannels))
      ensures isEmail != isPhone && code.Some? && |code.value| != cfg.verifyCodeLength ==>
                r == Failure(DjangoValidationError(MsgCodeLength(cfg)))
      ensures isEmail != isPhone && (code.None? || |code.value| == cfg.verifyCodeLength) ==>
                (r.Success? <==> !HasValue(old(codes), value)) &&
                (r.Failure? ==> r.error == IntegrityError)
      ensures r.Success? ==>
                && r.value.value == value
                && r.value.isEmail == isEmail && r.value.isPhone == isPhone
                && r.value.expireAt == (if expireAt.Some? then expireAt.value else DefaultExpiry(cfg, now))
                && (code.Some? ==> r.value.code == code.value)
                && (code.None? ==> IsGeneratedCode(cfg, r.value.code))
    {
      if isEmail == isPhone {
        return Failure(DjangoValidationError(MsgBothChannels));
      }
      var c: string;
      if code.None? {
        c := GenerateCode(cfg);
      } else if |code.value| != cfg.verifyCodeLength {
        return Failure(DjangoValidationError(MsgCodeLength(cfg)));
      } else {
        c := code.value;
      }
      var expiry := if expireAt.None? then DefaultExpiry(cfg, now) else expireAt.value;
      // objects.create: the unique index on `value` refuses a second row
      if HasValue(codes, value) {
        return Failure(IntegrityError);
      }
      var row := VerifyCode(value, c, isEmail, isPhone, expiry);
      codes := codes + [row];
      r := Success(row);
    }

    /** `Profile._get_an_invite_code()`: draw codes until one is not taken.
        The source retries without bound; here at most `attempts` draws are
        made, and None means the loop would still be retrying. */
    method GetAnInviteCode(attempts: nat) returns (code: Option<string>)
      ensures code.Some? ==> |code.value| == AccountsUtils.InviteCodeLength <= InviteCodeColumnWidth
      ensures code.Some? ==> forall i :: 0 <= i < |code.value| ==> code.value[i] in AccountsUtils.CharacterPool
      ensures code.Some? ==> !InviteCodeTaken(profiles, code.value)
    {
      var tried := 0;
      while tried < attempts
      {
        var c := AccountsUtils.GenerateInviteCode();
        tried := tried + 1;
        if InviteCodeTaken(profiles, c) {
          continue;
        }
        return Some(c);
      }
      return None;
    }

    /** `Profile.save()` of the instance `p` with primary key `pk`: an empty
        invite code is first replaced by a free one, then the row is written
        (inserted or updated), unless a constraint of the table refuses it. */
    method SaveProfile(pk: nat, p: Profile, attempts: nat) returns (r: Result<Profile, ProfileSaveError>)
      requires Valid()
      modifies this`profiles
      ensures Valid()
      ensures r.Failure? ==> profiles == old(profiles)
      ensures r.Success? ==> profiles == old(profiles)[pk := r.value]
      ensures r.Success? ==> r.value.userId == p.userId && r.value.about == p.about
      ensures p.inviteCode != "" ==>
                && (r.Success? <==> !ProfileConflicts(old(profiles), |users|, pk, p))
                && (r.Success? ==> r.value == p)
                && (r.Failure? ==> r.error == Raised(IntegrityError))
      ensures p.inviteCode == "" && r.Success? ==>
                && |r.value.inviteCode| == AccountsUtils.InviteCodeLength
                && (forall i :: 0 <= i < |r.value.inviteCode| ==> r.value.inviteCode[i] in AccountsUtils.CharacterPool)
                && !InviteCodeTaken(old(profiles), r.value.inviteCode)
      ensures p.inviteCode == "" && r != Failure(StillRetrying) ==>
                && (r.Success? <==>
                      && p.userId < |users|
                      && forall q :: q in old(profiles) && q != pk ==> old(profiles)[q].userId != p.userId)
                && (r.Failure? ==> r.error == Raised(IntegrityError))
      ensures r.Success? ==>
                && |r.value.inviteCode| > 0
                && forall q :: q in old(profiles) && q != pk ==> old(profiles)[q].inviteCode != r.value.inviteCode
    {
      var saved := p;
      if p.inviteCode == "" {
        var code := GetAnInviteCode(attempts);
        if code.None? {
          return Failure(StillRetrying);
        }
        saved := p.(inviteCode := code.value);
      }
      if ProfileConflicts(profiles, |users|, pk, saved) {
        return Failure(Raised(IntegrityError));
      }
      profiles := profiles[pk := saved];
      r := Success(saved);
    }

    /** `Token.objects.get_or_create(user=user)`: the user's token, or a new
        one with a random 40-hex-digit key. A key that is already another
        user's breaks the primary key of the token table. */
    method GetOrCreateToken(userId: nat) returns (r: Result<string, Exception>)
      requires Valid()
      requires userId < |users|
      modifies this`tokens
      ensures Valid()
      ensures userId in old(tokens) ==> r == Success(old(tokens)[userId]) && tokens == old(tokens)
      ensures userId !in old(tokens) && r.Success? ==>
                tokens == old(tokens)[userId := r.value] && r.value !in old(tokens).Values && |r.value| == TokenKeyLength
      ensures r.Failure? ==> r.error == IntegrityError && tokens == old(tokens) && old(tokens) != map[]
    {
      if userId in tokens {
        return Success(tokens[userId]);
      }
      var key := Random.Choices(HexDigits, TokenKeyLength);
      if key in tokens.Values {
        return Failure(IntegrityError);
      }
      tokens := tokens[userId := key];
      r := Success(key);
    }
  }

  /** authtoken's key: `binascii.hexlify(os.urandom(20))`. */
  const HexDigits: string := "0123456789abcdef"
  const TokenKeyLength: nat := 40
}
