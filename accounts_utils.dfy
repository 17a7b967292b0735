/** cvgezgini/apps/accounts/utils.py: invite codes and the e-mail stub. */
module AccountsUtils {

  import opened Wrappers
  import opened Exceptions
  import Random

  /** `string.ascii_uppercase` */
  const AsciiUppercase: string := seq(26, i requires 0 <= i < 26 => ('A' as int + i) as char)

  /** `string.digits` */
  const Digits: string := seq(10, i requires 0 <= i < 10 => ('0' as int + i) as char)

  /** `CHARACTER_POOL = ascii_uppercase + digits` */
  const CharacterPool: string := AsciiUppercase + Digits

  const InviteCodeLength: nat := 6

  /** The pool is exactly the upper-case letters and the decimal digits. */
  lemma CharacterPoolIsUpperAndDigits(c: char)
    ensures c in CharacterPool <==> ('A' <= c <= 'Z' || '0' <= c <= '9')
  {
    if 'A' <= c <= 'Z' {
      assert CharacterPool[c as int - 'A' as int] == c;
    } else if '0' <= c <= '9' {
      assert CharacterPool[26 + c as int - '0' as int] == c;
    }
  }

  /** `generate_invite_code()`: six random characters of the pool. */
  method GenerateInviteCode() returns (code: string)
    ensures |code| == InviteCodeLength
    ensures forall i :: 0 <= i < |code| ==> code[i] in CharacterPool
    ensures forall i :: 0 <= i < |code| ==> 'A' <= code[i] <= 'Z' || '0' <= code[i] <= '9'
  {
    code := Random.Choices(CharacterPool, InviteCodeLength);
    forall i | 0 <= i < |code|
      ensures 'A' <= code[i] <= 'Z' || '0' <= code[i] <= '9'
    {
      CharacterPoolIsUpperAndDigits(code[i]);
    }
  }

  /**
   * `send_email()` declares no parameters and does nothing. A call that
   * passes any argument fails with TypeError before the body runs.
   */
  function SendEmail(arguments: seq<string>): (raised: Option<Exception>)
    ensures raised.None? <==> arguments == []
    ensures raised.Some? ==> raised.value == TypeError
  {
    if arguments == [] then None else Some(TypeError)
  }
}
