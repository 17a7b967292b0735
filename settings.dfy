/**
 * The project settings the core reads, and the configurable collaborators it
 * calls (the password hasher, the password validators, the e-mail syntax
 * check). The settings module itself is not part of this model, so every value
 * is a parameter of the operations rather than a constant.
 */
module Settings {

  datatype Config = Config(
    verifyCodeLength: nat,          // VERIFY_CODE_LENGTH
    useFallbackCode: bool,          // USE_FALLBACK_CODE
    fallbackCode: string,           // VERIFICATION_CODE_FALLBACK
    codeExpireTime: int,            // VERIFICATION_CODE_EXPIRE_TIME, in seconds
    enableSendingEmail: bool,       // ENABLE_SENDING_EMAIL
    enableSendingSms: bool,         // ENABLE_SENDING_SMS
    digest: string -> string,       // the configured password hasher
    isStrong: string -> bool,       // AUTH_PASSWORD_VALIDATORS, as one verdict
    isEmailAddress: string -> bool  // Django's EmailValidator
  )
}
