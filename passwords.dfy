/**
 * Django's password handling, which the core calls but does not define:
 * `set_password`, `check_password` and `validate_password`. The hasher and the
 * validators are the configured functions of Settings.Config, so the model
 * assumes nothing about them beyond what is written here.
 */
module Passwords {

  import opened Settings

  /** The `password` column: a hash, or the unusable value a row gets when
      it is created without a password. It never holds the raw password. */
  datatype PasswordField = Unusable | Hashed(digest: string)

  /** `check_password(raw)`: hash the candidate and compare. */
  predicate CheckPassword(cfg: Config, field: PasswordField, raw: string) {
    field.Hashed? && field.digest == cfg.digest(raw)
  }

  /** `set_password(raw)`: the new value of the column. */
  function SetPassword(cfg: Config, raw: string): (field: PasswordField)
    ensures field.Hashed?
    ensures CheckPassword(cfg, field, raw)
    ensures forall other :: CheckPassword(cfg, field, other) <==> cfg.digest(other) == cfg.digest(raw)
  {
    Hashed(cfg.digest(raw))
  }

  /** `validate_password(raw)` does not raise. */
  predicate ValidatePassword(cfg: Config, raw: string) {
    cfg.isStrong(raw)
  }
}
