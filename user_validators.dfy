/**
 * The field checks of User/validators.py and their bounds: a user name must
 * not start or end with whitespace and must not be empty, a password must be
 * long enough, and the offline-notification interval must not be too small.
 */
module UserValidators {
  import opened Errors

  const OfflineMinInterval: int := 5
  const PasswordMinLength: int := 6
  const PasswordMaxLength: int := 64
  const SaltMaxLength: int := 32
  const NameMaxLength: int := 20

  /** The characters Python's `str.strip()` removes (those for which `str.isspace()` holds). */
  predicate IsSpace(c: char)
  {
    c == ' ' || ('\t' <= c <= '\r') || ('\U{1C}' <= c <= '\U{1F}') || c == '\U{85}' || c == '\U{A0}'
    || c == '\U{1680}' || ('\U{2000}' <= c <= '\U{200A}') || c == '\U{2028}' || c == '\U{2029}'
    || c == '\U{202F}' || c == '\U{205F}' || c == '\U{3000}'
  }

  function LStrip(s: string): (r: string)
    ensures |r| <= |s|
    ensures r == s <==> s == "" || !IsSpace(s[0])
  {
    if s != "" && IsSpace(s[0]) then LStrip(s[1..]) else s
  }

  function RStrip(s: string): (r: string)
    ensures |r| <= |s|
    ensures r == s <==> s == "" || !IsSpace(s[|s| - 1])
  {
    if s != "" && IsSpace(s[|s| - 1]) then RStrip(s[..|s| - 1]) else s
  }

  /** `str.strip()`. */
  function Strip(s: string): string
  {
    LStrip(RStrip(s))
  }

  /** A string is its own strip exactly when it neither starts nor ends with whitespace. */
  lemma StripUnchanged(s: string)
    ensures Strip(s) == s <==> s == "" || (!IsSpace(s[0]) && !IsSpace(s[|s| - 1]))
  {
  }

  /**
   * `BaseUserValidator.name`: whitespace at either end fails `SPACE_IN_NAME`
   * (checked first, so a whitespace-only name fails that too), and only the
   * empty name fails `EMPTY_NAME`; spaces inside a name are fine.
   */
  function ValidateName(value: string): (r: Result<()>)
    ensures r.Err? && r.error == Raise(SpaceInName) <==>
              value != "" && (IsSpace(value[0]) || IsSpace(value[|value| - 1]))
    ensures r.Err? && r.error == Raise(EmptyName) <==> value == ""
    ensures r.Ok? <==> value != "" && !IsSpace(value[0]) && !IsSpace(value[|value| - 1])
    ensures !r.Uncaught?
  {
    StripUnchanged(value);
    if Strip(value) != value then Err(Raise(SpaceInName))
    else if value == "" then Err(Raise(EmptyName))
    else Ok(())
  }

  /** A name made of whitespace only is reported as containing spaces, not as empty. */
  lemma WhitespaceOnlyName(value: string)
    requires value != ""
    requires forall i :: 0 <= i < |value| ==> IsSpace(value[i])
    ensures ValidateName(value) == Err(Raise(SpaceInName))
  {
  }

  /**
   * `BaseUserValidator.offline_notification_interval`: anything below 5 fails
   * `INTERVAL_TOO_SMALL(offline_interval=5)`; 5 itself is accepted.
   */
  function ValidateInterval(value: int): (r: Result<()>)
    ensures r.Ok? <==> value >= 5
    ensures !r.Ok? ==> r == Err(Raise(IntervalTooSmall(5)))
  {
    if value < OfflineMinInterval then Err(Raise(IntervalTooSmall(OfflineMinInterval))) else Ok(())
  }

  /**
   * `BaseUserValidator.password`: fewer than 6 characters fail
   * `PASSWORD_TOO_SHORT(password_length=6)`; no upper bound is checked here.
   */
  function ValidatePassword(value: string): (r: Result<()>)
    ensures r.Ok? <==> |value| >= 6
    ensures !r.Ok? ==> r == Err(Raise(PasswordTooShort(6)))
  {
    if |value| < PasswordMinLength then Err(Raise(PasswordTooShort(PasswordMinLength))) else Ok(())
  }

  predicate IsUserError(t: Template)
  {
    t.UserNotExists? || t.UserExists? || t.EmptyName? || t.IntervalTooSmall? || t.PasswordTooShort?
    || t.PasswordError? || t.SpaceInName?
  }

  /** `NOT_EXISTS` is the one `UserErrors` entry carrying `NotFound`; all others carry `BadRequest`. */
  lemma UserErrorCodes(t: Template)
    requires IsUserError(t)
    ensures Raise(t).code == NotFound <==> t.UserNotExists?
    ensures !t.UserNotExists? ==> Raise(t).code == BadRequest
  {
  }
}
