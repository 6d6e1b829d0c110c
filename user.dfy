/**
 * The user entity of models/user.go: username rules, ordered validation, and the
 * normalisation applied before saving.
 *
 * E-mail address parsing (`net/mail.ParseAddress`) and `utils.IsLower` are not part
 * of this model; they are passed in as `MailOracles`.
 */
module Users {
  import opened Wrappers
  import opened GoTypes
  import opened Strings
  import opened Validation

  /** Names reserved by the system or for special mentions. */
  const RestrictedUsernames: seq<string> := ["all", "channel", "popcubebot", "here"]

  const UsernameMaxLength: nat := 64
  const EmailMaxLength: nat := 128
  const NameMaxRunes: nat := 64

  const Location: string := "user.IsValid"
  const EmailError: AppError := AppError(Location, "model.user.is_valid.Email.app_error", "")
  const UsernameError: AppError := AppError(Location, "model.user.is_valid.Username.app_error", "")
  const NickNameError: AppError := AppError(Location, "model.user.is_valid.NickName.app_error", "")
  const FirstNameError: AppError := AppError(Location, "model.user.is_valid.first_name.app_error", "")
  const LastNameError: AppError := AppError(Location, "model.user.is_valid.last_name.app_error", "")

  /** The characters of the class `[a-z0-9\.\-_]`. */
  predicate IsUsernameChar(c: char) {
    IsLowerLetter(c) || IsDigit(c) || c == '.' || c == '-' || c == '_'
  }

  /** The pattern `^[a-z0-9\.\-_]+$`. */
  predicate MatchesUsernamePattern(s: string) {
    |s| > 0 && forall i :: 0 <= i < |s| ==> IsUsernameChar(s[i])
  }

  /**
   * `IsValidUsername`: 1 to 64 bytes long, only characters of `[a-z0-9._-]`, and not
   * a restricted name. Since every accepted character is ASCII, bytes and characters agree.
   */
  function IsValidUsername(s: string): (r: bool)
    ensures r <==>
      && 1 <= |s| <= UsernameMaxLength
      && (forall i :: 0 <= i < |s| ==> IsUsernameChar(s[i]))
      && s !in RestrictedUsernames
  {
    ByteLenBounds(s);
    if ByteLen(s) == 0 || ByteLen(s) > UsernameMaxLength then false
    else if !MatchesUsernamePattern(s) then false
    else s !in RestrictedUsernames
  }

  /** A username holding an upper-case letter or a non-ASCII character is rejected. */
  lemma UpperOrNonAsciiUsernameRejected(s: string, i: nat)
    requires i < |s| && (IsUpperLetter(s[i]) || !IsAscii(s[i]))
    ensures !IsValidUsername(s)
  {
  }

  /** A valid username is already lower case, so lower-casing it changes nothing. */
  lemma ValidUsernameIsLowerCase(s: string)
    requires IsValidUsername(s)
    ensures ToLower(s) == s
  {
    ToLowerFixesLowerStrings(s);
  }

  /** The e-mail helpers the source calls into: `mail.ParseAddress` succeeding, and `utils.IsLower`. */
  datatype MailOracles = MailOracles(parsesAsAddress: string -> bool, isLower: string -> bool)

  /** `IsValidEmail`: the address parses and is lower case. */
  predicate IsValidEmail(email: string, mail: MailOracles) {
    mail.parsesAsAddress(email) && mail.isLower(email)
  }

  /** A `User` record; `PreSave` updates it in place through its pointer receiver. */
  class User {
    var idUser: uint64
    var username: string
    var email: string
    var emailVerified: bool
    var deleted: bool
    var avatar: string
    var nickName: string
    var firstName: string
    var lastName: string
    var idOrganisation: uint64

    /** The checks of `IsValid`, in the order the source runs them. */
    function Checks(isUpdate: bool, mail: MailOracles): seq<Check>
      reads this
    {
      [ Check(!isUpdate && email == "", EmailError),
        Check(!IsValidUsername(username), UsernameError),
        Check(ByteLen(email) > EmailMaxLength || !IsValidEmail(email, mail), EmailError),
        Check(|nickName| > NameMaxRunes, NickNameError),
        Check(|firstName| > NameMaxRunes, FirstNameError),
        Check(|lastName| > NameMaxRunes, LastNameError) ]
    }

    /** `IsValid`: the error of the first check that fails, or none. */
    function IsValid(isUpdate: bool, mail: MailOracles): (r: Option<AppError>)
      reads this
      ensures r == FirstFailure(Checks(isUpdate, mail))
    {
      var checks := Checks(isUpdate, mail);
      if !isUpdate && email == "" then
        assert FailsFirstAt(checks, 0); Some(EmailError)
      else if !IsValidUsername(username) then
        assert FailsFirstAt(checks, 1); Some(UsernameError)
      else if ByteLen(email) > EmailMaxLength || !IsValidEmail(email, mail) then
        assert FailsFirstAt(checks, 2); Some(EmailError)
      else if |nickName| > NameMaxRunes then
        assert FailsFirstAt(checks, 3); Some(NickNameError)
      else if |firstName| > NameMaxRunes then
        assert FailsFirstAt(checks, 4); Some(FirstNameError)
      else if |lastName| > NameMaxRunes then
        assert FailsFirstAt(checks, 5); Some(LastNameError)
      else None
    }

    /**
     * `PreSave`: lower-cases the username and the e-mail and changes nothing else.
     * Afterwards both are lower case, so a second call changes nothing.
     */
    method PreSave()
      modifies this
      ensures username == ToLower(old(username)) && email == ToLower(old(email))
      ensures HasNoUpper(username) && HasNoUpper(email)
      ensures ToLower(username) == username && ToLower(email) == email
      ensures idUser == old(idUser) && emailVerified == old(emailVerified) && deleted == old(deleted)
      ensures avatar == old(avatar) && nickName == old(nickName) && firstName == old(firstName)
      ensures lastName == old(lastName) && idOrganisation == old(idOrganisation)
    {
      username := ToLower(username);
      email := ToLower(email);
      ToLowerIdempotent(old(username));
      ToLowerIdempotent(old(email));
    }
  }

  /** A user accepted by `IsValid`, in either mode, respects every length limit and the username rules. */
  lemma {:induction false} AcceptedUserWithinLimits(u: User, isUpdate: bool, mail: MailOracles)
    requires u.IsValid(isUpdate, mail).None?
    ensures IsValidUsername(u.username) && IsValidEmail(u.email, mail)
    ensures ByteLen(u.email) <= EmailMaxLength && |u.email| <= EmailMaxLength
    ensures |u.nickName| <= NameMaxRunes && |u.firstName| <= NameMaxRunes && |u.lastName| <= NameMaxRunes
    ensures !isUpdate ==> u.email != ""
  {
    ByteLenBounds(u.email);
  }

  /** Update mode skips only the empty-e-mail check: for a non-empty e-mail both modes agree. */
  lemma UpdateSkipsOnlyEmptyEmailCheck(u: User, mail: MailOracles)
    ensures u.email != "" ==> u.IsValid(true, mail) == u.IsValid(false, mail)
    ensures u.email == "" ==> u.IsValid(false, mail) == Some(EmailError)
  {
  }

  /**
   * The e-mail check needs both halves of `IsValidEmail`: an address that does not parse,
   * or is not lower case, is reported once the username passes, and an accepted user's
   * address both parses and is lower case.
   */
  lemma EmailMustParseAndBeLowerCase(u: User, isUpdate: bool, mail: MailOracles)
    ensures u.IsValid(isUpdate, mail).None? ==> mail.parsesAsAddress(u.email) && mail.isLower(u.email)
    ensures (isUpdate || u.email != "") && IsValidUsername(u.username)
            && (!mail.parsesAsAddress(u.email) || !mail.isLower(u.email))
            ==> u.IsValid(isUpdate, mail) == Some(EmailError)
  {
  }

  /** The username is checked before the e-mail's length and syntax, which are checked before the names. */
  lemma UserChecksAreOrdered(u: User, isUpdate: bool, mail: MailOracles)
    requires isUpdate || u.email != ""
    ensures !IsValidUsername(u.username) ==> u.IsValid(isUpdate, mail) == Some(UsernameError)
    ensures IsValidUsername(u.username) && (ByteLen(u.email) > EmailMaxLength || !IsValidEmail(u.email, mail))
            ==> u.IsValid(isUpdate, mail) == Some(EmailError)
  {
  }
}
