/** The sign-up screen: the form schema, the avatar picker and the submit
    handler. The schema's two regular expressions are modelled as the
    matchers a regular-expression engine runs for them. */
module SignUpScreen {
  import opened Common
  import opened Domain

  // ---------------------------------------------------------------------
  // Telephone: /^\d{11}$/

  /** Matches exactly `n` ASCII digits and then the end of the input. */
  predicate MatchesDigits(t: string, n: nat)
    decreases n
  {
    if n == 0 then t == ""
    else |t| > 0 && IsAsciiDigit(t[0]) && MatchesDigits(t[1..], n - 1)
  }

  predicate TelephoneMatches(t: string) {
    MatchesDigits(t, 11)
  }

  /** Exactly eleven characters, every one an ASCII digit. */
  predicate ElevenDigits(t: string) {
    |t| == 11 && forall i :: 0 <= i < |t| ==> IsAsciiDigit(t[i])
  }

  lemma {:induction false} MatchesDigitsIff(t: string, n: nat)
    ensures MatchesDigits(t, n) <==> |t| == n && forall i :: 0 <= i < |t| ==> IsAsciiDigit(t[i])
    decreases n
  {
    if n > 0 && |t| > 0 {
      MatchesDigitsIff(t[1..], n - 1);
      if IsAsciiDigit(t[0]) && (forall i :: 0 <= i < |t[1..]| ==> IsAsciiDigit(t[1..][i])) {
        assert forall i :: 0 <= i < |t| ==> IsAsciiDigit(t[i]) by {
          forall i | 0 <= i < |t| ensures IsAsciiDigit(t[i]) {
            if i > 0 { assert t[i] == t[1..][i - 1]; }
          }
        }
      }
    }
  }

  /** The telephone rule accepts exactly the strings of eleven ASCII digits. */
  lemma TelephoneRule(t: string)
    ensures TelephoneMatches(t) <==> ElevenDigits(t)
  {
    MatchesDigitsIff(t, 11);
  }

  // ---------------------------------------------------------------------
  // Password: /^(?=.*[a-z])(?=.*[A-Z])(?=.*[0-9])(?=.*[!@#\$%\^&\*])/

  datatype CharClass = LowerLetter | UpperLetter | Digit | Special

  predicate InClass(ch: char, cls: CharClass) {
    match cls
    case LowerLetter => IsAsciiLower(ch)
    case UpperLetter => IsAsciiUpper(ch)
    case Digit => IsAsciiDigit(ch)
    case Special => ch in "!@#$%^&*"
  }

  /** The characters `.` does not match. */
  predicate IsLineTerminator(ch: char) {
    ch == '\n' || ch == '\r' || ch == '\U{2028}' || ch == '\U{2029}'
  }

  /** The lookahead `(?=.*[cls])` at the start of `s`: skip characters other
      than line terminators until one of the class is found. */
  predicate Lookahead(s: string, cls: CharClass)
    decreases |s|
  {
    if |s| == 0 then false
    else if InClass(s[0], cls) then true
    else if IsLineTerminator(s[0]) then false
    else Lookahead(s[1..], cls)
  }

  /** Some character of the class occurs before the first line terminator. */
  predicate OccursInFirstLine(s: string, cls: CharClass) {
    exists i :: 0 <= i < |s| && InClass(s[i], cls) && forall j :: 0 <= j < i ==> !IsLineTerminator(s[j])
  }

  lemma {:induction false} LookaheadIff(s: string, cls: CharClass)
    ensures Lookahead(s, cls) <==> OccursInFirstLine(s, cls)
    decreases |s|
  {
    if |s| > 0 && !InClass(s[0], cls) && !IsLineTerminator(s[0]) {
      LookaheadIff(s[1..], cls);
      if OccursInFirstLine(s[1..], cls) {
        var i :| 0 <= i < |s[1..]| && InClass(s[1..][i], cls) && forall j :: 0 <= j < i ==> !IsLineTerminator(s[1..][j]);
        assert forall j :: 0 <= j < i + 1 ==> !IsLineTerminator(s[j]) by {
          forall j | 0 <= j < i + 1 ensures !IsLineTerminator(s[j]) {
            if j > 0 { assert s[j] == s[1..][j - 1]; }
          }
        }
        assert InClass(s[i + 1], cls);
      }
      if OccursInFirstLine(s, cls) {
        var i :| 0 <= i < |s| && InClass(s[i], cls) && forall j :: 0 <= j < i ==> !IsLineTerminator(s[j]);
        assert i > 0;
        assert InClass(s[1..][i - 1], cls);
        assert forall j :: 0 <= j < i - 1 ==> !IsLineTerminator(s[1..][j]) by {
          forall j | 0 <= j < i - 1 ensures !IsLineTerminator(s[1..][j]) {
            assert s[1..][j] == s[j + 1];
          }
        }
      }
    } else if |s| > 0 && InClass(s[0], cls) {
      assert OccursInFirstLine(s, cls) by {
        assert InClass(s[0], cls);
      }
    }
  }

  /** For a single-line password the lookahead is plain membership. */
  lemma LookaheadSingleLine(s: string, cls: CharClass)
    requires forall j :: 0 <= j < |s| ==> !IsLineTerminator(s[j])
    ensures Lookahead(s, cls) <==> exists i :: 0 <= i < |s| && InClass(s[i], cls)
  {
    LookaheadIff(s, cls);
  }

  predicate PasswordMatches(p: string) {
    && Lookahead(p, LowerLetter)
    && Lookahead(p, UpperLetter)
    && Lookahead(p, Digit)
    && Lookahead(p, Special)
  }

  /** Length between 6 and 20 UTF-16 code units and one character of each
      class in the first line. The pattern has no `u` flag, so it reads code
      units; a character outside the Basic Multilingual Plane is two units,
      neither of them a line terminator nor in any class, so reading whole
      characters instead finds the same classes in the same first line. */
  predicate StrongPassword(p: string) {
    && 6 <= Utf16Length(p) <= 20
    && OccursInFirstLine(p, LowerLetter)
    && OccursInFirstLine(p, UpperLetter)
    && OccursInFirstLine(p, Digit)
    && OccursInFirstLine(p, Special)
  }

  // ---------------------------------------------------------------------
  // The schema

  datatype SignUpForm = SignUpForm(name: string, email: string, telephone: string, password: string, passwordConfirm: string)

  datatype SignUpField = NameField | EmailField | TelephoneField | PasswordField | ConfirmField

  /** One rule of `signUpSchema`, as the schema library evaluates it;
      `isEmail` stands for the library's e-mail pattern and `required`
      rejects the empty string. */
  predicate RulePasses(f: SignUpForm, isEmail: string -> bool, field: SignUpField) {
    match field
    case NameField => Truthy(f.name)
    case EmailField => Truthy(f.email) && isEmail(f.email)
    case TelephoneField => Truthy(f.telephone) && TelephoneMatches(f.telephone)
    case PasswordField => Truthy(f.password) && 6 <= Utf16Length(f.password) <= 20 && PasswordMatches(f.password)
    case ConfirmField => Truthy(f.passwordConfirm) && f.passwordConfirm == f.password
  }

  /** What each rule accepts, stated without the matchers. */
  lemma RulePassesIff(f: SignUpForm, isEmail: string -> bool, field: SignUpField)
    ensures field == TelephoneField ==> (RulePasses(f, isEmail, field) <==> ElevenDigits(f.telephone))
    ensures field == PasswordField ==> (RulePasses(f, isEmail, field) <==> StrongPassword(f.password))
  {
    if field == TelephoneField {
      TelephoneRule(f.telephone);
    } else if field == PasswordField {
      LookaheadIff(f.password, LowerLetter);
      LookaheadIff(f.password, UpperLetter);
      LookaheadIff(f.password, Digit);
      LookaheadIff(f.password, Special);
    }
  }

  const AllFields: set<SignUpField> := {NameField, EmailField, TelephoneField, PasswordField, ConfirmField}

  /** `signUpSchema`: the set of fields whose rule fails. */
  function SignUpErrors(f: SignUpForm, isEmail: string -> bool): (r: set<SignUpField>)
    ensures forall field :: field in r <==> !RulePasses(f, isEmail, field)
  {
    set field | field in AllFields && !RulePasses(f, isEmail, field)
  }

  /** A form passes the schema exactly when every field satisfies its rule
      stated in plain terms. */
  lemma SignUpErrorsEmptyIff(f: SignUpForm, isEmail: string -> bool)
    ensures SignUpErrors(f, isEmail) == {} <==>
      && f.name != ""
      && f.email != "" && isEmail(f.email)
      && ElevenDigits(f.telephone)
      && StrongPassword(f.password)
      && f.passwordConfirm != "" && f.passwordConfirm == f.password
  {
    RulePassesIff(f, isEmail, TelephoneField);
    RulePassesIff(f, isEmail, PasswordField);
    var r := SignUpErrors(f, isEmail);
    if r == {} {
      assert NameField !in r && EmailField !in r && TelephoneField !in r && PasswordField !in r && ConfirmField !in r;
    }
  }

  // ---------------------------------------------------------------------
  // The avatar picker

  datatype Pick = Canceled | Picked(asset: PickedAsset) | PickFailed

  datatype AvatarFile = AvatarFile(name: string, uri: string, mediaType: string)

  datatype AvatarState = AvatarState(photo: Option<AvatarFile>, defined: bool, loading: bool)

  datatype Notice = NoNotice | TooLargeToast | PickFailedAlert | PhotoRequiredToast | CreatedToast | FailedToast

  /** The avatar file built for `uri`: `date` is the locale date string,
      whose slashes are dropped. */
  function AvatarFileFor(asset: PickedAsset, date: string): AvatarFile {
    var ext := AfterLast(asset.uri, '.');
    AvatarFile(ToLower("avatar" + RemoveAll(date, '/') + "." + ext), asset.uri, asset.mediaType + "/" + ext)
  }

  /** The avatar name starts with "avatar" and ends with the lower-cased
      extension of the picked URI, after its last dot. */
  lemma AvatarNameExtension(asset: PickedAsset, date: string)
    ensures var name := AvatarFileFor(asset, date).name;
      && name[..6] == "avatar"
      && AfterLast(name, '.') == ToLower(AfterLast(asset.uri, '.'))
  {
    var ext := AfterLast(asset.uri, '.');
    var prefix := "avatar" + RemoveAll(date, '/') + ".";
    assert prefix[..6] == "avatar";
    AvatarNameSplits(prefix, ext);
  }

  lemma AvatarNameSplits(prefix: string, ext: string)
    requires |prefix| >= 6 && prefix[..6] == "avatar" && prefix[|prefix| - 1] == '.'
    requires '.' !in ext
    ensures ToLower(prefix + ext)[..6] == "avatar"
    ensures AfterLast(ToLower(prefix + ext), '.') == ToLower(ext)
  {
    ToLowerConcat(prefix, ext);
    var lowPrefix := ToLower(prefix);
    LowerKeepsAvatarPrefix(prefix);
    assert (lowPrefix + ToLower(ext))[..6] == lowPrefix[..6];
    LowerDottedName(lowPrefix, ext);
  }

  /** A lower-cased prefix ending in a dot, followed by a lower-cased
      extension, splits back at that dot. */
  lemma LowerDottedName(lowPrefix: string, ext: string)
    requires |lowPrefix| > 0 && lowPrefix[|lowPrefix| - 1] == '.'
    requires '.' !in ext
    ensures AfterLast(lowPrefix + ToLower(ext), '.') == ToLower(ext)
  {
    var name := lowPrefix + ToLower(ext);
    ToLowerKeepsNonLetters(ext, '.');
    assert name[|name| - |ToLower(ext)|..] == ToLower(ext);
    AfterLastUnique(name, '.', ToLower(ext));
  }

  lemma LowerKeepsAvatarPrefix(prefix: string)
    requires |prefix| >= 6 && prefix[..6] == "avatar"
    ensures |ToLower(prefix)| >= 6 && ToLower(prefix)[..6] == "avatar"
    ensures prefix[|prefix| - 1] == '.' ==> ToLower(prefix)[|prefix| - 1] == '.'
  {
    assert forall k :: 0 <= k < 6 ==> prefix[k] == "avatar"[k];
  }

  /** `handleSubmitProfilePicture`. The file-info call is awaited inside
      the `try`, so its rejection gives the same alert as a failed pick. */
  function PickAvatar(s: AvatarState, pick: Pick, date: string): (r: (AvatarState, Notice))
    ensures !r.0.loading
    ensures r.1 == TooLargeToast <==>
      pick.Picked? && Truthy(pick.asset.uri) && pick.asset.infoRead && TooLarge(pick.asset.size)
    ensures r.1 == PickFailedAlert <==>
      pick.PickFailed? || (pick.Picked? && Truthy(pick.asset.uri) && !pick.asset.infoRead)
    ensures pick.Canceled? || (pick.Picked? && !Truthy(pick.asset.uri)) ==> r.1 == NoNotice
    ensures (pick.Picked? && Truthy(pick.asset.uri) && pick.asset.infoRead && !TooLarge(pick.asset.size)) ==>
      r.0.defined && r.0.photo == Some(AvatarFileFor(pick.asset, date))
    ensures !(pick.Picked? && Truthy(pick.asset.uri) && pick.asset.infoRead && !TooLarge(pick.asset.size)) ==>
      r.0.defined == s.defined && r.0.photo == s.photo
  {
    match pick
    case Canceled => (s.(loading := false), NoNotice)
    case PickFailed => (s.(loading := false), PickFailedAlert)
    case Picked(asset) =>
      if !Truthy(asset.uri) then (s.(loading := false), NoNotice)
      else if !asset.infoRead then (s.(loading := false), PickFailedAlert)
      else if TooLarge(asset.size) then (s.(loading := false), TooLargeToast)
      else (AvatarState(Some(AvatarFileFor(asset, date)), true, false), NoNotice)
  }

  /** The picker keeps "an avatar is defined" and "a photo is held" in step. */
  lemma PickAvatarKeepsInvariant(s: AvatarState, pick: Pick, date: string)
    requires s.defined <==> s.photo.Some?
    ensures var t := PickAvatar(s, pick, date).0; t.defined <==> t.photo.Some?
  {
  }

  // ---------------------------------------------------------------------
  // Submitting

  /** The multipart body of `POST /users`. */
  datatype CreateUserRequest = CreateUserRequest(avatar: Option<AvatarFile>, name: string, email: string, tel: string, password: string)

  datatype SubmitResult = SubmitResult(
    errors: set<SignUpField>,
    request: Option<CreateUserRequest>,
    navigateToSignIn: bool,
    notice: Notice)

  /** `handleSubmit(handleCreateAccountSubmit)`: the schema runs first; the
      account is created only for a valid form with an avatar. */
  function SubmitSignUp(f: SignUpForm, isEmail: string -> bool, avatar: AvatarState, reply: Reply<()>): (r: SubmitResult)
    ensures r.errors == SignUpErrors(f, isEmail)
    ensures r.request.Some? <==> r.errors == {} && avatar.defined
    ensures r.request.Some? ==>
      r.request.value == CreateUserRequest(avatar.photo, f.name, f.email, f.telephone, f.password)
    ensures r.navigateToSignIn <==> r.request.Some? && reply.Ok?
    ensures r.errors == {} && !avatar.defined ==> r.notice == PhotoRequiredToast
  {
    var errors := SignUpErrors(f, isEmail);
    if errors != {} then SubmitResult(errors, None, false, NoNotice)
    else if !avatar.defined then SubmitResult(errors, None, false, PhotoRequiredToast)
    else
      var request := CreateUserRequest(avatar.photo, f.name, f.email, f.telephone, f.password);
      match reply
      case Ok(_) => SubmitResult(errors, Some(request), true, CreatedToast)
      case Rejected => SubmitResult(errors, Some(request), false, FailedToast)
  }

  /** An account is only ever created from a form that satisfies every rule:
      eleven-digit telephone, a strong password, a matching confirmation. */
  lemma CreatedAccountsAreValid(f: SignUpForm, isEmail: string -> bool, avatar: AvatarState, reply: Reply<()>)
    requires SubmitSignUp(f, isEmail, avatar, reply).request.Some?
    ensures f.name != "" && f.email != "" && isEmail(f.email)
    ensures ElevenDigits(f.telephone)
    ensures 6 <= Utf16Length(f.password) <= 20
    ensures exists i :: 0 <= i < |f.password| && IsAsciiUpper(f.password[i])
    ensures exists i :: 0 <= i < |f.password| && IsAsciiLower(f.password[i])
    ensures exists i :: 0 <= i < |f.password| && IsAsciiDigit(f.password[i])
    ensures exists i :: 0 <= i < |f.password| && f.password[i] in "!@#$%^&*"
    ensures f.passwordConfirm == f.password
  {
    SignUpErrorsEmptyIff(f, isEmail);
    var i0 :| 0 <= i0 < |f.password| && InClass(f.password[i0], UpperLetter) && forall j :: 0 <= j < i0 ==> !IsLineTerminator(f.password[j]);
    var i1 :| 0 <= i1 < |f.password| && InClass(f.password[i1], LowerLetter) && forall j :: 0 <= j < i1 ==> !IsLineTerminator(f.password[j]);
    var i2 :| 0 <= i2 < |f.password| && InClass(f.password[i2], Digit) && forall j :: 0 <= j < i2 ==> !IsLineTerminator(f.password[j]);
    var i3 :| 0 <= i3 < |f.password| && InClass(f.password[i3], Special) && forall j :: 0 <= j < i3 ==> !IsLineTerminator(f.password[j]);
  }

  /** Length is counted in UTF-16 code units: four ASCII characters and one
      emoji are six units, long enough for the rule. */
  lemma EmojiPasswordIsLongEnough()
    ensures StrongPassword("Aa1!\U{1F600}")
  {
    var p := "Aa1!\U{1F600}";
    EmojiCountsTwice();
    assert InClass(p[0], UpperLetter) && InClass(p[1], LowerLetter);
    assert InClass(p[2], Digit) && InClass(p[3], Special);
  }

  /** A password whose only lower-case letter follows a line break fails the
      rule even though it holds one character of each class. */
  lemma LineBreakHidesClass()
    ensures !StrongPassword("ABC12!\nx")
    ensures exists i :: 0 <= i < |"ABC12!\nx"| && IsAsciiLower("ABC12!\nx"[i])
  {
    var p := "ABC12!\nx";
    assert IsAsciiLower(p[7]);
    assert !Lookahead(p, LowerLetter);
    LookaheadIff(p, LowerLetter);
  }
}
