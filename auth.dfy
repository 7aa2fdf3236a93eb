/**
 * The login and signup pages' script (static/auth.js): the password-strength meter, the
 * "passwords match" check on the confirmation field, the checks run on submit, the single error
 * slot, and the show/hide toggle of a password field.
 */
module Auth {
  import opened Wrappers

  predicate HasLower(p: string) {
    exists i :: 0 <= i < |p| && 'a' <= p[i] <= 'z'
  }

  predicate HasUpper(p: string) {
    exists i :: 0 <= i < |p| && 'A' <= p[i] <= 'Z'
  }

  predicate HasDigit(p: string) {
    exists i :: 0 <= i < |p| && '0' <= p[i] <= '9'
  }

  predicate IsAsciiAlphanumeric(c: char) {
    'a' <= c <= 'z' || 'A' <= c <= 'Z' || '0' <= c <= '9'
  }

  /** `/[^A-Za-z0-9]/.test(password)`. */
  predicate HasOther(p: string) {
    exists i :: 0 <= i < |p| && !IsAsciiAlphanumeric(p[i])
  }

  /** How many UTF-16 code units a character takes: two for one outside the Basic Multilingual Plane. */
  function CodeUnits(c: char): nat {
    if c as int > 0xFFFF then 2 else 1
  }

  /**
   * JavaScript's `password.length`, which counts UTF-16 code units rather than characters: never
   * fewer than the characters, never more than twice as many, and zero only for the empty string.
   */
  function JsLength(p: string): (n: nat)
    ensures |p| <= n <= 2 * |p|
    ensures n == 0 <==> p == []
  {
    if p == [] then 0 else JsLength(p[..|p| - 1]) + CodeUnits(p[|p| - 1])
  }

  /** How many of the four character classes the password uses. */
  function ClassCount(p: string): nat {
    (if HasLower(p) then 1 else 0) + (if HasUpper(p) then 1 else 0)
    + (if HasDigit(p) then 1 else 0) + (if HasOther(p) then 1 else 0)
  }

  /** The meter's score in percent: 25 per length threshold, 12.5 per character class. */
  function StrengthScore(p: string): real {
    (if JsLength(p) >= 6 then 25.0 else 0.0) + (if JsLength(p) >= 8 then 25.0 else 0.0)
    + 12.5 * (ClassCount(p) as real)
  }

  datatype Strength = Weak | Medium | Strong

  function StrengthLabel(score: real): Strength {
    if score < 30.0 then Weak else if score < 60.0 then Medium else Strong
  }

  function StrengthOf(p: string): Strength {
    StrengthLabel(StrengthScore(p))
  }

  /** The text the meter shows for a label. */
  function LabelText(s: Strength): string {
    match s
    case Weak => "Weak"
    case Medium => "Medium"
    case Strong => "Strong"
  }

  /** The class the meter's fill gets for a label. */
  function LevelClass(s: Strength): string {
    match s
    case Weak => "weak"
    case Medium => "medium"
    case Strong => "strong"
  }

  const LevelClasses: set<string> := {"weak", "medium", "strong"}

  /** The score is a percentage: it never leaves [0, 100]. */
  lemma StrengthScoreIsPercentage(p: string)
    ensures 0.0 <= StrengthScore(p) <= 100.0
  {
    assert ClassCount(p) <= 4;
  }

  /** Every character falls in one of the four classes, so a non-empty password has at least one. */
  lemma NonEmptyHasAClass(p: string)
    requires p != []
    ensures ClassCount(p) >= 1
  {
    var c := p[0];
    if 'a' <= c <= 'z' {
      assert HasLower(p);
    } else if 'A' <= c <= 'Z' {
      assert HasUpper(p);
    } else if '0' <= c <= '9' {
      assert HasDigit(p);
    } else {
      assert !IsAsciiAlphanumeric(p[0]);
      assert HasOther(p);
    }
  }

  /** A password shorter than six code units scores at most 50, so it is never labelled Strong. */
  lemma ShortPasswordNeverStrong(p: string)
    requires JsLength(p) < 6
    ensures StrengthScore(p) <= 50.0
    ensures StrengthOf(p) != Strong
  {
    assert ClassCount(p) <= 4;
  }

  /**
   * What the label comes down to, lengths counted in code units: any password of eight units or
   * more is Strong, one of six or seven is Strong exactly when it uses three classes, and Weak
   * means fewer than six units from at most two classes.
   */
  lemma StrengthCharacterised(p: string)
    ensures StrengthOf(p) == Strong <==> JsLength(p) >= 8 || (JsLength(p) >= 6 && ClassCount(p) >= 3)
    ensures StrengthOf(p) == Weak <==> JsLength(p) < 6 && ClassCount(p) <= 2
  {
    if p != [] {
      NonEmptyHasAClass(p);
    }
    var n := ClassCount(p);
    assert n <= 4;
  }

  /**
   * Lengths are code units: two letters and three emoji are five characters but eight units, so
   * they make a Strong password.
   */
  lemma EmojiCountTwice()
    ensures JsLength("ab\U{1F600}\U{1F600}\U{1F600}") == 8
    ensures StrengthOf("ab\U{1F600}\U{1F600}\U{1F600}") == Strong
  {
    var p := "ab\U{1F600}\U{1F600}\U{1F600}";
    assert p[..4] == "ab\U{1F600}\U{1F600}" && p[..4][..3] == "ab\U{1F600}";
    assert p[..4][..3][..2] == "ab" && "ab"[..1] == "a" && "a"[..0] == [];
    assert JsLength("ab") == 2;
    StrengthCharacterised(p);
  }

  const MismatchMsg := "Passwords do not match"
  const TooShortMsg := "Password must be at least 6 characters long"
  const TermsMsg := "Please agree to the Terms of Service and Privacy Policy"

  /**
   * The message the submit checks leave on screen. Each failing check replaces the previous
   * message, so it is the last failing one: terms, then length, then the match.
   */
  function LastSignupError(password: string, confirm: string, termsChecked: bool): Option<string> {
    if !termsChecked then Some(TermsMsg)
    else if JsLength(password) < 6 then Some(TooShortMsg)
    else if password != confirm then Some(MismatchMsg)
    else None
  }

  /** An error box inserted under the form's subtitle. */
  datatype ErrorBox = ErrorBox(id: nat, message: string)

  class SignupPage {
    /** Whether the page has the strength meter (`strengthFill` and `strengthText`). */
    const hasMeter: bool
    /** Whether the page has the `.form-subtitle` the error box is inserted after. */
    const hasSubtitle: bool
    var meterWidth: real
    var meterClasses: set<string>
    var meterText: string
    /** The confirmation field's custom validity message ('' means valid) and border colour. */
    var confirmValidity: string
    var confirmBorder: string
    var errorBoxes: seq<ErrorBox>
    var nextBoxId: nat

    /** `showError` removes every box before inserting one: there is never more than one. */
    ghost predicate Valid()
      reads this
    {
      |errorBoxes| <= 1 && forall b :: b in errorBoxes ==> b.id < nextBoxId
    }

    constructor (hasMeter: bool, hasSubtitle: bool)
      ensures Valid() && this.hasMeter == hasMeter && this.hasSubtitle == hasSubtitle
      ensures errorBoxes == [] && confirmValidity == ""
    {
      this.hasMeter := hasMeter;
      this.hasSubtitle := hasSubtitle;
      meterWidth, meterClasses, meterText := 0.0, {"strength-fill"}, "";
      confirmValidity, confirmBorder := "", "#e2e8f0";
      errorBoxes, nextBoxId := [], 0;
    }

    /**
     * The password field's `input` handler: the score is added up step by step, the fill's
     * classes are reset and exactly one level class is added, and the label is written.
     */
    method CheckPasswordStrength(password: string)
      modifies this`meterWidth, this`meterClasses, this`meterText
      ensures !hasMeter ==> unchanged(this)
      ensures hasMeter ==> meterWidth == StrengthScore(password)
      ensures hasMeter ==> meterText == LabelText(StrengthOf(password))
      ensures hasMeter ==> meterClasses == {"strength-fill", LevelClass(StrengthOf(password))}
      ensures hasMeter ==> |meterClasses * LevelClasses| == 1
    {
      if !hasMeter {
        return;
      }
      var strength := 0.0;
      var length := JsLength(password);
      if length >= 6 { strength := strength + 25.0; }
      if length >= 8 { strength := strength + 25.0; }
      if HasLower(password) { strength := strength + 12.5; }
      if HasUpper(password) { strength := strength + 12.5; }
      if HasDigit(password) { strength := strength + 12.5; }
      if HasOther(password) { strength := strength + 12.5; }

      meterWidth := strength;
      meterClasses := {"strength-fill"};
      var level: Strength;
      if strength < 30.0 {
        level := Weak;
      } else if strength < 60.0 {
        level := Medium;
      } else {
        level := Strong;
      }
      meterClasses := meterClasses + {LevelClass(level)};
      meterText := LabelText(level);
      assert meterClasses * LevelClasses == {LevelClass(level)};
    }

    /** The confirmation field's `input` handler. */
    method ValidatePasswordMatch(password: string, confirm: string)
      modifies this`confirmValidity, this`confirmBorder
      ensures confirm != "" && password != confirm ==>
        confirmValidity == MismatchMsg && confirmBorder == "#f56565"
      ensures !(confirm != "" && password != confirm) ==>
        confirmValidity == "" && confirmBorder == "#e2e8f0"
    {
      if confirm != "" && password != confirm {
        confirmValidity := MismatchMsg;
        confirmBorder := "#f56565";
      } else {
        confirmValidity := "";
        confirmBorder := "#e2e8f0";
      }
    }

    /** Removes every error box, then inserts the new one when the subtitle is there. */
    method ShowError(message: string)
      requires Valid()
      modifies this`errorBoxes, this`nextBoxId
      ensures Valid()
      ensures hasSubtitle ==> errorBoxes == [ErrorBox(old(nextBoxId), message)]
      ensures !hasSubtitle ==> errorBoxes == []
      ensures nextBoxId == old(nextBoxId) + 1
    {
      errorBoxes := [];
      if hasSubtitle {
        errorBoxes := [ErrorBox(nextBoxId, message)];
      }
      nextBoxId := nextBoxId + 1;
    }

    /**
     * A box's five-second timer: it removes that box if it is still on the page, and never a box
     * that has since replaced it.
     */
    method ErrorBoxTimerFired(id: nat)
      requires Valid()
      modifies this`errorBoxes
      ensures Valid()
      ensures old(errorBoxes) != [] && old(errorBoxes)[0].id == id ==> errorBoxes == []
      ensures !(old(errorBoxes) != [] && old(errorBoxes)[0].id == id) ==> errorBoxes == old(errorBoxes)
    {
      if errorBoxes != [] && errorBoxes[0].id == id {
        errorBoxes := [];
      }
    }

    /**
     * The signup form's `submit` handler: the form goes through exactly when the passwords match,
     * the password has six characters or more, and the terms box is ticked. When it is stopped,
     * the one box left shows the last failing check's message.
     */
    method ValidateSignupForm(password: string, confirm: string, termsChecked: bool)
      returns (submitted: bool)
      requires Valid()
      modifies this`errorBoxes, this`nextBoxId
      ensures Valid()
      ensures submitted <==> password == confirm && JsLength(password) >= 6 && termsChecked
      ensures submitted ==> errorBoxes == old(errorBoxes)
      ensures !submitted && hasSubtitle ==>
        |errorBoxes| == 1 && Some(errorBoxes[0].message) == LastSignupError(password, confirm, termsChecked)
      ensures !submitted && !hasSubtitle ==> errorBoxes == []
    {
      var isValid := true;
      if password != confirm {
        ShowError(MismatchMsg);
        isValid := false;
      }
      if JsLength(password) < 6 {
        ShowError(TooShortMsg);
        isValid := false;
      }
      if !termsChecked {
        ShowError(TermsMsg);
        isValid := false;
      }
      submitted := isValid;
    }
  }

  datatype InputType = PasswordType | TextType

  /** The eye icon matches the field: an open eye on a hidden password, a slashed one on shown text. */
  predicate IconMatches(t: InputType, icon: set<string>) {
    match t
    case PasswordType => "fa-eye" in icon && "fa-eye-slash" !in icon
    case TextType => "fa-eye-slash" in icon && "fa-eye" !in icon
  }

  function Toggled(t: InputType, icon: set<string>): (InputType, set<string>) {
    if t == PasswordType then (TextType, icon - {"fa-eye"} + {"fa-eye-slash"})
    else (PasswordType, icon - {"fa-eye-slash"} + {"fa-eye"})
  }

  /** Toggling keeps the icon matching the field, and toggling twice gives back what was there. */
  lemma ToggleTwiceRestores(t: InputType, icon: set<string>)
    requires IconMatches(t, icon)
    ensures IconMatches(Toggled(t, icon).0, Toggled(t, icon).1)
    ensures Toggled(t, icon).0 != t
    ensures Toggled(Toggled(t, icon).0, Toggled(t, icon).1) == (t, icon)
  {
    var (t1, icon1) := Toggled(t, icon);
    if t == PasswordType {
      assert icon1 - {"fa-eye-slash"} + {"fa-eye"} == icon;
    } else {
      assert icon1 - {"fa-eye"} + {"fa-eye-slash"} == icon;
    }
  }

  /** A password field with its show/hide button's icon. */
  class PasswordInput {
    var inputType: InputType
    var iconClasses: set<string>

    constructor ()
      ensures inputType == PasswordType && IconMatches(inputType, iconClasses)
    {
      inputType := PasswordType;
      iconClasses := {"fas", "fa-eye"};
    }

    /** `togglePassword`: swaps the field between hidden and shown text, and the icon with it. */
    method TogglePassword()
      modifies this
      ensures (inputType, iconClasses) == Toggled(old(inputType), old(iconClasses))
    {
      if inputType == PasswordType {
        inputType := TextType;
        iconClasses := iconClasses - {"fa-eye"};
        iconClasses := iconClasses + {"fa-eye-slash"};
      } else {
        inputType := PasswordType;
        iconClasses := iconClasses - {"fa-eye-slash"};
        iconClasses := iconClasses + {"fa-eye"};
      }
    }
  }
}
