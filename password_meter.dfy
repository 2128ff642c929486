/** The password-strength meter of the sign-up form: label and bar width follow the
    password's JavaScript length (UTF-16 code units). */
module PasswordMeter {
  import opened Text

  datatype Strength = Blank | Weak | Medium | Strong

  function StrengthRank(s: Strength): nat {
    match s
    case Blank => 0
    case Weak => 1
    case Medium => 2
    case Strong => 3
  }

  /** Twelve units or more is strong, eight or more medium, anything else non-empty weak. */
  function PasswordStrength(password: string): (r: Strength)
    ensures r == Blank <==> password == []
    ensures r == Strong <==> Utf16Length(password) >= 12
    ensures r == Medium <==> 8 <= Utf16Length(password) < 12
    ensures |password| >= 12 ==> r == Strong
    ensures r == Weak ==> 1 <= |password| <= 7
  {
    var n := Utf16Length(password);
    if n >= 12 then Strong else if n >= 8 then Medium else if n > 0 then Weak else Blank
  }

  /** The text shown beside the meter. */
  function Label(s: Strength): (r: string)
    ensures r == "" <==> s == Blank
  {
    match s
    case Strong => "Strong"
    case Medium => "Medium"
    case Weak => "Weak"
    case Blank => ""
  }

  /** The bar's width in percent. */
  function BarWidth(s: Strength): (w: nat)
    ensures w <= 100
    ensures s != Blank ==> w > 0
  {
    match s
    case Strong => 100
    case Medium => 66
    case Weak => 33
    case Blank => 0
  }

  /** A label is shown exactly when something has been typed, and the bar is empty exactly then. */
  lemma LabelShownOnceTyped(password: string)
    ensures Label(PasswordStrength(password)) == "" <==> password == []
    ensures BarWidth(PasswordStrength(password)) == 0 <==> password == []
  {
  }

  /** Typing more characters never lowers the strength shown. */
  lemma StrengthNeverDropsWhileTyping(password: string, more: string)
    ensures StrengthRank(PasswordStrength(password)) <= StrengthRank(PasswordStrength(password + more))
    ensures BarWidth(PasswordStrength(password)) <= BarWidth(PasswordStrength(password + more))
  {
    Utf16LengthAppend(password, more);
  }
}
