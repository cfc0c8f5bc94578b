/**
 * The client portal's change-password form
 * (frontend/src/pages/client/ClientSettings.jsx, `SecurityForm`): the
 * strength meter, the match flags and the checks before the request.
 *
 * Character classes are the ASCII ones of the source's regular expressions.
 */
module ClientSettings {
  import opened Common

  const MinNewPasswordLength: nat := 8

  predicate IsLower(c: char) { 'a' <= c <= 'z' }
  predicate IsUpper(c: char) { 'A' <= c <= 'Z' }
  predicate IsDigit(c: char) { '0' <= c <= '9' }

  /** `/[^a-zA-Z\d]/`: neither an ASCII letter nor a digit. */
  predicate IsSymbol(c: char) { !IsLower(c) && !IsUpper(c) && !IsDigit(c) }

  predicate HasLower(p: string) { exists i :: 0 <= i < |p| && IsLower(p[i]) }
  predicate HasUpper(p: string) { exists i :: 0 <= i < |p| && IsUpper(p[i]) }
  predicate HasDigit(p: string) { exists i :: 0 <= i < |p| && IsDigit(p[i]) }
  predicate HasSymbol(p: string) { exists i :: 0 <= i < |p| && IsSymbol(p[i]) }

  /** The five things the meter rewards. */
  datatype Criterion = AtLeast8 | AtLeast12 | MixedCase | Digit | Symbol

  predicate Meets(p: string, c: Criterion)
  {
    match c
    case AtLeast8 => Utf16Length(p) >= 8
    case AtLeast12 => Utf16Length(p) >= 12
    case MixedCase => HasLower(p) && HasUpper(p)
    case Digit => HasDigit(p)
    case Symbol => HasSymbol(p)
  }

  /** The criteria in the order the meter tests them. */
  const Criteria: seq<Criterion> := [AtLeast8, AtLeast12, MixedCase, Digit, Symbol]

  /** How many of `cs` the password meets. */
  function CountMet(p: string, cs: seq<Criterion>): (n: nat)
    ensures n <= |cs|
    ensures n == 0 <==> forall i :: 0 <= i < |cs| ==> !Meets(p, cs[i])
    ensures n == |cs| <==> forall i :: 0 <= i < |cs| ==> Meets(p, cs[i])
  {
    if cs == [] then 0
    else
      assert forall i :: 0 <= i < |cs| ==> cs[i] == cs[0] || cs[i] == cs[1..][i - 1];
      (if Meets(p, cs[0]) then 1 else 0) + CountMet(p, cs[1..])
  }

  /** The label for a strength of a non-empty password. */
  function Label(strength: nat): (r: string)
    ensures strength <= 2 <==> r == "Weak"
    ensures strength == 3 <==> r == "Fair"
    ensures strength == 4 <==> r == "Good"
    ensures strength >= 5 <==> r == "Strong"
  {
    if strength <= 2 then "Weak"
    else if strength <= 3 then "Fair"
    else if strength <= 4 then "Good"
    else "Strong"
  }

  /** `getPasswordStrength`: one point per criterion met, counted step by step. */
  method PasswordStrength(p: string) returns (strength: nat, caption: string)
    ensures p == "" ==> strength == 0 && caption == ""
    ensures p != "" ==> strength == CountMet(p, Criteria) && caption == Label(strength)
    ensures strength <= 5
  {
    if p == "" {
      return 0, "";
    }
    strength := 0;
    if Utf16Length(p) >= 8 {
      strength := strength + 1;
    }
    assert strength + CountMet(p, Criteria[1..]) == CountMet(p, Criteria);
    if Utf16Length(p) >= 12 {
      strength := strength + 1;
    }
    assert strength + CountMet(p, Criteria[2..]) == CountMet(p, Criteria);
    if HasLower(p) && HasUpper(p) {
      strength := strength + 1;
    }
    assert strength + CountMet(p, Criteria[3..]) == CountMet(p, Criteria);
    if HasDigit(p) {
      strength := strength + 1;
    }
    assert strength + CountMet(p, Criteria[4..]) == CountMet(p, Criteria);
    if HasSymbol(p) {
      strength := strength + 1;
    }
    assert Criteria[5..] == [];
    caption := Label(strength);
  }

  /** A criterion met stays met when a character is typed after the password. */
  lemma MeetsAfterAppend(p: string, ch: char, c: Criterion)
    requires Meets(p, c)
    ensures Meets(p + [ch], c)
  {
    var q := p + [ch];
    assert forall i :: 0 <= i < |p| ==> q[i] == p[i];
    Utf16LengthAppend(p, [ch]);
    match c
    case AtLeast8 =>
    case AtLeast12 =>
    case MixedCase =>
      var i :| 0 <= i < |p| && IsLower(p[i]);
      var j :| 0 <= j < |p| && IsUpper(p[j]);
      assert IsLower(q[i]) && IsUpper(q[j]);
    case Digit =>
      var i :| 0 <= i < |p| && IsDigit(p[i]);
      assert IsDigit(q[i]);
    case Symbol =>
      var i :| 0 <= i < |p| && IsSymbol(p[i]);
      assert IsSymbol(q[i]);
  }

  /** Typing one more character never lowers the strength. */
  lemma {:induction false} AppendNeverWeakens(p: string, ch: char, cs: seq<Criterion>)
    ensures CountMet(p, cs) <= CountMet(p + [ch], cs)
  {
    if cs != [] {
      if Meets(p, cs[0]) {
        MeetsAfterAppend(p, ch, cs[0]);
      }
      AppendNeverWeakens(p, ch, cs[1..]);
    }
  }

  /** A strength of 5 is reachable. */
  lemma StrongExists()
    ensures CountMet("Abcdefghij1!", Criteria) == 5
  {
    var p := "Abcdefghij1!";
    assert IsUpper(p[0]) && IsLower(p[1]) && IsDigit(p[10]) && IsSymbol(p[11]);
    assert forall i :: 0 <= i < |Criteria| ==> Meets(p, Criteria[i]);
  }

  // ---------------------------------------------------------------------
  // Match flags and submit
  // ---------------------------------------------------------------------

  /** `passwordsMatch`. */
  predicate PasswordsMatch(newPass: string, confirm: string)
  {
    newPass != "" && confirm != "" && newPass == confirm
  }

  /** `passwordsDontMatch`. */
  predicate PasswordsDontMatch(newPass: string, confirm: string)
  {
    newPass != "" && confirm != "" && newPass != confirm
  }

  /** The two hints never show together, and once both fields are filled exactly one does. */
  lemma MatchFlagsExclusive(newPass: string, confirm: string)
    ensures !(PasswordsMatch(newPass, confirm) && PasswordsDontMatch(newPass, confirm))
    ensures newPass != "" && confirm != "" ==> PasswordsMatch(newPass, confirm) || PasswordsDontMatch(newPass, confirm)
  {
  }

  /** `handleSubmit`: the checks before the request is sent. */
  function SubmitCheck(newPass: string, confirm: string): (r: Result<string>)
    ensures r.Ok? <==> newPass == confirm && Utf16Length(newPass) >= MinNewPasswordLength
    ensures newPass != confirm ==> r == Err(0, "New passwords do not match")
    ensures r.Ok? ==> r.value == newPass
  {
    if newPass != confirm then Err(0, "New passwords do not match")
    else if Utf16Length(newPass) < MinNewPasswordLength then Err(0, "Password must be at least 8 characters long")
    else Ok(newPass)
  }

  /** A password the form sends shows the match hint and scores at least one point. */
  lemma SubmittedMatchesAndScores(newPass: string, confirm: string)
    requires SubmitCheck(newPass, confirm).Ok?
    ensures PasswordsMatch(newPass, confirm)
    ensures CountMet(newPass, Criteria) >= 1
  {
    assert Meets(newPass, Criteria[0]);
  }
}
