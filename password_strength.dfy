/**
 * The password input's strength meter: a score counting the enabled
 * checks a password passes, mapped to a label and colour, and the list
 * of requirements shown under the field.
 */
module PasswordStrength {
  import opened Decimal

  /** The component's configurable checks. The length check has no switch; `minLength` only sets its bound. */
  datatype PasswordRules = PasswordRules(
    minLength: int,
    requireUppercase: bool,
    requireLowercase: bool,
    requireNumbers: bool,
    requireSpecialChars: bool)

  /** The defaults: eight characters, upper, lower and digit required, special characters not. */
  const Defaults := PasswordRules(8, true, true, true, false)

  datatype Strength = Strength(score: int, text: string, color: string)

  /** The characters the special-character check accepts. */
  const SpecialChars: string := "!@#$%^&*(),.?\":{}|<>"

  predicate HasUpper(s: string) { exists i :: 0 <= i < |s| && 'A' <= s[i] <= 'Z' }
  predicate HasLower(s: string) { exists i :: 0 <= i < |s| && 'a' <= s[i] <= 'z' }
  predicate HasDigit(s: string) { exists i :: 0 <= i < |s| && '0' <= s[i] <= '9' }
  predicate HasSpecial(s: string) { exists i :: 0 <= i < |s| && s[i] in SpecialChars }

  function Indicator(b: bool): nat { if b then 1 else 0 }

  /** The number of enabled checks the password passes; an empty password scores nothing. */
  function Score(r: PasswordRules, password: string): (n: nat)
    ensures n <= 5
    ensures password == "" ==> n == 0
    ensures !r.requireSpecialChars ==> n <= 4
  {
    if password == "" then 0
    else
      Indicator(|password| >= r.minLength)
      + Indicator(r.requireUppercase && HasUpper(password))
      + Indicator(r.requireLowercase && HasLower(password))
      + Indicator(r.requireNumbers && HasDigit(password))
      + Indicator(r.requireSpecialChars && HasSpecial(password))
  }

  /** The label and colour for a score from 0 to 5. */
  function StrengthOf(score: nat): (st: Strength)
    requires score <= 5
    ensures st.score == score
  {
    match score
    case 0 => Strength(0, "Very Weak", "bg-red-500")
    case 1 => Strength(1, "Weak", "bg-orange-500")
    case 2 => Strength(2, "Fair", "bg-yellow-500")
    case 3 => Strength(3, "Good", "bg-blue-500")
    case 4 => Strength(4, "Strong", "bg-green-500")
    case 5 => Strength(5, "Very Strong", "bg-green-600")
  }

  /** `calculatePasswordStrength`: one point per enabled check passed, clamped to 5, looked up in the map. */
  method CalculatePasswordStrength(r: PasswordRules, password: string) returns (st: Strength)
    ensures 0 <= st.score <= 5
    ensures st == StrengthOf(Score(r, password))
  {
    if password == "" {
      return Strength(0, "Very Weak", "bg-red-500");
    }
    var score := 0;
    var checks: seq<string> := [];
    if |password| >= r.minLength {
      score := score + 1;
      checks := checks + ["At least " + IntToString(r.minLength) + " characters"];
    }
    if r.requireUppercase && HasUpper(password) {
      score := score + 1;
      checks := checks + ["Uppercase letter"];
    }
    if r.requireLowercase && HasLower(password) {
      score := score + 1;
      checks := checks + ["Lowercase letter"];
    }
    if r.requireNumbers && HasDigit(password) {
      score := score + 1;
      checks := checks + ["Number"];
    }
    if r.requireSpecialChars && HasSpecial(password) {
      score := score + 1;
      checks := checks + ["Special character"];
    }
    var clamped := if score < 5 then score else 5;
    st := StrengthOf(clamped);
  }

  /** Each requirement line with the switch that shows it, in display order. */
  function RequirementLines(r: PasswordRules): seq<(bool, string)> {
    [ (r.minLength != 0, "At least " + IntToString(r.minLength) + " characters"),
      (r.requireUppercase, "One uppercase letter"),
      (r.requireLowercase, "One lowercase letter"),
      (r.requireNumbers, "One number"),
      (r.requireSpecialChars, "One special character") ]
  }

  /** The lines whose switch is on, in order. */
  function Shown(lines: seq<(bool, string)>): (r: seq<string>)
    ensures |r| <= |lines|
  {
    if lines == [] then []
    else (if lines[0].0 then [lines[0].1] else []) + Shown(lines[1..])
  }

  /** The line shown for one entry: its text if its switch is on. */
  function Pick(line: (bool, string)): seq<string> {
    if line.0 then [line.1] else []
  }

  lemma ShownFive(lines: seq<(bool, string)>)
    requires |lines| == 5
    ensures Shown(lines) == Pick(lines[0]) + Pick(lines[1]) + Pick(lines[2]) + Pick(lines[3]) + Pick(lines[4])
  {
    var t1 := lines[1..];
    var t2 := t1[1..];
    var t3 := t2[1..];
    var t4 := t3[1..];
    assert t4[1..] == [];
    assert Shown(t4) == Pick(lines[4]);
    assert Shown(t3) == Pick(lines[3]) + Pick(lines[4]);
    assert Shown(t2) == Pick(lines[2]) + Pick(lines[3]) + Pick(lines[4]);
    assert Shown(t1) == Pick(lines[1]) + Pick(lines[2]) + Pick(lines[3]) + Pick(lines[4]);
  }

  /** `getPasswordRequirements`: one line per enabled requirement, in the fixed order. */
  method GetPasswordRequirements(r: PasswordRules) returns (reqs: seq<string>)
    ensures reqs == Shown(RequirementLines(r))
  {
    reqs := [];
    if r.minLength != 0 { reqs := reqs + ["At least " + IntToString(r.minLength) + " characters"]; }
    if r.requireUppercase { reqs := reqs + ["One uppercase letter"]; }
    if r.requireLowercase { reqs := reqs + ["One lowercase letter"]; }
    if r.requireNumbers { reqs := reqs + ["One number"]; }
    if r.requireSpecialChars { reqs := reqs + ["One special character"]; }
    ShownFive(RequirementLines(r));
  }

  // ---------------------------------------------------------------------------
  // Properties

  /** An empty password is "Very Weak" whatever the rules, even when its length passes. */
  lemma EmptyIsVeryWeak(r: PasswordRules)
    ensures StrengthOf(Score(r, "")) == Strength(0, "Very Weak", "bg-red-500")
  {
  }

  /** A check that is switched off never adds to the score: turning one off removes exactly its point. */
  lemma DisabledChecksAddNothing(r: PasswordRules, password: string)
    ensures Score(r.(requireUppercase := false), password) <= Score(r, password)
    ensures Score(r.(requireUppercase := false), password) + Indicator(r.requireUppercase && HasUpper(password))
      == Score(r, password)
    ensures Score(r.(requireLowercase := false), password) + Indicator(r.requireLowercase && HasLower(password))
      == Score(r, password)
    ensures Score(r.(requireNumbers := false), password) + Indicator(r.requireNumbers && HasDigit(password))
      == Score(r, password)
    ensures Score(r.(requireSpecialChars := false), password) + Indicator(r.requireSpecialChars && HasSpecial(password))
      == Score(r, password)
  {
  }

  /** Under the defaults a password reaches "Strong" at best, and "Abcdefg1" gets there. */
  lemma DefaultsTopOutAtStrong(password: string)
    ensures Score(Defaults, password) <= 4
    ensures StrengthOf(Score(Defaults, "Abcdefg1")).text == "Strong"
  {
    var w := "Abcdefg1";
    assert 'A' <= w[0] <= 'Z';
    assert 'a' <= w[1] <= 'z';
    assert '0' <= w[7] <= '9';
  }

  /** Appending characters never lowers the score: every check is kept by extension. */
  lemma ScoreMonotone(r: PasswordRules, p: string, q: string)
    ensures Score(r, p) <= Score(r, p + q)
  {
    if p != "" {
      ExtendKeeps(p, q);
    }
  }

  /** Each "contains a character of this class" check survives appending. */
  lemma ExtendKeeps(p: string, q: string)
    ensures HasUpper(p) ==> HasUpper(p + q)
    ensures HasLower(p) ==> HasLower(p + q)
    ensures HasDigit(p) ==> HasDigit(p + q)
    ensures HasSpecial(p) ==> HasSpecial(p + q)
  {
    forall i | 0 <= i < |p| ensures (p + q)[i] == p[i] { }
  }

  /** Counting the switches that are on. */
  function Enabled(r: PasswordRules): nat {
    Indicator(r.minLength != 0) + Indicator(r.requireUppercase) + Indicator(r.requireLowercase)
    + Indicator(r.requireNumbers) + Indicator(r.requireSpecialChars)
  }

  /** Shown lines are exactly those whose switch is on. */
  lemma {:induction false} ShownIff(lines: seq<(bool, string)>, s: string)
    ensures s in Shown(lines) <==> exists i :: 0 <= i < |lines| && lines[i] == (true, s)
  {
    if lines != [] {
      ShownIff(lines[1..], s);
      if s in Shown(lines[1..]) {
        var i :| 0 <= i < |lines[1..]| && lines[1..][i] == (true, s);
        assert lines[i + 1] == (true, s);
      }
      if exists i :: 0 <= i < |lines| && lines[i] == (true, s) {
        var i :| 0 <= i < |lines| && lines[i] == (true, s);
        if i > 0 { assert lines[1..][i - 1] == (true, s); }
      }
    }
  }

  /** A line is listed exactly when some entry with its text has its switch on. */
  lemma ListedAt(r: PasswordRules, s: string, k: nat)
    requires k < 5 && RequirementLines(r)[k].1 == s
    requires forall j :: 0 <= j < 5 && j != k ==> RequirementLines(r)[j].1 != s
    ensures s in Shown(RequirementLines(r)) <==> RequirementLines(r)[k].0
  {
    ShownIff(RequirementLines(r), s);
  }

  /** The length line is listed iff `minLength` is non-zero. */
  lemma LengthLineListed(r: PasswordRules)
    ensures ("At least " + IntToString(r.minLength) + " characters") in Shown(RequirementLines(r)) <==> r.minLength != 0
  {
    var lines := RequirementLines(r);
    var t := "At least " + IntToString(r.minLength) + " characters";
    assert t[0] == 'A';
    forall j | 1 <= j < 5 ensures lines[j].1 != t {
      assert lines[j].1[0] == 'O';
    }
    ListedAt(r, t, 0);
  }

  /** The uppercase line is listed iff uppercase letters are required. */
  lemma UppercaseLineListed(r: PasswordRules)
    ensures "One uppercase letter" in Shown(RequirementLines(r)) <==> r.requireUppercase
  {
    var lines := RequirementLines(r);
    assert lines[0].1[0] == 'A';
    assert lines[2].1[4] == 'l' && lines[1].1[4] == 'u';
    assert |lines[3].1| == 10 && |lines[4].1| == 21;
    ListedAt(r, "One uppercase letter", 1);
  }

  /** The lowercase line is listed iff lowercase letters are required. */
  lemma LowercaseLineListed(r: PasswordRules)
    ensures "One lowercase letter" in Shown(RequirementLines(r)) <==> r.requireLowercase
  {
    var lines := RequirementLines(r);
    assert lines[0].1[0] == 'A';
    assert lines[2].1[4] == 'l' && lines[1].1[4] == 'u';
    assert |lines[3].1| == 10 && |lines[4].1| == 21;
    ListedAt(r, "One lowercase letter", 2);
  }

  /** The number line is listed iff digits are required. */
  lemma NumberLineListed(r: PasswordRules)
    ensures "One number" in Shown(RequirementLines(r)) <==> r.requireNumbers
  {
    var lines := RequirementLines(r);
    assert lines[0].1[0] == 'A';
    assert |lines[1].1| == 20 && |lines[2].1| == 20 && |lines[4].1| == 21;
    ListedAt(r, "One number", 3);
  }

  /** The special-character line is listed iff special characters are required. */
  lemma SpecialLineListed(r: PasswordRules)
    ensures "One special character" in Shown(RequirementLines(r)) <==> r.requireSpecialChars
  {
    var lines := RequirementLines(r);
    assert lines[0].1[0] == 'A';
    assert |lines[1].1| == 20 && |lines[2].1| == 20 && |lines[3].1| == 10;
    ListedAt(r, "One special character", 4);
  }

  /** The requirement list has one line per switch that is on. */
  lemma RequirementsCount(r: PasswordRules)
    ensures |Shown(RequirementLines(r))| == Enabled(r)
  {
    ShownFive(RequirementLines(r));
  }
}
