/** The password-strength meter of the registration form
    (`PasswordStrength.tsx`): five requirements, a score of 20 per
    requirement met, a colour and a label for the score, and a checklist. */
module PasswordStrength {
  import opened Common

  /** A requirement the meter lists: its label and its test. */
  datatype Requirement = Requirement(caption: string, test: string -> bool)

  predicate HasUpper(p: string) { exists i :: 0 <= i < |p| && IsUpper(p[i]) }
  predicate HasLower(p: string) { exists i :: 0 <= i < |p| && IsLower(p[i]) }
  predicate HasDigit(p: string) { exists i :: 0 <= i < |p| && IsDigit(p[i]) }

  /** `[^A-Za-z0-9]`: anything but an ASCII letter or digit. */
  predicate IsSpecial(c: char) { !IsUpper(c) && !IsLower(c) && !IsDigit(c) }
  predicate HasSpecial(p: string) { exists i :: 0 <= i < |p| && IsSpecial(p[i]) }

  /** The five requirements, in the order the checklist shows them. */
  const Requirements: seq<Requirement> := [
    Requirement("At least 8 characters", (p: string) => |p| >= 8),
    Requirement("One uppercase letter", (p: string) => HasUpper(p)),
    Requirement("One lowercase letter", (p: string) => HasLower(p)),
    Requirement("One number", (p: string) => HasDigit(p)),
    Requirement("One special character", (p: string) => HasSpecial(p))
  ]

  /** How many requirements `pwd` meets. */
  function MetCount(pwd: string): (n: nat)
    ensures n <= |Requirements|
  {
    Count(Requirements, (r: Requirement) => r.test(pwd))
  }

  function Ind(b: bool): nat { if b then 1 else 0 }

  /** The count, requirement by requirement. */
  lemma {:induction false} MetCountSpelledOut(pwd: string)
    ensures MetCount(pwd) ==
      Ind(|pwd| >= 8) + Ind(HasUpper(pwd)) + Ind(HasLower(pwd)) + Ind(HasDigit(pwd)) + Ind(HasSpecial(pwd))
  {
    var p := (r: Requirement) => r.test(pwd);
    var rs := Requirements;
    assert rs[1..][1..][1..][1..][1..] == [];
    calc {
      Count(rs, p);
      Ind(|pwd| >= 8) + Count(rs[1..], p);
      Ind(|pwd| >= 8) + Ind(HasUpper(pwd)) + Count(rs[1..][1..], p);
      Ind(|pwd| >= 8) + Ind(HasUpper(pwd)) + Ind(HasLower(pwd)) + Count(rs[1..][1..][1..], p);
      Ind(|pwd| >= 8) + Ind(HasUpper(pwd)) + Ind(HasLower(pwd)) + Ind(HasDigit(pwd)) + Count(rs[1..][1..][1..][1..], p);
      Ind(|pwd| >= 8) + Ind(HasUpper(pwd)) + Ind(HasLower(pwd)) + Ind(HasDigit(pwd)) + Ind(HasSpecial(pwd));
    }
  }

  /** `calculateStrength`: 0 for the empty password, otherwise the share of
      requirements met as a percentage. Every share n/5 with n <= 5 times 100
      is an exact double, so the integers here are the values the meter
      shows. */
  function CalculateStrength(pwd: string): (s: int)
    ensures pwd == "" ==> s == 0
    ensures pwd != "" ==> s == 20 * MetCount(pwd)
    ensures s in {0, 20, 40, 60, 80, 100}
  {
    if pwd == "" then 0
    else
      var n := MetCount(pwd);
      ExactShare(n);
      n * 100 / 5
  }

  /** A share of n requirements out of five, as a percentage, is 20 n. */
  lemma ExactShare(n: nat)
    requires n <= 5
    ensures n * 100 / 5 == 20 * n && 20 * n in {0, 20, 40, 60, 80, 100}
  {
    if n == 0 {} else if n == 1 {} else if n == 2 {} else if n == 3 {} else if n == 4 {} else {}
  }

  /** Every character is an upper-case letter, a lower-case letter, a digit
      or special, so any non-empty password meets one requirement at least
      and scores 20 or more. */
  lemma {:induction false} NonEmptyScoresAtLeast20(pwd: string)
    requires pwd != ""
    ensures CalculateStrength(pwd) >= 20
  {
    assert MetCount(pwd) >= 1 by {
      SomeRequirementMet(pwd);
    }
  }

  lemma {:induction false} SomeRequirementMet(pwd: string)
    requires pwd != ""
    ensures MetCount(pwd) >= 1
  {
    MetCountSpelledOut(pwd);
    var c := pwd[0];
    if IsUpper(c) {
      assert HasUpper(pwd);
    } else if IsLower(c) {
      assert HasLower(pwd);
    } else if IsDigit(c) {
      assert HasDigit(pwd);
    } else {
      assert HasSpecial(pwd);
    }
  }

  const Red: string := "#ef4444"
  const Orange: string := "#f59e0b"
  const Green: string := "#10b981"

  /** `getStrengthColor`. */
  function StrengthColor(strength: int): string {
    if strength < 40 then Red else if strength < 70 then Orange else Green
  }

  /** `getStrengthLabel`. */
  function StrengthLabel(strength: int): string {
    if strength == 0 then "" else if strength < 40 then "Weak" else if strength < 70 then "Medium" else "Strong"
  }

  /** The label in terms of the requirements met: none for the empty
      password, Weak for one, Medium for two or three, Strong for four or
      five. */
  lemma LabelBands(pwd: string)
    ensures StrengthLabel(CalculateStrength(pwd)) == "" <==> pwd == ""
    ensures StrengthLabel(CalculateStrength(pwd)) == "Weak" <==> pwd != "" && MetCount(pwd) == 1
    ensures StrengthLabel(CalculateStrength(pwd)) == "Medium" <==> pwd != "" && 2 <= MetCount(pwd) <= 3
    ensures StrengthLabel(CalculateStrength(pwd)) == "Strong" <==> pwd != "" && MetCount(pwd) >= 4
  {
    if pwd != "" {
      SomeRequirementMet(pwd);
      LabelOfShare(MetCount(pwd), CalculateStrength(pwd));
    }
  }

  lemma LabelOfShare(n: nat, s: int)
    requires 1 <= n <= 5 && s == 20 * n
    ensures StrengthLabel(s) != ""
    ensures StrengthLabel(s) == "Weak" <==> n == 1
    ensures StrengthLabel(s) == "Medium" <==> 2 <= n <= 3
    ensures StrengthLabel(s) == "Strong" <==> n >= 4
  {
    if n == 1 {} else if n == 2 {} else if n == 3 {} else if n == 4 {} else {}
  }

  /** The colour and the label agree on every score the meter produces: red
      with no label or Weak, orange with Medium, green with Strong. */
  lemma ColourMatchesLabel(pwd: string)
    ensures StrengthColor(CalculateStrength(pwd)) == Red <==> StrengthLabel(CalculateStrength(pwd)) in {"", "Weak"}
    ensures StrengthColor(CalculateStrength(pwd)) == Orange <==> StrengthLabel(CalculateStrength(pwd)) == "Medium"
    ensures StrengthColor(CalculateStrength(pwd)) == Green <==> StrengthLabel(CalculateStrength(pwd)) == "Strong"
  {
  }

  /** What the component draws: the bar's value and colour, the label, and
      one (label, met) line per requirement. */
  datatype Meter = Meter(value: int, colour: string, strengthLabel: string, checklist: seq<(string, bool)>)

  function Checklist(reqs: seq<Requirement>, pwd: string): (lines: seq<(string, bool)>)
    ensures |lines| == |reqs|
    ensures forall i :: 0 <= i < |reqs| ==> lines[i] == (reqs[i].caption, reqs[i].test(pwd))
  {
    seq(|reqs|, i requires 0 <= i < |reqs| => (reqs[i].caption, reqs[i].test(pwd)))
  }

  /** The ticked lines of the checklist are the requirements met. */
  lemma {:induction false} TicksAreMet(reqs: seq<Requirement>, pwd: string)
    ensures Count(Checklist(reqs, pwd), (line: (string, bool)) => line.1) == Count(reqs, (r: Requirement) => r.test(pwd))
  {
    if reqs != [] {
      TicksAreMet(reqs[1..], pwd);
      assert Checklist(reqs, pwd)[1..] == Checklist(reqs[1..], pwd);
    }
  }

  /** The component: nothing for the empty password, otherwise the meter,
      whose bar is 20 points per ticked line. */
  function Render(pwd: string): (m: Option<Meter>)
    ensures m.None? <==> pwd == ""
    ensures m.Some? ==> m.value.strengthLabel != "" && m.value.value >= 20
    ensures m.Some? ==>
      && m.value.value == CalculateStrength(pwd)
      && m.value.colour == StrengthColor(m.value.value)
      && m.value.strengthLabel == StrengthLabel(m.value.value)
    ensures m.Some? ==> m.value.checklist == Checklist(Requirements, pwd)
    ensures m.Some? ==> m.value.value == 20 * Count(m.value.checklist, (line: (string, bool)) => line.1)
  {
    if pwd == "" then None
    else
      var strength := CalculateStrength(pwd);
      NonEmptyScoresAtLeast20(pwd);
      TicksAreMet(Requirements, pwd);
      Some(Meter(strength, StrengthColor(strength), StrengthLabel(strength), Checklist(Requirements, pwd)))
  }
}
