/** The registration form's rules (`registerSchema.ts`): per-field length
    and presence rules, two of them conditional on the customer type, the
    phone-number pattern, the password rule and its confirmation. */
module RegisterSchema {
  import opened Common
  import opened PasswordStrength

  // -------------------------------------------------------------------
  // The phone pattern

  /** The character classes the phone pattern uses. */
  datatype Class = Plus | Open | Close | Digit | Separator

  predicate InClass(c: char, k: Class) {
    match k
    case Plus => c == '+'
    case Open => c == '('
    case Close => c == ')'
    case Digit => IsDigit(c)
    case Separator => c == '-' || c == '.' || IsJsSpace(c)
  }

  /** A class repeated between `min` and `max` times. */
  datatype Piece = Piece(cls: Class, min: nat, max: nat)

  /** `^[+]?[(]?[0-9]{1,4}[)]?[-\s.]?[(]?[0-9]{1,4}[)]?[-\s.]?[0-9]{1,9}$`. */
  const PhonePattern: seq<Piece> := [
    Piece(Plus, 0, 1), Piece(Open, 0, 1), Piece(Digit, 1, 4), Piece(Close, 0, 1), Piece(Separator, 0, 1),
    Piece(Open, 0, 1), Piece(Digit, 1, 4), Piece(Close, 0, 1), Piece(Separator, 0, 1), Piece(Digit, 1, 9)
  ]

  predicate AllIn(s: string, k: Class) {
    forall i :: 0 <= i < |s| ==> InClass(s[i], k)
  }

  /** The whole of `s` matches `pat`: it splits into consecutive runs, one
      per piece, each of an allowed length and made of the piece's class
      (the anchored pattern's backtracking search). */
  predicate Matches(pat: seq<Piece>, s: string)
    decreases |pat|, |s| + 2
  {
    if pat == [] then s == [] else MatchesFrom(pat, s, 0)
  }

  /** Some run length `n` or longer works for the first piece. */
  predicate MatchesFrom(pat: seq<Piece>, s: string, n: nat)
    requires pat != []
    decreases |pat|, |s| + 1 - n
  {
    if n > pat[0].max || n > |s| then false
    else (n >= pat[0].min && AllIn(s[..n], pat[0].cls) && Matches(pat[1..], s[n..])) || MatchesFrom(pat, s, n + 1)
  }

  /** A run of length `k` that works is found by the search from `n`. */
  lemma {:induction false} RunFound(pat: seq<Piece>, s: string, n: nat, k: nat)
    requires pat != [] && n <= k <= pat[0].max && k <= |s|
    requires k >= pat[0].min && AllIn(s[..k], pat[0].cls) && Matches(pat[1..], s[k..])
    ensures MatchesFrom(pat, s, n)
    decreases k - n
  {
    if n < k {
      RunFound(pat, s, n + 1, k);
    }
  }

  /** And every success of the search is such a run. */
  lemma {:induction false} RunOfMatch(pat: seq<Piece>, s: string, n: nat) returns (k: nat)
    requires pat != [] && MatchesFrom(pat, s, n)
    ensures n <= k <= pat[0].max && k <= |s| && pat[0].min <= k
    ensures AllIn(s[..k], pat[0].cls) && Matches(pat[1..], s[k..])
    decreases |s| + 1 - n
  {
    if n >= pat[0].min && AllIn(s[..n], pat[0].cls) && Matches(pat[1..], s[n..]) {
      k := n;
    } else {
      k := RunOfMatch(pat, s, n + 1);
    }
  }

  function MinLength(pat: seq<Piece>): nat {
    if pat == [] then 0 else pat[0].min + MinLength(pat[1..])
  }

  function MaxLength(pat: seq<Piece>): nat {
    if pat == [] then 0 else pat[0].max + MaxLength(pat[1..])
  }

  /** A string that matches is as long as the pattern allows, no more and no
      less. */
  lemma {:induction false} MatchLength(pat: seq<Piece>, s: string)
    requires Matches(pat, s)
    ensures MinLength(pat) <= |s| <= MaxLength(pat)
    decreases |pat|
  {
    if pat != [] {
      var k := RunOfMatch(pat, s, 0);
      MatchLength(pat[1..], s[k..]);
    }
  }

  /** A phone number the pattern accepts has 3 to 24 characters, and each is
      a digit, '+', '(', ')', '-', '.' or white space. */
  lemma {:induction false} PhoneShape(s: string)
    requires Matches(PhonePattern, s)
    ensures 3 <= |s| <= 24
    ensures forall i :: 0 <= i < |s| ==> IsDigit(s[i]) || s[i] in "+()-." || IsJsSpace(s[i])
  {
    MatchLength(PhonePattern, s);
    assert MinLength(PhonePattern) == 3;
    assert MaxLength(PhonePattern) == 24;
    PhoneCharacters(PhonePattern, s);
  }

  lemma {:induction false} PhoneCharacters(pat: seq<Piece>, s: string)
    requires Matches(pat, s)
    ensures forall i :: 0 <= i < |s| ==> exists j :: 0 <= j < |pat| && InClass(s[i], pat[j].cls)
    decreases |pat|
  {
    if pat != [] {
      var k := RunOfMatch(pat, s, 0);
      PhoneCharacters(pat[1..], s[k..]);
      forall i | 0 <= i < |s| ensures exists j :: 0 <= j < |pat| && InClass(s[i], pat[j].cls) {
        if i < k {
          assert s[..k][i] == s[i];
          assert InClass(s[i], pat[0].cls);
        } else {
          assert s[k..][i - k] == s[i];
          var j :| 0 <= j < |pat[1..]| && InClass(s[i], pat[1..][j].cls);
          assert pat[1..][j] == pat[j + 1];
        }
      }
    }
  }

  predicate AllDigits(s: string) { forall i :: 0 <= i < |s| ==> IsDigit(s[i]) }

  /** Every plain run of 3 to 17 digits is a valid phone number: the three
      digit pieces take 1-4, 1-4 and 1-9 of them, the optional pieces none. */
  lemma {:induction false} DigitRunsAreValid(s: string)
    requires AllDigits(s) && 3 <= |s| <= 17
    ensures Matches(PhonePattern, s)
  {
    var a := if |s| - 2 >= 4 then 4 else |s| - 2;
    var rest := |s| - a;
    var b := if rest - 1 >= 4 then 4 else rest - 1;
    var c := rest - b;
    assert 1 <= a <= 4 && 1 <= b <= 4 && 1 <= c <= 9;
    var t1 := s[a..];
    var t2 := t1[b..];
    var p := PhonePattern;
    // The last digit run, then the optional pieces before it, taking nothing.
    SkipDigitRun(p[9..], t2, c);
    SkipOptional(p[8..], t2);
    SkipOptional(p[7..], t2);
    assert p[6..][1..] == p[7..];
    RunFound(p[6..], t1, 0, b);
    SkipOptional(p[5..], t1);
    SkipOptional(p[4..], t1);
    SkipOptional(p[3..], t1);
    assert p[2..][1..] == p[3..];
    RunFound(p[2..], s, 0, a);
    SkipOptional(p[1..], s);
    SkipOptional(p, s);
  }

  /** An optional piece may take nothing. */
  lemma SkipOptional(pat: seq<Piece>, s: string)
    requires pat != [] && pat[0].min == 0 && Matches(pat[1..], s)
    ensures Matches(pat, s)
  {
    assert s[..0] == [] && s[0..] == s;
  }

  /** A final digit piece takes all of a digit string it can hold. */
  lemma SkipDigitRun(pat: seq<Piece>, s: string, c: nat)
    requires |pat| == 1 && pat[0].cls == Digit && pat[0].min <= c <= pat[0].max && |s| == c && AllDigits(s)
    ensures Matches(pat, s)
  {
    assert s[..c] == s && s[c..] == [];
    assert pat[1..] == [];
    RunFound(pat, s, 0, c);
  }

  /** The payment stub's test number satisfies the form's phone rule. */
  lemma TestNumberIsValid()
    ensures Matches(PhonePattern, "0966262458")
  {
    DigitRunsAreValid("0966262458");
  }

  // -------------------------------------------------------------------
  // The form

  /** The form's fields; `None` is a field left undefined. */
  datatype Form = Form(
    customerType: Option<string>,
    companyName: Option<string>,
    firstName: Option<string>,
    lastName: Option<string>,
    customerPhone: Option<string>,
    mgrFirst: Option<string>,
    mgrLast: Option<string>,
    mgrEmail: Option<string>,
    mgrPhone: Option<string>,
    password: Option<string>,
    mgrPasswordConfirm: Option<string>,
    custAddress: Address,
    mgrAddress: Address)

  /** The street, building, postal code, city, state and country fields,
      with the same rules for the customer and the administrator. */
  datatype Address = Address(street: Option<string>, building: Option<string>, post: Option<string>,
                             city: Option<string>, state: Option<string>, country: Option<string>)

  /** `required()`: present and not empty. */
  predicate Required(v: Option<string>) { v.Some? && v.value != "" }

  /** `min(n)`: a present value has at least `n` characters. */
  predicate AtLeast(v: Option<string>, n: nat) { v.None? || |v.value| >= n }

  /** The password rule: 8 characters or more, a lower-case letter, an
      upper-case letter and a digit. */
  predicate PasswordRule(p: string) {
    |p| >= 8 && HasLower(p) && HasUpper(p) && HasDigit(p)
  }

  predicate PhoneRule(v: Option<string>) { Required(v) && Matches(PhonePattern, v.value) }

  predicate AddressRule(a: Address) {
    && Required(a.street) && AtLeast(a.street, 3)
    && Required(a.building)
    && Required(a.post)
    && Required(a.city) && AtLeast(a.city, 2)
    && AtLeast(a.state, 2)
    && Required(a.country) && AtLeast(a.country, 2)
  }

  /** The company name is demanded only of a company. */
  predicate CompanyNameRule(f: Form) {
    f.customerType == Some("company") ==> Required(f.companyName)
  }

  /** First and last names are demanded only of an individual. */
  predicate PersonNameRule(f: Form) {
    f.customerType == Some("individual") ==>
      Required(f.firstName) && AtLeast(f.firstName, 2) && Required(f.lastName) && AtLeast(f.lastName, 2)
  }

  /** The whole schema. E-mail syntax is not checked here. */
  predicate Accepts(f: Form) {
    && Required(f.customerType)
    && CompanyNameRule(f)
    && PersonNameRule(f)
    && PhoneRule(f.customerPhone)
    && Required(f.mgrFirst) && AtLeast(f.mgrFirst, 2)
    && Required(f.mgrLast) && AtLeast(f.mgrLast, 2)
    && Required(f.mgrEmail)
    && PhoneRule(f.mgrPhone)
    && Required(f.password) && PasswordRule(f.password.value)
    && Required(f.mgrPasswordConfirm) && f.mgrPasswordConfirm == f.password
    && AddressRule(f.custAddress)
    && AddressRule(f.mgrAddress)
  }

  /** The password rule is the meter's first four requirements. */
  lemma {:induction false} PasswordRuleIsFirstFourRequirements(p: string)
    ensures PasswordRule(p) <==> forall i :: 0 <= i < 4 ==> Requirements[i].test(p)
  {
    assert Requirements[0].test(p) == (|p| >= 8);
    assert Requirements[1].test(p) == HasUpper(p);
    assert Requirements[2].test(p) == HasLower(p);
    assert Requirements[3].test(p) == HasDigit(p);
  }

  /** Every password the form accepts is shown as Strong, in green. */
  lemma {:induction false} AcceptedPasswordIsStrong(f: Form)
    requires Accepts(f)
    ensures StrengthLabel(CalculateStrength(f.password.value)) == "Strong"
    ensures StrengthColor(CalculateStrength(f.password.value)) == Green
  {
    var p := f.password.value;
    MetCountSpelledOut(p);
    LabelBands(p);
    ColourMatchesLabel(p);
  }

  /** An accepted form carries the confirmation of its own password, two
      valid phone numbers, and the names its customer type demands. */
  lemma AcceptedFormFields(f: Form)
    requires Accepts(f)
    ensures f.mgrPasswordConfirm == f.password && f.password.Some?
    ensures Matches(PhonePattern, f.customerPhone.value) && Matches(PhonePattern, f.mgrPhone.value)
    ensures f.customerType == Some("company") ==> Required(f.companyName)
    ensures f.customerType == Some("individual") ==> |f.firstName.value| >= 2 && |f.lastName.value| >= 2
    ensures |f.custAddress.street.value| >= 3 && |f.custAddress.city.value| >= 2 && |f.custAddress.country.value| >= 2
    ensures |f.mgrAddress.street.value| >= 3 && |f.mgrAddress.city.value| >= 2 && |f.mgrAddress.country.value| >= 2
  {
  }

  /** The conditional rules bind only their own customer type: a company
      form is judged the same whatever its person names, an individual's
      whatever its company name, and the state may be left out. */
  lemma ConditionalFieldsIgnored(f: Form, first: Option<string>, last: Option<string>, company: Option<string>)
    ensures f.customerType == Some("company") ==> (Accepts(f.(firstName := first, lastName := last)) <==> Accepts(f))
    ensures f.customerType == Some("individual") ==> (Accepts(f.(companyName := company)) <==> Accepts(f))
    ensures Accepts(f) ==> Accepts(f.(custAddress := f.custAddress.(state := None), mgrAddress := f.mgrAddress.(state := None)))
  {
  }
}
