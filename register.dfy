/** RegisterPage: the password-strength meter, the password-match validator
    and the check that stops an invalid form before the signup request. */
module Register {
  import opened Common

  /** The five CSS classes `getPasswordStrength` returns. */
  datatype Strength = NoStrength | Weak | Medium | Good | Strong

  function CssClass(s: Strength): string {
    match s
    case NoStrength => "strength-none"
    case Weak => "strength-weak"
    case Medium => "strength-medium"
    case Good => "strength-good"
    case Strong => "strength-strong"
  }

  /** The four character classes the meter looks for. */
  datatype CharClass = Upper | Lower | Digit | Special

  const SpecialChars: string := "!@#$%^&*(),.?\":{}|<>"

  /** Membership in a class, as the regular expressions `[A-Z]`, `[a-z]`,
      `[0-9]` and `[!@#$%^&*(),.?":{}|<>]` test it. */
  predicate InClass(c: char, k: CharClass) {
    match k
    case Upper => 'A' <= c <= 'Z'
    case Lower => 'a' <= c <= 'z'
    case Digit => IsDigit(c)
    case Special => c in SpecialChars
  }

  /** `/[...]/.test(password)`: some character of the password is in the class. */
  function Has(p: string, k: CharClass): (b: bool)
    ensures b <==> exists i :: 0 <= i < |p| && InClass(p[i], k)
    decreases |p|
  {
    if |p| == 0 then false
    else
      assert forall i :: 1 <= i < |p| ==> p[i] == p[1..][i - 1];
      InClass(p[0], k) || Has(p[1..], k)
  }

  /** `.filter(Boolean).length`: how many of the flags are set. */
  function CountTrue(flags: seq<bool>): (n: nat)
    ensures n <= |flags|
    ensures n == 0 <==> forall i :: 0 <= i < |flags| ==> !flags[i]
    decreases |flags|
  {
    if |flags| == 0 then 0
    else
      assert forall i :: 1 <= i < |flags| ==> flags[i] == flags[1..][i - 1];
      (if flags[0] then 1 else 0) + CountTrue(flags[1..])
  }

  /** The number of character classes present in the password. */
  function ClassCount(p: string): (n: nat)
    ensures n <= 4
  {
    CountTrue([Has(p, Upper), Has(p, Lower), Has(p, Digit), Has(p, Special)])
  }

  /** `getPasswordStrength()`, on the password field's value (`''` when it is
      null). Each strength is characterised by length and class count alone. */
  function PasswordStrength(p: string): (r: Strength)
    ensures r == NoStrength <==> |p| == 0
    ensures r == Weak <==> 0 < |p| < 8
    ensures r == Strong <==> |p| >= 10 && ClassCount(p) >= 3
    ensures r == Good <==> |p| >= 8 && ClassCount(p) >= 2 && !(|p| >= 10 && ClassCount(p) >= 3)
    ensures r == Medium <==> |p| >= 8 && ClassCount(p) < 2
  {
    if |p| == 0 then NoStrength
    else if |p| < 8 then Weak
    else if ClassCount(p) >= 3 && |p| >= 10 then Strong
    else if ClassCount(p) >= 2 && |p| >= 8 then Good
    else Medium
  }

  /** A password of eight or more characters drawn from a single class is
      only medium, however long it is. */
  lemma SingleClassIsMedium(p: string, k: CharClass)
    requires |p| >= 8
    requires forall i :: 0 <= i < |p| ==> InClass(p[i], k)
    ensures PasswordStrength(p) == Medium
  {
    forall k2 | k2 != k
      ensures !Has(p, k2)
    {
      forall i | 0 <= i < |p|
        ensures !InClass(p[i], k2)
      {
        ClassesDisjoint(p[i], k, k2);
      }
    }
    CountAtMostOne([Has(p, Upper), Has(p, Lower), Has(p, Digit), Has(p, Special)]);
  }

  /** No character is in two classes. */
  lemma ClassesDisjoint(c: char, k1: CharClass, k2: CharClass)
    requires k1 != k2 && InClass(c, k1)
    ensures !InClass(c, k2)
  {
    if k1 == Special || k2 == Special {
      assert forall i :: 0 <= i < |SpecialChars| ==> !('A' <= SpecialChars[i] <= 'Z') && !('a' <= SpecialChars[i] <= 'z') && !IsDigit(SpecialChars[i]);
    }
  }

  /** At most one of four flags set gives a count of at most one. */
  lemma CountAtMostOne(flags: seq<bool>)
    requires |flags| == 4
    requires forall i, j :: 0 <= i < j < 4 ==> !(flags[i] && flags[j])
    ensures CountTrue(flags) <= 1
  {
    assert flags[1..][1..][1..][1..] == [];
  }

  /** Appending a character never removes a class that was present. */
  lemma {:induction false} HasAppend(p: string, c: char, k: CharClass)
    ensures Has(p, k) ==> Has(p + [c], k)
    ensures InClass(c, k) ==> Has(p + [c], k)
  {
    if Has(p, k) {
      var i :| 0 <= i < |p| && InClass(p[i], k);
      assert (p + [c])[i] == p[i];
    }
    assert (p + [c])[|p|] == c;
  }

  /** Fewer set flags, pointwise, never count more. */
  lemma {:induction false} CountTrueMonotone(a: seq<bool>, b: seq<bool>)
    requires |a| == |b|
    requires forall i :: 0 <= i < |a| && a[i] ==> b[i]
    ensures CountTrue(a) <= CountTrue(b)
    decreases |a|
  {
    if |a| > 0 {
      CountTrueMonotone(a[1..], b[1..]);
    }
  }

  /** The order of the strengths on the meter. */
  function Rank(s: Strength): nat {
    match s
    case NoStrength => 0
    case Weak => 1
    case Medium => 2
    case Good => 3
    case Strong => 4
  }

  /** Typing one more character never removes a character class. */
  lemma ClassCountGrows(p: string, c: char)
    ensures ClassCount(p) <= ClassCount(p + [c])
  {
    var q := p + [c];
    HasAppend(p, c, Upper);
    HasAppend(p, c, Lower);
    HasAppend(p, c, Digit);
    HasAppend(p, c, Special);
    CountTrueMonotone([Has(p, Upper), Has(p, Lower), Has(p, Digit), Has(p, Special)],
                      [Has(q, Upper), Has(q, Lower), Has(q, Digit), Has(q, Special)]);
  }

  /** Typing one more character never lowers the meter. */
  lemma StrengthMonotone(p: string, c: char)
    ensures Rank(PasswordStrength(p)) <= Rank(PasswordStrength(p + [c]))
  {
    ClassCountGrows(p, c);
    assert |p + [c]| == |p| + 1;
  }

  /** `getPasswordStrengthText()`: the Spanish word shown under the meter. */
  function StrengthText(s: Strength): (r: string)
    ensures r == "" <==> s == NoStrength
  {
    match s
    case NoStrength => ""
    case Weak => "Débil"
    case Medium => "Media"
    case Good => "Buena"
    case Strong => "¡Excelente!"
  }

  /** Distinct strengths are shown with distinct words. */
  lemma StrengthTextInjective(s1: Strength, s2: Strength)
    ensures StrengthText(s1) == StrengthText(s2) ==> s1 == s2
  {
    if s1 != NoStrength && s2 != NoStrength && s1 != s2 {
      assert StrengthText(s1)[0] != StrengthText(s2)[0] || |StrengthText(s1)| != |StrengthText(s2)|;
    }
  }

  /** The error object of the group validator. */
  datatype MatchError = Mismatch

  /** `passwordMatchValidator(g)`: no error (null) exactly when the two fields are equal. */
  function PasswordMatch(password: string, confirmation: string): (r: Option<MatchError>)
    ensures r.None? <==> password == confirmation
    ensures r.Some? ==> r.value == Mismatch
  {
    if password == confirmation then None else Some(Mismatch)
  }

  /** The registration form's field values. */
  datatype RegisterForm = RegisterForm(
    name: string, last_name: string, email: string,
    password: string, password_confirmation: string)

  /** `required` together with `minLength(n)`. */
  predicate RequiredMin(v: string, n: nat) {
    v != "" && |v| >= n
  }

  /** The form's validity: every control validator and the group validator.
      The outcome of Angular's e-mail pattern is a parameter. */
  predicate FormValid(f: RegisterForm, emailPatternOk: bool) {
    RequiredMin(f.name, 2) && RequiredMin(f.last_name, 2) &&
    f.email != "" && emailPatternOk &&
    RequiredMin(f.password, 8) &&
    f.password_confirmation != "" &&
    PasswordMatch(f.password, f.password_confirmation).None?
  }

  /** `register()` up to the signup request: an invalid form returns before
      anything is sent. */
  method Register(f: RegisterForm, emailPatternOk: bool) returns (signupCalled: bool)
    ensures signupCalled <==> FormValid(f, emailPatternOk)
    ensures signupCalled ==> f.password == f.password_confirmation && |f.password| >= 8
  {
    if !FormValid(f, emailPatternOk) {
      return false;
    }
    signupCalled := true;
  }

  /** Any password the form accepts is at least medium on the meter. */
  lemma AcceptedPasswordAtLeastMedium(f: RegisterForm, emailPatternOk: bool)
    requires FormValid(f, emailPatternOk)
    ensures Rank(PasswordStrength(f.password)) >= Rank(Medium)
    ensures StrengthText(PasswordStrength(f.password)) in {"Media", "Buena", "¡Excelente!"}
  {
  }
}
