/** The password complexity check of signup (controllers/user.js:67-68):
    the regular expression `^(?=.*[a-z])(?=.*[A-Z])(?=.*\d)[a-zA-Z\d]{8,}$`
    as JavaScript's `test` reads it, and the policy it amounts to. */
module PasswordPolicy {

  predicate IsLower(c: char) { 'a' <= c <= 'z' }

  predicate IsUpper(c: char) { 'A' <= c <= 'Z' }

  /** `\d` in a JavaScript regular expression without the `u` flag: ASCII digits only. */
  predicate IsDigit(c: char) { '0' <= c <= '9' }

  /** `[a-zA-Z\d]`. */
  predicate IsAlnum(c: char) { IsLower(c) || IsUpper(c) || IsDigit(c) }

  /** The characters `.` does not match. */
  predicate IsLineTerminator(c: char)
  {
    c == '\n' || c == '\r' || c == '\U{2028}' || c == '\U{2029}'
  }

  /** The three classes the lookaheads ask for. */
  datatype CharClass = Lower | Upper | Digit

  predicate InClass(c: char, k: CharClass)
  {
    match k
    case Lower => IsLower(c)
    case Upper => IsUpper(c)
    case Digit => IsDigit(c)
  }

  /** `(?=.*[k])` at the start of the input: a character of class `k` is
      reached by `.*`, that is, with no line terminator before it. */
  predicate LookaheadFinds(p: string, k: CharClass)
  {
    exists i :: 0 <= i < |p| && InClass(p[i], k) &&
      forall j :: 0 <= j < i ==> !IsLineTerminator(p[j])
  }

  /** `passwordRegex.test(p)`: the pattern is anchored by `^` at offset 0 and
      by `$` at the end of the input (no `m` flag), so the three lookaheads
      hold at the start and `[a-zA-Z\d]{8,}` spans the whole input. */
  predicate MatchesPasswordRegex(p: string)
  {
    && LookaheadFinds(p, Lower)
    && LookaheadFinds(p, Upper)
    && LookaheadFinds(p, Digit)
    && |p| >= 8
    && forall i :: 0 <= i < |p| ==> IsAlnum(p[i])
  }

  predicate Contains(p: string, k: CharClass)
  {
    exists i :: 0 <= i < |p| && InClass(p[i], k)
  }

  /** The policy the regular expression enforces: at least 8 characters, only
      ASCII letters and digits, and at least one lowercase letter, one
      uppercase letter and one digit. */
  predicate StrongPassword(p: string)
  {
    |p| >= 8 && (forall i :: 0 <= i < |p| ==> IsAlnum(p[i])) &&
    Contains(p, Lower) && Contains(p, Upper) && Contains(p, Digit)
  }

  /** The rule the rejection message states (controllers/user.js:69), which
      says nothing about symbols or spaces. */
  predicate StatedRule(p: string)
  {
    |p| >= 8 && Contains(p, Lower) && Contains(p, Upper) && Contains(p, Digit)
  }

  /** Inside an all-alphanumeric input the lookahead `(?=.*[k])` is just
      "some character is of class k". */
  lemma LookaheadIsContains(p: string, k: CharClass)
    requires forall i :: 0 <= i < |p| ==> IsAlnum(p[i])
    ensures LookaheadFinds(p, k) <==> Contains(p, k)
  {
    if Contains(p, k) {
      var i :| 0 <= i < |p| && InClass(p[i], k);
      assert forall j :: 0 <= j < i ==> IsAlnum(p[j]);
    }
  }

  /** The regular expression accepts exactly the strong passwords. */
  lemma RegexIsPolicy(p: string)
    ensures MatchesPasswordRegex(p) <==> StrongPassword(p)
  {
    if forall i :: 0 <= i < |p| ==> IsAlnum(p[i]) {
      LookaheadIsContains(p, Lower);
      LookaheadIsContains(p, Upper);
      LookaheadIsContains(p, Digit);
    }
  }

  /** Any character other than an ASCII letter or digit, a symbol or a space
      included, makes the password fail. */
  lemma NonAlnumRejected(p: string, i: nat)
    requires i < |p| && !IsAlnum(p[i])
    ensures !MatchesPasswordRegex(p)
  {
  }

  /** "Abcdefg1" is accepted. */
  lemma ExampleAccepted()
    ensures MatchesPasswordRegex("Abcdefg1")
  {
    var p := "Abcdefg1";
    assert p == ['A', 'b', 'c', 'd', 'e', 'f', 'g', '1'];
    assert forall i :: 0 <= i < |p| ==> IsAlnum(p[i]);
    assert InClass(p[1], Lower) && InClass(p[0], Upper) && InClass(p[7], Digit);
    RegexIsPolicy(p);
  }

  /** "Abcdefg1!" meets the rule the error message states, yet the regular
      expression rejects it because of the symbol. */
  lemma SymbolRejectedDespiteStatedRule()
    ensures StatedRule("Abcdefg1!")
    ensures !MatchesPasswordRegex("Abcdefg1!")
  {
    var p := "Abcdefg1!";
    assert InClass(p[1], Lower) && InClass(p[0], Upper) && InClass(p[7], Digit);
    assert !IsAlnum(p[8]);
  }

  /** "abc12345" has no uppercase letter and is rejected. */
  lemma NoUppercaseRejected()
    ensures !MatchesPasswordRegex("abc12345")
  {
    var p := "abc12345";
    assert forall i :: 0 <= i < |p| ==> !IsUpper(p[i]);
  }
}
