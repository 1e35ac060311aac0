/** The registration form's rules: the name length, the password's length
    and character classes, and the terms checkbox. */
module RegisterPage {

  datatype RegisterValues = RegisterValues(name: string, email: string, password: string, acceptTerms: bool)

  /** The regular expression's `.` stops at a line terminator. */
  predicate IsLineTerminator(c: char)
  {
    c == '\n' || c == '\r' || c == '\U{2028}' || c == '\U{2029}'
  }

  /** The text a lookahead `(?=.*X)` anchored at the start can scan: everything
      before the first line terminator. */
  function FirstLine(s: string): (r: string)
    ensures |r| <= |s| && r == s[..|r|]
    ensures forall i :: 0 <= i < |r| ==> !IsLineTerminator(r[i])
    ensures |r| < |s| ==> IsLineTerminator(s[|r|])
  {
    if s == [] || IsLineTerminator(s[0]) then []
    else
      var rest := FirstLine(s[1..]);
      assert (s[..1] + rest) == s[..1 + |rest|];
      [s[0]] + rest
  }

  predicate HasLower(s: string)
  {
    exists i :: 0 <= i < |s| && 'a' <= s[i] <= 'z'
  }

  predicate HasUpper(s: string)
  {
    exists i :: 0 <= i < |s| && 'A' <= s[i] <= 'Z'
  }

  predicate HasDigit(s: string)
  {
    exists i :: 0 <= i < |s| && '0' <= s[i] <= '9'
  }

  /** `/^(?=.*[a-z])(?=.*[A-Z])(?=.*\d)/`: a lower-case letter, an upper-case
      letter and a digit, each before the first line break. */
  predicate HasCharacterClasses(password: string)
  {
    var line := FirstLine(password);
    HasLower(line) && HasUpper(line) && HasDigit(line)
  }

  /** `registerSchema`, leaving out the e-mail format. */
  predicate FormValid(v: RegisterValues)
  {
    && |v.name| >= 2
    && |v.password| >= 8
    && HasCharacterClasses(v.password)
    && v.acceptTerms
  }

  /** A password without line breaks (the only kind a password field yields)
      is checked over its whole length. */
  lemma SingleLineChecksWhole(password: string)
    requires forall i :: 0 <= i < |password| ==> !IsLineTerminator(password[i])
    ensures HasCharacterClasses(password) <==> HasLower(password) && HasUpper(password) && HasDigit(password)
  {
    assert FirstLine(password) == password;
  }

  /** Each rule rejects on its own. */
  lemma EachRuleRejects(v: RegisterValues)
    ensures |v.name| < 2 ==> !FormValid(v)
    ensures |v.password| < 8 ==> !FormValid(v)
    ensures !HasLower(v.password) || !HasUpper(v.password) || !HasDigit(v.password) ==> !FormValid(v)
    ensures !v.acceptTerms ==> !FormValid(v)
  {
    var line := FirstLine(v.password);
    if HasLower(line) {
      var i :| 0 <= i < |line| && 'a' <= line[i] <= 'z';
      assert v.password[i] == line[i];
    }
    if HasUpper(line) {
      var i :| 0 <= i < |line| && 'A' <= line[i] <= 'Z';
      assert v.password[i] == line[i];
    }
    if HasDigit(line) {
      var i :| 0 <= i < |line| && '0' <= line[i] <= '9';
      assert v.password[i] == line[i];
    }
  }

  /** A concrete accepted registration. */
  lemma SampleAccepted()
    ensures FormValid(RegisterValues("Jo", "jo@example.com", "Abcdefg1", true))
  {
    var p := "Abcdefg1";
    assert HasLower(p) by { assert 'a' <= p[1] <= 'z'; }
    assert HasUpper(p) by { assert 'A' <= p[0] <= 'Z'; }
    assert HasDigit(p) by { assert '0' <= p[7] <= '9'; }
    assert HasCharacterClasses(p) by {
      assert forall i :: 0 <= i < |p| ==> !IsLineTerminator(p[i]);
      SingleLineChecksWhole(p);
    }
  }
}
