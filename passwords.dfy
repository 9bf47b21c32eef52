/**
  The password rule applied at sign-up: both entries agree, at least eight
  characters, and at least one lowercase letter, one uppercase letter, one
  digit and one other ("special") character. Character classes are those
  of the "C" locale.
 */
module Passwords {

  predicate IsLower(c: char) { 'a' <= c <= 'z' }
  predicate IsUpper(c: char) { 'A' <= c <= 'Z' }
  predicate IsDigit(c: char) { '0' <= c <= '9' }

  /** Anything that is not a lowercase letter, an uppercase letter or a digit. */
  predicate IsSpecial(c: char) { !IsLower(c) && !IsUpper(c) && !IsDigit(c) }

  predicate HasLower(p: string) { exists i :: 0 <= i < |p| && IsLower(p[i]) }
  predicate HasUpper(p: string) { exists i :: 0 <= i < |p| && IsUpper(p[i]) }
  predicate HasDigit(p: string) { exists i :: 0 <= i < |p| && IsDigit(p[i]) }
  predicate HasSpecial(p: string) { exists i :: 0 <= i < |p| && IsSpecial(p[i]) }

  predicate Acceptable(password: string, confirmation: string)
  {
    password == confirmation && |password| >= 8
    && HasLower(password) && HasUpper(password) && HasDigit(password) && HasSpecial(password)
  }

  /**
    The checks of `inputPasswd`: one pass over the characters, each one
    classified by the first class it belongs to.
   */
  method CheckPassword(password: string, password2: string) returns (valid: bool)
    ensures valid <==> Acceptable(password, password2)
  {
    var match_ := password == password2;
    var hasEight := |password| >= 8;
    var hasLower, hasUpper, hasNum, hasSpecial := false, false, false, false;
    for i := 0 to |password|
      invariant hasLower <==> HasLower(password[..i])
      invariant hasUpper <==> HasUpper(password[..i])
      invariant hasNum <==> HasDigit(password[..i])
      invariant hasSpecial <==> HasSpecial(password[..i])
    {
      var c := password[i];
      assert password[..i + 1] == password[..i] + [c];
      if IsLower(c) {
        hasLower := true;
      } else if IsUpper(c) {
        hasUpper := true;
      } else if IsDigit(c) {
        hasNum := true;
      } else {
        hasSpecial := true;
      }
    }
    assert password[..|password|] == password;
    valid := hasEight && hasUpper && hasLower && hasNum && hasSpecial && match_;
  }
}
