/** `loginFormSchema` and `registerFormSchema`. A field the form never set is
    `None` (undefined, which zod reports as required). */
module Validator {
  import opened Common
  import opened Types

  const PasswordMin: nat := 3
  const PasswordMax: nat := 20
  const NameMin: nat := 3
  const PhoneMin: nat := 3

  /** Login: both fields present as strings; nothing else is checked. */
  predicate LoginValid(email: Option<string>, password: Option<string>) {
    email.Some? && password.Some?
  }

  lemma LoginAcceptsAnyStrings(email: string, password: string)
    ensures LoginValid(Some(email), Some(password))
  {
  }

  predicate IsUpper(c: char) { 'A' <= c <= 'Z' }
  predicate IsLower(c: char) { 'a' <= c <= 'z' }
  predicate IsDigit(c: char) { '0' <= c <= '9' }
  predicate IsSpecial(c: char) { c in "!@#$%^&*" }

  /** `/[cls]/.test(s)`: some character of `s` is in the class. */
  predicate HasChar(s: string, cls: char -> bool) {
    exists i :: 0 <= i < |s| && cls(s[i])
  }

  /** The password rule: 3 to 20 characters (both bounds inclusive) and one of
      each class. */
  predicate PasswordValid(p: string) {
    && PasswordMin <= |p| <= PasswordMax
    && HasChar(p, IsUpper)
    && HasChar(p, IsLower)
    && HasChar(p, IsDigit)
    && HasChar(p, IsSpecial)
  }

  /** The roles offered at registration. */
  predicate RoleValid(role: Option<string>) {
    role == Some(RoleUser) || role == Some(RoleDermatologist)
  }

  datatype RegisterForm = RegisterForm(
    email: Option<string>,
    password: Option<string>,
    name: Option<string>,
    role: Option<string>,
    phone: Option<string>)

  /** The whole register schema; `isEmail` is zod's e-mail format test. */
  predicate RegisterValid(f: RegisterForm, isEmail: string -> bool) {
    && f.email.Some? && isEmail(f.email.value)
    && f.password.Some? && PasswordValid(f.password.value)
    && f.name.Some? && |f.name.value| >= NameMin
    && RoleValid(f.role)
    && f.phone.Some? && |f.phone.value| >= PhoneMin
  }

  /** The four classes are pairwise disjoint, so an accepted password has at
      least four characters: the lower bound of 3 never binds. */
  lemma {:induction false} AcceptedPasswordLength(p: string)
    requires PasswordValid(p)
    ensures 4 <= |p| <= PasswordMax
  {
    var a :| 0 <= a < |p| && IsUpper(p[a]);
    var b :| 0 <= b < |p| && IsLower(p[b]);
    var c :| 0 <= c < |p| && IsDigit(p[c]);
    var d :| 0 <= d < |p| && IsSpecial(p[d]);
    ClassesDisjoint(p[a]);
    ClassesDisjoint(p[b]);
    ClassesDisjoint(p[c]);
    assert a != b && a != c && a != d && b != c && b != d && c != d;
  }

  /** No character is in two of the four classes. */
  lemma ClassesDisjoint(x: char)
    ensures IsUpper(x) ==> !IsLower(x) && !IsDigit(x) && !IsSpecial(x)
    ensures IsLower(x) ==> !IsDigit(x) && !IsSpecial(x)
    ensures IsDigit(x) ==> !IsSpecial(x)
  {
  }

  /** Nobody can register as an administrator. */
  lemma NoAdminRegistration(f: RegisterForm, isEmail: string -> bool)
    requires f.role == Some(RoleAdmin)
    ensures !RegisterValid(f, isEmail)
  {
  }

  /** For example, "Ab1!" is accepted and "Abc1" (no special character) is not. */
  lemma PasswordExamples(good: string, bad: string)
    requires good == "Ab1!" && bad == "Abc1"
    ensures PasswordValid(good)
    ensures !PasswordValid(bad)
  {
    assert IsUpper(good[0]) && IsLower(good[1]) && IsDigit(good[2]) && IsSpecial(good[3]);
    forall i | 0 <= i < |bad|
      ensures !IsSpecial(bad[i])
    {
      assert bad[i] in "Abc1";
    }
  }

}
