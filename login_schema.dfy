/** validators/loginSchema.js: the sign-up, log-in, forgotten-password and
    reset forms. A schema either yields the converted value or names the
    fields that failed (every failing field is reported, not only the first). */
module LoginSchema {
  import opened Common

  datatype Validated<T> = Valid(value: T) | Invalid(fields: set<string>)

  // ---------------------------------------------------------------------
  // baseEmail: Joi.string().trim().lowercase().email({ tlds: { allow: false } })
  // ---------------------------------------------------------------------

  /** What the email rule validates and returns: the input trimmed, then lower-cased. */
  function NormalEmail(s: string): (e: string)
    ensures |e| <= |s|
  {
    ToLower(Trim(s))
  }

  /** Lower-casing never turns white space into anything else, nor anything else into white space. */
  lemma LowerKeepsSpace(c: char)
    ensures IsSpace(LowerChar(c)) <==> IsSpace(c)
  {
  }

  /** Normalising an already normal address changes nothing. */
  lemma {:induction false} NormalEmailIdempotent(s: string)
    ensures NormalEmail(NormalEmail(s)) == NormalEmail(s)
  {
    var t := Trim(s);
    var e := ToLower(t);
    if e != [] {
      LowerKeepsSpace(t[0]);
      LowerKeepsSpace(t[|t| - 1]);
    }
    TrimStartKeeps(e);
    TrimEndKeeps(e);
    assert Trim(e) == e;
    assert ToLower(e) == e;
  }

  /** No white space inside. */
  predicate NoSpace(s: string) {
    forall i :: 0 <= i < |s| ==> !IsSpace(s[i])
  }

  /** The address shape the rule accepts, without top-level-domain checks: one
      '@' between a non-empty local part and a domain of at least two non-empty
      dot-separated labels, with no white space anywhere. The finer grammar of
      local parts and labels is not part of this model. */
  predicate IsEmail(s: string) {
    var at := Split(s, '@');
    NoSpace(s) && |at| == 2 && at[0] != [] && IsDomain(at[1])
  }

  predicate IsDomain(d: string) {
    var labels := Split(d, '.');
    |labels| >= 2 && forall k :: 0 <= k < |labels| ==> labels[k] != []
  }

  /** The email rule on one field: required, not empty once trimmed, well formed once normalised. */
  function EmailField(f: Field): Option<string> {
    if f.Text? && NormalEmail(f.s) != "" && IsEmail(NormalEmail(f.s)) then Some(NormalEmail(f.s)) else None
  }

  /** The returned address is normal: trimmed, lower-case, and a valid address. */
  lemma EmailFieldNormal(f: Field)
    requires EmailField(f).Some?
    ensures NormalEmail(EmailField(f).value) == EmailField(f).value
    ensures IsEmail(EmailField(f).value)
    ensures forall i :: 0 <= i < |EmailField(f).value| ==> !('A' <= EmailField(f).value[i] <= 'Z')
  {
    NormalEmailIdempotent(f.s);
  }

  /** Addresses that differ only in case and surrounding white space are the same address. */
  lemma EmailFieldIgnoresCaseAndSpace(s: string, t: string)
    requires NormalEmail(s) == NormalEmail(t)
    ensures EmailField(Text(s)) == EmailField(Text(t))
  {
  }

  // ---------------------------------------------------------------------
  // Field rules
  // ---------------------------------------------------------------------

  /** `Joi.string().trim().min(2).required()`: the trimmed value, at least two long. */
  function NameField(f: Field): Option<string> {
    if f.Text? && |Trim(f.s)| >= 2 then Some(Trim(f.s)) else None
  }

  /** `Joi.string().min(6).required()`. */
  predicate PasswordOk(f: Field) {
    f.Text? && |f.s| >= 6
  }

  /** `Joi.any().valid(Joi.ref('password')).required()`: present and equal to the password. */
  predicate ConfirmOk(confirm: Field, password: Field) {
    !confirm.Missing? && confirm == password
  }

  /** `Joi.string().trim().allow('', null)`: absent, null or any string, trimmed. */
  function PhoneField(f: Field): Option<string> {
    if f.Text? then Some(Trim(f.s)) else None
  }

  // ---------------------------------------------------------------------
  // The four schemas
  // ---------------------------------------------------------------------

  datatype SignupForm = SignupForm(name: Field, email: Field, phone: Field, role: Field, password: Field, confirm: Field)

  /** The converted sign-up value; the phone is `None` when absent or null. */
  datatype Signup = Signup(name: string, email: string, phone: Option<string>, role: string, password: string)

  function FailIf(bad: bool, field: string): set<string> {
    if bad then {field} else {}
  }

  /** `signupSchema.validate(form, { abortEarly: false, stripUnknown: true })`. */
  function ValidateSignup(f: SignupForm): (r: Validated<Signup>)
    ensures r.Invalid? ==> r.fields != {}
  {
    var errors :=
      FailIf(NameField(f.name).None?, "name") +
      FailIf(EmailField(f.email).None?, "email") +
      FailIf(f.role != Text("contractor") && f.role != Text("landowner"), "role") +
      FailIf(!PasswordOk(f.password), "password") +
      FailIf(!ConfirmOk(f.confirm, f.password), "confirm");
    if errors == {} then
      Valid(Signup(NameField(f.name).value, EmailField(f.email).value, PhoneField(f.phone), f.role.s, f.password.s))
    else Invalid(errors)
  }

  /** A sign-up is accepted exactly when every rule holds, and then carries the
      trimmed name, the normal address, one of the two roles and a password of at
      least six characters that the confirmation repeats. */
  lemma SignupRules(f: SignupForm)
    ensures ValidateSignup(f).Valid? <==>
      NameField(f.name).Some? && EmailField(f.email).Some? &&
      f.role in {Text("contractor"), Text("landowner")} &&
      PasswordOk(f.password) && ConfirmOk(f.confirm, f.password)
    ensures ValidateSignup(f).Valid? ==>
      var v := ValidateSignup(f).value;
      |v.name| >= 2 && Trim(v.name) == v.name && NormalEmail(v.email) == v.email &&
      v.role in {"contractor", "landowner"} && |v.password| >= 6 && f.confirm == Text(v.password)
    ensures ValidateSignup(f).Invalid? ==>
      ("name" in ValidateSignup(f).fields <==> NameField(f.name).None?) &&
      ("confirm" in ValidateSignup(f).fields <==> !ConfirmOk(f.confirm, f.password))
  {
    if ValidateSignup(f).Valid? {
      TrimIdempotent(f.name.s);
      EmailFieldNormal(f.email);
    }
  }

  /** Whatever the phone field holds (absent, null or a string), it never makes a sign-up fail. */
  lemma PhoneOptional(f: SignupForm, phone: Field)
    ensures ValidateSignup(f).Valid? <==> ValidateSignup(f.(phone := phone)).Valid?
  {
    SignupRules(f);
    SignupRules(f.(phone := phone));
  }

  datatype LoginForm = LoginForm(identifier: Field, password: Field)

  datatype Login = Login(identifier: string, password: string)

  /** `loginSchema`: an address and a non-empty password. */
  function ValidateLogin(f: LoginForm): (r: Validated<Login>)
    ensures r.Valid? <==> EmailField(f.identifier).Some? && f.password.Text? && f.password.s != ""
    ensures r.Valid? ==> r.value.identifier == EmailField(f.identifier).value && r.value.password == f.password.s
  {
    var errors :=
      FailIf(EmailField(f.identifier).None?, "identifier") +
      FailIf(!(f.password.Text? && f.password.s != ""), "password");
    if errors == {} then Valid(Login(EmailField(f.identifier).value, f.password.s)) else Invalid(errors)
  }

  /** `forgotSchema`: an address. */
  function ValidateForgot(email: Field): (r: Validated<string>)
    ensures r.Valid? <==> EmailField(email).Some?
    ensures r.Valid? ==> NormalEmail(r.value) == r.value
  {
    match EmailField(email)
    case Some(e) =>
      EmailFieldNormal(email);
      Valid(e)
    case None => Invalid({"email"})
  }

  /** `resetSchema`: a password of at least six characters, confirmed. */
  function ValidateReset(password: Field, confirm: Field): (r: Validated<string>)
    ensures r.Valid? <==> PasswordOk(password) && ConfirmOk(confirm, password)
    ensures r.Valid? ==> |r.value| >= 6 && confirm == Text(r.value)
  {
    var errors := FailIf(!PasswordOk(password), "password") + FailIf(!ConfirmOk(confirm, password), "confirm");
    if errors == {} then Valid(password.s) else Invalid(errors)
  }
}
