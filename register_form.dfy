/**
 * The sign-up page: its field rules, the validateForm pass that records the
 * first failing rule of each field, the user-type toggle, and the payload it
 * submits. Lengths are counted in characters.
 */
module RegisterPage {
  import opened Wrappers
  import opened Text
  import opened Domain
  import opened FormRules
  import opened ApiEndpoints

  /** The page's form state. */
  datatype RegisterData = RegisterData(
    firstName: string,
    lastName: string,
    email: string,
    phone: string,
    password: string,
    confirmPassword: string,
    secretKey: string)

  const EMPTY_REGISTER: RegisterData := RegisterData("", "", "", "", "", "", "")

  /** The key the page itself expects from an admin sign-up. */
  const PAGE_ADMIN_KEY: string := "ADMIN123"

  /** A first or last name ("First"/"Last" in `which`): required, 2 to 50 characters, letters and spaces. */
  function NameError(which: string, s: string): (r: Option<string>)
    ensures r.None? <==> !JsBlank(s) && 2 <= |s| <= 50 && LettersAndSpaces(s)
  {
    if JsBlank(s) then Some(which + " name is required")
    else if |s| < 2 then Some(which + " name must be at least 2 characters")
    else if |s| > 50 then Some(which + " name must not exceed 50 characters")
    else if !LettersAndSpaces(s) then Some(which + " name can only contain letters and spaces")
    else None
  }

  /** Email: required, the address pattern, then at most 100 characters. */
  function EmailError(s: string): (r: Option<string>)
    ensures r.None? <==> EmailPattern(s) && |s| <= 100
  {
    EmailNotBlank(s);
    if JsBlank(s) then Some("Email is required")
    else if !EmailPattern(s) then Some("Please enter a valid email address")
    else if |s| > 100 then Some("Email must not exceed 100 characters")
    else None
  }

  /** Phone: required, then ten digits starting with 8 or 9. */
  function PhoneError(s: string): (r: Option<string>)
    ensures r.None? <==> PhonePattern(s)
  {
    PhoneNotBlank(s);
    if JsBlank(s) then Some("Phone number is required")
    else if !PhonePattern(s) then Some("Phone must be 10 digits starting with 8 or 9")
    else None
  }

  /** Password: required, 8 to 50 characters, a lower-case and an upper-case letter, a digit and a special character. */
  function PasswordError(s: string): (r: Option<string>)
    ensures r.None? <==> 8 <= |s| <= 50 && HasLowerCase(s) && HasUpperCase(s) && HasDigit(s) && HasSpecial(s)
  {
    if s == "" then Some("Password is required")
    else if |s| < 8 then Some("Password must be at least 8 characters")
    else if |s| > 50 then Some("Password must not exceed 50 characters")
    else if !HasLowerCase(s) then Some("Password must contain at least one lowercase letter")
    else if !HasUpperCase(s) then Some("Password must contain at least one uppercase letter")
    else if !HasDigit(s) then Some("Password must contain at least one number")
    else if !HasSpecial(s) then Some("Password must contain at least one special character (@$!%*?&)")
    else None
  }

  /** Confirmation: required, then equal to the password. */
  function ConfirmError(password: string, confirm: string): (r: Option<string>)
    ensures r.None? <==> confirm != "" && confirm == password
  {
    if confirm == "" then Some("Please confirm your password")
    else if password != confirm then Some("Passwords do not match")
    else None
  }

  /** The secret key, checked only for an admin sign-up, trimmed, against the page's key. */
  function SecretKeyError(userType: string, key: string): (r: Option<string>)
    ensures r.None? <==> userType != "admin" || JsTrim(key) == PAGE_ADMIN_KEY
  {
    JsBlankIsTrimmedEmpty(key);
    if userType != "admin" then None
    else if JsBlank(key) then Some("Secret key is required for admin registration")
    else if JsTrim(key) != PAGE_ADMIN_KEY then Some("Invalid secret key")
    else None
  }

  /** `errors[key] = e` when the rule failed. */
  function Record(errors: map<string, string>, key: string, e: Option<string>): map<string, string> {
    if e.Some? then errors[key := e.value] else errors
  }

  /** The errors object validateForm builds: one entry per failing field, its first failing rule. */
  function RegisterErrors(d: RegisterData, userType: string): map<string, string> {
    var m0 := Record(map[], "firstName", NameError("First", d.firstName));
    var m1 := Record(m0, "lastName", NameError("Last", d.lastName));
    var m2 := Record(m1, "email", EmailError(d.email));
    var m3 := Record(m2, "phone", PhoneError(d.phone));
    var m4 := Record(m3, "password", PasswordError(d.password));
    var m5 := Record(m4, "confirmPassword", ConfirmError(d.password, d.confirmPassword));
    Record(m5, "secretKey", SecretKeyError(userType, d.secretKey))
  }

  /** No field rule fails; what each rule demands is stated by its error function. */
  predicate AllRulesHold(d: RegisterData, userType: string) {
    && NameError("First", d.firstName).None? && NameError("Last", d.lastName).None?
    && EmailError(d.email).None? && PhoneError(d.phone).None?
    && PasswordError(d.password).None? && ConfirmError(d.password, d.confirmPassword).None?
    && SecretKeyError(userType, d.secretKey).None?
  }

  /** Recording leaves the errors empty exactly when they were empty and the rule passed. */
  lemma RecordEmpty(errors: map<string, string>, key: string, e: Option<string>)
    ensures Record(errors, key, e) == map[] <==> errors == map[] && e.None?
  {
    if e.Some? {
      assert key in Record(errors, key, e);
    }
  }

  /** The errors object is empty exactly when every rule holds. */
  lemma NoErrorsIffRulesHold(d: RegisterData, userType: string)
    ensures RegisterErrors(d, userType) == map[] <==> AllRulesHold(d, userType)
  {
    var m0 := Record(map[], "firstName", NameError("First", d.firstName));
    var m1 := Record(m0, "lastName", NameError("Last", d.lastName));
    var m2 := Record(m1, "email", EmailError(d.email));
    var m3 := Record(m2, "phone", PhoneError(d.phone));
    var m4 := Record(m3, "password", PasswordError(d.password));
    var m5 := Record(m4, "confirmPassword", ConfirmError(d.password, d.confirmPassword));
    RecordEmpty(map[], "firstName", NameError("First", d.firstName));
    RecordEmpty(m0, "lastName", NameError("Last", d.lastName));
    RecordEmpty(m1, "email", EmailError(d.email));
    RecordEmpty(m2, "phone", PhoneError(d.phone));
    RecordEmpty(m3, "password", PasswordError(d.password));
    RecordEmpty(m4, "confirmPassword", ConfirmError(d.password, d.confirmPassword));
    RecordEmpty(m5, "secretKey", SecretKeyError(userType, d.secretKey));
  }

  /** The body the page posts to /api/register. */
  datatype RegisterPayload = RegisterPayload(
    firstName: string,
    lastName: string,
    email: string,
    phone: string,
    password: string,
    role: string,
    secretKey: string)

  /** The payload of a form: the role is "ADMIN" for the admin toggle and "USER" otherwise; the key is sent untrimmed. */
  function PayloadOf(d: RegisterData, userType: string): (p: RegisterPayload)
    ensures p.role == (if userType == "admin" then "ADMIN" else "USER")
    ensures p.secretKey == d.secretKey && p.email == d.email && p.password == d.password
    ensures p.firstName == d.firstName && p.lastName == d.lastName && p.phone == d.phone
  {
    RegisterPayload(d.firstName, d.lastName, d.email, d.phone, d.password,
                    if userType == "admin" then "ADMIN" else "USER", d.secretKey)
  }

  /** Trimming a word with one leading space gives the word back. */
  lemma PaddedWordTrims(k: string)
    requires |k| > 0 && !IsJsSpace(k[0]) && !IsJsSpace(k[|k| - 1])
    ensures JsTrim([' '] + k) == k
  {
    var key := [' '] + k;
    assert key[1..] == k;
    var t := TrimStart(key, IsJsSpace);
    assert t == TrimStart(k, IsJsSpace);
    assert TrimStart(k, IsJsSpace) == k;
    assert TrimEnd(k, IsJsSpace) == k;
  }

  /**
   * The page trims the key before comparing, the server does not: a key
   * padded with a space passes the page, and the server (whose key is the
   * page's) then registers an ordinary user.
   */
  lemma PaddedKeyRegistersUser(d: RegisterData)
    requires d.secretKey == " " + PAGE_ADMIN_KEY
    ensures SecretKeyError("admin", d.secretKey).None?
    ensures RegisteredRole(PayloadOf(d, "admin").role, Some(PayloadOf(d, "admin").secretKey), PAGE_ADMIN_KEY) == ROLE_USER
  {
    var k := PAGE_ADMIN_KEY;
    assert !IsJsSpace(k[0]) && !IsJsSpace(k[|k| - 1]);
    PaddedWordTrims(k);
    assert d.secretKey != PAGE_ADMIN_KEY by {
      assert |d.secretKey| != |PAGE_ADMIN_KEY|;
    }
  }

  /** An admin sign-up with exactly the server's key becomes an admin there. */
  lemma AdminPayloadRegistersAdmin(d: RegisterData, serverKey: string)
    requires d.secretKey == serverKey
    ensures RegisteredRole(PayloadOf(d, "admin").role, Some(PayloadOf(d, "admin").secretKey), serverKey) == ROLE_ADMIN
  {
    AdminRoleAnyCase("ADMIN");
  }

  /** One rule of validateForm: a failure is recorded under `key` and clears `isValid`. */
  method Note(errors: map<string, string>, isValid: bool, key: string, e: Option<string>)
    returns (errors': map<string, string>, isValid': bool)
    ensures errors' == Record(errors, key, e)
    ensures isValid' <==> isValid && e.None?
    ensures errors' == map[] <==> errors == map[] && e.None?
  {
    errors', isValid' := errors, isValid;
    if e.Some? {
      errors' := errors'[key := e.value];
      isValid' := false;
    }
    RecordEmpty(errors, key, e);
  }

  /** The form field an input's `name` attribute names, None for a name the form does not have. */
  function FieldOf(d: RegisterData, name: string): Option<string> {
    match name
    case "firstName" => Some(d.firstName)
    case "lastName" => Some(d.lastName)
    case "email" => Some(d.email)
    case "phone" => Some(d.phone)
    case "password" => Some(d.password)
    case "confirmPassword" => Some(d.confirmPassword)
    case "secretKey" => Some(d.secretKey)
    case _ => None
  }

  /**
   * `{ ...formData, [name]: value }`: the named field takes the value and
   * every other field keeps its own; a name the form does not have changes
   * nothing here.
   */
  function WithField(d: RegisterData, name: string, value: string): (r: RegisterData)
    ensures FieldOf(d, name).Some? ==> FieldOf(r, name) == Some(value)
    ensures forall n :: n != name ==> FieldOf(r, n) == FieldOf(d, n)
    ensures FieldOf(d, name).None? ==> r == d
  {
    match name
    case "firstName" => d.(firstName := value)
    case "lastName" => d.(lastName := value)
    case "email" => d.(email := value)
    case "phone" => d.(phone := value)
    case "password" => d.(password := value)
    case "confirmPassword" => d.(confirmPassword := value)
    case "secretKey" => d.(secretKey := value)
    case _ => d
  }

  class RegisterForm {
    var formData: RegisterData
    var userType: string
    var validationErrors: map<string, string>

    constructor ()
      ensures formData == EMPTY_REGISTER && userType == "user"
      ensures validationErrors == map["firstName" := "", "lastName" := "", "email" := "", "phone" := "",
                                      "password" := "", "confirmPassword" := "", "secretKey" := ""]
    {
      formData := EMPTY_REGISTER;
      userType := "user";
      validationErrors := map["firstName" := "", "lastName" := "", "email" := "", "phone" := "",
                              "password" := "", "confirmPassword" := "", "secretKey" := ""];
    }

    /**
     * validateForm: each field's rules in turn, the first failing one
     * recorded under the field's name; the errors replace the shown ones and
     * the answer says whether none was recorded.
     */
    method ValidateForm() returns (isValid: bool)
      modifies this`validationErrors
      ensures validationErrors == RegisterErrors(formData, userType)
      ensures isValid <==> validationErrors == map[]
      ensures isValid <==> AllRulesHold(formData, userType)
    {
      var errors: map<string, string> := map[];
      isValid := true;
      errors, isValid := Note(errors, isValid, "firstName", NameError("First", formData.firstName));
      errors, isValid := Note(errors, isValid, "lastName", NameError("Last", formData.lastName));
      errors, isValid := Note(errors, isValid, "email", EmailError(formData.email));
      errors, isValid := Note(errors, isValid, "phone", PhoneError(formData.phone));
      errors, isValid := Note(errors, isValid, "password", PasswordError(formData.password));
      errors, isValid := Note(errors, isValid, "confirmPassword", ConfirmError(formData.password, formData.confirmPassword));
      errors, isValid := Note(errors, isValid, "secretKey", SecretKeyError(userType, formData.secretKey));
      validationErrors := errors;
      NoErrorsIffRulesHold(formData, userType);
    }

    /** handleChange: the edited field takes the value, and an error shown for that field is cleared. */
    method HandleChange(name: string, value: string)
      modifies this`formData, this`validationErrors
      ensures formData == WithField(old(formData), name, value)
      ensures validationErrors ==
        if name in old(validationErrors) && old(validationErrors)[name] != "" then old(validationErrors)[name := ""]
        else old(validationErrors)
    {
      formData := WithField(formData, name, value);
      if name in validationErrors && validationErrors[name] != "" {
        validationErrors := validationErrors[name := ""];
      }
    }

    /** handleUserTypeChange: the new type, with the secret key and its error cleared. */
    method HandleUserTypeChange(val: string)
      modifies this
      ensures userType == val
      ensures formData == old(formData).(secretKey := "")
      ensures validationErrors == old(validationErrors)["secretKey" := ""]
    {
      userType := val;
      formData := formData.(secretKey := "");
      validationErrors := validationErrors["secretKey" := ""];
    }

    /** handleSubmit: nothing is sent unless validateForm passes; then the payload is. */
    method HandleSubmit() returns (sent: Option<RegisterPayload>)
      modifies this`validationErrors
      ensures validationErrors == RegisterErrors(formData, userType)
      ensures sent.Some? <==> AllRulesHold(formData, userType)
      ensures sent.Some? ==> sent.value == PayloadOf(formData, userType)
    {
      var ok := ValidateForm();
      if !ok {
        return None;
      }
      sent := Some(PayloadOf(formData, userType));
    }
  }
}
