/**
 * The contact page: the form state, the per-keystroke checks of the phone
 * number and the message, and the submit handler that posts the form to
 * the contact endpoint. The browser's own constraint validation (required,
 * minLength, maxLength, type="email") is the predicate NativeValid, with the
 * browser's verdict on the email address passed in.
 */
module ContactPage {
  import opened Wrappers
  import opened Text
  import opened FormRules
  import opened ContactEndpoints

  const PHONE_HINT: string := "Please enter a valid 10-digit number starting with 9 or 8."
  const MESSAGE_SHORT: string := "Message must be at least 20 characters long."
  const MESSAGE_LONG: string := "Message must not exceed 500 characters."

  /** The form as first shown: the five fields, empty. */
  const EMPTY_CONTACT: map<string, string> :=
    map["name" := "", "email" := "", "phone" := "", "subject" := "", "message" := ""]

  /** The phone error shown after an edit of the phone field: empty exactly for ten digits starting with 8 or 9. */
  function PhoneHint(value: string): (r: string)
    ensures r == "" <==> PhonePattern(value)
    ensures r != "" ==> r == PHONE_HINT
  {
    if !PhonePattern(value) then PHONE_HINT else ""
  }

  /** The message error shown after an edit of the message field: empty exactly for 20 to 500 characters. */
  function MessageHint(value: string): (r: string)
    ensures r == "" <==> 20 <= |value| <= 500
    ensures |value| < 20 ==> r == MESSAGE_SHORT
    ensures |value| > 500 ==> r == MESSAGE_LONG
  {
    if |value| < 20 then MESSAGE_SHORT
    else if |value| > 500 then MESSAGE_LONG
    else ""
  }

  /** A field the browser requires: present and not the empty string (whitespace counts as filled). */
  predicate Filled(f: map<string, string>, key: string) {
    key in f && f[key] != ""
  }

  /** Length limits of a filled field, checked by the browser. */
  predicate LengthWithin(f: map<string, string>, key: string, lo: nat, hi: nat) {
    key in f && lo <= |f[key]| <= hi
  }

  /**
   * `form.checkValidity()`: every field required, the name 2 to 50 and the
   * subject 5 to 100 characters, and the email accepted by the browser
   * (`emailOk`).
   */
  predicate NativeValid(f: map<string, string>, emailOk: bool) {
    && Filled(f, "name") && LengthWithin(f, "name", 2, 50)
    && Filled(f, "email") && emailOk
    && Filled(f, "phone")
    && Filled(f, "subject") && LengthWithin(f, "subject", 5, 100)
    && Filled(f, "message")
  }

  /**
   * What the page lets through reaches the endpoint with every field
   * present; the endpoint still refuses it exactly when some field is
   * whitespace only.
   */
  lemma SentFormReachesEndpoint(f: map<string, string>, emailOk: bool)
    requires NativeValid(f, emailOk)
    ensures MissingField(f) <==>
      IsBlank(f["name"]) || IsBlank(f["email"]) || IsBlank(f["phone"]) || IsBlank(f["subject"]) || IsBlank(f["message"])
  {
    assert Field(f, "name") == Some(f["name"]);
    assert Field(f, "email") == Some(f["email"]);
    assert Field(f, "phone") == Some(f["phone"]);
    assert Field(f, "subject") == Some(f["subject"]);
    assert Field(f, "message") == Some(f["message"]);
  }

  /** A form whose name is two spaces passes every check on the page and is refused by the endpoint. */
  lemma BlankNamePassesPage()
    ensures var f := map["name" := "  ", "email" := "a@b.co", "phone" := "9123456789",
                         "subject" := "Hello", "message" := "Please tell me more!"];
      && NativeValid(f, true) && PhoneHint(f["phone"]) == "" && MessageHint(f["message"]) == ""
      && MissingField(f)
  {
    var f := map["name" := "  ", "email" := "a@b.co", "phone" := "9123456789",
                 "subject" := "Hello", "message" := "Please tell me more!"];
    assert Field(f, "name") == Some("  ");
    assert IsBlank("  ");
  }

  class ContactForm {
    var formData: map<string, string>
    var validated: bool
    var phoneError: string
    var messageError: string
    var showAlert: bool
    var isSubmitting: bool

    constructor ()
      ensures formData == EMPTY_CONTACT && !validated && phoneError == "" && messageError == ""
      ensures !showAlert && !isSubmitting
    {
      formData := EMPTY_CONTACT;
      validated := false;
      phoneError := "";
      messageError := "";
      showAlert := false;
      isSubmitting := false;
    }

    /** handleChange: the edited field takes the value; only an edit of the phone or the message re-checks that field. */
    method HandleChange(name: string, value: string)
      modifies this`formData, this`phoneError, this`messageError
      ensures formData == old(formData)[name := value]
      ensures phoneError == (if name == "phone" then PhoneHint(value) else old(phoneError))
      ensures messageError == (if name == "message" then MessageHint(value) else old(messageError))
    {
      formData := formData[name := value];
      if name == "phone" {
        if !PhonePattern(value) {
          phoneError := PHONE_HINT;
        } else {
          phoneError := "";
        }
      }
      if name == "message" {
        if |value| < 20 {
          messageError := MESSAGE_SHORT;
        } else if |value| > 500 {
          messageError := MESSAGE_LONG;
        } else {
          messageError := "";
        }
      }
    }

    /**
     * handleSubmit. A form the browser refuses, or one with a phone or
     * message error on show, is marked validated and nothing is sent.
     * Otherwise the form data is posted; `status` is the response status,
     * None when the request fails. Any status outside 2xx fails the request
     * as well. A 200 clears the form and shows the alert; a failure shows
     * the alert and keeps the form.
     */
    method HandleSubmit(emailOk: bool, status: Option<int>) returns (sent: Option<map<string, string>>)
      modifies this`formData, this`validated, this`showAlert, this`isSubmitting
      ensures !isSubmitting
      ensures sent.Some? <==> NativeValid(old(formData), emailOk) && phoneError == "" && messageError == ""
      ensures sent.None? ==>
        validated && formData == old(formData) && showAlert == old(showAlert)
      ensures sent.Some? ==> sent.value == old(formData)
      ensures sent.Some? && status == Some(200) ==>
        formData == EMPTY_CONTACT && showAlert && !validated
      ensures sent.Some? && (status.None? || !(200 <= status.value < 300)) ==>
        formData == old(formData) && showAlert && validated == old(validated)
      ensures sent.Some? && status.Some? && 200 < status.value < 300 ==>
        formData == old(formData) && showAlert == old(showAlert) && validated == old(validated)
    {
      if !NativeValid(formData, emailOk) || phoneError != "" || messageError != "" {
        validated := true;
        isSubmitting := false;
        return None;
      }
      isSubmitting := true;
      sent := Some(formData);
      if status.None? || !(200 <= status.value < 300) {
        showAlert := true;
      } else if status.value == 200 {
        showAlert := true;
        formData := EMPTY_CONTACT;
        validated := false;
      }
      isSubmitting := false;
    }
  }
}
