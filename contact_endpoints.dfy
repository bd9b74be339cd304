/**
 * ContactController: the public contact form endpoint and the admin list of
 * messages. The request body is a string map; a key that is absent stands
 * for a null value.
 */
module ContactEndpoints {
  import opened Wrappers
  import opened Text
  import opened Domain
  import opened Stores

  const THANKS: string := "Thank you for your message! We'll get back to you soon."
  const SORRY: string := "Sorry, there was an error sending your message. Please try again later."

  /** What handleContactForm answers: a plain-text 400, or a status with a message and a success flag. */
  datatype ContactResponse =
    | Rejected(text: string)
    | Replied(status: int, message: string, success: bool)

  /** `data.get(key)`, None for a missing key. */
  function Field(data: map<string, string>, key: string): (r: Option<string>)
    ensures r.Some? <==> key in data
    ensures r.Some? ==> r.value == data[key]
  {
    if key in data then Some(data[key]) else None
  }

  /** Some of the five required fields is null or blank. */
  predicate MissingField(data: map<string, string>) {
    || IsNullOrBlank(Field(data, "name")) || IsNullOrBlank(Field(data, "email"))
    || IsNullOrBlank(Field(data, "phone")) || IsNullOrBlank(Field(data, "subject"))
    || IsNullOrBlank(Field(data, "message"))
  }

  /** The contact built from a complete form: each field copied verbatim. */
  function ContactOf(data: map<string, string>): (c: Contact)
    requires !MissingField(data)
    ensures c.name == data["name"] && c.email == data["email"] && c.phone == data["phone"]
    ensures c.subject == data["subject"] && c.message == data["message"]
  {
    Contact(data["name"], data["email"], data["phone"], data["subject"], data["message"])
  }

  class ContactController {
    const contacts: ContactRepository

    constructor (contacts: ContactRepository)
      ensures this.contacts == contacts
    {
      this.contacts := contacts;
    }

    /**
     * POST /api/contact: a null or blank field is a 400 and nothing is
     * saved; otherwise the contact is saved. A failing save (`saveOk` false)
     * answers 500 with success false.
     */
    method HandleContactForm(data: map<string, string>, saveOk: bool) returns (r: ContactResponse)
      modifies contacts`contacts
      ensures MissingField(data) ==> r == Rejected("All fields are required") && contacts.contacts == old(contacts.contacts)
      ensures !MissingField(data) && !saveOk ==>
        r == Replied(500, SORRY, false) && contacts.contacts == old(contacts.contacts)
      ensures !MissingField(data) && saveOk ==>
        r == Replied(200, THANKS, true) && contacts.contacts == old(contacts.contacts) + [ContactOf(data)]
    {
      var name := Field(data, "name");
      var email := Field(data, "email");
      var phone := Field(data, "phone");
      var subject := Field(data, "subject");
      var message := Field(data, "message");
      if IsNullOrBlank(name) || IsNullOrBlank(email) || IsNullOrBlank(phone)
         || IsNullOrBlank(subject) || IsNullOrBlank(message) {
        return Rejected("All fields are required");
      }
      var contact := Contact(name.value, email.value, phone.value, subject.value, message.value);
      if !saveOk {
        return Replied(500, SORRY, false);
      }
      contacts.contacts := contacts.contacts + [contact];
      r := Replied(200, THANKS, true);
    }

    /** GET /api/admin/contacts: every stored message. */
    method GetAllContacts() returns (r: Response<seq<Contact>>)
      ensures r == Ok(contacts.contacts)
    {
      r := Ok(contacts.contacts);
    }
  }
}
