/**
 * The contact form: its validation schema, the email it sends to the
 * office, the subject choices, and the submit handler that clears the form
 * only when the message was sent.
 */
module ContactForm {
  import opened Js
  import opened Seqs
  import opened Schema
  import opened EmailService

  /** The form's fields; the phone and the newsletter box are optional. */
  datatype ContactValues = ContactValues(
    firstName: string,
    lastName: string,
    email: string,
    phone: Option<string>,
    subject: string,
    message: string,
    newsletter: Option<bool>)

  datatype ContactField = FirstName | LastName | Email | Subject | Body

  /** The message the schema shows under a field whose rule fails. */
  function Message(field: ContactField): string
  {
    match field
    case FirstName => "First name must be at least 2 characters"
    case LastName => "Last name must be at least 2 characters"
    case Email => "Please enter a valid email address"
    case Subject => "Please select a subject"
    case Body => "Message must be at least 10 characters"
  }

  /**
   * `contactSchema`'s rules in form order, evaluated on `v`; `isEmail` is
   * the email format check of the schema library. The phone and the
   * newsletter box have no rule.
   */
  function ContactRules(v: ContactValues, isEmail: string -> bool): seq<Rule<ContactField>>
  {
    [Rule(FirstName, CodeUnitLength(v.firstName) >= 2, Message(FirstName)),
     Rule(LastName, CodeUnitLength(v.lastName) >= 2, Message(LastName)),
     Rule(Email, isEmail(v.email), Message(Email)),
     Rule(Subject, CodeUnitLength(v.subject) >= 1, Message(Subject)),
     Rule(Body, CodeUnitLength(v.message) >= 10, Message(Body))]
  }

  /** `contactSchema` over the whole form. */
  function ValidateContact(v: ContactValues, isEmail: string -> bool): (errors: seq<FieldError<ContactField>>)
    ensures errors == [] <==>
      CodeUnitLength(v.firstName) >= 2 && CodeUnitLength(v.lastName) >= 2 && isEmail(v.email) && CodeUnitLength(v.subject) >= 1 && CodeUnitLength(v.message) >= 10
  {
    Errors(ContactRules(v, isEmail))
  }

  /** There is one rule per field, and it carries that field's message. */
  lemma ContactRulesByField(v: ContactValues, isEmail: string -> bool)
    ensures forall i, j :: 0 <= i < j < |ContactRules(v, isEmail)| ==>
      ContactRules(v, isEmail)[i].field != ContactRules(v, isEmail)[j].field
    ensures forall a :: a in ContactRules(v, isEmail) ==> a.message == Message(a.field)
  {
    var r := ContactRules(v, isEmail);
    forall i | 0 <= i < |r| ensures FieldRank(r[i].field) == i && r[i].message == Message(r[i].field) {
      if i == 0 {} else if i == 1 {} else if i == 2 {} else if i == 3 {} else {}
    }
  }

  /** The position of each field's rule in the schema. */
  function FieldRank(f: ContactField): nat
  {
    match f
    case FirstName => 0
    case LastName => 1
    case Email => 2
    case Subject => 3
    case Body => 4
  }

  /** Each field is flagged, with its message, exactly when its own rule fails; no other message ever shows. */
  lemma ValidateContactFields(v: ContactValues, isEmail: string -> bool, rule: Rule<ContactField>)
    requires rule in ContactRules(v, isEmail)
    ensures FieldError(rule.field, rule.message) in ValidateContact(v, isEmail) <==> !rule.ok
    ensures forall e :: e in ValidateContact(v, isEmail) ==> e.message == Message(e.field)
  {
    ContactRulesByField(v, isEmail);
    ErrorsExactly(ContactRules(v, isEmail), rule);
  }

  /** The error messages appear in form order, one for each field whose rule fails. */
  lemma ValidateContactOrder(v: ContactValues, isEmail: string -> bool)
    ensures ValidateContact(v, isEmail) == ErrorsOf(Filter(ContactRules(v, isEmail), Failing))
  {
    ErrorsAreFailingRules(ContactRules(v, isEmail));
  }

  /** With the other fields valid, a message of `length` 9 is refused and one of `length` 10 accepted. */
  lemma MessageLengthBoundary(v: ContactValues, isEmail: string -> bool)
    requires CodeUnitLength(v.firstName) >= 2 && CodeUnitLength(v.lastName) >= 2 && isEmail(v.email) && CodeUnitLength(v.subject) >= 1
    ensures CodeUnitLength(v.message) == 9 ==> ValidateContact(v, isEmail) != []
    ensures CodeUnitLength(v.message) == 10 ==> ValidateContact(v, isEmail) == []
    ensures ValidateContact(v, isEmail) == [] <==> CodeUnitLength(v.message) >= 10
  {
  }

  /** The phone and the newsletter box never decide whether the form is valid. */
  lemma OptionalFieldsIgnored(v: ContactValues, isEmail: string -> bool, phone: Option<string>, newsletter: Option<bool>)
    ensures ValidateContact(v.(phone := phone, newsletter := newsletter), isEmail) == ValidateContact(v, isEmail)
  {
    assert ContactRules(v.(phone := phone, newsletter := newsletter), isEmail) == ContactRules(v, isEmail);
  }

  /** The values the form starts with and is reset to. */
  const CONTACT_DEFAULTS: ContactValues := ContactValues("", "", "", Some(""), "", "", Some(false))

  /** The empty form is never valid. */
  lemma DefaultsInvalid(isEmail: string -> bool)
    ensures ValidateContact(CONTACT_DEFAULTS, isEmail) != []
  {
  }

  /** The email sent to the office. */
  datatype ContactEmail = ContactEmail(
    toEmail: string,
    fromName: string,
    fromEmail: string,
    phone: string,
    subject: string,
    message: string)

  /** `data.phone || 'Not provided'`. */
  function PhoneOrDefault(phone: Option<string>): (r: string)
    ensures r != []
    ensures phone.Some? && phone.value != [] ==> r == phone.value
    ensures phone.None? || phone.value == [] ==> r == "Not provided"
  {
    match phone
    case Some(p) => if Truthy(p) then p else "Not provided"
    case None => "Not provided"
  }

  /** The payload `onSubmit` builds from the form values. */
  function ContactPayload(v: ContactValues): ContactEmail
  {
    ContactEmail("info@tajindiatours.com", v.firstName + " " + v.lastName, v.email,
      PhoneOrDefault(v.phone), v.subject, v.message)
  }

  /**
   * The email always goes to the office, from the full name and the address
   * entered, with the subject and message as entered and a phone that is
   * never empty.
   */
  lemma PayloadContents(v: ContactValues)
    ensures ContactPayload(v).toEmail == "info@tajindiatours.com"
    ensures ContactPayload(v).fromName == v.firstName + " " + v.lastName
    ensures ContactPayload(v).fromEmail == v.email
    ensures ContactPayload(v).subject == v.subject && ContactPayload(v).message == v.message
    ensures ContactPayload(v).phone != []
  {
  }

  /** A missing or empty phone is sent as "Not provided"; any other phone as entered. */
  lemma PayloadPhone(v: ContactValues)
    ensures v.phone.None? || v.phone.value == [] ==> ContactPayload(v).phone == "Not provided"
    ensures v.phone.Some? && v.phone.value != [] ==> ContactPayload(v).phone == v.phone.value
  {
  }

  /** The newsletter box never reaches the email. */
  lemma PayloadIgnoresNewsletter(v: ContactValues, newsletter: Option<bool>)
    ensures ContactPayload(v.(newsletter := newsletter)) == ContactPayload(v)
  {
  }

  /** The values of the subject select. */
  const SUBJECT_OPTIONS: seq<string> := ["booking-inquiry", "custom-tour", "general-info", "group-booking", "support"]

  /** Five distinct choices, each of which satisfies the subject rule. */
  lemma SubjectOptionsValid()
    ensures |SUBJECT_OPTIONS| == 5
    ensures forall i, j :: 0 <= i < j < |SUBJECT_OPTIONS| ==> SUBJECT_OPTIONS[i] != SUBJECT_OPTIONS[j]
    ensures forall s :: s in SUBJECT_OPTIONS ==> CodeUnitLength(s) >= 1
  {
  }

  /** The contact form component. */
  class ContactPage {
    /** What the fields hold. */
    var values: ContactValues
    /** The emails whose sending was attempted so far. */
    var sent: seq<ContactEmail>

    constructor()
      ensures values == CONTACT_DEFAULTS && sent == []
    {
      values := CONTACT_DEFAULTS;
      sent := [];
    }

    /** A user edit: the fields now hold `v`. */
    method Edit(v: ContactValues)
      modifies this
      ensures values == v && sent == old(sent)
    {
      values := v;
    }

    /**
     * Submitting the form. The schema is checked first and on errors nothing
     * is sent. Otherwise the payload is sent (`outcome` is how the email
     * service handled it) and the form is reset iff the hook reports
     * success; otherwise the fields keep what was entered.
     */
    method Submit(isEmail: string -> bool, outcome: SendOutcome) returns (errors: seq<FieldError<ContactField>>)
      modifies this
      ensures errors == ValidateContact(old(values), isEmail)
      ensures sent == old(sent) + (if errors == [] then [ContactPayload(old(values))] else [])
      ensures values == if errors == [] && SendReported(outcome) then CONTACT_DEFAULTS else old(values)
    {
      errors := ValidateContact(values, isEmail);
      if errors != [] {
        assert sent + [] == sent;
        return;
      }
      sent := sent + [ContactPayload(values)];
      var success := SendReported(outcome);
      if success {
        values := CONTACT_DEFAULTS;
      }
    }
  }
}
