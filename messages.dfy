/** The text the notification adapters send: the contact-form SMS body, the
    contact-form email subject, the two booking SMS bodies and the calendar
    event summary, assembled from the submitted fields. */
module Messages {
  import opened Text

  /** Fields passed to `EmailService.sendContactFormNotification` and
      `sendCustomerConfirmation`. */
  datatype ContactNotice = ContactNotice(
    firstName: string, lastName: string, email: string, phone: string,
    service: string, vehicle: string, message: string, urgent: bool)

  /** Fields passed to `SMSService.sendContactFormNotification`. */
  datatype ContactSms = ContactSms(
    name: string, phone: string, email: string, service: string,
    message: string, urgent: bool)

  /** Fields passed to the two booking SMS operations. */
  datatype BookingSms = BookingSms(
    customerName: string, phone: string, service: string,
    date: string, time: string, vehicle: string)

  /** The tag put in front of urgent contact notifications. */
  const UrgentTag := "[URGENT] "

  const UrgentClosing := "This is marked as urgent - please respond promptly."
  const RoutineClosing := "Please follow up with the customer."

  /** The fixed text between the fields of the messages. */
  const ContactSmsLead := "New contact form submission:\n\nName: "
  const ContactSubjectLead := "New Contact Form Submission - "
  const BookingLead := "! Your automotive electrical service appointment at Auto Electric Missoula is confirmed:\n\nService: "
  const BookingFooter := "\n\nWe'll send you a reminder 24 hours before your appointment. If you need to reschedule, please call us at (406) 555-0123.\n\n- Auto Electric Missoula Team"
  const BusinessBookingLead := "New appointment booking at Auto Electric Missoula:\n\nCustomer: "
  const BusinessBookingFooter := "\n\nPlease confirm appointment and prepare for service."

  /** The subject of the confirmation email sent to the customer. */
  const CustomerConfirmationSubject := "Thank you for contacting Auto Electric Missoula"

  /** `${firstName} ${lastName}`. */
  function FullName(first: string, last: string): (name: string) {
    first + " " + last
  }

  /** The SMS body sent to the business for a contact-form submission. */
  function ContactSmsBody(c: ContactSms): (body: string)
    ensures StartsWith(body, (if c.urgent then UrgentTag else "") + ContactSmsLead + c.name)
    ensures EndsWith(body, if c.urgent then UrgentClosing else RoutineClosing)
  {
    var head := (if c.urgent then UrgentTag else "") + ContactSmsLead + c.name;
    var closing := if c.urgent then UrgentClosing else RoutineClosing;
    ConcatEnds(head, ContactSmsFields(c), closing);
    head + ContactSmsFields(c) + closing
  }

  /** The lines of the contact SMS between the customer's name and the closing line. */
  function ContactSmsFields(c: ContactSms): (fields: string) {
    "\nPhone: " + c.phone
    + "\nEmail: " + c.email
    + "\nService: " + c.service
    + "\nMessage: " + c.message
    + "\n\n"
  }

  /** The subject of the contact-form email sent to the business. */
  function ContactEmailSubject(c: ContactNotice): (subject: string)
    ensures StartsWith(subject, (if c.urgent then UrgentTag else "") + ContactSubjectLead)
    ensures EndsWith(subject, FullName(c.firstName, c.lastName))
  {
    var head := (if c.urgent then UrgentTag else "") + ContactSubjectLead;
    ConcatEnds(head, [], FullName(c.firstName, c.lastName));
    assert head + [] == head;
    head + FullName(c.firstName, c.lastName)
  }

  /** The confirmation SMS sent to the customer who booked. */
  function BookingConfirmationBody(b: BookingSms): (body: string)
    ensures StartsWith(body, "Hi " + b.customerName + BookingLead + b.service)
    ensures EndsWith(body, "\nTime: " + b.time + BookingFooter)
  {
    var head := "Hi " + b.customerName + BookingLead + b.service;
    var tail := "\nTime: " + b.time + BookingFooter;
    ConcatEnds(head, "\nVehicle: " + b.vehicle + "\nDate: " + b.date, tail);
    head + ("\nVehicle: " + b.vehicle + "\nDate: " + b.date) + tail
  }

  /** The SMS sent to the business for a new booking. */
  function BusinessBookingBody(b: BookingSms): (body: string)
    ensures StartsWith(body, BusinessBookingLead + b.customerName)
    ensures EndsWith(body, "\nTime: " + b.time + BusinessBookingFooter)
  {
    var head := BusinessBookingLead + b.customerName;
    var fields := "\nPhone: " + b.phone + "\nService: " + b.service + "\nVehicle: " + b.vehicle + "\nDate: " + b.date;
    var tail := "\nTime: " + b.time + BusinessBookingFooter;
    ConcatEnds(head, fields, tail);
    head + fields + tail
  }

  /** `${service} - ${customerName}`: the title of the calendar event. */
  function EventSummary(service: string, customerName: string): (summary: string)
    ensures StartsWith(summary, service) && EndsWith(summary, customerName)
    ensures |summary| == |service| + |customerName| + 3
    ensures summary[|service|..|service| + 3] == " - "
  {
    ConcatEnds(service, " - ", customerName);
    service + " - " + customerName
  }

  /** The contact SMS starts with the urgent tag exactly when the submission
      is urgent, and then also closes with the urgent request. */
  lemma ContactSmsUrgency(c: ContactSms)
    ensures StartsWith(ContactSmsBody(c), UrgentTag) <==> c.urgent
    ensures EndsWith(ContactSmsBody(c), UrgentClosing) <==> c.urgent
    ensures EndsWith(ContactSmsBody(c), RoutineClosing) <==> !c.urgent
  {
    var body := ContactSmsBody(c);
    var head := (if c.urgent then UrgentTag else "") + ContactSmsLead + c.name;
    var closing := if c.urgent then UrgentClosing else RoutineClosing;
    assert body[..|head|] == head && body[|body| - |closing|..] == closing;
    if c.urgent {
      assert body[..|UrgentTag|] == head[..|UrgentTag|];
      assert body[|body| - 2] == closing[|closing| - 2] == 'y';
    } else {
      assert body[0] == head[0] == 'N';
      assert body[|body| - 2] == closing[|closing| - 2] == 'r';
    }
  }

  /** The business email subject starts with the urgent tag exactly when the
      submission is urgent, and the tag is the only difference urgency makes. */
  lemma ContactSubjectUrgency(c: ContactNotice)
    ensures StartsWith(ContactEmailSubject(c), UrgentTag) <==> c.urgent
    ensures ContactEmailSubject(c.(urgent := true)) == UrgentTag + ContactEmailSubject(c.(urgent := false))
  {
    var name := FullName(c.firstName, c.lastName);
    assert ContactEmailSubject(c.(urgent := false)) == ContactSubjectLead + name;
    assert ContactEmailSubject(c.(urgent := true)) == UrgentTag + (ContactSubjectLead + name);
    var subject := ContactEmailSubject(c);
    var head := (if c.urgent then UrgentTag else "") + ContactSubjectLead;
    assert subject[..|head|] == head;
    if c.urgent {
      assert subject[..|UrgentTag|] == head[..|UrgentTag|];
    } else {
      assert subject[0] == head[0] == 'N';
    }
  }
}
