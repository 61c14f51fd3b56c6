/** The `/api` request handlers. Each handler validates its input, then works
    through the store and the adapters in a fixed order and answers with one
    response. Its `steps` out-parameter lists, in order, every row it
    inserted and every request it handed to a provider. Validation is an
    input: `parsed` is `None` when the insert schema rejects the body. */
module Routes {
  import opened Js
  import opened Text
  import opened Messages
  import opened Availability
  import opened Adapters
  import opened Store

  datatype Response =
    | ValidationFailed
    | InternalError
    | ContactCreated(id: nat)
    | AppointmentCreated(id: nat, calendarEventCreated: bool)
    | AvailabilityList(date: string, slots: seq<Slot>)
    | ContactList(contacts: seq<ContactSubmission>)
    | AppointmentList(appointments: seq<Appointment>)

  /** The HTTP status each response is sent with. */
  function StatusCode(r: Response): (code: nat)
    ensures code == 400 <==> r.ValidationFailed?
    ensures code == 500 <==> r.InternalError?
    ensures code == 200 <==> !r.ValidationFailed? && !r.InternalError?
  {
    match r
    case ValidationFailed => 400
    case InternalError => 500
    case _ => 200
  }

  datatype Table = ContactsTable | AppointmentsTable

  /** One side effect of a request. */
  datatype Step = Inserted(table: Table, id: nat) | Called(call: ExternalCall)

  function AsSteps(calls: seq<ExternalCall>): (steps: seq<Step>)
    ensures |steps| == |calls|
    ensures forall i :: 0 <= i < |calls| ==> steps[i] == Called(calls[i])
  {
    seq(|calls|, i requires 0 <= i < |calls| => Called(calls[i]))
  }

  /** The provider answers a contact request meets, in the order asked. */
  datatype ContactAnswers = ContactAnswers(businessEmail: bool, customerEmail: bool, businessSms: bool)

  /** The provider answers a booking meets, in the order asked. */
  datatype BookingAnswers = BookingAnswers(calendarEvent: bool, customerSms: bool, businessSms: bool)

  /** The email fields built from a submission; absent fields become "". */
  function NoticeOf(d: ContactInput): (n: ContactNotice)
    ensures n.urgent == d.urgent.Coalesce(false)
    ensures n.firstName == d.firstName && n.lastName == d.lastName && n.email == d.email
  {
    ContactNotice(d.firstName, d.lastName, d.email, d.phone.Coalesce(""), d.service.Coalesce(""),
                  d.vehicle.Coalesce(""), d.message.Coalesce(""), d.urgent.Coalesce(false))
  }

  /** The SMS fields built from a submission. */
  function ContactSmsOf(d: ContactInput): (c: ContactSms)
    ensures c.name == FullName(d.firstName, d.lastName) && c.email == d.email
    ensures c.phone == d.phone.Coalesce("") && c.service == d.service.Coalesce("") && c.message == d.message.Coalesce("")
    ensures c.urgent == d.urgent.Coalesce(false)
  {
    ContactSms(FullName(d.firstName, d.lastName), d.phone.Coalesce(""), d.email,
               d.service.Coalesce(""), d.message.Coalesce(""), d.urgent.Coalesce(false))
  }

  /** `calendarData`: the event fields built from an appointment request. */
  function CalendarBookingOf(d: AppointmentInput): (b: CalendarBooking)
    ensures b.customerName == FullName(d.firstName, d.lastName)
    ensures b.customerEmail == d.email && b.customerPhone == d.phone
    ensures b.service == d.service && b.vehicle == d.vehicle && b.date == d.date && b.time == d.time
    ensures b.notes.Some? <==> Truthy(d.notes)
    ensures b.notes.Some? ==> b.notes == d.notes
  {
    CalendarBooking(FullName(d.firstName, d.lastName), d.email, d.phone, d.service,
                    d.vehicle, d.date, d.time, KeepTruthy(d.notes))
  }

  /** `smsData`: the SMS fields built from an appointment request. */
  function BookingSmsOf(d: AppointmentInput): (s: BookingSms)
    ensures s.customerName == FullName(d.firstName, d.lastName) && s.phone == d.phone
    ensures s.service == d.service && s.date == d.date && s.time == d.time && s.vehicle == d.vehicle
  {
    BookingSms(FullName(d.firstName, d.lastName), d.phone, d.service, d.date, d.time, d.vehicle)
  }

  /** The three notifications of a contact submission, in the order sent. */
  function ContactNotifications(email: EmailService, sms: SmsService, d: ContactInput, a: ContactAnswers): (steps: seq<Step>) {
    AsSteps(email.SendContactFormNotification(NoticeOf(d), a.businessEmail).calls)
    + AsSteps(email.SendCustomerConfirmation(NoticeOf(d), a.customerEmail).calls)
    + AsSteps(sms.SendContactFormNotification(ContactSmsOf(d), a.businessSms).calls)
  }

  /** How many requests a contact submission hands to providers: two emails
      when mail is configured, one SMS when SMS is configured, none otherwise. */
  lemma ContactNotificationCount(email: EmailService, sms: SmsService, d: ContactInput, a: ContactAnswers)
    ensures |ContactNotifications(email, sms, d, a)| ==
      (if email.hasMailService then 2 else 0) + (if sms.Enabled() then 1 else 0)
  {
  }

  /** With both channels configured, the business email comes first and the
      business SMS last, and each carries the urgent tag exactly when the
      submission says `urgent: true`. */
  lemma {:induction false} ContactUrgencyTagged(email: EmailService, sms: SmsService, d: ContactInput, a: ContactAnswers)
    requires email.hasMailService && sms.Enabled()
    ensures |ContactNotifications(email, sms, d, a)| == 3
    ensures ContactNotifications(email, sms, d, a)[0].Called?
    ensures ContactNotifications(email, sms, d, a)[0].call.MailSend?
    ensures ContactNotifications(email, sms, d, a)[2].Called?
    ensures ContactNotifications(email, sms, d, a)[2].call.SmsCreate?
    ensures StartsWith(ContactNotifications(email, sms, d, a)[0].call.subject, UrgentTag) <==> d.urgent == Some(true)
    ensures StartsWith(ContactNotifications(email, sms, d, a)[2].call.body, UrgentTag) <==> d.urgent == Some(true)
  {
    var steps := ContactNotifications(email, sms, d, a);
    assert steps[0] == Called(MailSend(email.verifiedSender, email.notificationEmail, ContactEmailSubject(NoticeOf(d))));
    assert steps[2] == Called(SmsCreate(sms.fromNumber.value, sms.businessPhone, ContactSmsBody(ContactSmsOf(d))));
    ContactSubjectUrgency(NoticeOf(d));
    ContactSmsUrgency(ContactSmsOf(d));
  }

  /** The calendar request of a booking. */
  function BookingEvent(calendar: CalendarService, d: AppointmentInput, a: BookingAnswers): (event: Outcome) {
    calendar.CreateAppointment(CalendarBookingOf(d), a.calendarEvent)
  }

  /** The two booking SMS, customer first, as `Promise.all` issues them. */
  function BookingNotifications(sms: SmsService, d: AppointmentInput, a: BookingAnswers): (steps: seq<Step>) {
    AsSteps(sms.SendBookingConfirmation(BookingSmsOf(d), a.customerSms).calls)
    + AsSteps(sms.SendBusinessNotification(BookingSmsOf(d), a.businessSms).calls)
  }

  /** POST /api/contact: validate, store, notify the business by email, confirm
      to the customer by email, notify the business by SMS, answer with the
      stored id. What the providers answer never changes the response. */
  method PostContact(storage: Storage, email: EmailService, sms: SmsService,
                     parsed: Option<ContactInput>, storeFails: bool, answers: ContactAnswers)
    returns (resp: Response, steps: seq<Step>)
    requires storage.Valid()
    modifies storage
    ensures storage.Valid()
    ensures parsed.None? ==> resp == ValidationFailed && steps == [] && unchanged(storage)
    ensures parsed.Some? && storeFails ==> resp == InternalError && steps == [] && unchanged(storage)
    ensures parsed.Some? && !storeFails ==>
      var id := old(storage.nextContactId);
      resp == ContactCreated(id) &&
      storage.contacts == old(storage.contacts) + [ContactSubmission(id, parsed.value, parsed.value.urgent.Coalesce(false))] &&
      storage.nextContactId == id + 1 &&
      storage.appointments == old(storage.appointments) &&
      storage.nextAppointmentId == old(storage.nextAppointmentId) &&
      steps == [Inserted(ContactsTable, id)] + ContactNotifications(email, sms, parsed.value, answers)
  {
    if parsed.None? {
      return ValidationFailed, [];
    }
    var data := parsed.value;
    var contact := storage.CreateContactSubmission(data, storeFails);
    if contact.None? {
      return InternalError, [];
    }
    var notice := NoticeOf(data);
    var businessEmail := email.SendContactFormNotification(notice, answers.businessEmail);
    var customerEmail := email.SendCustomerConfirmation(notice, answers.customerEmail);
    var businessSms := sms.SendContactFormNotification(ContactSmsOf(data), answers.businessSms);
    steps := [Inserted(ContactsTable, contact.value.id)]
      + (AsSteps(businessEmail.calls) + AsSteps(customerEmail.calls) + AsSteps(businessSms.calls));
    resp := ContactCreated(contact.value.id);
  }

  /** POST /api/appointments: validate, ask the calendar for an event, store,
      send both SMS, answer with the stored id and whether the event was
      created. The calendar's answer never blocks the insert; an insert that
      fails after the event was created leaves that event in place. */
  method PostAppointment(storage: Storage, calendar: CalendarService, sms: SmsService,
                         parsed: Option<AppointmentInput>, storeFails: bool, answers: BookingAnswers)
    returns (resp: Response, steps: seq<Step>)
    requires storage.Valid()
    modifies storage
    ensures storage.Valid()
    ensures parsed.None? ==> resp == ValidationFailed && steps == [] && unchanged(storage)
    ensures parsed.Some? && storeFails ==>
      resp == InternalError && unchanged(storage) &&
      steps == AsSteps(BookingEvent(calendar, parsed.value, answers).calls)
    ensures parsed.Some? && !storeFails ==>
      var id := old(storage.nextAppointmentId);
      var event := BookingEvent(calendar, parsed.value, answers);
      resp == AppointmentCreated(id, event.ok) &&
      storage.appointments == old(storage.appointments) + [Appointment(id, parsed.value, DefaultStatus)] &&
      storage.nextAppointmentId == id + 1 &&
      storage.contacts == old(storage.contacts) &&
      storage.nextContactId == old(storage.nextContactId) &&
      steps == AsSteps(event.calls) + [Inserted(AppointmentsTable, id)] + BookingNotifications(sms, parsed.value, answers)
  {
    if parsed.None? {
      return ValidationFailed, [];
    }
    var data := parsed.value;
    var event := calendar.CreateAppointment(CalendarBookingOf(data), answers.calendarEvent);
    steps := AsSteps(event.calls);
    var appointment := storage.CreateAppointment(data, storeFails);
    if appointment.None? {
      return InternalError, steps;
    }
    steps := steps + [Inserted(AppointmentsTable, appointment.value.id)];
    var smsData := BookingSmsOf(data);
    var confirmation := sms.SendBookingConfirmation(smsData, answers.customerSms);
    var business := sms.SendBusinessNotification(smsData, answers.businessSms);
    steps := steps + (AsSteps(confirmation.calls) + AsSteps(business.calls));
    resp := AppointmentCreated(appointment.value.id, event.ok);
  }

  /** GET /api/availability/:date: the calendar's grid for the date. */
  method GetAvailability(calendar: CalendarService, date: string, listing: Listing)
    returns (resp: Response, steps: seq<Step>)
    ensures resp.AvailabilityList? && resp.date == date && HourlyGrid(resp.slots)
    ensures !calendar.hasClient ==> steps == [] && AllAvailable(resp.slots)
    ensures calendar.hasClient ==> steps == [Called(EventsList(calendar.calendarId, date))]
    ensures calendar.hasClient && listing.ListFailed? ==> AllAvailable(resp.slots)
    ensures calendar.hasClient && listing.Listed? ==> FreeExactly(resp.slots, listing.busy)
  {
    var slots, calls := calendar.GetAvailableSlots(date, listing);
    resp := AvailabilityList(date, slots);
    steps := AsSteps(calls);
  }

  /** GET /api/contacts. */
  method ListContacts(storage: Storage) returns (resp: Response)
    requires storage.Valid()
    ensures resp.ContactList? && multiset(resp.contacts) == multiset(storage.contacts)
  {
    var rows := storage.GetContactSubmissions();
    resp := ContactList(rows);
  }

  /** GET /api/appointments. */
  method ListAppointments(storage: Storage) returns (resp: Response)
    requires storage.Valid()
    ensures resp.AppointmentList? && multiset(resp.appointments) == multiset(storage.appointments)
  {
    var rows := storage.GetAppointments();
    resp := AppointmentList(rows);
  }
}
