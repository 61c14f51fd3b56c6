/** The three notification adapters (`SMSService`, `EmailService`,
    `CalendarService`). Each reads its credentials from the environment once,
    in its constructor; an adapter without credentials answers `false` (or the
    default grid) without contacting its provider. The provider's answer is
    an input: `accepted` says whether the provider took the request. */
module Adapters {
  import opened Js
  import opened Messages
  import opened Availability

  /** The environment variables the adapters read. */
  datatype Env = Env(
    twilioAccountSid: Option<string>,
    twilioAuthToken: Option<string>,
    twilioPhoneNumber: Option<string>,
    businessNotificationPhone: Option<string>,
    googleServiceAccountKey: Option<string>,
    googleCalendarId: Option<string>,
    sendgridApiKey: Option<string>,
    verifiedSenderEmail: Option<string>,
    notificationEmail: Option<string>)

  const DefaultBusinessPhone := "(406) 555-0123"
  const DefaultSender := "your-verified-email@example.com"

  /** A new start and end for a calendar event, from a date and a time. */
  datatype When = When(date: string, time: string)

  /** A request handed to a provider. */
  datatype ExternalCall =
    | SmsCreate(from: string, to: string, body: string)
    | MailSend(from: string, to: string, subject: string)
    | EventsInsert(calendarId: string, summary: string, at: When)
    | EventsList(calendarId: string, date: string)
    | EventsGet(calendarId: string, eventId: string)
    | EventsUpdate(calendarId: string, eventId: string, newSummary: Option<string>, moveTo: Option<When>)
    | EventsDelete(calendarId: string, eventId: string)

  /** What an operation reports and which requests it made, in order. */
  datatype Outcome = Outcome(ok: bool, calls: seq<ExternalCall>)

  /** The answer of every operation of an adapter without credentials. */
  const Skipped := Outcome(false, [])

  class SmsService {
    /** Whether a provider client was built (`this.client`). */
    const hasClient: bool
    const fromNumber: Option<string>
    /** `BUSINESS_NOTIFICATION_PHONE || "(406) 555-0123"`. */
    const businessPhone: string

    /** `initializeTwilio`: a client exists only with all three credentials. */
    constructor (env: Env)
      ensures hasClient <==> Truthy(env.twilioAccountSid) && Truthy(env.twilioAuthToken) && Truthy(env.twilioPhoneNumber)
      ensures fromNumber == env.twilioPhoneNumber
      ensures businessPhone == OrElse(env.businessNotificationPhone, DefaultBusinessPhone) && businessPhone != ""
      ensures Enabled() <==> hasClient
    {
      hasClient := Truthy(env.twilioAccountSid) && Truthy(env.twilioAuthToken) && Truthy(env.twilioPhoneNumber);
      fromNumber := env.twilioPhoneNumber;
      businessPhone := OrElse(env.businessNotificationPhone, DefaultBusinessPhone);
    }

    /** The guard `!this.client || !this.fromNumber` fails. */
    predicate Enabled(): (r: bool)
      ensures r ==> hasClient && fromNumber.Some? && |fromNumber.value| > 0
      ensures !hasClient || fromNumber.None? || fromNumber == Some("") ==> !r
    {
      hasClient && Truthy(fromNumber)
    }

    function SendBookingConfirmation(data: BookingSms, accepted: bool): (r: Outcome)
      ensures !Enabled() ==> r == Skipped
      ensures Enabled() ==> r.ok == accepted
      ensures Enabled() ==> r.calls == [SmsCreate(fromNumber.value, data.phone, BookingConfirmationBody(data))]
    {
      if !Enabled() then Skipped
      else Outcome(accepted, [SmsCreate(fromNumber.value, data.phone, BookingConfirmationBody(data))])
    }

    function SendBusinessNotification(data: BookingSms, accepted: bool): (r: Outcome)
      ensures !Enabled() ==> r == Skipped
      ensures Enabled() ==> r.ok == accepted
      ensures Enabled() ==> r.calls == [SmsCreate(fromNumber.value, businessPhone, BusinessBookingBody(data))]
    {
      if !Enabled() then Skipped
      else Outcome(accepted, [SmsCreate(fromNumber.value, businessPhone, BusinessBookingBody(data))])
    }

    function SendContactFormNotification(data: ContactSms, accepted: bool): (r: Outcome)
      ensures !Enabled() ==> r == Skipped
      ensures Enabled() ==> r.ok == accepted
      ensures Enabled() ==> r.calls == [SmsCreate(fromNumber.value, businessPhone, ContactSmsBody(data))]
    {
      if !Enabled() then Skipped
      else Outcome(accepted, [SmsCreate(fromNumber.value, businessPhone, ContactSmsBody(data))])
    }
  }

  class EmailService {
    /** Whether `this.mailService` was set. */
    const hasMailService: bool
    /** `VERIFIED_SENDER_EMAIL || "your-verified-email@example.com"`. */
    const verifiedSender: string
    /** `NOTIFICATION_EMAIL || verifiedSender`. */
    const notificationEmail: string

    /** `initializeSendGrid`: the mail service is assigned before its key is
        set, so it stays set whenever an API key is present. */
    constructor (env: Env)
      ensures hasMailService <==> Truthy(env.sendgridApiKey)
      ensures verifiedSender == OrElse(env.verifiedSenderEmail, DefaultSender) && verifiedSender != ""
      ensures notificationEmail == OrElse(env.notificationEmail, verifiedSender) && notificationEmail != ""
    {
      hasMailService := Truthy(env.sendgridApiKey);
      verifiedSender := OrElse(env.verifiedSenderEmail, DefaultSender);
      notificationEmail := OrElse(env.notificationEmail, OrElse(env.verifiedSenderEmail, DefaultSender));
    }

    function SendContactFormNotification(data: ContactNotice, accepted: bool): (r: Outcome)
      ensures !hasMailService ==> r == Skipped
      ensures hasMailService ==> r.ok == accepted
      ensures hasMailService ==> r.calls == [MailSend(verifiedSender, notificationEmail, ContactEmailSubject(data))]
    {
      if !hasMailService then Skipped
      else Outcome(accepted, [MailSend(verifiedSender, notificationEmail, ContactEmailSubject(data))])
    }

    function SendCustomerConfirmation(data: ContactNotice, accepted: bool): (r: Outcome)
      ensures !hasMailService ==> r == Skipped
      ensures hasMailService ==> r.ok == accepted
      ensures hasMailService ==> r.calls == [MailSend(verifiedSender, data.email, CustomerConfirmationSubject)]
    {
      if !hasMailService then Skipped
      else Outcome(accepted, [MailSend(verifiedSender, data.email, CustomerConfirmationSubject)])
    }
  }

  /** The appointment fields handed to `CalendarService.createAppointment`. */
  datatype CalendarBooking = CalendarBooking(
    customerName: string, customerEmail: string, customerPhone: string,
    service: string, vehicle: string, date: string, time: string,
    notes: Option<string>)

  /** The optional fields handed to `CalendarService.updateAppointment`. */
  datatype EventChange = EventChange(
    service: Option<string>, customerName: Option<string>,
    date: Option<string>, time: Option<string>)

  /** The answer to `events.get`: failed, or the stored event's summary. */
  datatype Fetched = FetchFailed | Fetched(summary: Option<string>)

  /** The answer to `events.list`: failed, or the busy hours of the day. */
  datatype Listing = ListFailed | Listed(busy: seq<Busy>)

  class CalendarService {
    /** Whether `this.calendar` and `this.auth` were both set. */
    const hasClient: bool
    /** `GOOGLE_CALENDAR_ID`; only read when a client exists. */
    const calendarId: string

    /** `initializeAuth`: a client needs both variables and a service-account
        key that parses (`keyParses`); a key that does not parse is logged
        and leaves the adapter without a client. */
    constructor (env: Env, keyParses: bool)
      ensures hasClient <==> Truthy(env.googleServiceAccountKey) && Truthy(env.googleCalendarId) && keyParses
      ensures hasClient ==> calendarId == env.googleCalendarId.value
    {
      hasClient := Truthy(env.googleServiceAccountKey) && Truthy(env.googleCalendarId) && keyParses;
      calendarId := if Truthy(env.googleCalendarId) then env.googleCalendarId.value else "";
    }

    function CreateAppointment(data: CalendarBooking, accepted: bool): (r: Outcome)
      ensures !hasClient ==> r == Skipped
      ensures hasClient ==> r.ok == accepted
      ensures hasClient ==> r.calls == [EventsInsert(calendarId, EventSummary(data.service, data.customerName), When(data.date, data.time))]
    {
      if !hasClient then Skipped
      else Outcome(accepted, [EventsInsert(calendarId, EventSummary(data.service, data.customerName), When(data.date, data.time))])
    }

    /** `getAvailableSlots`: without a client, or when the query fails, the
        default grid; otherwise the grid of the listed busy hours. */
    method GetAvailableSlots(date: string, listing: Listing) returns (slots: seq<Slot>, calls: seq<ExternalCall>)
      ensures HourlyGrid(slots)
      ensures !hasClient ==> calls == [] && AllAvailable(slots)
      ensures hasClient ==> calls == [EventsList(calendarId, date)]
      ensures hasClient && listing.ListFailed? ==> AllAvailable(slots)
      ensures hasClient && listing.Listed? ==> FreeExactly(slots, listing.busy)
    {
      if !hasClient {
        slots := DefaultAvailableSlots();
        calls := [];
        return;
      }
      calls := [EventsList(calendarId, date)];
      match listing
      case ListFailed =>
        slots := DefaultAvailableSlots();
      case Listed(busy) =>
        slots := SlotsFromBusy(busy);
    }

    /** `updateAppointment`: fetch the event, then write it back with the new
        summary when both service and name are given, and with a new start
        and end when both date and time are given. */
    function UpdateAppointment(eventId: string, change: EventChange, fetched: Fetched, accepted: bool): (r: Outcome)
      ensures !hasClient ==> r == Skipped
      ensures hasClient ==> |r.calls| >= 1 && r.calls[0] == EventsGet(calendarId, eventId)
      ensures hasClient && fetched.FetchFailed? ==> r == Outcome(false, [EventsGet(calendarId, eventId)])
      ensures r.ok ==> hasClient && fetched.Fetched? && accepted && |r.calls| == 2
      ensures hasClient && fetched.Fetched? ==> r.ok == accepted && |r.calls| == 2
      ensures hasClient && fetched.Fetched? && !(Truthy(change.service) && Truthy(change.customerName))
        ==> r.calls[1].EventsUpdate? && r.calls[1].newSummary == fetched.summary
      ensures hasClient && fetched.Fetched? ==> r.calls[1].EventsUpdate? && (r.calls[1].moveTo.Some? <==> Truthy(change.date) && Truthy(change.time))
      ensures hasClient && fetched.Fetched? ==>
        r.calls[1] == EventsUpdate(calendarId, eventId,
          if Truthy(change.service) && Truthy(change.customerName)
          then Some(EventSummary(change.service.value, change.customerName.value))
          else fetched.summary,
          if Truthy(change.date) && Truthy(change.time)
          then Some(When(change.date.value, change.time.value))
          else None)
    {
      if !hasClient then Skipped
      else
        match fetched
        case FetchFailed => Outcome(false, [EventsGet(calendarId, eventId)])
        case Fetched(existing) =>
          var summary :=
            if Truthy(change.service) && Truthy(change.customerName)
            then Some(EventSummary(change.service.value, change.customerName.value))
            else existing;
          var moveTo :=
            if Truthy(change.date) && Truthy(change.time)
            then Some(When(change.date.value, change.time.value))
            else None;
          Outcome(accepted, [EventsGet(calendarId, eventId), EventsUpdate(calendarId, eventId, summary, moveTo)])
    }

    function CancelAppointment(eventId: string, accepted: bool): (r: Outcome)
      ensures !hasClient ==> r == Skipped
      ensures hasClient ==> r.ok == accepted && r.calls == [EventsDelete(calendarId, eventId)]
    {
      if !hasClient then Skipped else Outcome(accepted, [EventsDelete(calendarId, eventId)])
    }
  }
}
