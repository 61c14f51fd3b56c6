# Auto Electric Missoula booking backend — verified model

A Dafny model of the server behind a small automotive-electrical shop's
website. The server takes contact-form submissions and appointment bookings,
stores them, and sends notifications by email (SendGrid), SMS (Twilio) and
calendar event (Google Calendar). It also serves an hourly availability grid
for a date.

The model covers these parts of `dist/index.js`:

- **Availability grid** (`availability.dfy`, module `Availability`).
  There are ten hourly slots, 08:00 to 18:00. Each slot has zero-padded
  `"HH:00"` labels. A slot is closed exactly when a busy period
  `[start, end)` of whole hours covers its starting hour. The two builder
  loops are methods proved against declarative postconditions. Lemmas show
  that these postconditions fix the grid completely. They also show that an
  empty busy list gives the default grid, that labels read back to their
  hours, and that labels sort in hour order.
- **Notification adapters** (`adapters.dfy`, `messages.dfy`). Each adapter
  is a class. Its constructor reads the credentials from an `Env` value, and
  its configuration fields never change after that. Every send, create,
  update or cancel operation returns the reported boolean and the list of
  requests it handed to the provider. An adapter without credentials returns
  `false` and makes no request. The message templates are written out. The
  urgent tag `"[URGENT] "` starts the contact SMS and the contact email
  subject exactly when the submission is urgent.
- **Record store** (`storage.dfy`, module `Store`). The store is a class
  with two append-only tables and their serial id counters. Ids increase
  along each table.
- **Request handlers** (`routes.dfy`). `POST /api/contact` runs validate,
  insert, business email, customer email, business SMS, then responds with
  the stored id. `POST /api/appointments` runs validate, calendar event,
  insert, two SMS, then responds with the id and whether the calendar event
  was created. The GET routes are modelled too. Each POST handler and the
  availability route return the ordered list of their side effects.
- **Request-log line** (`request_log.dfy`). A line longer than 80
  characters becomes its first 79 characters plus `…`.

Helper modules: `Js` holds optional values, string truthiness and the `||`
fallback. `Text` holds decimal rendering, `padStart`, prefixes and the string
order.

Inputs that come from outside the program are parameters:

- Validation: `parsed: Option<…>`, where `None` means the insert schema
  rejected the body.
- Database faults: `storeFails`.
- Provider answers: `accepted` booleans.
- The calendar's event list: `Listing`, either failed or the busy hours.
- Whether the calendar key parses: `keyParses`.

Two behaviours of the code shape the model:

- Every adapter catches its own errors and reports `false`
  (dist/index.js:158-161, 187-190, 216-219, 292-295, 482-485, 530-533).
  So once the row is stored, both POST handlers answer 200, whatever the
  providers do.
- `getContactSubmissions` and `getAppointments` run a query with no
  ORDER BY. The model promises the stored rows, each once, but in no
  particular order.

## Model

| member | source | states |
|---|---|---|
| `Js.OrElse` | dist/index.js:471-472 | `x \|\| d` on an env string yields the value when it is non-empty, else the fallback; a non-empty fallback gives a non-empty result |
| `Js.KeepTruthy` | dist/index.js:592 | `notes \|\| undefined` keeps exactly the non-empty notes |
| `Js.Option.Coalesce` | dist/index.js:547-571 | `x ?? d` gives the value when present and the default when absent |
| `Text.Decimal` | dist/index.js:324-325 | `n.toString()` is all digits, one digit exactly below 10, no leading zero from 10 on |
| `Text.DecimalRoundTrip` | dist/index.js:324-325 | parsing the decimal rendering gives the number back |
| `Text.DecimalInjective` | dist/index.js:324-325 | different hours never render to the same digits |
| `Text.PadStart` | dist/index.js:324-325 | `padStart(width, fill)` has length max(width, \|s\|) |
| `Text.PadStartKeepsTail` | dist/index.js:324-325 | padding only adds fill characters in front of the original string |
| `Text.LexLessAsymmetric` | dist/index.js:324-325 | the string order used to compare labels is irreflexive and asymmetric |
| `Availability.HourLabel` | dist/index.js:324-325 | the padded label has at least five characters and ends with ":00"; its exact two-digit form is `HourLabelShape` |
| `Availability.HourLabelShape` | dist/index.js:324-325 | for hours below 100 the label is the two digits of the hour followed by ":00" |
| `Availability.LabelRoundTrip` | dist/index.js:324-325 | a label is five characters and its first two digits read back as its hour |
| `Availability.LabelOrder` | dist/index.js:324-325 | a later hour has a label later in string order |
| `Availability.Covers` | dist/index.js:321 | a busy period covers an hour only when it is non-empty, and never covers its own end hour |
| `Availability.AnyCovers` | dist/index.js:320-322 | the `some` scan is true iff some busy period at an index of the list covers the hour |
| `Availability.AnyCoversIff` | dist/index.js:320-322 | the `some` scan is true iff some busy period has start <= h < end |
| `Availability.DefaultAvailableSlots` | dist/index.js:335-345 | exactly ten slots for hours 8..17 in order, labelled h and h+1, all available |
| `Availability.SlotsFromBusy` | dist/index.js:314-329 | exactly ten slots for hours 8..17 in order; slot h is available iff no busy period covers h |
| `Availability.GridUnique` | dist/index.js:318-343 | two ten-slot hourly grids with the same availability are equal, so the loops' results are fully determined |
| `Availability.EmptyBusyIsDefault` | dist/index.js:318-343 | with no busy period the computed grid equals the default grid |
| `Availability.SlotsAreOrdered` | dist/index.js:318-328 | each slot's labels name hours h and h+1, start sorts before end, consecutive slots meet, the grid spans "08:00" to "18:00" |
| `Availability.NineToEleven` | dist/index.js:320-322 | a busy period over hours [9, 11) closes the 09:00 and 10:00 slots and no other |
| `Messages.ContactSmsBody` | dist/index.js:198-208 | the contact SMS starts with the tag (when urgent), the lead and the name, and ends with the urgent or the routine closing line |
| `Messages.ContactEmailSubject` | dist/index.js:434-435 | the subject starts with the tag (when urgent) and "New Contact Form Submission - ", and ends with the full name |
| `Messages.BookingConfirmationBody` | dist/index.js:141-150 | the customer SMS greets the customer by name, names the service first and ends with the time and the fixed footer |
| `Messages.BusinessBookingBody` | dist/index.js:170-179 | the business SMS starts with the booking lead and the customer's name, and ends with the time and the fixed footer |
| `Messages.EventSummary` | dist/index.js:262 | the event title is the service, " - ", then the customer's name |
| `Messages.ContactSmsUrgency` | dist/index.js:198-208 | the contact SMS starts with "[URGENT] " iff urgent, and ends with the urgent request iff urgent, with the routine closing otherwise |
| `Messages.ContactSubjectUrgency` | dist/index.js:434-435 | the contact email subject starts with "[URGENT] " iff urgent, and urgency adds only that prefix |
| `Adapters.SmsService.constructor` | dist/index.js:124-134 | a client exists iff account SID, auth token and phone number are all non-empty; the business phone falls back to "(406) 555-0123" |
| `Adapters.SmsService.Enabled` | dist/index.js:136 | the guard that every SMS operation repeats: they run only with a client and a non-empty sender number |
| `Adapters.SmsService.SendBookingConfirmation` | dist/index.js:135-162 | unconfigured: false, no request; configured: one SMS to the customer's phone with the confirmation text, result = provider answer |
| `Adapters.SmsService.SendBusinessNotification` | dist/index.js:163-191 | unconfigured: false, no request; configured: one SMS to the business phone with the booking text, result = provider answer |
| `Adapters.SmsService.SendContactFormNotification` | dist/index.js:192-220 | unconfigured: false, no request; configured: one SMS to the business phone with the contact text, result = provider answer |
| `Adapters.EmailService.constructor` | dist/index.js:412-427 | the mail service exists iff the API key is non-empty; sender and recipient fall back as the code does and are never empty |
| `Adapters.EmailService.SendContactFormNotification` | dist/index.js:428-486 | unconfigured: false, no request; configured: one mail from the sender to the notification address with the contact subject |
| `Adapters.EmailService.SendCustomerConfirmation` | dist/index.js:487-534 | unconfigured: false, no request; configured: one mail to the customer's address with the fixed thank-you subject |
| `Adapters.CalendarService.constructor` | dist/index.js:230-251 | a client exists iff the key and calendar id are non-empty and the key parses |
| `Adapters.CalendarService.CreateAppointment` | dist/index.js:252-296 | unconfigured: false, no request; configured: one insert titled "service - name" at the requested date and time |
| `Adapters.CalendarService.GetAvailableSlots` | dist/index.js:297-334 | always a ten-slot hourly grid; all open when unconfigured (no request) or when the listing fails; otherwise open exactly where no busy period covers the hour |
| `Adapters.CalendarService.UpdateAppointment` | dist/index.js:346-385 | unconfigured: false, no request; else a get, then (if it succeeded) one update of the same calendar and event, titled "service - name" when both are given and keeping the old title otherwise, moved to the new date and time iff both are given |
| `Adapters.CalendarService.CancelAppointment` | dist/index.js:386-404 | unconfigured: false, no request; configured: one delete, result = provider answer |
| `Store.ContactIdsUnique` | dist/index.js:30-31 | in a table whose ids increase, an id names at most one row |
| `Store.AppendContact` | dist/index.js:99-102 | appending a row that takes the counter's value keeps the ids increasing and below the advanced counter |
| `Store.AppendAppointment` | dist/index.js:103-106 | the same for the appointments table |
| `Store.Storage.constructor` | dist/index.js:84-114 | both tables start empty with their counters at 1 |
| `Store.Storage.CreateContactSubmission` | dist/index.js:99-102 | on success appends exactly one row with the next id and urgent defaulted to false; on a fault changes nothing |
| `Store.Storage.CreateAppointment` | dist/index.js:103-106 | on success appends exactly one row with the next id and status "pending"; on a fault changes nothing |
| `Store.Storage.GetContactSubmissions` | dist/index.js:110-112 | returns every stored contact row, each once |
| `Store.Storage.GetAppointments` | dist/index.js:107-109 | returns every stored appointment row, each once |
| `RequestLog.FullLine` | dist/index.js:774-777 | the untruncated line starts with "METHOD path status in " and ends with "ms", followed by " :: json" when a body was sent |
| `RequestLog.Truncate` | dist/index.js:778-780 | at most 80 characters; a line of at most 80 is unchanged; a longer one becomes its first 79 characters and "…" |
| `RequestLog.TruncateIdempotent` | dist/index.js:778-780 | truncating twice is truncating once |
| `RequestLog.TruncateKeepsPrefix` | dist/index.js:778-780 | any start of the line shorter than 80 characters survives truncation |
| `RequestLog.TruncateLosesNothingWhenShort` | dist/index.js:778-780 | a line comes back unchanged iff it has at most 80 characters |
| `RequestLog.LogRequest` | dist/index.js:771-783 | a line is logged iff the path starts with "/api", and it is the truncated "METHOD path status in Nms[ :: json]" |
| `RequestLog.LoggedLineShape` | dist/index.js:774-780 | a logged line fits in 80 characters and starts with the method and path when they fit |
| `Routes.StatusCode` | dist/index.js:572-578 | validation failures answer 400, other errors 500, successes 200 |
| `Routes.NoticeOf` | dist/index.js:544-553 | the email fields keep the names and address, and urgent becomes `urgent ?? false` |
| `Routes.ContactSmsOf` | dist/index.js:564-571 | the SMS fields are the full name, the email, `phone ?? ""`, `service ?? ""`, `message ?? ""` and `urgent ?? false` |
| `Routes.CalendarBookingOf` | dist/index.js:584-593 | the calendar fields carry the full name and the request's fields, and notes only when non-empty |
| `Routes.BookingSmsOf` | dist/index.js:596-603 | the SMS fields carry the full name, phone, service, date, time and vehicle of the request |
| `Routes.ContactNotificationCount` | dist/index.js:544-571 | a submission sends two emails when mail is configured and one SMS when SMS is configured |
| `Routes.ContactUrgencyTagged` | dist/index.js:544-571 | with both channels configured, the first request is the business email and the last the business SMS, each tagged "[URGENT] " iff the submission has urgent true |
| `Routes.PostContact` | dist/index.js:540-579 | invalid: 400, nothing stored or sent; store fault: 500, nothing sent; else one row appended with the next id, the contact counter advances by one and the appointment table and counter are untouched, response carries that id whatever the providers answer, effects are insert, business email, customer email, business SMS in that order |
| `Routes.PostAppointment` | dist/index.js:581-620 | invalid: 400, nothing done; the calendar request comes first and never blocks the insert; store fault: 500 with the calendar request already made; else one "pending" row appended with the next id, the appointment counter advances by one and the contact table and counter are untouched, response carries its id and the calendar's answer, then both SMS |
| `Routes.GetAvailability` | dist/index.js:621-629 | answers with the requested date and the calendar's ten-slot grid |
| `Routes.ListContacts` | dist/index.js:638-645 | answers with every stored contact row |
| `Routes.ListAppointments` | dist/index.js:630-637 | answers with every stored appointment row |

## Left out

- Express setup, body parsing, static files and the Vite dev server are not modelled. They are framework glue.
- The catch-all error middleware is not modelled. It answers and then rethrows, which is process behaviour, not logic.
- The `log()` helper's time-of-day prefix and all console output are not modelled. They depend on the clock and on I/O.
- The users table and `createUser` / `getUser` / `getUserByUsername` are left out. No route reaches them.
- `createdAt` timestamps are not modelled. They come from the database clock.
- Date handling is not modelled: `new Date(...)`, `toISOString`, `getHours`, the 60-minute event length and the America/Denver zone. These depend on locale and time zone. Busy periods are given as whole hours, and a calendar request records the raw date and time strings.
- `Adapters.CalendarService.CreateAppointment`: a date or time that does not parse makes the code throw before it contacts the calendar. The model still lists the request, with `accepted` false.
- `Adapters.CalendarService.UpdateAppointment`: a new date or time that does not parse makes the code throw after the get, so it sends no update. The model still lists the update, with `accepted` as the answer.
- `Adapters.CalendarService.GetAvailableSlots`: a date that does not parse throws before the list request. The model lists the request and treats the failure as `ListFailed`.
- The event description, its notes line, reminder settings and `sendUpdates` are not modelled. Nor are the HTML and plain-text email bodies. Only the urgent flag in them matters here.
- `JSON.parse` of the service-account key and the JWT set-up become the `keyParses` input.
- A Twilio client constructor that throws is not modelled. It is not caught and would stop the process at start-up.
- Zod parsing is an input (`parsed`), and the 400 response's field-level details are not modelled.
- The two booking SMS are issued together under `Promise.all`. The model lists them in the order they are issued (customer first); completion order is not modelled.
- Environment variables are read once, when each adapter is built. The code reads the sender, recipient and calendar id again on each call, but nothing changes them at run time.
- `Store.Storage.CreateContactSubmission`: an explicit `urgent: null` is stored as false here. The database would store NULL.
- Interleaving of concurrent requests is not modelled. Each handler runs as one uninterrupted step on the store, while in the code another request can run at each `await`, and its row can land between this handler's reads and its insert.
- A database fault is modelled only as an insert that is rejected with no effect. A fault after the row is written is not modelled.
- `Routes.ListContacts` and `Routes.ListAppointments`: a failing query answers 500 in the code (dist/index.js:634-635, 642-643). The model's query never fails, so these routes never give that answer.
- `RequestLog.Truncate`: lengths count Unicode characters. JavaScript counts UTF-16 code units, so for text outside the Basic Multilingual Plane the cut point differs, and the code can split a surrogate pair.
- `RequestLog.LogRequest`: the response body's JSON text is an input. `JSON.stringify` is not modelled, and neither is the duration measurement.
