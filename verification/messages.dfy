/** What both variants send and answer: the messages a submission turns
    into, the order they are sent in, and the JSON response. The bodies
    are modelled by the submission values they interpolate; the HTML or
    plain-text wording around those values is not modelled. */
module Messages {
  import opened Results
  import opened Submissions
  import BookingIds

  /** The interpolated values of each body template, in the template's own
      terms. Every value is already rendered as the f-string renders it. */
  datatype Content =
    | BookingNotice(bookingId: string, name: string, phone: string, email: string,
                    eventType: string, eventDate: string, guests: string,
                    venueLocation: string, budget: string, specialRequests: string)
    | BookingConfirmation(name: string, bookingId: string, eventType: string,
                          eventDate: string, guests: string, venueLocation: string,
                          budget: string, specialRequests: string)
    | ContactNotice(name: string, email: string, phone: string,
                    preferredContact: string, subject: string, message: string)
    | ContactConfirmation(name: string, subject: string, preferredContact: string,
                          message: string)

  /** One outgoing message: its single recipient, subject line and body. */
  datatype Mail = Mail(to: string, subject: string, content: Content)

  /** The handler's JSON reply: 200 with a message (and, for bookings, the
      booking id), or 500 with `{"error": str(e)}`. */
  datatype Response =
    | Ok200(message: string, bookingId: Option<string>)
    | Err500(error: string)

  const BookingAccepted := "Booking received and emails sent"
  const ContactAccepted := "Message sent successfully"
  const BookingConfirmationSubject := "Booking Confirmation - Bristo Event Caterers"
  const ContactConfirmationSubject := "We Received Your Message - Bristo Event Caterers"

  predicate StartsWith(s: string, prefix: string)
  {
    prefix <= s
  }

  predicate EndsWith(s: string, suffix: string)
  {
    |suffix| <= |s| && s[|s| - |suffix|..] == suffix
  }

  /** `f"New Booking from {data.get('name')} (ID: {booking_id})"`. */
  function BookingSubject(data: Submission, id: string): (s: string)
    ensures StartsWith(s, "New Booking from ") && EndsWith(s, " (ID: " + id + ")")
    ensures |s| == |"New Booking from "| + |Field(data, "name")| + |" (ID: " + id + ")"|
    ensures s[|"New Booking from "| .. |s| - |" (ID: " + id + ")"|] == Field(data, "name")
  {
    "New Booking from " + Field(data, "name") + " (ID: " + id + ")"
  }

  /** `f"Contact Form Message - {data.get('subject')}"`. */
  function ContactSubject(data: Submission): (s: string)
    ensures StartsWith(s, "Contact Form Message - ")
    ensures s[|"Contact Form Message - "|..] == Field(data, "subject")
  {
    "Contact Form Message - " + Field(data, "subject")
  }

  /** `format_booking_email`: the business copy of a booking. */
  function FormatBooking(data: Submission, id: string): (c: Content)
    ensures c.BookingNotice? && c.bookingId == id
    ensures c.name == Field(data, "name") && c.phone == Field(data, "phone") && c.email == Field(data, "email")
    ensures c.eventType == Show(ResolveEventType(data))
    ensures c.eventDate == Field(data, "eventDate") && c.guests == Field(data, "guests")
    ensures c.venueLocation == Field(data, "venueLocation") && c.budget == Field(data, "budget")
    ensures c.specialRequests == Field(data, "specialRequests")
  {
    BookingNotice(id, Field(data, "name"), Field(data, "phone"), Field(data, "email"),
                  Show(ResolveEventType(data)), Field(data, "eventDate"), Field(data, "guests"),
                  Field(data, "venueLocation"), Field(data, "budget"), Field(data, "specialRequests"))
  }

  /** `format_confirmation_email`: the client's copy of a booking. */
  function FormatConfirmation(data: Submission, id: string): (c: Content)
    ensures c.BookingConfirmation? && c.bookingId == id
    ensures c.name == Field(data, "name")
    ensures c.eventType == Show(ResolveEventType(data))
    ensures c.eventDate == Field(data, "eventDate") && c.guests == Field(data, "guests")
    ensures c.venueLocation == Field(data, "venueLocation") && c.budget == Field(data, "budget")
    ensures c.specialRequests == Field(data, "specialRequests")
  {
    BookingConfirmation(Field(data, "name"), id, Show(ResolveEventType(data)),
                        Field(data, "eventDate"), Field(data, "guests"), Field(data, "venueLocation"),
                        Field(data, "budget"), Field(data, "specialRequests"))
  }

  /** The business copy of a contact message. */
  function FormatContact(data: Submission): (c: Content)
    ensures c.ContactNotice?
    ensures c.name == Field(data, "name") && c.email == Field(data, "email") && c.phone == Field(data, "phone")
    ensures c.preferredContact == Field(data, "preferredContact")
    ensures c.subject == Field(data, "subject") && c.message == Field(data, "message")
  {
    ContactNotice(Field(data, "name"), Field(data, "email"), Field(data, "phone"),
                  Field(data, "preferredContact"), Field(data, "subject"), Field(data, "message"))
  }

  /** The client's copy of a contact message. */
  function FormatContactConfirmation(data: Submission): (c: Content)
    ensures c.ContactConfirmation?
    ensures c.name == Field(data, "name") && c.subject == Field(data, "subject")
    ensures c.preferredContact == Field(data, "preferredContact") && c.message == Field(data, "message")
  {
    ContactConfirmation(Field(data, "name"), Field(data, "subject"),
                        Field(data, "preferredContact"), Field(data, "message"))
  }

  /** The messages a booking asks for, in sending order: the business copy
      always and first, the client's confirmation only for a truthy
      `email`. */
  function BookingPlan(business: string, data: Submission, id: string): (p: seq<Mail>)
    ensures 1 <= |p| <= 2
    ensures p[0].to == business
    ensures StartsWith(p[0].subject, "New Booking from ") && EndsWith(p[0].subject, " (ID: " + id + ")")
    ensures p[0].content.BookingNotice? && p[0].content.bookingId == id
    ensures p[0].content.eventType == Show(ResolveEventType(data))
    ensures |p| == 2 <==> Truthy(Lookup(data, "email"))
    ensures |p| == 2 ==> Lookup(data, "email") == Some(p[1].to)
    ensures |p| == 2 ==> p[1].subject == BookingConfirmationSubject
    ensures |p| == 2 ==> p[1].content.BookingConfirmation? && p[1].content.bookingId == id
    ensures |p| == 2 ==> p[1].content.eventType == p[0].content.eventType
    ensures p[0].subject == BookingSubject(data, id) && p[0].content == FormatBooking(data, id)
    ensures |p| == 2 ==> p[1].content == FormatConfirmation(data, id)
  {
    var notice := Mail(business, BookingSubject(data, id), FormatBooking(data, id));
    var email := Lookup(data, "email");
    if Truthy(email) then
      [notice, Mail(email.value, BookingConfirmationSubject, FormatConfirmation(data, id))]
    else
      [notice]
  }

  /** The messages a contact submission asks for, in sending order. */
  function ContactPlan(business: string, data: Submission): (p: seq<Mail>)
    ensures 1 <= |p| <= 2
    ensures p[0].to == business
    ensures StartsWith(p[0].subject, "Contact Form Message - ")
    ensures p[0].subject[|"Contact Form Message - "|..] == Field(data, "subject")
    ensures p[0].content.ContactNotice?
    ensures |p| == 2 <==> Truthy(Lookup(data, "email"))
    ensures |p| == 2 ==> Lookup(data, "email") == Some(p[1].to)
    ensures |p| == 2 ==> p[1].subject == ContactConfirmationSubject && p[1].content.ContactConfirmation?
    ensures p[0].subject == ContactSubject(data) && p[0].content == FormatContact(data)
    ensures |p| == 2 ==> p[1].content == FormatContactConfirmation(data)
  {
    var notice := Mail(business, ContactSubject(data), FormatContact(data));
    var email := Lookup(data, "email");
    if Truthy(email) then
      [notice, Mail(email.value, ContactConfirmationSubject, FormatContactConfirmation(data))]
    else
      [notice]
  }

  /** The reply once the sends have run: the first exception's text as a
      500, otherwise the success payload. */
  function Respond(failure: Option<string>, success: Response): (r: Response)
    requires success.Ok200?
    ensures r.Ok200? <==> failure.None?
    ensures r.Ok200? ==> r == success
    ensures r.Err500? ==> Some(r.error) == failure
  {
    match failure
    case None => success
    case Some(e) => Err500(e)
  }

  /** A missing field shows as the text `None`; for a booking without a
      name the business subject reads `New Booking from None (ID: …)`. */
  lemma MissingFieldsRenderAsNone(data: Submission, id: string)
    requires "name" !in data && "eventType" !in data && "email" !in data
    ensures BookingPlan("b", data, id)[0].subject == "New Booking from None (ID: " + id + ")"
    ensures BookingPlan("b", data, id)[0].content.eventType == "None"
    ensures BookingPlan("b", data, id)[0].content.email == "None"
  {
  }

  /** The business and client copies of a booking show the same details. */
  lemma BookingCopiesAgree(business: string, data: Submission, id: string)
    requires Truthy(Lookup(data, "email"))
    ensures var p := BookingPlan(business, data, id);
            && p[0].content.name == p[1].content.name
            && p[0].content.eventDate == p[1].content.eventDate
            && p[0].content.guests == p[1].content.guests
            && p[0].content.venueLocation == p[1].content.venueLocation
            && p[0].content.budget == p[1].content.budget
            && p[0].content.specialRequests == p[1].content.specialRequests
  {
  }
}
