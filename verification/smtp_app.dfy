/** The SMTP variant: each message is handed to Flask-Mail's `mail.send`,
    which either delivers it or raises. The outcome of the k-th `mail.send`
    of a request (counting from 0) is a parameter of the model. */
module SmtpApp {
  import opened Results
  import opened Submissions
  import opened Messages
  import BookingIds

  const BusinessEmail := "bristoeventcaterers@gmail.com"

  /** What one `mail.send` does. */
  datatype Delivery = Delivered | Raised(text: string)

  /** The messages handed to `mail.send`, in order, and the text of the
      exception that stopped the handler, if any. */
  datatype Run = Run(sends: seq<Mail>, failure: Option<string>)

  /** What a handler did and answered. */
  datatype Handled = Handled(sends: seq<Mail>, response: Response)

  /** Send `plan` in order inside one `try`, the first send getting the
      k-th outcome: the first exception ends the run. */
  function Relay(plan: seq<Mail>, mailSend: nat -> Delivery, k: nat): (r: Run)
    ensures r.sends <= plan
    ensures forall j :: k <= j < k + |r.sends| - 1 ==> mailSend(j) == Delivered
    ensures r.failure.None? ==> r.sends == plan && forall j :: k <= j < k + |plan| ==> mailSend(j) == Delivered
    ensures r.failure.Some? ==> |r.sends| > 0 && mailSend(k + |r.sends| - 1) == Raised(r.failure.value)
    decreases |plan|
  {
    if plan == [] then Run([], None)
    else
      match mailSend(k)
      case Raised(e) => Run([plan[0]], Some(e))
      case Delivered =>
        var rest := Relay(plan[1..], mailSend, k + 1);
        Run([plan[0]] + rest.sends, rest.failure)
  }

  /** The run succeeds exactly when every planned message is delivered. */
  lemma RelaySucceedsIff(plan: seq<Mail>, mailSend: nat -> Delivery, k: nat)
    ensures Relay(plan, mailSend, k).failure.None?
            <==> forall j :: k <= j < k + |plan| ==> mailSend(j) == Delivered
  {
  }

  /** `book_service` of the SMTP variant, for the UUID text `uuid`. */
  function BookService(data: Submission, uuid: string, mailSend: nat -> Delivery): (h: Handled)
    ensures 1 <= |h.sends| <= 2 && h.sends[0].to == BusinessEmail
    ensures |h.sends| == 2 <==> Truthy(Lookup(data, "email")) && mailSend(0) == Delivered
    ensures |h.sends| == 2 ==> Lookup(data, "email") == Some(h.sends[1].to)
    ensures mailSend(0).Raised? ==> h.response == Err500(mailSend(0).text)
    ensures h.response.Ok200? <==>
              mailSend(0) == Delivered && (Truthy(Lookup(data, "email")) ==> mailSend(1) == Delivered)
    ensures h.response.Ok200? ==> h.response == Ok200(BookingAccepted, Some(BookingIds.BookingId(uuid)))
    ensures h.response.Err500? ==> mailSend(|h.sends| - 1) == Raised(h.response.error)
    ensures h.sends <= BookingPlan(BusinessEmail, data, BookingIds.BookingId(uuid))
  {
    var id := BookingIds.BookingId(uuid);
    var plan := BookingPlan(BusinessEmail, data, id);
    var run := Relay(plan, mailSend, 0);
    RelaySucceedsIff(plan, mailSend, 0);
    Handled(run.sends, Respond(run.failure, Ok200(BookingAccepted, Some(id))))
  }

  /** `contact_us` of the SMTP variant. */
  function ContactUs(data: Submission, mailSend: nat -> Delivery): (h: Handled)
    ensures 1 <= |h.sends| <= 2 && h.sends[0].to == BusinessEmail
    ensures h.sends[0].subject == "Contact Form Message - " + Field(data, "subject")
    ensures |h.sends| == 2 <==> Truthy(Lookup(data, "email")) && mailSend(0) == Delivered
    ensures |h.sends| == 2 ==> Lookup(data, "email") == Some(h.sends[1].to)
    ensures mailSend(0).Raised? ==> h.response == Err500(mailSend(0).text)
    ensures h.response.Ok200? <==>
              mailSend(0) == Delivered && (Truthy(Lookup(data, "email")) ==> mailSend(1) == Delivered)
    ensures h.response.Ok200? ==> h.response == Ok200(ContactAccepted, None)
    ensures h.response.Err500? ==> mailSend(|h.sends| - 1) == Raised(h.response.error)
    ensures h.sends <= ContactPlan(BusinessEmail, data)
  {
    var plan := ContactPlan(BusinessEmail, data);
    var run := Relay(plan, mailSend, 0);
    RelaySucceedsIff(plan, mailSend, 0);
    Handled(run.sends, Respond(run.failure, Ok200(ContactAccepted, None)))
  }

  /** A confirmation that fails after the business copy went out still
      turns the whole booking into a 500, although one message was sent. */
  lemma ConfirmationFailureAfterBusinessSend(data: Submission, uuid: string, mailSend: nat -> Delivery)
    requires Truthy(Lookup(data, "email"))
    requires mailSend(0) == Delivered && mailSend(1).Raised?
    ensures var h := BookService(data, uuid, mailSend);
            && |h.sends| == 2
            && h.sends[0].to == BusinessEmail
            && h.response == Err500(mailSend(1).text)
  {
  }

  /** With a transport that always raises, both endpoints answer 500 with
      the exception text, after attempting only the business copy. */
  lemma FailingTransportAnswers500(data: Submission, uuid: string, text: string)
    ensures var h := BookService(data, uuid, (_: nat) => Raised(text));
            h.response == Err500(text) && |h.sends| == 1
    ensures var h := ContactUs(data, (_: nat) => Raised(text));
            h.response == Err500(text) && |h.sends| == 1
  {
  }

  /** Every place a successful booking shows its id shows the same one. */
  lemma BookingIdShownConsistently(data: Submission, uuid: string, mailSend: nat -> Delivery)
    requires BookService(data, uuid, mailSend).response.Ok200?
    ensures var h := BookService(data, uuid, mailSend);
            var id := h.response.bookingId.value;
            && EndsWith(h.sends[0].subject, " (ID: " + id + ")")
            && (forall i :: 0 <= i < |h.sends| ==> h.sends[i].content.bookingId == id)
  {
  }

  /** A contact message from a client with an email address, everything
      delivered: two sends and the success payload. */
  lemma ContactExample(mailSend: nat -> Delivery)
    requires mailSend(0) == Delivered && mailSend(1) == Delivered
    ensures var data := map["name" := "Jane", "email" := "jane@x.com", "phone" := "0700000000",
                            "preferredContact" := "phone", "subject" := "Menu",
                            "message" := "Do you cater vegan?"];
            var h := ContactUs(data, mailSend);
            && h.response == Ok200("Message sent successfully", None)
            && |h.sends| == 2
            && h.sends[1].to == "jane@x.com"
            && h.sends[0].subject == "Contact Form Message - Menu"
  {
  }
}
