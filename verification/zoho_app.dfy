/** The Zoho Mail variant's handlers (main.py): the same plan of messages
    as the SMTP variant, each sent through `send_email_via_zoho`. */
module ZohoApp {
  import opened Results
  import opened Submissions
  import opened Messages
  import opened ZohoApi
  import BookingIds

  /** One message handed to `send_email_via_zoho`: the network position of
      its first call and what the send did. */
  datatype Send = Send(mail: Mail, at: nat, attempt: Attempt)

  /** The sends of a request, in order, and the exception that ended it. */
  datatype Run = Run(sends: seq<Send>, failure: Option<string>)

  /** What a handler did and answered. */
  datatype Handled = Handled(sends: seq<Send>, response: Response)

  /** The send's record is what `send` does with its message from its
      network position on. */
  predicate IsSendAt(s: Send, send: (Mail, nat) -> Attempt)
  {
    s.attempt == send(s.mail, s.at)
  }

  /** Every network call of a run, in order. */
  function CallLog(sends: seq<Send>): (log: seq<Call>)
    decreases |sends|
  {
    if sends == [] then [] else sends[0].attempt.calls + CallLog(sends[1..])
  }

  /** Send `plan` in order inside one `try`, the first send starting at
      network position k and each later one where the previous one's
      calls ended: the first exception ends the run. */
  function Relay(plan: seq<Mail>, send: (Mail, nat) -> Attempt, k: nat): (r: Run)
    ensures |r.sends| <= |plan|
    ensures forall i :: 0 <= i < |r.sends| ==> r.sends[i].mail == plan[i] && IsSendAt(r.sends[i], send)
    ensures |r.sends| > 0 ==> r.sends[0].at == k
    ensures forall i :: 0 <= i < |r.sends| - 1 ==>
              r.sends[i + 1].at == r.sends[i].at + |r.sends[i].attempt.calls|
    ensures forall i :: 0 <= i < |r.sends| - 1 ==> r.sends[i].attempt.raised.None?
    ensures r.failure.None? ==>
              |r.sends| == |plan| && forall i :: 0 <= i < |plan| ==> r.sends[i].attempt.raised.None?
    ensures r.failure.Some? ==> |r.sends| > 0 && r.sends[|r.sends| - 1].attempt.raised == r.failure
    decreases |plan|
  {
    if plan == [] then Run([], None)
    else
      var a := send(plan[0], k);
      if a.raised.Some? then Run([Send(plan[0], k, a)], a.raised)
      else
        var rest := Relay(plan[1..], send, k + |a.calls|);
        Run([Send(plan[0], k, a)] + rest.sends, rest.failure)
  }

  /** `send_email_via_zoho` over the network the request sees. */
  function Zoho(network: nat -> Reply): (Mail, nat) -> Attempt
  {
    (m: Mail, j: nat) => SendViaZoho(m, network, j)
  }

  /** `book_service` of the Zoho variant, for the UUID text `uuid`. */
  function BookService(data: Submission, uuid: string, network: nat -> Reply): (h: Handled)
    ensures 1 <= |h.sends| <= 2
    ensures h.sends[0].mail.to == BusinessEmail && h.sends[0].at == 0
    ensures h.sends[0].attempt == SendViaZoho(h.sends[0].mail, network, 0)
    ensures |h.sends| == 2 <==> Truthy(Lookup(data, "email")) && h.sends[0].attempt.raised.None?
    ensures |h.sends| == 2 ==>
              && Lookup(data, "email") == Some(h.sends[1].mail.to)
              && h.sends[1].attempt == SendViaZoho(h.sends[1].mail, network, 3)
    ensures h.response.Err500? <==> h.sends[|h.sends| - 1].attempt.raised.Some?
    ensures h.response.Err500? ==> h.sends[|h.sends| - 1].attempt.raised == Some(h.response.error)
    ensures h.response.Ok200? ==> h.response == Ok200(BookingAccepted, Some(BookingIds.BookingId(uuid)))
    ensures var plan := BookingPlan(BusinessEmail, data, BookingIds.BookingId(uuid));
            |h.sends| <= |plan| && forall i :: 0 <= i < |h.sends| ==> h.sends[i].mail == plan[i]
  {
    var id := BookingIds.BookingId(uuid);
    var run := Relay(BookingPlan(BusinessEmail, data, id), Zoho(network), 0);
    Handled(run.sends, Respond(run.failure, Ok200(BookingAccepted, Some(id))))
  }

  /** `contact_us` of the Zoho variant. */
  function ContactUs(data: Submission, network: nat -> Reply): (h: Handled)
    ensures 1 <= |h.sends| <= 2
    ensures h.sends[0].mail.to == BusinessEmail && h.sends[0].at == 0
    ensures h.sends[0].mail.subject == "Contact Form Message - " + Field(data, "subject")
    ensures |h.sends| == 2 <==> Truthy(Lookup(data, "email")) && h.sends[0].attempt.raised.None?
    ensures |h.sends| == 2 ==>
              && Lookup(data, "email") == Some(h.sends[1].mail.to)
              && h.sends[1].attempt == SendViaZoho(h.sends[1].mail, network, 3)
    ensures h.response.Err500? <==> h.sends[|h.sends| - 1].attempt.raised.Some?
    ensures h.response.Err500? ==> h.sends[|h.sends| - 1].attempt.raised == Some(h.response.error)
    ensures h.response.Ok200? ==> h.response == Ok200(ContactAccepted, None)
    ensures var plan := ContactPlan(BusinessEmail, data);
            |h.sends| <= |plan| && forall i :: 0 <= i < |h.sends| ==> h.sends[i].mail == plan[i]
  {
    var run := Relay(ContactPlan(BusinessEmail, data), Zoho(network), 0);
    Handled(run.sends, Respond(run.failure, Ok200(ContactAccepted, None)))
  }

  /** A booking with a client address on a cooperating network makes six
      calls, re-authenticating for the second send instead of reusing the
      first token, and the second POST goes to the client. */
  lemma BookingWithEmailMakesSixCalls(data: Submission, uuid: string, network: nat -> Reply)
    requires Truthy(Lookup(data, "email"))
    requires Cooperates(network, 0) && Cooperates(network, 3)
    ensures var h := BookService(data, uuid, network);
            var log := CallLog(h.sends);
            && h.response.Ok200?
            && |log| == 6
            && log[0] == TokenExchange && log[1].AccountListing? && log[2].MessagePost?
            && log[3] == TokenExchange && log[4].AccountListing? && log[5].MessagePost?
            && log[2].payload.toAddress == BusinessEmail
            && Lookup(data, "email") == Some(log[5].payload.toAddress)
  {
    var h := BookService(data, uuid, network);
    CooperatingSendCompletes(h.sends[0].mail, network, 0);
    SendRaisesIff(h.sends[0].mail, network, 0);
    CooperatingSendCompletes(h.sends[1].mail, network, 3);
    SendRaisesIff(h.sends[1].mail, network, 3);
    assert h.sends[1..][1..] == [];
    assert CallLog(h.sends[1..]) == h.sends[1].attempt.calls + CallLog([]);
    assert CallLog(h.sends) == h.sends[0].attempt.calls + h.sends[1].attempt.calls;
  }

  /** A failure status on the token exchange raises before anything is
      listed or posted: the booking answers 500 with the HTTPError text. */
  lemma TokenFailureAborts(data: Submission, uuid: string, network: nat -> Reply)
    requires network(0).Answered? && IsFailureStatus(network(0).status)
    ensures var h := BookService(data, uuid, network);
            && |h.sends| == 1
            && CallLog(h.sends) == [TokenExchange]
            && h.response == Err500(RaiseForStatus(network(0).status, network(0).reason, TokenUrl).value)
  {
  }

  /** A failure status on the account listing raises before the POST. */
  lemma AccountListingFailureAborts(data: Submission, uuid: string, network: nat -> Reply)
    requires AnswersObject(network(0))
    requires network(1).Answered? && IsFailureStatus(network(1).status)
    ensures var h := BookService(data, uuid, network);
            && |h.sends| == 1
            && |CallLog(h.sends)| == 2
            && h.response == Err500(RaiseForStatus(network(1).status, network(1).reason, ApiBase).value)
  {
  }

  /** An account listing without accounts answers 500 with
      "No Zoho Mail accounts found.". */
  lemma NoAccountsAborts(data: Submission, network: nat -> Reply)
    requires AnswersObject(network(0))
    requires AnswersObject(network(1)) && !JsonTruthy(GetOr(network(1).body.fields, "data", JArr([])))
    ensures ContactUs(data, network).response == Err500(NoAccounts)
    ensures |ContactUs(data, network).sends| == 1
  {
  }

  /** The POST's status is never checked: a booking whose every POST is
      refused still answers 200, although no message was delivered. */
  lemma RefusedPostStillAnswers200(data: Submission, uuid: string, network: nat -> Reply)
    requires Cooperates(network, 0) && network(2).status != 200
    requires Truthy(Lookup(data, "email")) ==> Cooperates(network, 3) && network(5).status != 200
    ensures BookService(data, uuid, network).response.Ok200?
  {
  }

  /** A confirmation that raises after the business copy went out, for
      whatever reason, still turns the contact request into a 500 with the
      confirmation's exception text. */
  lemma ConfirmationFailureAfterBusinessSend(data: Submission, network: nat -> Reply)
    requires Truthy(Lookup(data, "email"))
    requires Cooperates(network, 0) && !Cooperates(network, 3)
    ensures var h := ContactUs(data, network);
            && |h.sends| == 2
            && h.sends[0].attempt.raised.None?
            && h.sends[1].attempt.raised.Some?
            && h.response == Err500(h.sends[1].attempt.raised.value)
  {
  }

  /** No token or account id is cached: every send of a request, booking
      or contact, starts with its own token exchange. */
  lemma EverySendReauthenticates(data: Submission, uuid: string, network: nat -> Reply)
    ensures var h := BookService(data, uuid, network);
            forall i :: 0 <= i < |h.sends| ==> h.sends[i].attempt.calls[0] == TokenExchange
    ensures var h := ContactUs(data, network);
            forall i :: 0 <= i < |h.sends| ==> h.sends[i].attempt.calls[0] == TokenExchange
  {
  }

  /** Every place a successful booking shows its id shows the same one,
      and every POST of it comes from the business address as HTML. */
  lemma BookingIdShownConsistently(data: Submission, uuid: string, network: nat -> Reply)
    requires BookService(data, uuid, network).response.Ok200?
    ensures var h := BookService(data, uuid, network);
            var id := h.response.bookingId.value;
            && EndsWith(h.sends[0].mail.subject, " (ID: " + id + ")")
            && (forall i :: 0 <= i < |h.sends| ==> h.sends[i].mail.content.bookingId == id)
            && (forall i :: 0 <= i < |h.sends| ==>
                  && |h.sends[i].attempt.calls| == 3
                  && h.sends[i].attempt.calls[2].payload.fromAddress == BusinessEmail
                  && h.sends[i].attempt.calls[2].payload.mailFormat == "html"
                  && h.sends[i].attempt.calls[2].payload.content == h.sends[i].mail.content)
  {
  }
}
