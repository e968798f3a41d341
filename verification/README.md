# Bristo Events booking backend — a Dafny model of its mail-dispatch decisions

The backend takes booking and contact submissions and relays them by email:
a notification to the business inbox and, when the submitter gave an
address, a confirmation to them. It exists in two variants with the same
handler shape: `app.py` sends through Flask-Mail (SMTP), `main.py` through
the Zoho Mail REST API, where every send first exchanges a refresh token for
an access token, then lists the mail accounts, then POSTs the message.

The model keeps the decision layer and drops the transport:

- a submission is a `map<string, string>`; `data.get(k)` is an `Option`, and
  an absent value renders as the text `None`, as a Python f-string prints it
  (`submissions.dfy`);
- the booking id is `"BK"` plus the upper-cased first eight characters of the
  UUID text, which is a parameter (`booking_ids.dfy`);
- a submission turns into a *plan*: the business message first, the client's
  confirmation second and only for a truthy `email`; bodies are modelled by
  the values they interpolate, not by their markup (`messages.dfy`);
- each handler sends its plan in order inside one `try` and answers 200 with
  its payload, or 500 with the text of the first exception, even when the
  business message had already gone out (`smtp_app.dfy`, `zoho_app.dfy`);
- the transport is scripted: the outcome of the k-th `mail.send`
  (`nat -> Delivery`) or the reply to the k-th HTTP call (`nat -> Reply`,
  a status, reason phrase and decoded JSON body, or a raised connection
  error) is an input of the handler;
- `send_email_via_zoho` is the three-call sequence with no caching;
  `raise_for_status` raises for 4xx/5xx on the token and account calls, with
  the `requests` library's message text; a non-200 on the final POST is only
  logged, so the handler still answers 200 (`zoho_api.dfy`).

Both variants share `Messages.BookingPlan` and `Messages.ContactPlan`: the
two variants interpolate the same fields and differ only in the business
address and the dispatcher.

Two behaviours of the code are easy to miss: the token exchange and
account listing of the Zoho variant raise on a failure status (they call
`raise_for_status`), they are not only logged; and the rendered event type
can be the literal `other`, exactly when `customEventType` is itself
`"other"` (`Submissions.ResolvedOtherIff`).

## Model

| member | source | states |
|---|---|---|
| Submissions.ChooseFields | app.py:79 | the submission is the JSON object unless it is missing or empty, in which case it is the form fields |
| Submissions.Field | app.py:37-45 | `{data.get(key)}` shows the submitted value when the key is present and the text `None` when it is absent |
| Submissions.Truthy | app.py:92-93 | `if user_email:` holds exactly for a present, non-empty value |
| Submissions.ResolveEventType | main.py:75-77 | the choice `"other"` (exact) becomes `customEventType` when that key is present, even empty, and `"Other"` only when it is absent; every other value, absence included, passes through |
| Submissions.ResolvedOtherIff | app.py:29-31 | the resolved event type is the literal `"other"` if and only if both `eventType` and `customEventType` are `"other"` |
| Submissions.ResolvedAbsentIff | main.py:116-118 | the resolved event type is missing if and only if no `eventType` was submitted; an empty `customEventType` is kept, not replaced by `"Other"` |
| Submissions.ResolveReadsTwoFields | app.py:50-52 | only `eventType` and `customEventType` influence the resolved event type |
| BookingIds.Take | main.py:156 | `s[:8]` has length `min(8, len(s))` and is a prefix of `s` |
| BookingIds.Upper | app.py:81 | `.upper()` keeps the length and maps every character through the ASCII upper-case map |
| BookingIds.BookingId | app.py:81 | the id is `BK` followed by the upper-cased characters of the UUID text's first eight, position by position |
| BookingIds.CanonicalBookingId | main.py:156 | for a canonical UUID text the id has length 10, starts with `BK` and ends in eight characters from `0-9A-F` |
| BookingIds.BookingIdRecoversUuidPrefix | main.py:156 | for a canonical UUID text, lower-casing the id's last eight characters gives back the UUID's first eight |
| Messages.BookingSubject | app.py:85 | the business subject is `New Booking from `, then the rendered name, then ` (ID: <id>)`; the name can be read back from between the two |
| Messages.ContactSubject | app.py:116 | the contact subject is `Contact Form Message - ` followed by the rendered `subject` field |
| Messages.FormatBooking | main.py:74-112 | the business booking body shows the booking id, the resolved event type and the rendered name, phone, email, date, guests, venue, budget and special requests |
| Messages.FormatConfirmation | app.py:49-73 | the booking confirmation body shows the rendered name, the booking id, the resolved event type and the rendered date, guests, venue, budget and special requests |
| Messages.FormatContact | main.py:183-203 | the business contact body shows the rendered name, email, phone, preferred contact method, subject and message |
| Messages.FormatContactConfirmation | main.py:206-232 | the contact confirmation body shows the rendered name, subject, preferred contact method and message |
| Messages.BookingPlan | app.py:83-99 | a booking sends one or two messages: the business one first, with the booking subject and the business body (every field rendered from the submission, the id and the resolved event type); a second one, to `email`, exactly when `email` is truthy, with the confirmation subject and body carrying the same id and event type |
| Messages.ContactPlan | app.py:115-155 | a contact sends the business message first with subject `Contact Form Message - ` plus the rendered `subject` and the contact body; a confirmation to `email`, with the confirmation subject and body, exactly when `email` is truthy |
| Messages.Respond | app.py:101-107 | the response is the success payload exactly when no send raised, otherwise a 500 carrying the exception text |
| Messages.MissingFieldsRenderAsNone | app.py:36-40 | absent fields render as `None`: a nameless booking's subject is `New Booking from None (ID: <id>)` |
| Messages.BookingCopiesAgree | main.py:125-138 | the business copy and the confirmation show the same name, date, guests, venue, budget and requests |
| SmtpApp.Relay | app.py:80-99 | the messages handed to `mail.send` are a prefix of the plan; the run fails exactly at the first send that raised, with its text, and every earlier send was delivered |
| SmtpApp.RelaySucceedsIff | app.py:89-99 | the run succeeds if and only if every planned message is delivered |
| SmtpApp.BookService | app.py:76-107 | the messages sent are a prefix of the booking plan: the business message first; a second send to `email` happens iff `email` is truthy and the first send did not raise; a raising first send gives a 500 with its text; the answer is 200 with the booking id iff every attempted send was delivered |
| SmtpApp.ContactUs | app.py:111-160 | as for bookings, following the contact plan, with the contact subject and the payload `{"message": "Message sent successfully"}` |
| SmtpApp.ConfirmationFailureAfterBusinessSend | app.py:92-107 | when the confirmation raises after the business message was delivered, two sends happened and the answer is still a 500 |
| SmtpApp.FailingTransportAnswers500 | app.py:106-107 | with a transport that always raises, both endpoints answer 500 with the error text after one attempted send |
| SmtpApp.BookingIdShownConsistently | app.py:81-104 | a successful booking shows the id of its response in the business subject and in every body it sent |
| SmtpApp.ContactExample | app.py:113-157 | Jane's contact message with everything delivered gives two sends, subject `Contact Form Message - Menu` and `{"message": "Message sent successfully"}` |
| ZohoApi.RaiseForStatus | main.py:31 | `raise_for_status` raises exactly for a 4xx or 5xx status, with a message naming the URL |
| ZohoApi.AccessToken | main.py:21-33 | the token call raises on a connection error or failure status; it returns exactly for a successful object body, giving its `access_token` (or `None`) |
| ZohoApi.PrimaryAccountId | main.py:35-45 | the listing raises on a failure status, raises `No Zoho Mail accounts found.` when `data` is missing or empty, and returns exactly when `data` is a non-empty list whose first element is an object, giving its `accountId` |
| ZohoApi.MessagesUrlNamesAccount | main.py:52 | the POST URL is the API base, `/`, the account id and `/messages`, and the id can be read back from it |
| ZohoApi.SendViaZoho | main.py:47-70 | a send makes one to three calls, always starting with a token exchange; the account listing carries that token; when the token and account calls return, the POST is made, carrying the listed account id, the same token, and a payload from the business address to the recipient in `html` format; fewer than three calls means it raised; after the POST it raises only on a connection error, with that error's text, whatever the status |
| ZohoApi.CooperatingSendCompletes | main.py:67-70 | on a network that grants a token, lists an account and answers the POST, a send makes its three calls and does not raise |
| ZohoApi.SendRaisesIff | main.py:47-70 | a send completes without raising if and only if the network cooperates in that sense |
| ZohoApp.Relay | main.py:155-172 | the sends follow the plan in order, each one what `send_email_via_zoho` does from where the previous one's calls ended; the run fails exactly at the first send that raised |
| ZohoApp.BookService | main.py:152-178 | the sends follow the booking plan: the business send first, at network position 0; a second send to `email`, at position 3, happens iff `email` is truthy and the first send did not raise; the answer is a 500 with the last send's exception text iff it raised, otherwise 200 with the booking id |
| ZohoApp.ContactUs | main.py:235-259 | as for bookings, following the contact plan, with the contact subject and the payload `{"message": "Message sent successfully"}` |
| ZohoApp.BookingWithEmailMakesSixCalls | main.py:159-172 | a booking with a client address on a cooperating network makes six calls: token, listing, POST to the business, then a fresh token, listing, POST to the client |
| ZohoApp.TokenFailureAborts | main.py:30-31 | a failure status on the token exchange ends the booking after that one call with a 500 carrying the HTTPError text |
| ZohoApp.AccountListingFailureAborts | main.py:39-40 | a failure status on the account listing ends the booking after two calls with a 500 carrying the HTTPError text |
| ZohoApp.NoAccountsAborts | main.py:41-43 | an account listing with no accounts answers 500 with `No Zoho Mail accounts found.` |
| ZohoApp.RefusedPostStillAnswers200 | main.py:67-70 | a booking whose POSTs all answer a non-200 status still answers 200 |
| ZohoApp.ConfirmationFailureAfterBusinessSend | main.py:247-259 | when the business send completes and the confirmation's send raises for any reason (connection error, failure status, no accounts, odd JSON), the contact answers 500 with the confirmation's exception text after two sends |
| ZohoApp.EverySendReauthenticates | main.py:49-50 | every send of a booking or contact starts with its own token exchange: nothing is cached |
| ZohoApp.BookingIdShownConsistently | main.py:156-174 | a successful booking shows its response's id in the business subject and every body, and every POST is from the business address in `html` format with that body |

## Left out

- Flask routing, CORS, `request.get_json()` parsing and `print` logging: framework glue and output; `ChooseFields` only models the `or` between the JSON object and the form.
- Submissions whose JSON values are not strings (numbers, lists) or whose JSON body is not an object: the submission is a string-to-string map.
- Flask-Mail and the HTTP library: their calls are replaced by scripted outcomes; the SMTP server configuration and the sender address are not modelled.
- `uuid.uuid4()` randomness: the UUID text is a parameter.
- The HTML and plain-text wording of the bodies, and how often a value is repeated in the HTML (main.py shows the phone four times): only which values each body shows is modelled.
- `load_dotenv`/`os.getenv` configuration: the OAuth client id, secret and refresh token are not modelled; the business addresses and URLs are constants.
- BookingIds.Upper: only ASCII letters are upper-cased, while Python's `str.upper` also maps other letters; a canonical UUID text has no such letters.
- ZohoApi.SendViaZoho: a final POST whose body is not valid JSON would raise in `response.json()`; replies here always carry a decoded body, so that raise is only covered through `ConnectionError`. JSON numbers are integers (no floats).
- ZohoApi.PrimaryAccountId: account ids are recorded as JSON values in the POST call; the URL text is modelled (`MessagesUrl`) for string ids only.
