/** The Zoho Mail dispatcher of main.py with the HTTP library abstracted:
    every `send_email_via_zoho` makes up to three network calls (token
    exchange, account listing, message POST), and the reply to the k-th
    call of a request (counting from 0) is a parameter of the model. */
module ZohoApi {
  import opened Results
  import opened Messages

  const BusinessEmail := "bristoeventcaterers@bristoevents.co.ke"
  const ApiBase := "https://mail.zoho.com/api/accounts"
  const TokenUrl := "https://accounts.zoho.com/oauth/v2/token"
  const NoAccounts := "No Zoho Mail accounts found."
  const HtmlFormat := "html"

  /** A decoded JSON document (numbers are integers here). */
  datatype Json =
    | JNull
    | JBool(b: bool)
    | JInt(i: int)
    | JStr(s: string)
    | JArr(items: seq<Json>)
    | JObj(fields: map<string, Json>)

  /** What the HTTP library gives back for one call: a response with its
      status, reason phrase and decoded body, or the text of the exception
      the call raised (connection failure and the like). */
  datatype Reply =
    | Answered(status: int, reason: string, body: Json)
    | ConnectionError(text: string)

  /** The network calls a send makes, with the values they carry. The
      POST goes to `MessagesUrl` of the recorded account id when that id is
      a string; the id itself is recorded, since Python's `str` of other
      JSON values is not modelled. */
  datatype Call =
    | TokenExchange
    | AccountListing(token: Json)
    | MessagePost(accountId: Json, token: Json, payload: Payload)

  /** The JSON object the final POST carries. */
  datatype Payload = Payload(fromAddress: string, toAddress: string, subject: string,
                             mailFormat: string, content: Content)

  /** One `send_email_via_zoho`: the calls it made, in order, and the text
      of the exception it raised, if any. */
  datatype Attempt = Attempt(calls: seq<Call>, raised: Option<string>)

  /** The Python type name of a decoded JSON value. */
  function TypeName(j: Json): string
  {
    match j
    case JNull => "NoneType"
    case JBool(_) => "bool"
    case JInt(_) => "int"
    case JStr(_) => "str"
    case JArr(_) => "list"
    case JObj(_) => "dict"
  }

  /** Python truthiness of a decoded JSON value. */
  predicate JsonTruthy(j: Json)
  {
    match j
    case JNull => false
    case JBool(b) => b
    case JInt(i) => i != 0
    case JStr(s) => s != ""
    case JArr(items) => items != []
    case JObj(fields) => fields != map[]
  }

  /** `d.get(key, default)` on a decoded object. */
  function GetOr(fields: map<string, Json>, key: string, default: Json): Json
  {
    if key in fields then fields[key] else default
  }

  /** The text of the `AttributeError` raised by `.get` on a non-object. */
  function NoGet(j: Json): string
  {
    "'" + TypeName(j) + "' object has no attribute 'get'"
  }

  /** The number a string of decimal digits denotes. */
  function DigitsValue(d: string): nat
    requires forall i :: 0 <= i < |d| ==> '0' <= d[i] <= '9'
  {
    if d == [] then 0 else DigitsValue(d[..|d| - 1]) * 10 + (d[|d| - 1] as int - '0' as int)
  }

  /** `str(n)` for a natural number: its decimal digits, without leading
      zeros, denoting `n`. */
  function Decimal(n: nat): (d: string)
    ensures |d| > 0
    ensures forall i :: 0 <= i < |d| ==> '0' <= d[i] <= '9'
    ensures |d| > 1 ==> d[0] != '0'
    ensures DigitsValue(d) == n
  {
    if n < 10 then [('0' as int + n) as char]
    else
      var init := Decimal(n / 10);
      var d := init + [('0' as int + n % 10) as char];
      assert d[..|d| - 1] == init;
      d
  }

  /** Whether `raise_for_status` raises: a 4xx or 5xx status. */
  predicate IsFailureStatus(status: int)
  {
    400 <= status < 600
  }

  /** `response.raise_for_status()`: the HTTPError text for a 4xx or 5xx
      status, nothing otherwise. */
  function RaiseForStatus(status: int, reason: string, url: string): (e: Option<string>)
    ensures e.Some? <==> IsFailureStatus(status)
    ensures e.Some? ==> EndsWith(e.value, " for url: " + url)
  {
    if 400 <= status < 500 then Some(Decimal(status) + " Client Error: " + reason + " for url: " + url)
    else if 500 <= status < 600 then Some(Decimal(status) + " Server Error: " + reason + " for url: " + url)
    else None
  }

  /** `get_access_token`: the `access_token` member of the token reply
      (`None` when it is missing). */
  function AccessToken(reply: Reply): (r: Result<Json>)
    ensures reply.ConnectionError? ==> r == Raises(reply.text)
    ensures reply.Answered? && IsFailureStatus(reply.status) ==>
              r == Raises(RaiseForStatus(reply.status, reply.reason, TokenUrl).value)
    ensures r.Returns? <==> reply.Answered? && !IsFailureStatus(reply.status) && reply.body.JObj?
    ensures r.Returns? ==> r.value == GetOr(reply.body.fields, "access_token", JNull)
  {
    match reply
    case ConnectionError(e) => Raises(e)
    case Answered(status, reason, body) =>
      match RaiseForStatus(status, reason, TokenUrl)
      case Some(e) => Raises(e)
      case None =>
        if body.JObj? then Returns(GetOr(body.fields, "access_token", JNull))
        else Raises(NoGet(body))
  }

  /** `accounts[0]` on a truthy `data` member, then `.get("accountId")`. */
  function FirstAccountId(accounts: Json): Result<Json>
    requires JsonTruthy(accounts)
  {
    match accounts
    case JArr(items) =>
      if items[0].JObj? then Returns(GetOr(items[0].fields, "accountId", JNull))
      else Raises(NoGet(items[0]))
    case JObj(_) => Raises("0")
    case JStr(_) => Raises(NoGet(JStr("")))
    case JInt(_) => Raises("'int' object is not subscriptable")
    case JBool(_) => Raises("'bool' object is not subscriptable")
  }

  /** `get_primary_account_id`: the `accountId` of the first account the
      listing returns, or "No Zoho Mail accounts found." when `data` is
      missing or empty. */
  function PrimaryAccountId(reply: Reply): (r: Result<Json>)
    ensures reply.ConnectionError? ==> r == Raises(reply.text)
    ensures reply.Answered? && IsFailureStatus(reply.status) ==>
              r == Raises(RaiseForStatus(reply.status, reply.reason, ApiBase).value)
    ensures reply.Answered? && !IsFailureStatus(reply.status) && reply.body.JObj?
              && !JsonTruthy(GetOr(reply.body.fields, "data", JArr([]))) ==>
              r == Raises(NoAccounts)
    ensures r.Returns? <==>
              && reply.Answered? && !IsFailureStatus(reply.status) && reply.body.JObj?
              && GetOr(reply.body.fields, "data", JArr([])).JArr?
              && |GetOr(reply.body.fields, "data", JArr([])).items| > 0
              && GetOr(reply.body.fields, "data", JArr([])).items[0].JObj?
    ensures r.Returns? ==>
              r.value == GetOr(GetOr(reply.body.fields, "data", JArr([])).items[0].fields, "accountId", JNull)
  {
    match reply
    case ConnectionError(e) => Raises(e)
    case Answered(status, reason, body) =>
      match RaiseForStatus(status, reason, ApiBase)
      case Some(e) => Raises(e)
      case None =>
        if !body.JObj? then Raises(NoGet(body))
        else
          var accounts := GetOr(body.fields, "data", JArr([]));
          if !JsonTruthy(accounts) then Raises(NoAccounts) else FirstAccountId(accounts)
  }

  /** `f"{ZOHO_API_BASE}/{account_id}/messages"` for a string id. */
  function MessagesUrl(accountId: string): string
  {
    ApiBase + "/" + accountId + "/messages"
  }

  /** The POST target names the account: the id is recovered from between
      the API base and the `/messages` suffix. */
  lemma MessagesUrlNamesAccount(accountId: string)
    ensures var url := MessagesUrl(accountId);
            && StartsWith(url, ApiBase + "/")
            && EndsWith(url, "/messages")
            && url[|ApiBase| + 1 .. |url| - |"/messages"|] == accountId
  {
  }

  /** The payload `send_email_via_zoho` posts for a message. */
  function PayloadFor(mail: Mail): Payload
  {
    Payload(BusinessEmail, mail.to, mail.subject, HtmlFormat, mail.content)
  }

  /** `send_email_via_zoho`, its first call answered by `network(k)`: a
      fresh token, then the account listing, then the POST. A failure
      status on the first two calls raises; the POST's status is only
      logged. */
  function SendViaZoho(mail: Mail, network: nat -> Reply, k: nat): (a: Attempt)
    ensures 1 <= |a.calls| <= 3
    ensures a.calls[0] == TokenExchange
    ensures |a.calls| < 3 ==> a.raised.Some?
    ensures AccessToken(network(k)).Raises? ==>
              a == Attempt([TokenExchange], Some(AccessToken(network(k)).error))
    ensures |a.calls| >= 2 ==>
              AccessToken(network(k)).Returns? && a.calls[1] == AccountListing(AccessToken(network(k)).value)
    ensures AccessToken(network(k)).Returns? && PrimaryAccountId(network(k + 1)).Raises? ==>
              |a.calls| == 2 && a.raised == Some(PrimaryAccountId(network(k + 1)).error)
    ensures |a.calls| == 3 ==>
              && PrimaryAccountId(network(k + 1)).Returns?
              && a.calls[2] == MessagePost(PrimaryAccountId(network(k + 1)).value, a.calls[1].token,
                                           Payload(BusinessEmail, mail.to, mail.subject, "html", mail.content))
    ensures |a.calls| == 3 ==> (a.raised.None? <==> network(k + 2).Answered?)
    ensures AccessToken(network(k)).Returns? && PrimaryAccountId(network(k + 1)).Returns? ==> |a.calls| == 3
    ensures |a.calls| == 3 && network(k + 2).ConnectionError? ==> a.raised == Some(network(k + 2).text)
  {
    match AccessToken(network(k))
    case Raises(e) => Attempt([TokenExchange], Some(e))
    case Returns(token) =>
      var listed := [TokenExchange, AccountListing(token)];
      match PrimaryAccountId(network(k + 1))
      case Raises(e) => Attempt(listed, Some(e))
      case Returns(accountId) =>
        var calls := listed + [MessagePost(accountId, token, PayloadFor(mail))];
        match network(k + 2)
        case ConnectionError(e) => Attempt(calls, Some(e))
        case Answered(_, _, _) => Attempt(calls, None)
  }

  /** A successful reply whose body is a JSON object. */
  predicate AnswersObject(reply: Reply)
  {
    reply.Answered? && !IsFailureStatus(reply.status) && reply.body.JObj?
  }

  /** An account listing whose `data` starts with an account object. */
  predicate ListsAnAccount(reply: Reply)
  {
    AnswersObject(reply)
    && var accounts := GetOr(reply.body.fields, "data", JArr([]));
    accounts.JArr? && |accounts.items| > 0 && accounts.items[0].JObj?
  }

  /** A network that grants a token, lists an account and answers the POST
      (with any status) from position k on. */
  predicate Cooperates(network: nat -> Reply, k: nat)
  {
    AnswersObject(network(k)) && ListsAnAccount(network(k + 1)) && network(k + 2).Answered?
  }

  /** On a cooperating network a send makes exactly its three calls and
      does not raise, whatever status the POST answers with. */
  lemma CooperatingSendCompletes(mail: Mail, network: nat -> Reply, k: nat)
    requires Cooperates(network, k)
    ensures var a := SendViaZoho(mail, network, k);
            && a.raised.None?
            && |a.calls| == 3
            && a.calls[1].AccountListing?
            && a.calls[2].MessagePost?
  {
  }

  /** A send raises exactly when the network does not cooperate. */
  lemma SendRaisesIff(mail: Mail, network: nat -> Reply, k: nat)
    ensures SendViaZoho(mail, network, k).raised.None? <==> Cooperates(network, k)
  {
  }
}
