/** The submitted fields every handler works from, and the event type both
    variants derive from them (app.py and main.py share this logic). */
module Submissions {
  import opened Results

  /** One request's fields, taken from its JSON object or its form body. */
  type Submission = map<string, string>

  /** `data.get(key)`. */
  function Lookup(data: Submission, key: string): Option<string>
  {
    if key in data then Some(data[key]) else None
  }

  /** The text a looked-up value contributes to an f-string: Python prints
      a missing value as `None`. */
  function Show(v: Option<string>): string
  {
    match v
    case Some(s) => s
    case None => "None"
  }

  /** `{data.get(key)}` inside an f-string. */
  function Field(data: Submission, key: string): (text: string)
    ensures key in data ==> text == data[key]
    ensures key !in data ==> text == "None"
  {
    Show(Lookup(data, key))
  }

  /** Python truthiness of a looked-up string: present and not empty. */
  function Truthy(v: Option<string>): (b: bool)
    ensures b <==> v.Some? && |v.value| > 0
  {
    v.Some? && v.value != ""
  }

  /** `request.get_json() or request.form.to_dict()`: a JSON object is used
      unless it is missing or empty, in which case the form fields are. */
  function ChooseFields(json: Option<Submission>, form: Submission): (data: Submission)
    ensures data == form || (json.Some? && data == json.value)
    ensures json.Some? && json.value != map[] ==> data == json.value
    ensures data != form ==> json.Some? && json.value != map[]
  {
    if json.Some? && json.value != map[] then json.value else form
  }

  const OtherChoice := "other"
  const OtherFallback := "Other"

  /** The event type a booking displays: the choice `"other"` (exactly, case
      sensitive) is replaced by the free-text `customEventType`, or by
      `"Other"` when that key is missing; any other choice, absent
      included, is shown as submitted. */
  function ResolveEventType(data: Submission): (r: Option<string>)
    ensures Lookup(data, "eventType") != Some(OtherChoice) ==> r == Lookup(data, "eventType")
    ensures Lookup(data, "eventType") == Some(OtherChoice) ==> r.Some?
    ensures Lookup(data, "eventType") == Some(OtherChoice) && "customEventType" in data ==>
              r == Some(data["customEventType"])
    ensures Lookup(data, "eventType") == Some(OtherChoice) && "customEventType" !in data ==>
              r == Some(OtherFallback)
  {
    var chosen := Lookup(data, "eventType");
    if chosen == Some(OtherChoice) then
      Some(if "customEventType" in data then data["customEventType"] else OtherFallback)
    else
      chosen
  }

  /** The resolved event type is the literal `"other"` exactly when the
      submission chose `"other"` and also typed `"other"` as its custom
      event type: the substitution never leaves the placeholder behind
      otherwise. */
  lemma ResolvedOtherIff(data: Submission)
    ensures ResolveEventType(data) == Some(OtherChoice)
            <==> Lookup(data, "eventType") == Some(OtherChoice)
                 && Lookup(data, "customEventType") == Some(OtherChoice)
  {
  }

  /** The resolved event type is missing exactly when no event type was
      submitted; an empty `customEventType` is kept, not replaced. */
  lemma ResolvedAbsentIff(data: Submission)
    ensures ResolveEventType(data).None? <==> "eventType" !in data
    ensures Lookup(data, "eventType") == Some(OtherChoice) && Lookup(data, "customEventType") == Some("")
            ==> ResolveEventType(data) == Some("")
  {
  }

  /** Only the `eventType` and `customEventType` fields influence the
      resolution. */
  lemma ResolveReadsTwoFields(a: Submission, b: Submission)
    requires Lookup(a, "eventType") == Lookup(b, "eventType")
    requires Lookup(a, "customEventType") == Lookup(b, "customEventType")
    ensures ResolveEventType(a) == ResolveEventType(b)
  {
  }
}
