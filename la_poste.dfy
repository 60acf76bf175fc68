/**
 * The client of the La Poste shipment-tracking API (app/external/la_poste.py).
 *
 * The HTTP exchange itself is not performed: what `requests.get` returned or
 * raised is an input value (`Exchange`), and `GetLetterDetails` classifies it
 * exactly as `LaPosteAPI.get_letter_details` does, branch by branch.
 */
module LaPoste {
  import opened Options

  /** A client as built by `LaPosteAPI.__init__`; nothing updates it afterwards. */
  datatype Client = Client(endpoint: string, apiKey: string, language: string)

  /** The language used when the constructor is called without one. */
  const DefaultLanguage: string := "en_GB"

  /**
   * `LaPosteAPI(endpoint, api_key, language)`. `None` for `language` means the
   * argument is OMITTED, which is the only case the default applies to; a
   * caller that passes a setting passes it through unchanged.
   */
  function NewClient(endpoint: string, apiKey: string, language: Option<string>): (c: Client)
    ensures c.endpoint == endpoint && c.apiKey == apiKey
    ensures language.None? ==> c.language == DefaultLanguage
    ensures language.Some? ==> c.language == language.value
  {
    Client(endpoint, apiKey, if language.Some? then language.value else DefaultLanguage)
  }

  // ---------------------------------------------------------------------------
  // The request

  /** An outgoing GET request: where it goes and which headers it carries. */
  datatype Request = Request(url: string, headers: map<string, string>)

  /** The `headers` property: JSON is accepted and the API key is sent as X-Okapi-Key. */
  function Headers(c: Client): (h: map<string, string>)
    ensures h.Keys == {"Accept", "X-Okapi-Key"}
    ensures h["Accept"] == "application/json"
    ensures h["X-Okapi-Key"] == c.apiKey
  {
    map["Accept" := "application/json", "X-Okapi-Key" := c.apiKey]
  }

  const IdShips: string := "/idships/"
  const LangQuery: string := "?lang="

  /** `{endpoint}/idships/{number}?lang={language}`; the number is inserted without escaping. */
  function Url(c: Client, number: string): (u: string)
    ensures |u| == |c.endpoint| + |IdShips| + |number| + |LangQuery| + |c.language|
    ensures u[..|c.endpoint|] == c.endpoint
    ensures u[|u| - |c.language|..] == c.language
  {
    c.endpoint + IdShips + number + LangQuery + c.language
  }

  /** Reads the tracking number back out of a URL built by `Url` for the same client. */
  function NumberInUrl(c: Client, u: string): string
    requires |u| >= |c.endpoint| + |IdShips| + |LangQuery| + |c.language|
  {
    u[|c.endpoint| + |IdShips| .. |u| - |LangQuery| - |c.language|]
  }

  /** The tracking number is recoverable from the URL: distinct letters are asked for at distinct URLs. */
  lemma UrlRoundTrip(c: Client, number: string)
    ensures NumberInUrl(c, Url(c, number)) == number
  {
    var u := Url(c, number);
    var start := |c.endpoint| + |IdShips|;
    assert u == (c.endpoint + IdShips) + number + (LangQuery + c.language);
    assert u[start .. start + |number|] == number;
  }

  lemma UrlInjective(c: Client, n1: string, n2: string)
    requires Url(c, n1) == Url(c, n2)
    ensures n1 == n2
  {
    UrlRoundTrip(c, n1);
    UrlRoundTrip(c, n2);
  }

  // ---------------------------------------------------------------------------
  // The reply

  /** An exception raised by `requests.get` before any response exists. */
  datatype TransportError =
    | ConnectionFailure      // requests.exceptions.ConnectionError and its subclasses
    | TimeoutFailure         // requests.exceptions.Timeout and its subclasses
    | HttpFailure            // requests.exceptions.HTTPError
    | OtherRequestFailure    // any other exception (MissingSchema, TooManyRedirects, ...)

  /** A string-valued member of a JSON object: absent, `null`, or a string. */
  datatype JsonField = Missing | Null | Str(s: string)

  datatype Event = Event(labelField: JsonField)

  /**
   * The part of the decoded body that the client reads. `shipment` is `None` when
   * the member is absent or not an object, `event` when it is absent or not a list.
   */
  datatype Shipment = Shipment(event: Option<seq<Event>>)
  datatype Document =
    | NotJson                // `response.json()` raises
    | NotObject              // valid JSON, but not an object
    | Object(shipment: Option<Shipment>, returnMessage: JsonField)

  datatype Exchange =
    | Failed(error: TransportError)
    | Reply(code: int, body: Document)

  /** What `get_letter_details` does: return a value (a label or `None`) or raise. */
  datatype Outcome =
    | Label(status: string)  // returns a string
    | NoStatus               // returns None
    | Unauthorized           // raises LaPosteUnauthorizedException
    | ApiDown                // raises LaPosteAPIException
    | Crash                  // any other exception escapes
  {
    predicate Raised() { Unauthorized? || ApiDown? || Crash? }

    /** The returned value, as Python sees it. */
    function Returned(): Option<string>
      requires !Raised()
    {
      if Label? then Some(status) else None
    }
  }

  const UnknownStatus: string := "Unknown status"

  /** `response.json()["shipment"]["event"][0]["label"]`; every lookup that fails raises. */
  function FirstEventLabel(d: Document): (o: Outcome)
    ensures o.Label? || o.NoStatus? || o.Crash?
    ensures o.Label? <==> d.Object? && d.shipment.Some? && d.shipment.value.event.Some?
                          && |d.shipment.value.event.value| > 0
                          && d.shipment.value.event.value[0].labelField.Str?
    // a JSON null label is returned as None
    ensures o.NoStatus? <==> d.Object? && d.shipment.Some? && d.shipment.value.event.Some?
                             && |d.shipment.value.event.value| > 0
                             && d.shipment.value.event.value[0].labelField.Null?
    // the label is that of the first event, not of any later one
    ensures o.Label? ==> o.status == d.shipment.value.event.value[0].labelField.s
  {
    match d
    case Object(Some(Shipment(Some(events))), _) =>
      if |events| == 0 then Crash
      else (match events[0].labelField
            case Missing => Crash
            case Null => NoStatus
            case Str(s) => Label(s))
    case _ => Crash
  }

  /** `response.json().get("returnMessage", "Unknown status")`. */
  function ReturnMessage(d: Document): (o: Outcome)
    ensures o.Label? || o.NoStatus? || o.Crash?
    ensures o.Crash? <==> !d.Object?
    ensures o.NoStatus? <==> d.Object? && d.returnMessage.Null?
    ensures o.Label? ==> o.status == (if d.returnMessage.Str? then d.returnMessage.s else UnknownStatus)
  {
    match d
    case Object(_, message) =>
      (match message
       case Missing => Label(UnknownStatus)
       case Null => NoStatus
       case Str(s) => Label(s))
    case _ => Crash
  }

  /** `LaPosteAPI.get_letter_details` applied to what the network gave back. */
  function GetLetterDetails(x: Exchange): (o: Outcome)
    // 401 is checked first, before the body is looked at
    ensures o.Unauthorized? <==> x.Reply? && x.code == 401
    // only the three caught transport errors become LaPosteAPIException
    ensures o.ApiDown? <==> x.Failed? && x.error != OtherRequestFailure
    // any other exception from requests.get escapes
    ensures x.Failed? && x.error == OtherRequestFailure ==> o.Crash?
    // a label is only ever read from a 200, 400 or 404 reply
    ensures o.Label? ==> x.Reply? && x.code in {200, 400, 404}
    // any other status code falls through every branch and returns None
    ensures x.Reply? && x.code !in {200, 400, 401, 404} ==> o.NoStatus?
    ensures x.Reply? && x.code == 200 ==> o == FirstEventLabel(x.body)
    ensures x.Reply? && (x.code == 400 || x.code == 404) ==> o == ReturnMessage(x.body)
  {
    match x
    case Failed(e) => if e == OtherRequestFailure then Crash else ApiDown
    case Reply(code, body) =>
      if code == 401 then Unauthorized
      else if code == 200 then FirstEventLabel(body)
      else if code == 400 || code == 404 then ReturnMessage(body)
      else NoStatus
  }

  /** A 200 reply gives the label of the FIRST event of the shipment. */
  lemma FoundGivesFirstLabel(events: seq<Event>, text: string, rest: JsonField)
    requires |events| > 0 && events[0].labelField == Str(text)
    ensures GetLetterDetails(Reply(200, Object(Some(Shipment(Some(events))), rest))) == Label(text)
  {
  }

  /** A 400 or 404 reply gives its returnMessage, or "Unknown status" without one, as a successful label. */
  lemma NotFoundGivesMessage(code: int, shipment: Option<Shipment>, message: JsonField)
    requires code == 400 || code == 404
    ensures message.Str? ==> GetLetterDetails(Reply(code, Object(shipment, message))) == Label(message.s)
    ensures message.Missing? ==> GetLetterDetails(Reply(code, Object(shipment, message))) == Label(UnknownStatus)
  {
  }
}
