/**
 * The letter endpoints of app/views/api_endpoints.py over an in-memory store.
 *
 * The two tables are one map from tracking number to the letter's status rows,
 * in the order they were inserted. Registration (POST /letters), the letter view
 * (GET /letters/<n>) and refresh-one (PUT /letters/<n>) are methods of
 * `LetterStore`; `datetime.utcnow()` is the parameter `now`, the reply of the
 * tracking API is the parameter `reply`, and `strftime` is the parameter `fmt`.
 * The reconciliation of one letter's rows with a fetched status is the function
 * `Reconciled`, about which the lemmas below are stated.
 */
module ApiEndpoints {
  import opened Options
  import opened Letters
  import opened LaPoste

  // ---------------------------------------------------------------------------
  // Requests and responses

  /**
   * What the POST handler reads as `tracking_number`. A missing or falsy body, and
   * an object without the member, read as `Absent`. `NotAnObject` is a truthy body
   * that is not a JSON object (`[1]`, `"x"`, `5`): calling `.get` on it raises.
   */
  datatype TrackingField = Absent | Null | Text(text: string) | Number(number: int) | NotAnObject

  /** Python's `not tracking_number`. */
  predicate Falsy(f: TrackingField)
  {
    f.Absent? || f.Null? || f == Text("") || f == Number(0)
  }

  /** The range of an SQLite INTEGER: the driver cannot bind a Python int outside it. */
  const Int64Min: int := -0x8000_0000_0000_0000
  const Int64Max: int := 0x7FFF_FFFF_FFFF_FFFF

  /**
   * The handler raises before anything is written: `.get` on a body that is not an
   * object, or the duplicate lookup binding an integer SQLite cannot hold.
   */
  predicate RegisterRaises(f: TrackingField)
  {
    f.NotAnObject? || (f.Number? && !(Int64Min <= f.number <= Int64Max))
  }

  predicate AllDigits(s: string)
  {
    forall i :: 0 <= i < |s| ==> '0' <= s[i] <= '9'
  }

  /** The decimal digits of `n`, most significant first, without leading zeros. */
  function Digits(n: nat): (s: string)
    ensures |s| > 0
    ensures AllDigits(s)
  {
    if n < 10 then ['0' + n as char]
    else Digits(n / 10) + ['0' + (n % 10) as char]
  }

  /** `str(n)`: how a JSON number ends up in the text column. */
  function DecimalText(n: int): (s: string)
    ensures |s| > 0
    ensures (s[0] == '-') <==> n < 0
    ensures s[0] == '-' ==> AllDigits(s[1..])
    ensures s[0] != '-' ==> AllDigits(s)
  {
    if n < 0 then "-" + Digits(-n) else Digits(n)
  }

  /** The value of a string of decimal digits, most significant first. */
  function DigitsValue(s: string): nat
    requires AllDigits(s)
    decreases |s|
  {
    if s == [] then 0
    else DigitsValue(s[..|s| - 1]) * 10 + (s[|s| - 1] as int - '0' as int)
  }

  /** `int(s)` for an optional minus sign followed by digits. */
  function DecimalValue(s: string): int
    requires |s| > 0
    requires s[0] == '-' ==> AllDigits(s[1..])
    requires s[0] != '-' ==> AllDigits(s)
  {
    if s[0] == '-' then -(DigitsValue(s[1..]) as int) else DigitsValue(s)
  }

  lemma {:induction false} DigitsRoundTrip(n: nat)
    ensures DigitsValue(Digits(n)) == n
  {
    if n >= 10 {
      DigitsRoundTrip(n / 10);
      var s := Digits(n);
      assert s[..|s| - 1] == Digits(n / 10);
    }
  }

  /** The stored text of a number reads back as that number. */
  lemma DecimalRoundTrip(n: int)
    ensures DecimalValue(DecimalText(n)) == n
  {
    if n < 0 {
      DigitsRoundTrip(-n);
      assert DecimalText(n)[1..] == Digits(-n);
    } else {
      DigitsRoundTrip(n);
    }
  }

  /** Different numbers are stored under different texts. */
  lemma DecimalTextInjective(m: int, n: int)
    requires DecimalText(m) == DecimalText(n)
    ensures m == n
  {
    DecimalRoundTrip(m);
    DecimalRoundTrip(n);
  }

  /** The text stored in `letter.tracking_number` for a truthy string or number. */
  function StoredKey(f: TrackingField): (k: string)
    requires (f.Text? || f.Number?) && !Falsy(f)
    ensures k != ""
    ensures f.Text? ==> k == f.text
    ensures f.Number? ==> k == DecimalText(f.number)
  {
    match f
    case Text(s) => s
    case Number(n) => DecimalText(n)
  }

  /** A JSON value echoed in the `tracking_number` member of a response. */
  datatype JValue = JNull | JText(text: string) | JNumber(number: int)

  function Echo(f: TrackingField): JValue
  {
    match f
    case Text(s) => JText(s)
    case Number(n) => JNumber(n)
    case _ => JNull
  }

  datatype Body =
    | Message(text: string)                                      // {"message": ...}
    | Tracked(trackingNumber: JValue, message: Option<string>)   // {"tracking_number": ..., "message": ...}
    | LetterView(letter: SerializedLetter)                       // Letter.serialize()
    | ServerError                                                // an exception no handler catches

  datatype Response = Response(code: int, body: Body)

  const MissingNumberMessage: string := "Tracking number should be specified."
  const DuplicateMessage: string := "Letter is already present in DB."
  const CreatedMessage: string := "Letter has been created"
  const NotFoundMessage: string := "Letter is not found."
  const UnauthorizedMessage: string := "Unauthorized error. You need to provide correct API keys."
  const ApiDownMessage: string := "Looks like external tracking API is down. Please, try again later."

  function NotFound(number: string): Response
  {
    Response(404, Tracked(JText(number), Some(NotFoundMessage)))
  }

  /**
   * The blueprint's error handlers: LaPosteUnauthorizedException is a 401,
   * LaPosteAPIException a 500 with its own message; any other exception is the
   * framework's bare 500.
   */
  function RaisedResponse(o: Outcome): (r: Response)
    requires o.Raised()
    ensures r.code == 401 <==> o.Unauthorized?
    ensures r.code == 500 <==> (o.ApiDown? || o.Crash?)
    ensures o.Unauthorized? ==> r.body == Message(UnauthorizedMessage)
    ensures o.ApiDown? ==> r.body == Message(ApiDownMessage)
  {
    match o
    case Unauthorized => Response(401, Message(UnauthorizedMessage))
    case ApiDown => Response(500, Message(ApiDownMessage))
    case Crash => Response(500, ServerError)
  }

  // ---------------------------------------------------------------------------
  // Reconciliation of one letter's rows with a fetched status

  /**
   * The row `sorted(rows, key=last_update, reverse=True)[0]` picks: one with the
   * greatest timestamp, and of several such the first inserted (the sort is stable).
   */
  function LatestIndex(h: seq<StatusEntry>): (k: nat)
    requires |h| > 0
    ensures k < |h|
    ensures forall j :: 0 <= j < |h| ==> h[j].lastUpdate <= h[k].lastUpdate
    ensures forall j :: 0 <= j < k ==> h[j].lastUpdate < h[k].lastUpdate
  {
    if |h| == 1 then 0
    else
      var k := LatestIndex(h[..|h| - 1]);
      if h[k].lastUpdate < h[|h| - 1].lastUpdate then |h| - 1 else k
  }

  /** The latest row exists and already holds the fetched status: only its time is refreshed. */
  predicate Touches(h: seq<StatusEntry>, fetched: Option<string>)
  {
    |h| > 0 && fetched == Some(h[LatestIndex(h)].status)
  }

  /** The row that reconciliation writes: the latest one, or a new one at the end. */
  function WrittenIndex(h: seq<StatusEntry>, fetched: Option<string>): nat
  {
    if Touches(h, fetched) then LatestIndex(h) else |h|
  }

  /**
   * The rows after the fetched status is recorded at time `now`: exactly one row
   * is written, and it is the row the fetched status would create.
   */
  function Reconciled(h: seq<StatusEntry>, fetched: Option<string>, now: Timestamp): (r: seq<StatusEntry>)
    ensures |r| == if Touches(h, fetched) then |h| else |h| + 1
    ensures WrittenIndex(h, fetched) < |r| && r[WrittenIndex(h, fetched)] == NewEntry(fetched, now)
    ensures forall i :: 0 <= i < |h| && i != WrittenIndex(h, fetched) ==> r[i] == h[i]
  {
    if Touches(h, fetched) then
      var k := LatestIndex(h);
      h[k := StatusEntry(h[k].status, now)]
    else
      h + [NewEntry(fetched, now)]
  }

  /** The write would give two rows of the letter the same `last_update`; the commit fails. */
  predicate Collides(h: seq<StatusEntry>, fetched: Option<string>, now: Timestamp)
  {
    exists j :: 0 <= j < |h| && j != WrittenIndex(h, fetched) && h[j].lastUpdate == now
  }

  /** Same status as the latest row: as many rows as before, only that row's time becomes `now`. */
  lemma ReconcileSameStatus(h: seq<StatusEntry>, fetched: Option<string>, now: Timestamp)
    requires Touches(h, fetched)
    ensures var r := Reconciled(h, fetched, now);
            var k := LatestIndex(h);
            && |r| == |h|
            && r[k].status == h[k].status && r[k].lastUpdate == now
            && forall i :: 0 <= i < |h| && i != k ==> r[i] == h[i]
  {
  }

  /** No rows, or a different status: exactly one row (fetched, now) is appended, the rest kept. */
  lemma ReconcileNewStatus(h: seq<StatusEntry>, fetched: Option<string>, now: Timestamp)
    requires !Touches(h, fetched)
    ensures var r := Reconciled(h, fetched, now);
            && |r| == |h| + 1
            && r[..|h|] == h
            && r[|h|] == NewEntry(fetched, now)
  {
  }

  /**
   * `Collides` is exactly the uniqueness constraint: from distinct timestamps, the
   * write keeps them distinct if and only if it does not collide.
   */
  lemma ReconcileKeepsDistinct(h: seq<StatusEntry>, fetched: Option<string>, now: Timestamp)
    requires DistinctTimestamps(h)
    ensures DistinctTimestamps(Reconciled(h, fetched, now)) <==> !Collides(h, fetched, now)
  {
  }

  ghost predicate Before(h: seq<StatusEntry>, now: Timestamp)
  {
    forall i :: 0 <= i < |h| ==> h[i].lastUpdate < now
  }

  /**
   * With a clock later than every row, the write never collides, and the row
   * with the greatest timestamp afterwards is the fetched status stamped `now`.
   */
  lemma ReconcileMakesLatest(h: seq<StatusEntry>, fetched: Option<string>, now: Timestamp)
    requires Before(h, now)
    ensures !Collides(h, fetched, now)
    ensures var r := Reconciled(h, fetched, now);
            |r| > 0 && r[LatestIndex(r)] == NewEntry(fetched, now)
    ensures forall i :: 0 <= i < |Reconciled(h, fetched, now)| ==> Reconciled(h, fetched, now)[i].lastUpdate <= now
  {
  }

  /** One successful refresh: the status the tracking API gave and the clock at that moment. */
  datatype Observation = Observation(fetched: Option<string>, at: Timestamp)

  /** The rows after a series of refreshes that all committed. */
  function Replay(h: seq<StatusEntry>, obs: seq<Observation>): seq<StatusEntry>
    decreases |obs|
  {
    if obs == [] then h
    else Replay(Reconciled(h, obs[0].fetched, obs[0].at), obs[1..])
  }

  ghost predicate Increasing(obs: seq<Observation>)
  {
    forall i, j :: 0 <= i < j < |obs| ==> obs[i].at < obs[j].at
  }

  /**
   * Under a strictly increasing clock the current status (the row with the
   * greatest timestamp) is always the one the most recent refresh fetched.
   */
  lemma {:induction false} ReplayEndsWithLastFetched(h: seq<StatusEntry>, obs: seq<Observation>)
    requires |obs| > 0
    requires Increasing(obs)
    requires Before(h, obs[0].at)
    decreases |obs|
    ensures var r := Replay(h, obs);
            |r| > 0 && r[LatestIndex(r)] == NewEntry(obs[|obs| - 1].fetched, obs[|obs| - 1].at)
  {
    ReconcileMakesLatest(h, obs[0].fetched, obs[0].at);
    if |obs| > 1 {
      var h' := Reconciled(h, obs[0].fetched, obs[0].at);
      assert Before(h', obs[1].at);
      var rest := obs[1..];
      assert Increasing(rest) by {
        forall i, j | 0 <= i < j < |rest| ensures rest[i].at < rest[j].at {
          assert rest[i] == obs[i + 1] && rest[j] == obs[j + 1];
        }
      }
      ReplayEndsWithLastFetched(h', rest);
      assert rest[|rest| - 1] == obs[|obs| - 1];
    }
  }

  // ---------------------------------------------------------------------------
  // The store

  class LetterStore {
    /** Tracking number to the letter's status rows, in insertion order. */
    var letters: map<string, seq<StatusEntry>>

    /** No letter is stored under an empty number, and no letter has two rows with the same time. */
    ghost predicate Valid()
      reads this
    {
      && "" !in letters
      && forall n :: n in letters ==> DistinctTimestamps(letters[n])
    }

    /** The tables as found in the database. */
    constructor (table: map<string, seq<StatusEntry>>)
      requires "" !in table
      requires forall n :: n in table ==> DistinctTimestamps(table[n])
      ensures Valid()
      ensures letters == table
    {
      letters := table;
    }

    /** POST /letters. */
    method Register(field: TrackingField, now: Timestamp) returns (r: Response)
      requires Valid()
      modifies this
      ensures Valid()
      ensures RegisterRaises(field) ==> r == Response(500, ServerError) && letters == old(letters)
      ensures Falsy(field) ==>
                && r == Response(400, Tracked(JNull, Some(MissingNumberMessage)))
                && letters == old(letters)
      ensures !Falsy(field) && !RegisterRaises(field) && StoredKey(field) in old(letters) ==>
                && r == Response(400, Tracked(Echo(field), Some(DuplicateMessage)))
                && letters == old(letters)
      ensures !Falsy(field) && !RegisterRaises(field) && StoredKey(field) !in old(letters) ==>
                && r == Response(200, Tracked(JText(StoredKey(field)), Some(CreatedMessage)))
                && letters == old(letters)[StoredKey(field) := [NewEntry(None, now)]]
    {
      if field.NotAnObject? {
        return Response(500, ServerError);
      }
      if Falsy(field) {
        return Response(400, Tracked(JNull, Some(MissingNumberMessage)));
      }
      if RegisterRaises(field) {
        // OverflowError from the driver, raised by the duplicate lookup
        return Response(500, ServerError);
      }
      var key := StoredKey(field);
      if key in letters {
        return Response(400, Tracked(Echo(field), Some(DuplicateMessage)));
      }
      // the letter row, then its first status row with every column left to its default
      letters := letters[key := [NewEntry(None, now)]];
      r := Response(200, Tracked(JText(key), Some(CreatedMessage)));
    }

    /** GET /letters/<number>: the letter's view, or 404; nothing is written. */
    method Get(number: string, fmt: Timestamp -> string) returns (r: Response)
      ensures number !in letters ==> r == NotFound(number)
      ensures number in letters ==> r.code == 200 && r.body.LetterView?
      ensures number in letters ==> r.body.letter == Serialize(number, letters[number], fmt)
    {
      if number !in letters {
        return NotFound(number);
      }
      r := Response(200, LetterView(Serialize(number, letters[number], fmt)));
    }

    /**
     * PUT /letters/<number>: ask the tracking API for the letter's status and
     * record it. `sent` is the request made to the API (none for an unknown
     * letter) and `reply` what came back for it.
     */
    method Refresh(client: Client, number: string, reply: Exchange, now: Timestamp)
      returns (sent: Option<Request>, r: Response)
      requires Valid()
      modifies this
      ensures Valid()
      ensures number !in old(letters) ==> sent == None && r == NotFound(number) && letters == old(letters)
      ensures number in old(letters) ==> sent == Some(Request(Url(client, number), Headers(client)))
      ensures number in old(letters) && GetLetterDetails(reply).Raised() ==>
                r == RaisedResponse(GetLetterDetails(reply)) && letters == old(letters)
      ensures number in old(letters) && !GetLetterDetails(reply).Raised() ==>
                var h := old(letters)[number];
                var fetched := GetLetterDetails(reply).Returned();
                if Collides(h, fetched, now) then
                  r == Response(500, ServerError) && letters == old(letters)
                else
                  && r == Response(200, Tracked(JText(number), fetched))
                  && letters == old(letters)[number := Reconciled(h, fetched, now)]
    {
      if number !in letters {
        return None, NotFound(number);
      }
      sent := Some(Request(Url(client, number), Headers(client)));
      var outcome := GetLetterDetails(reply);
      if outcome.Raised() {
        return sent, RaisedResponse(outcome);
      }
      var fetched := outcome.Returned();
      var h := letters[number];
      if Collides(h, fetched, now) {
        // the (letter_id, last_update) constraint rejects the commit
        return sent, Response(500, ServerError);
      }
      ReconcileKeepsDistinct(h, fetched, now);
      if Touches(h, fetched) {
        var k := LatestIndex(h);
        letters := letters[number := h[k := StatusEntry(h[k].status, now)]];
      } else {
        letters := letters[number := h + [NewEntry(fetched, now)]];
      }
      r := Response(200, Tracked(JText(number), fetched));
    }
  }

  // ---------------------------------------------------------------------------
  // Clients of the store, one per endpoint test

  /** A formatter for the examples: each timestamp rendered as a fixed string. */
  function ExampleFormat(t: Timestamp): string
  {
    "01.01.2021, 00:00:0" + ['0' + (t % 10) as char]
  }

  /** A 200 reply whose first event carries `text`. */
  function FoundReply(text: string): (x: Exchange)
    ensures GetLetterDetails(x) == Label(text)
  {
    Reply(200, Object(Some(Shipment(Some([Event(Str(text))]))), Missing))
  }

  /** A registered letter is shown with its one "New" row. */
  method GetAfterRegister() returns (r: Response)
    ensures r.code == 200 && r.body.LetterView?
    ensures r.body.letter.trackingNumber == "42"
    ensures r.body.letter.statusHistory == [SerializedEntry(DefaultStatus, ExampleFormat(1))]
  {
    var store := new LetterStore(map[]);
    var _ := store.Register(Text("42"), 1);
    r := store.Get("42", ExampleFormat);
  }

  /** Refreshing a registered letter answers with the label the tracking API gave. */
  method RefreshAnswersFetchedLabel() returns (r: Response)
    ensures r == Response(200, Tracked(JText("42"), Some("testing status")))
  {
    var client := NewClient("https://api.laposte.fr/suivi/v2", "key", Some("en_GB"));
    var store := new LetterStore(map[]);
    var _ := store.Register(Text("42"), 1);
    ReconcileMakesLatest(store.letters["42"], Some("testing status"), 2);
    var _, answer := store.Refresh(client, "42", FoundReply("testing status"), 2);
    r := answer;
  }

  /** Two refreshes fetching the same label: two rows, and the second one only had its time moved. */
  method SameStatusOnlyMovesTime() returns (rows: seq<StatusEntry>)
    ensures rows == [StatusEntry(DefaultStatus, 1), StatusEntry("testing status", 3)]
  {
    var client := NewClient("https://api.laposte.fr/suivi/v2", "key", Some("en_GB"));
    var store := new LetterStore(map[]);
    var _ := store.Register(Number(42), 1);
    assert StoredKey(Number(42)) == "42";
    var h := store.letters["42"];
    assert h == [StatusEntry(DefaultStatus, 1)];

    ReconcileMakesLatest(h, Some("testing status"), 2);
    assert Reconciled(h, Some("testing status"), 2) == [StatusEntry(DefaultStatus, 1), StatusEntry("testing status", 2)];
    var _, _ := store.Refresh(client, "42", FoundReply("testing status"), 2);
    h := store.letters["42"];

    ReconcileMakesLatest(h, Some("testing status"), 3);
    assert Reconciled(h, Some("testing status"), 3) == [StatusEntry(DefaultStatus, 1), StatusEntry("testing status", 3)];
    var _, _ := store.Refresh(client, "42", FoundReply("testing status"), 3);
    rows := store.letters["42"];
  }

  /**
   * The lifecycle of one letter: from its "New" row, fetching "in transit" adds a
   * row, fetching it again only moves that row's time, and "delivered" adds a third.
   */
  lemma LifecycleScenario()
    ensures var start := [NewEntry(None, 1)];
            var obs := [Observation(Some("in transit"), 2), Observation(Some("in transit"), 3),
                        Observation(Some("delivered"), 4)];
            && |Replay(start, obs[..1])| == 2
            && |Replay(start, obs[..2])| == 2
            && Replay(start, obs) == [StatusEntry("New", 1), StatusEntry("in transit", 3), StatusEntry("delivered", 4)]
  {
    var start := [NewEntry(None, 1)];
    var obs := [Observation(Some("in transit"), 2), Observation(Some("in transit"), 3),
                Observation(Some("delivered"), 4)];
    var h1 := [StatusEntry("New", 1), StatusEntry("in transit", 2)];
    var h2 := [StatusEntry("New", 1), StatusEntry("in transit", 3)];
    var h3 := [StatusEntry("New", 1), StatusEntry("in transit", 3), StatusEntry("delivered", 4)];
    assert Reconciled(start, Some("in transit"), 2) == h1 by {
      ReconcileMakesLatest(start, Some("in transit"), 2);
    }
    assert Reconciled(h1, Some("in transit"), 3) == h2 by {
      ReconcileMakesLatest(start, Some("in transit"), 2);
      assert Touches(h1, Some("in transit"));
    }
    assert Reconciled(h2, Some("delivered"), 4) == h3 by {
      ReconcileMakesLatest(h1, Some("in transit"), 3);
      assert !Touches(h2, Some("delivered"));
    }
    assert Replay(start, obs[..1]) == h1 by {
      assert obs[..1][1..] == [];
    }
    assert Replay(start, obs[..2]) == h2 by {
      assert obs[..2][1..] == [obs[1]] && [obs[1]][1..] == [];
      assert Replay(h1, [obs[1]]) == h2;
    }
    assert Replay(start, obs) == h3 by {
      assert obs[1..][1..] == [obs[2]] && [obs[2]][1..] == [];
      assert Replay(h2, [obs[2]]) == h3;
      assert Replay(h1, obs[1..]) == h3;
    }
  }
}
