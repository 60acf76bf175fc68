# Letter tracking: a Dafny model

This project models the core of a small letter-tracking service. The service keeps, for every
registered tracking number, a history of status rows `(status, last_update)`. It refreshes a
letter by asking the La Poste tracking API for the letter's current label. It then
reconciles the answer with the stored history:

- If the latest row already has that label, only the row's time moves.
- Otherwise a new row is appended.

The model has four modules:

- `Options` (`options.dfy`): Python's `None` next to a value.
- `LaPoste` (`la_poste.dfy`, from `app/external/la_poste.py`): the API client as pure
  functions. The HTTP exchange is an input value (`Exchange`: a transport error, or a status
  code with a decoded body). `GetLetterDetails` classifies it as `get_letter_details` does.
  The result is a label, `None` (`NoStatus`), or one of three exceptions: `Unauthorized`,
  `ApiDown` (LaPosteAPIException), or `Crash` (anything the function does not catch).
  The request URL and headers are functions of the client.
- `Letters` (`letter.dfy`, from `app/models/letter.py`): status rows, the column defaults,
  the per-letter uniqueness of `last_update`, and the two `serialize` methods. The history
  is sorted, stably and in descending order, on the formatted date string. Python compares
  strings lexicographically, so this order is not chronological (`DayFirstKeyIsNotNewestFirst`).
- `ApiEndpoints` (`api_endpoints.dfy`, from `app/views/api_endpoints.py`): the database is a
  class `LetterStore` with one map field from tracking number to history rows. It has three
  methods:
  - `Register`: POST /letters.
  - `Get`: GET /letters/<n>.
  - `Refresh`: PUT /letters/<n>. It returns the request it sends to the API, or none for an
    unknown letter. The reply is an input.

  Reconciliation of one history is the pure function `Reconciled`, and the lemmas are
  stated about it. `datetime.utcnow()` is the parameter `now` (a `nat`), and `strftime` is
  the parameter `fmt`.

Behaviour the model follows from the code:

- **Other status codes.** A reply with a status code other than 200, 400, 401 or 404 makes
  `get_letter_details` return `None`. So does a JSON `null` label or `returnMessage`. The
  refresh then appends a row created with `status=None`. The ORM leaves a `None` attribute
  out of the INSERT, so the column default "New" is stored, and the response message is
  `null`.
- **Ties.** Among rows with equal timestamps, the row taken as latest is the first one
  inserted, because `sorted(..., reverse=True)` is stable. Under the store invariant
  (distinct timestamps per letter) ties cannot occur.
- **Colliding timestamps.** A write that would give two rows of one letter the same
  `last_update` breaks the declared unique constraint. The commit fails, the store is
  unchanged, and the response is the framework's bare 500 (`Collides`).
- **Falsy tracking numbers.** The tracking number of a POST is rejected when Python finds
  it falsy: missing, `null`, `""` or `0`. A JSON number is stored as its decimal text,
  because the column is a text column. The 200 answer repeats the stored text. The
  duplicate answer repeats the value as it was sent.
- **Bodies and numbers the handler cannot take.** A truthy POST body that is not a JSON
  object (`[1]`, `"x"`, `5`) makes `letter_data.get` raise. An integer outside the signed
  64-bit range makes the SQLite driver raise `OverflowError` in the duplicate lookup. Both
  give the framework's bare 500, and nothing is written.

## Model

| member | source | states |
|---|---|---|
| `LaPoste.NewClient` | app/external/la_poste.py:22-25 | the client keeps endpoint and key as given; the language is the one passed, and "en_GB" only when the argument is omitted |
| `LaPoste.Headers` | app/external/la_poste.py:27-29 | exactly two headers: `Accept: application/json` and `X-Okapi-Key` carrying the API key |
| `LaPoste.Url` | app/external/la_poste.py:39 | the URL starts with the endpoint, ends with the language, and has the length of `{endpoint}/idships/{number}?lang={language}` |
| `LaPoste.UrlRoundTrip` | app/external/la_poste.py:39 | the tracking number can be read back out of the URL built for it |
| `LaPoste.UrlInjective` | app/external/la_poste.py:39 | one client asks about different tracking numbers at different URLs |
| `LaPoste.FirstEventLabel` | app/external/la_poste.py:48 | a 200 body yields a label exactly when `shipment.event[0].label` is a string, and the label is that string; it returns `None` exactly when that label is null; every other body raises |
| `LaPoste.ReturnMessage` | app/external/la_poste.py:50 | a 400/404 body raises exactly when it is not a JSON object; it returns `None` exactly when `returnMessage` is null; otherwise the label is `returnMessage`, or "Unknown status" when that member is absent |
| `LaPoste.GetLetterDetails` | app/external/la_poste.py:31-57 | Unauthorized exactly for a 401, whatever the body; ApiDown exactly for a connection, timeout or HTTP error, and any other request exception escapes; labels only from 200, 400 and 404; every other status code returns `None` |
| `LaPoste.FoundGivesFirstLabel` | app/external/la_poste.py:47-48 | a 200 reply gives the label of the first event |
| `LaPoste.NotFoundGivesMessage` | app/external/la_poste.py:49-50 | a 400 or 404 reply gives its `returnMessage` as a successful label, or "Unknown status" without one |
| `Letters.NewEntry` | app/models/letter.py:30-31 | a new row has the given status, or "New" when none is given, and is stamped with the creation time |
| `Letters.SerializeEntry` | app/models/letter.py:35-39 | the serialised row carries exactly the row's status and its formatted `last_update` |
| `Letters.SerializeAll` | app/models/letter.py:16 | one serialised row per stored row, in stored order |
| `Letters.SortDesc` | app/models/letter.py:19-21 | the sorted list is a permutation of its input and is non-increasing by the `modification_date` string |
| `Letters.Serialize` | app/models/letter.py:15-22 | the view carries the tracking number; its history has one serialised row per stored row (a permutation) and is ordered non-increasingly by the date string |
| `Letters.SerializeCoversHistory` | app/models/letter.py:16-21 | every stored row appears in the view, and every row of the view is the serialisation of a stored row |
| `Letters.DayFirstKeyIsNotNewestFirst` | app/models/letter.py:38 | with the day first in the key, a row from 2 January is listed above a later row from 1 February |
| `ApiEndpoints.Falsy` | app/views/api_endpoints.py:53-54 | the tracking number is rejected exactly when it is missing, `null`, `""` or `0` |
| `ApiEndpoints.RegisterRaises` | app/views/api_endpoints.py:53-65 | a truthy body that is not an object, or an integer outside the signed 64-bit range, raises before anything is written |
| `ApiEndpoints.DecimalText` | app/views/api_endpoints.py:76 | a number's stored text is an optional minus sign, present exactly for negative numbers, followed by decimal digits |
| `ApiEndpoints.DigitsRoundTrip` | app/views/api_endpoints.py:76 | the digits of a non-negative number read back as that number |
| `ApiEndpoints.DecimalRoundTrip` | app/views/api_endpoints.py:76 | the stored text of any integer parses back to that integer |
| `ApiEndpoints.DecimalTextInjective` | app/views/api_endpoints.py:76 | different numbers are stored under different texts, so two numeric registrations clash only when the numbers are equal |
| `ApiEndpoints.StoredKey` | app/views/api_endpoints.py:76 | a truthy tracking number is stored as non-empty text: a string as itself, a number as its decimal text |
| `ApiEndpoints.Echo` | app/views/api_endpoints.py:69 | the duplicate answer repeats the tracking number with the JSON type it was sent with |
| `ApiEndpoints.RaisedResponse` | app/views/api_endpoints.py:26-35 | Unauthorized is a 401 with the fixed API-key message; ApiDown is a 500 with the fixed "API is down" message; any other exception is a bare 500 |
| `Letters.DistinctTimestamps` | app/models/letter.py:33 | within one letter, no two rows share a `last_update` |
| `ApiEndpoints.LatestIndex` | app/views/api_endpoints.py:132-137 | the chosen row has the greatest timestamp, and no earlier row has the same timestamp (stable sort) |
| `ApiEndpoints.Reconciled` | app/views/api_endpoints.py:132-150 | exactly one row is written (the latest when it already holds the fetched status, else a new last row), that row is the one the fetched status creates at `now`, and every other row is kept |
| `ApiEndpoints.ReconcileSameStatus` | app/views/api_endpoints.py:139-145 | when the latest row already holds the fetched status, the row count is unchanged, only that row's time becomes `now`, and every other row is untouched |
| `ApiEndpoints.ReconcileNewStatus` | app/views/api_endpoints.py:146-150 | when there are no rows or the status differs, exactly one row (fetched status, `now`) is appended and the existing rows are kept |
| `ApiEndpoints.Collides` | app/views/api_endpoints.py:145-150 | the write would give a second row of the letter the time `now`, which the (letter_id, last_update) unique constraint of app/models/letter.py:33 rejects at commit |
| `ApiEndpoints.ReconcileKeepsDistinct` | app/views/api_endpoints.py:139-150 | from pairwise distinct timestamps, the write keeps them distinct if and only if it does not collide, so `Collides` is exactly the constraint |
| `ApiEndpoints.ReconcileMakesLatest` | app/views/api_endpoints.py:129-150 | with a clock later than every row, the write cannot collide, every timestamp stays at most `now`, and the latest row afterwards is the fetched status stamped `now` |
| `ApiEndpoints.ReplayEndsWithLastFetched` | app/views/api_endpoints.py:129-155 | after any series of refreshes under a strictly increasing clock, the current status is the one the most recent refresh fetched |
| `ApiEndpoints.LifecycleScenario` | app/views/api_endpoints.py:139-150 | "New", then "in transit" (2 rows), "in transit" again (still 2 rows, time moved), then "delivered" (3 rows) |
| `ApiEndpoints.LetterStore.constructor` | app/models/letter.py:8-13 | a store built from tables without empty tracking numbers or duplicate row times satisfies the invariant and holds those tables |
| `ApiEndpoints.LetterStore.Register` | app/views/api_endpoints.py:50-92 | a body that raises gives a bare 500; a falsy number gives 400 "Tracking number should be specified." and a known number gives 400 "Letter is already present in DB.", all with the store unchanged; otherwise exactly one letter is added, with the single row ("New", `now`), and no other letter changes; the invariant is kept |
| `ApiEndpoints.LetterStore.Get` | app/views/api_endpoints.py:117-127 | an unknown number gives 404 "Letter is not found."; a known one gives 200 and its serialisation; nothing is written |
| `ApiEndpoints.LetterStore.Refresh` | app/views/api_endpoints.py:117-155 | unknown letter: 404, no request sent, nothing written. Known letter: the request goes to the letter's URL with the client's headers. An exception from the API client gives its error response and nothing is written. A colliding timestamp gives a 500 and nothing is written. Otherwise only this letter's rows become `Reconciled(rows, fetched, now)` and the answer is 200 with the fetched value. The invariant is kept. |
| `ApiEndpoints.FoundReply` | app/external/la_poste.py:47-48 | a 200 reply whose first event has a label is classified as that label |
| `ApiEndpoints.GetAfterRegister` | tests/test_api.py:84-91 | after registering 42, GET shows exactly one row, "New" |
| `ApiEndpoints.RefreshAnswersFetchedLabel` | tests/test_api.py:94-104 | refreshing a registered letter answers 200 with the label the API gave |
| `ApiEndpoints.SameStatusOnlyMovesTime` | tests/test_api.py:107-121 | two refreshes that fetch the same label leave two rows; the second row's time is that of the later refresh |

## Left out

- Bulk refresh (PUT /letters, app/views/api_endpoints.py:93-107). It fans refreshes out over
  a thread pool and does not wait for them. The concurrency, including the lost-update race
  between two refreshes of one letter, is not modelled. Each single refresh is `Refresh`.
- The ping endpoint, routing, blueprints, CORS and `json.dumps`. Responses are values, not
  encoded JSON.
- SQLAlchemy sessions, flush/commit, row ids and cascade delete. The two tables are one map,
  and each method's write is atomic.
- The `requests.get` call and JSON decoding. The reply is an input. The label and
  `returnMessage` are modelled as strings or null; other JSON types, and `event` elements
  that are not objects, are not represented.
- The wall clock and `strftime`. They are the parameters `now` and `fmt`.
- Logging.
- Configuration read from the environment. The service always passes its three settings
  to the client, so an unset language setting is sent as the text `None`, not as
  "en_GB". A missing setting (`None` key, endpoint or language) is not represented: the
  client's fields are strings.
- Tracking numbers sent as JSON booleans, floats, lists or objects. Only missing, null,
  strings and integers are modelled, besides a body that is not an object.
- Letters.SortDesc: stability (rows with equal date strings keep their stored order) is built
  into the definition but not stated as a lemma.
