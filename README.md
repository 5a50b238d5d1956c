# medtracker: a Dafny model of the REST layer's decision logic

medtracker is a Django REST backend that records medications, dose logs and
doctor's notes. This project models the logic that its views and serializers
add on top of the framework, as pure Dafny functions with proved contracts:

- **Query-parameter validation** (`MedicationViewSet._validate_positive_integer`).
  A parameter is either a positive integer or one of three distinct errors:
  missing, not an integer, or not positive. Python's `int()` is an explicit
  parser (module `PyInt`): surrounding whitespace, an optional sign, then
  ASCII digits with PEP 515 underscores. It is proved to invert `str()`.
- **The expected-doses endpoint**. It answers 200 with
  `{medication_id, days, expected_doses}` or 400 with `{"error": message}`.
  `Medication.expected_doses` is a function parameter.
- **The dose-log date filter** (`DoseLogViewSet.filter_by_date`). It returns the
  logs whose calendar day lies in the inclusive range, in `taken_at` order. As
  documented, a bound that is absent, empty or not a date gets 400 with one
  fixed message. As written, a well-formed date that does not exist (such as
  `2025-02-30`) makes the view fail with a server error instead; see Findings.
  `parse_date` and the instant-to-day projection are parameters.
- **The external-info endpoint's status**. The data passes through unchanged:
  502 when it is a dict with a truthy `"error"` entry, 200 otherwise.
- **Doctor-note access**. A method allow-list means PUT and PATCH get 405, and
  the note list can be filtered by medication id.
- **The serializers**. `validate_text` rejects blank text and returns it
  stripped. Python's `str.strip()` is modelled in module `Text` with its
  Unicode whitespace set. The note and medication field lists, the read-only
  `created_at` and the delegating `adherence` field are modelled too.

Modules: `Wrappers` (Option, Result), `Json` (response and request values,
Python truthiness), `Text`, `PyInt`, `Seqs` (filter, and sort by an integer
key), `Models` (the records), `Views`, `Serializers`.

The info view's docstring promises 502 whenever the external request failed
(medtrackerapp/views.py:40-43), and failures reach the view as
`{"error": message}` (medtrackerapp/tests/test_services.py:23-32). The view
itself tests the truth value of that entry. The model follows the view; see
Findings.

## Model

| member | source | states |
|---|---|---|
| `Text.TrimLeftBy` | medtrackerapp/serializers.py:49 | the result is a suffix of the input, everything dropped is whitespace, and it does not start with whitespace |
| `Text.TrimRightBy` | medtrackerapp/serializers.py:49 | the result is a prefix of the input, everything dropped is whitespace, and it does not end with whitespace |
| `Text.StripBy` | medtrackerapp/serializers.py:49 | strip returns the contiguous slice after the leading whitespace, followed only by whitespace, with no whitespace at either end |
| `Text.Strip` | medtrackerapp/serializers.py:49 | `str.strip()` leaves no whitespace at either end |
| `Text.StripIdempotent` | medtrackerapp/serializers.py:49 | stripping twice equals stripping once |
| `Text.StripPadded` | medtrackerapp/serializers.py:49 | stripping whitespace-padded text with no whitespace at its ends gives exactly that text, so the slice is unique |
| `Text.StripEmptyIffBlank` | medtrackerapp/serializers.py:47 | strip leaves nothing exactly when the text is all whitespace |
| `Text.StripNoEdge` | medtrackerapp/serializers.py:49 | text with no whitespace at its ends is its own strip |
| `PyInt.ParseLiteral` | medtrackerapp/views.py:73 | an accepted literal starts with a sign or digit and ends with a digit |
| `PyInt.ParseInt` | medtrackerapp/views.py:73 | `int()` rejects every all-whitespace string, the empty string included |
| `PyInt.DigitsValueShowNat` | medtrackerapp/views.py:73 | the decimal digits of n form a well-formed digit run whose value is n |
| `PyInt.ShowIntLiteral` | medtrackerapp/views.py:73 | the literal `str(i)` parses back to i |
| `PyInt.ParseShowInt` | medtrackerapp/views.py:73 | `int(str(i)) == i` for every integer |
| `PyInt.ParsePaddedShowInt` | medtrackerapp/views.py:73 | whitespace around an integer literal is ignored |
| `PyInt.ParsePlusShowNat` | medtrackerapp/views.py:73 | an explicit `+` sign is accepted |
| `Seqs.Filter` | medtrackerapp/views.py:174-176 | a filter never yields more records than it is given |
| `Seqs.FilterCount` | medtrackerapp/views.py:174-176 | the filter keeps each selected record exactly as often as it occurs and nothing else |
| `Seqs.FilterAppend` | medtrackerapp/views.py:223 | filtering keeps relative order: it distributes over concatenation |
| `Seqs.InsertBy` | medtrackerapp/views.py:177 | inserting into a sorted list keeps it sorted and adds exactly that record |
| `Seqs.SortBy` | medtrackerapp/views.py:177 | `order_by` returns a permutation of its input in non-decreasing key order |
| `Views.ExternalInfoResponse` | medtrackerapp/views.py:48-53 | the data is returned unchanged; the status is 502 exactly when it is a dict whose "error" entry is truthy, else 200 |
| `Views.FailedLookupIsBadGateway` | medtrackerapp/views.py:51-52 | a failure report with a non-empty message is answered 502 with the report as body |
| `Views.RecordIsOk` | medtrackerapp/views.py:53 | a dict without an "error" key is answered 200 unchanged |
| `Views.EmptyFailureMessageIsOk` | medtrackerapp/views.py:51 | a failure report whose message is empty is answered 200 (see Findings) |
| `Views.ExternalInfoStatusByKey` | medtrackerapp/views.py:40-43 | the intended status: 502 exactly when the data is a dict with an "error" key |
| `Views.EveryFailureIsBadGatewayByKey` | medtrackerapp/views.py:40-43 | under the intended rule every failure report, whatever its message, is a 502 |
| `Views.StatusRulesAgreeOnTruthyErrors` | medtrackerapp/views.py:51-53 | the as-written and intended rules differ only on falsy "error" entries |
| `Views.ValidatePositiveInteger` | medtrackerapp/views.py:55-78 | missing or "" gives "is required", unparseable gives "must be a valid integer", a value of 0 or less gives "must be a positive integer", and any present value whose `int()` is positive is accepted as that integer |
| `Views.ValidationMessagesDistinct` | medtrackerapp/views.py:69-78 | the three rejection messages differ pairwise for every parameter name |
| `Views.PositiveIntegerAccepted` | medtrackerapp/views.py:72-76 | every positive integer, whitespace-padded, is accepted as itself |
| `Views.NonPositiveIntegerRejected` | medtrackerapp/views.py:73-75 | every integer of 0 or less (`"0"`, `"-3"`) is rejected as not positive |
| `Views.BlankIsNotAnInteger` | medtrackerapp/views.py:69-78 | whitespace-only text gets past the required check but is not a valid integer |
| `Views.ExpectedDosesResponse` | medtrackerapp/views.py:101-117 | 200 exactly when validation and `expected_doses` both succeed; then the body carries the medication id, the parsed positive day count and the count for it; otherwise 400 with the validation message or the message of the error `expected_doses` raised |
| `Views.ExpectedDosesForThreeDays` | medtrackerapp/views.py:104-111 | with 2 doses a day, `?days=3` answers `{id, 3, 6}` |
| `Views.ZeroDaysRejected` | medtrackerapp/views.py:104 | `?days=0` answers 400 "days must be a positive integer" |
| `Views.LogsInRange` | medtrackerapp/views.py:174-177 | the logs of the day range, each as often as stored, in non-decreasing `taken_at` order |
| `Views.FilterByDateAsWritten` | medtrackerapp/views.py:156-180 | as written, a well-formed but impossible date makes the view fail with a server error; in every other case it answers as `FilterByDate` |
| `Views.ImpossibleDateIsServerError` | medtrackerapp/views.py:165-166 | an impossible start date gives a server error as written and 400 as documented |
| `Views.FilterByDate` | medtrackerapp/views.py:141-180 | 400 with one fixed message exactly when a bound is absent, empty or not a date; otherwise 200 with the logs of the inclusive day range in `taken_at` order |
| `Views.InvertedRangeIsEmpty` | medtrackerapp/views.py:174-177 | a start after the end answers 200 with an empty list, not an error |
| `Views.DateRangeAnswerDeterminesContents` | medtrackerapp/views.py:174-177 | any two answers to one range contain the same logs with the same multiplicities |
| `Views.RouteNoteMethod` | medtrackerapp/views.py:210 | a method is handled, by the handler of its lower-case name, exactly when that name is get, post, delete, head or options; any other gets 405 |
| `Views.UpdatesNotAllowed` | medtrackerapp/views.py:210 | PUT and PATCH on notes get 405 |
| `Views.ReadCreateDeleteAllowed` | medtrackerapp/views.py:210 | GET, POST and DELETE on notes reach their handlers |
| `Views.NotesForQuery` | medtrackerapp/views.py:212-225 | without `medication` all notes; with it, exactly the notes of that id; an id `int()` rejects makes the lookup fail |
| `Views.NotesFilterKeepsOrder` | medtrackerapp/views.py:223 | the medication filter keeps the list's order |
| `Serializers.ValidateText` | medtrackerapp/serializers.py:34-49 | rejected with "Note text cannot be empty." exactly when the text is empty or all whitespace; otherwise the non-empty slice between leading and trailing whitespace, without whitespace at either end |
| `Serializers.ValidateTextIdempotent` | medtrackerapp/serializers.py:47-49 | validating an accepted result accepts it unchanged |
| `Serializers.ValidateTextPadded` | medtrackerapp/serializers.py:49 | validation removes exactly the surrounding whitespace and nothing inside |
| `Serializers.WhitespaceOnlyRejected` | medtrackerapp/serializers.py:47-48 | `"   "` and `""` are rejected |
| `Serializers.WritableNoteData` | medtrackerapp/serializers.py:29-32 | the serializer reads only medication and text from request data; created_at and id are never read |
| `Serializers.CreateNote` | medtrackerapp/serializers.py:29-49 | with an integer medication and text that validates, the note is created with the store's id and instant, that medication and the validated text; a created note always has this form; rejected text creates nothing |
| `Serializers.ReadOnlyFieldsIgnored` | medtrackerapp/serializers.py:32 | a client-supplied created_at or id does not change the created note |
| `Serializers.NoteRepresentation` | medtrackerapp/serializers.py:31 | a note is rendered with exactly the fields id, medication, text, created_at, each holding the note's value |
| `Serializers.NoteRoundTrip` | medtrackerapp/serializers.py:29-49 | posting a stored note's representation back recreates that note |
| `Serializers.MedicationRepresentation` | medtrackerapp/serializers.py:4-12 | a medication is rendered with exactly id, name, dosage_mg, prescribed_per_day, adherence, and adherence is `adherence_rate()` |

## Left out

- `Medication.expected_doses` and `adherence_rate` are in `medtrackerapp/models.py`, which is not part of this model, so they enter as function parameters. `expected_doses` enters as `int -> Result<int, string>`, because its result is `prescribed_per_day * days`, an integer. `adherence_rate` enters as `Medication -> real`, its float result modelled as a real number.
- `Medication.adherence_rate_over_period` is called by no modelled view or serializer and is not modelled.
- `fetch_external_info` and the drug-information client are network code outside the views. Their result enters `Views.ExternalInfoResponse` as a parameter.
- Django's `parse_date` and the time-zone conversion of `taken_at` to a calendar day are library behaviour. They are parameters (`parseDate`, `dayOf`).
- The clock that stamps `created_at` is a parameter (`now`), and so is the id the store assigns.
- Framework routing, `get_object` and its 404, ORM queries and CRUD handlers are not modelled.
- `PyInt.ParseInt`: accepts only ASCII digits, whereas Python's `int()` also accepts other Unicode decimal digits. It also has no length limit, whereas Python 3.11 and later raise ValueError on more than 4300 digits.
- `Views.ExpectedDosesResponse`: the error body carries the exception's message. DRF's `str()` of a ValidationError renders a list of error details around it, and that rendering is not modelled.
- `Views.ExpectedDosesResponse`: only a ValueError from `expected_doses` is modelled (as `Err`). Any other exception would propagate.
- `Views.NotesForQuery`: an id that does not convert makes Django raise when `get_queryset` builds the filter, because the integer lookup calls `int()` on it. This is shown as `Err` carrying the raw value, not as Django's message.
- `Views.NotesForQuery`: the model's default ordering (newest first) lives in `models.py`. The function keeps whatever order the notes are given in.
- `Seqs.SortBy`: SQL leaves the order of logs with equal `taken_at` open. The model picks one order, and its contract promises only sortedness and permutation.
- `Views.RouteNoteMethod`: lowercases ASCII letters only. Python's `lower()` also maps some non-ASCII letters, but none of them yields one of the five allowed names. HEAD and OPTIONS handling beyond routing is framework behaviour.
- `Serializers.CreateNote`: DRF's `CharField` trims text and rejects blank text before `validate_text` runs. Field type coercion, the check that the medication exists, and reporting every failing field at once are framework behaviour too. The model reports the first missing or mistyped field only.
- `DoseLogSerializer` renders the filtered logs. The model returns the log records themselves.

## Findings

| source | as written | input that shows it | evidently intended | confidence | as-written member | corrected member |
|---|---|---|---|---|---|---|
| medtrackerapp/views.py:165-166 | `parse_date` raises ValueError for well-formed text that names no date, and the view does not catch it, so the request fails with a server error | `?start=2025-02-30&end=2025-03-01` | 400 with the fixed message, as the docstring says for invalid parameters (views.py:148-151) | medium, not executed | `Views.ImpossibleDateIsServerError` | `Views.FilterByDate` |
| medtrackerapp/views.py:51 | the status depends on the truth value of the "error" entry, so a failure report with an empty message is answered 200 | `fetch_external_info()` returning `{"error": ""}` (a failure whose exception text is empty) | 502 for every failed lookup, as the docstring says (views.py:43) | low, not executed | `Views.EmptyFailureMessageIsOk` | `Views.EveryFailureIsBadGatewayByKey` |
