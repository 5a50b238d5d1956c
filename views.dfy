/**
 * The decision logic of the REST views: query-parameter validation,
 * which status each endpoint answers with, and which records a list
 * endpoint returns. Persistence, routing and the models' own arithmetic
 * come in as parameters.
 */
module Views {
  import opened Wrappers
  import opened Json
  import opened Text
  import opened PyInt
  import opened Seqs
  import opened Models

  const HTTP_200_OK := 200
  const HTTP_400_BAD_REQUEST := 400
  const HTTP_405_METHOD_NOT_ALLOWED := 405
  const HTTP_500_INTERNAL_SERVER_ERROR := 500
  const HTTP_502_BAD_GATEWAY := 502

  /** What a view puts in its response. */
  datatype Body =
    | ErrorBody(error: string)                                          // {"error": message}
    | ExpectedDosesBody(medicationId: int, days: int, expectedDoses: int)
    | LogsBody(logs: seq<DoseLog>)
    | DataBody(data: Json)
    | MethodNotAllowedBody(verb: string)
    | ServerErrorBody                                                    // an exception the view does not catch

  datatype Response = Response(status: int, body: Body)

  // ---------------------------------------------------------------------
  // MedicationViewSet.get_external_info

  /**
   * The answer of the info endpoint for what `fetch_external_info()`
   * returned: the same data either way, with 502 when it is a dict whose
   * "error" entry is truthy and 200 otherwise.
   */
  function ExternalInfoResponse(data: Json): (r: Response)
    ensures r.body == DataBody(data)
    ensures r.status == HTTP_200_OK || r.status == HTTP_502_BAD_GATEWAY
    ensures r.status == HTTP_502_BAD_GATEWAY <==>
      data.JObject? && "error" in data.fields && Truthy(data.fields["error"])
  {
    if data.JObject? && Truthy(Get(data.fields, "error")) then Response(HTTP_502_BAD_GATEWAY, DataBody(data))
    else Response(HTTP_200_OK, DataBody(data))
  }

  /** The dict `fetch_external_info()` builds from a failure with message `msg`. */
  function ErrorReport(msg: string): Json {
    JObject(map["error" := JStr(msg)])
  }

  /** A failed lookup with a message is passed on unchanged as a gateway failure. */
  lemma FailedLookupIsBadGateway(msg: string)
    requires msg != ""
    ensures ExternalInfoResponse(ErrorReport(msg)) == Response(HTTP_502_BAD_GATEWAY, DataBody(ErrorReport(msg)))
  {
  }

  /** A record without an "error" key, such as a successful lookup, is answered with 200. */
  lemma RecordIsOk(fields: map<string, Json>)
    requires "error" !in fields
    ensures ExternalInfoResponse(JObject(fields)) == Response(HTTP_200_OK, DataBody(JObject(fields)))
  {
  }

  /**
   * As written, a failure whose message is empty produces {"error": ""},
   * which is falsy and therefore answered with 200.
   */
  lemma EmptyFailureMessageIsOk()
    ensures ExternalInfoResponse(ErrorReport("")).status == HTTP_200_OK
  {
  }

  /**
   * The status the info endpoint evidently intends: a gateway failure
   * whenever the data is a dict reporting an error, whatever its message.
   */
  function ExternalInfoStatusByKey(data: Json): (status: int)
    ensures status == HTTP_502_BAD_GATEWAY <==> data.JObject? && "error" in data.fields
    ensures status == HTTP_200_OK || status == HTTP_502_BAD_GATEWAY
  {
    if data.JObject? && "error" in data.fields then HTTP_502_BAD_GATEWAY else HTTP_200_OK
  }

  /** Every failure report, empty message included, is a gateway failure under the intended rule. */
  lemma EveryFailureIsBadGatewayByKey(msg: string)
    ensures ExternalInfoStatusByKey(ErrorReport(msg)) == HTTP_502_BAD_GATEWAY
  {
  }

  /** The two rules differ only on error entries that are falsy. */
  lemma StatusRulesAgreeOnTruthyErrors(data: Json)
    requires !(data.JObject? && "error" in data.fields && !Truthy(data.fields["error"]))
    ensures ExternalInfoResponse(data).status == ExternalInfoStatusByKey(data)
  {
  }

  // ---------------------------------------------------------------------
  // MedicationViewSet._validate_positive_integer

  function RequiredMessage(name: string): string { name + " parameter is required" }
  function NotPositiveMessage(name: string): string { name + " must be a positive integer" }
  function NotIntegerMessage(name: string): string { name + " must be a valid integer" }

  /** Python's `not value` on an optional query parameter: absent or "". */
  predicate Missing(value: Option<string>) {
    value.None? || value.value == ""
  }

  /**
   * A query parameter that must hold a positive integer: the integer, or
   * the message of the ValidationError the view raises.
   */
  function ValidatePositiveInteger(name: string, value: Option<string>): (r: Result<int, string>)
    ensures Missing(value) ==> r == Err(RequiredMessage(name))
    ensures !Missing(value) && ParseInt(value.value).None? ==> r == Err(NotIntegerMessage(name))
    ensures !Missing(value) && ParseInt(value.value).Some? && ParseInt(value.value).value <= 0 ==>
      r == Err(NotPositiveMessage(name))
    ensures !Missing(value) && ParseInt(value.value).Some? && ParseInt(value.value).value > 0 ==>
      r == Ok(ParseInt(value.value).value)
    ensures r.Ok? ==> r.value > 0 && value.Some? && ParseInt(value.value) == Some(r.value)
  {
    if Missing(value) then Err(RequiredMessage(name))
    else
      match ParseInt(value.value)
      case None => Err(NotIntegerMessage(name))
      case Some(n) => if n <= 0 then Err(NotPositiveMessage(name)) else Ok(n)
  }

  lemma {:induction false} AppendCancel(name: string, a: string, b: string)
    requires name + a == name + b
    ensures a == b
  {
    assert a == (name + a)[|name|..];
    assert b == (name + b)[|name|..];
  }

  /** The three rejections carry three different messages, whatever the parameter's name. */
  lemma ValidationMessagesDistinct(name: string)
    ensures RequiredMessage(name) != NotIntegerMessage(name)
    ensures RequiredMessage(name) != NotPositiveMessage(name)
    ensures NotIntegerMessage(name) != NotPositiveMessage(name)
  {
    if RequiredMessage(name) == NotIntegerMessage(name) {
      AppendCancel(name, " parameter is required", " must be a valid integer");
    }
    if RequiredMessage(name) == NotPositiveMessage(name) {
      AppendCancel(name, " parameter is required", " must be a positive integer");
    }
    if NotIntegerMessage(name) == NotPositiveMessage(name) {
      AppendCancel(name, " must be a valid integer", " must be a positive integer");
    }
  }

  /** Every positive integer, written as `str()` writes it and padded with whitespace, is accepted as itself. */
  lemma PositiveIntegerAccepted(name: string, ws1: string, n: int, ws2: string)
    requires n > 0
    requires AllBy(ws1, IsIntSpace) && AllBy(ws2, IsIntSpace)
    ensures ValidatePositiveInteger(name, Some(ws1 + ShowInt(n) + ws2)) == Ok(n)
  {
    ParsePaddedShowInt(ws1, n, ws2);
  }

  /** Zero and negative integers are integers but not positive ones. */
  lemma NonPositiveIntegerRejected(name: string, n: int)
    requires n <= 0
    ensures ValidatePositiveInteger(name, Some(ShowInt(n))) == Err(NotPositiveMessage(name))
  {
    ParseShowInt(n);
  }

  /** Whitespace alone is present (truthy) but not an integer. */
  lemma BlankIsNotAnInteger(name: string, ws: string)
    requires ws != [] && AllBy(ws, IsIntSpace)
    ensures ValidatePositiveInteger(name, Some(ws)) == Err(NotIntegerMessage(name))
  {
  }

  // ---------------------------------------------------------------------
  // MedicationViewSet.expected_doses

  /**
   * GET /medications/{id}/expected-doses/?days=N. `expectedDoses` is the
   * medication's `expected_doses` method: the count, or the message of the
   * ValueError it raises.
   */
  function ExpectedDosesResponse(medicationId: int, days: Option<string>, expectedDoses: int -> Result<int, string>): (r: Response)
    ensures r.status == HTTP_200_OK || r.status == HTTP_400_BAD_REQUEST
    ensures r.status == HTTP_200_OK <==>
      ValidatePositiveInteger("days", days).Ok? && expectedDoses(ValidatePositiveInteger("days", days).value).Ok?
    ensures r.status == HTTP_200_OK ==>
      && r.body.ExpectedDosesBody?
      && r.body.medicationId == medicationId
      && r.body.days > 0
      && days.Some? && ParseInt(days.value) == Some(r.body.days)
      && expectedDoses(r.body.days) == Ok(r.body.expectedDoses)
    ensures r.status == HTTP_400_BAD_REQUEST ==> r.body.ErrorBody?
    ensures ValidatePositiveInteger("days", days).Ok? && expectedDoses(ValidatePositiveInteger("days", days).value).Err? ==>
      r == Response(HTTP_400_BAD_REQUEST, ErrorBody(expectedDoses(ValidatePositiveInteger("days", days).value).error))
    ensures ValidatePositiveInteger("days", days).Err? ==>
      r == Response(HTTP_400_BAD_REQUEST, ErrorBody(ValidatePositiveInteger("days", days).error))
  {
    match ValidatePositiveInteger("days", days)
    case Err(msg) => Response(HTTP_400_BAD_REQUEST, ErrorBody(msg))
    case Ok(n) =>
      match expectedDoses(n)
      case Err(msg) => Response(HTTP_400_BAD_REQUEST, ErrorBody(msg))
      case Ok(count) => Response(HTTP_200_OK, ExpectedDosesBody(medicationId, n, count))
  }

  /** Two doses a day for three days: ?days=3 answers {id, 3, 6}. */
  lemma ExpectedDosesForThreeDays(medicationId: int, expectedDoses: int -> Result<int, string>)
    requires expectedDoses(3) == Ok(6)
    ensures ExpectedDosesResponse(medicationId, Some("3"), expectedDoses)
         == Response(HTTP_200_OK, ExpectedDosesBody(medicationId, 3, 6))
  {
    ParseShowInt(3);
    assert ShowInt(3) == "3";
  }

  /** ?days=0 is rejected before the medication is asked. */
  lemma ZeroDaysRejected(medicationId: int, expectedDoses: int -> Result<int, string>)
    ensures ExpectedDosesResponse(medicationId, Some("0"), expectedDoses)
         == Response(HTTP_400_BAD_REQUEST, ErrorBody(NotPositiveMessage("days")))
  {
    assert ShowInt(0) == "0";
    NonPositiveIntegerRejected("days", 0);
    assert ValidatePositiveInteger("days", Some("0")) == Err(NotPositiveMessage("days"));
  }

  // ---------------------------------------------------------------------
  // DoseLogViewSet.filter_by_date

  const DateRangeError := "Both 'start' and 'end' query parameters are required and must be valid dates."

  /**
   * Django's `parse_date`: a day number; None for text that is not of the
   * form YYYY-MM-DD; and a raised ValueError for text of that form naming
   * no real date (such as "2025-02-30").
   */
  datatype DateParse = ParsedDate(day: int) | NotADate | InvalidDate

  /**
   * The answer a date-range query must give: exactly the logs whose
   * calendar day lies in [lo, hi], each as often as stored, in
   * non-decreasing `taken_at` order.
   */
  ghost predicate IsDateRangeAnswer(logs: seq<DoseLog>, lo: int, hi: int, dayOf: int -> int, out: seq<DoseLog>) {
    && SortedBy(out, TakenAt)
    && forall x :: multiset(out)[x] == if lo <= dayOf(x.takenAt) <= hi then multiset(logs)[x] else 0
  }

  /** Both bounds are present and parse as dates. */
  predicate BoundsValid(start: Option<string>, end: Option<string>, parseDate: string -> DateParse) {
    !Missing(start) && !Missing(end) && parseDate(start.value).ParsedDate? && parseDate(end.value).ParsedDate?
  }

  /** The logs of days lo..hi, ordered by `taken_at`. */
  function LogsInRange(logs: seq<DoseLog>, lo: int, hi: int, dayOf: int -> int): (out: seq<DoseLog>)
    ensures IsDateRangeAnswer(logs, lo, hi, dayOf, out)
  {
    var inRange := (log: DoseLog) => lo <= dayOf(log.takenAt) <= hi;
    FilterCount(logs, inRange);
    SortBy(Filter(logs, inRange), TakenAt)
  }

  /**
   * GET /logs/filter/?start=...&end=... as the view is written: a bound
   * that `parse_date` raises on is not caught, so the request fails with a
   * server error. `dayOf` is the calendar day of an instant.
   */
  function FilterByDateAsWritten(start: Option<string>, end: Option<string>, parseDate: string -> DateParse,
                                 dayOf: int -> int, logs: seq<DoseLog>): (r: Response)
    ensures r.status == HTTP_500_INTERNAL_SERVER_ERROR <==>
      !Missing(start) && !Missing(end) && (parseDate(start.value).InvalidDate? || parseDate(end.value).InvalidDate?)
    ensures r.status != HTTP_500_INTERNAL_SERVER_ERROR ==> r == FilterByDate(start, end, parseDate, dayOf, logs)
  {
    if Missing(start) || Missing(end) then Response(HTTP_400_BAD_REQUEST, ErrorBody(DateRangeError))
    else
      match (parseDate(start.value), parseDate(end.value))
      case (InvalidDate, _) => Response(HTTP_500_INTERNAL_SERVER_ERROR, ServerErrorBody)
      case (_, InvalidDate) => Response(HTTP_500_INTERNAL_SERVER_ERROR, ServerErrorBody)
      case (ParsedDate(lo), ParsedDate(hi)) => Response(HTTP_200_OK, LogsBody(LogsInRange(logs, lo, hi, dayOf)))
      case _ => Response(HTTP_400_BAD_REQUEST, ErrorBody(DateRangeError))
  }

  /** A well-formed but impossible start date makes the view fail instead of answering 400. */
  lemma ImpossibleDateIsServerError(start: string, end: string, parseDate: string -> DateParse,
                                    dayOf: int -> int, logs: seq<DoseLog>)
    requires start != "" && end != ""
    requires parseDate(start) == InvalidDate
    ensures FilterByDateAsWritten(Some(start), Some(end), parseDate, dayOf, logs).status == HTTP_500_INTERNAL_SERVER_ERROR
    ensures FilterByDate(Some(start), Some(end), parseDate, dayOf, logs) == Response(HTTP_400_BAD_REQUEST, ErrorBody(DateRangeError))
  {
  }

  /**
   * GET /logs/filter/?start=...&end=... as documented: 400 with one fixed
   * message whenever a bound is absent, empty or not a date, and otherwise
   * 200 with the logs of the range in `taken_at` order.
   */
  function FilterByDate(start: Option<string>, end: Option<string>, parseDate: string -> DateParse,
                        dayOf: int -> int, logs: seq<DoseLog>): (r: Response)
    ensures r.status == HTTP_200_OK || r.status == HTTP_400_BAD_REQUEST
    ensures r.status == HTTP_400_BAD_REQUEST <==> !BoundsValid(start, end, parseDate)
    ensures r.status == HTTP_400_BAD_REQUEST ==> r.body == ErrorBody(DateRangeError)
    ensures r.status == HTTP_200_OK ==>
      && r.body.LogsBody?
      && IsDateRangeAnswer(logs, parseDate(start.value).day, parseDate(end.value).day, dayOf, r.body.logs)
  {
    if !BoundsValid(start, end, parseDate) then Response(HTTP_400_BAD_REQUEST, ErrorBody(DateRangeError))
    else Response(HTTP_200_OK, LogsBody(LogsInRange(logs, parseDate(start.value).day, parseDate(end.value).day, dayOf)))
  }

  /** A range whose start is after its end is not an error: it selects nothing. */
  lemma InvertedRangeIsEmpty(start: Option<string>, end: Option<string>, parseDate: string -> DateParse,
                             dayOf: int -> int, logs: seq<DoseLog>)
    requires BoundsValid(start, end, parseDate)
    requires parseDate(start.value).day > parseDate(end.value).day
    ensures FilterByDate(start, end, parseDate, dayOf, logs) == Response(HTTP_200_OK, LogsBody([]))
  {
  }

  /** Two answers to the same range hold the same logs with the same multiplicities. */
  lemma DateRangeAnswerDeterminesContents(logs: seq<DoseLog>, lo: int, hi: int, dayOf: int -> int,
                                          out1: seq<DoseLog>, out2: seq<DoseLog>)
    requires IsDateRangeAnswer(logs, lo, hi, dayOf, out1)
    requires IsDateRangeAnswer(logs, lo, hi, dayOf, out2)
    ensures multiset(out1) == multiset(out2)
  {
    assert forall x :: multiset(out1)[x] == multiset(out2)[x];
  }

  // ---------------------------------------------------------------------
  // DoctorNoteViewSet.http_method_names and get_queryset

  const NoteMethodNames: seq<string> := ["get", "post", "delete", "head", "options"]

  function LowerChar(c: char): char {
    if 'A' <= c <= 'Z' then (c as int + 32) as char else c
  }

  /** `method.lower()` on the ASCII letters of an HTTP method name. */
  function AsciiLower(s: string): (r: string)
    ensures |r| == |s|
  {
    seq(|s|, i requires 0 <= i < |s| => LowerChar(s[i]))
  }

  /** How the notes endpoint routes a request method. */
  datatype Route = Dispatch(handler: string) | Reject(response: Response)

  /**
   * A method whose lower-case name is on the allow-list goes to its
   * handler; any other is answered 405.
   */
  function RouteNoteMethod(verb: string): (r: Route)
    ensures r.Reject? <==> AsciiLower(verb) !in NoteMethodNames
    ensures r.Reject? ==> r.response == Response(HTTP_405_METHOD_NOT_ALLOWED, MethodNotAllowedBody(verb))
    ensures r.Dispatch? ==> r.handler in NoteMethodNames && r.handler == AsciiLower(verb)
  {
    var m := AsciiLower(verb);
    if m in NoteMethodNames then Dispatch(m)
    else Reject(Response(HTTP_405_METHOD_NOT_ALLOWED, MethodNotAllowedBody(verb)))
  }

  /** Notes cannot be updated: PUT and PATCH are refused with 405. */
  lemma UpdatesNotAllowed()
    ensures RouteNoteMethod("PUT").Reject? && RouteNoteMethod("PUT").response.status == 405
    ensures RouteNoteMethod("PATCH").Reject? && RouteNoteMethod("PATCH").response.status == 405
  {
    assert AsciiLower("PUT") == "put";
    assert AsciiLower("PATCH") == "patch";
  }

  /** Listing, retrieving, creating and deleting notes are routed to their handlers. */
  lemma ReadCreateDeleteAllowed()
    ensures RouteNoteMethod("GET") == Dispatch("get")
    ensures RouteNoteMethod("POST") == Dispatch("post")
    ensures RouteNoteMethod("DELETE") == Dispatch("delete")
  {
    assert AsciiLower("GET") == "get";
    assert AsciiLower("POST") == "post";
    assert AsciiLower("DELETE") == "delete";
  }

  /**
   * GET /notes/[?medication=ID]: all notes, or, with the parameter, the
   * notes of that medication. The id is converted with `int()`; a value
   * that does not convert makes the lookup raise, shown as Err.
   */
  function NotesForQuery(notes: seq<DoctorNote>, medication: Option<string>): (r: Result<seq<DoctorNote>, string>)
    ensures medication.None? ==> r == Ok(notes)
    ensures medication.Some? ==> (r.Ok? <==> ParseInt(medication.value).Some?)
    ensures medication.Some? && r.Ok? ==>
      forall n :: n in r.value <==> n in notes && n.medication == ParseInt(medication.value).value
    ensures r.Ok? ==> |r.value| <= |notes|
  {
    match medication
    case None => Ok(notes)
    case Some(v) =>
      match ParseInt(v)
      case None => Err(v)
      case Some(id) =>
        var ofMedication := (n: DoctorNote) => n.medication == id;
        FilterCount(notes, ofMedication);
        Ok(Filter(notes, ofMedication))
  }

  /** Filtering by medication keeps the list's order: it commutes with splitting the list. */
  lemma NotesFilterKeepsOrder(a: seq<DoctorNote>, b: seq<DoctorNote>, medication: string)
    ensures ParseInt(medication).Some? ==>
      NotesForQuery(a + b, Some(medication)).value
        == NotesForQuery(a, Some(medication)).value + NotesForQuery(b, Some(medication)).value
  {
    if ParseInt(medication).Some? {
      var id := ParseInt(medication).value;
      FilterAppend(a, b, (n: DoctorNote) => n.medication == id);
    }
  }
}
