/**
 * The serializers: which fields a note and a medication expose, which of
 * them a client may set, and the validation of a note's text.
 */
module Serializers {
  import opened Wrappers
  import opened Json
  import opened Text
  import opened Models

  // ---------------------------------------------------------------------
  // DoctorNoteSerializer

  const EmptyNoteText := "Note text cannot be empty."

  /**
   * `validate_text`: reject text that is empty or only whitespace,
   * otherwise return it stripped. The accepted text is the slice of the
   * input between its leading and its trailing whitespace.
   */
  function ValidateText(value: string): (r: Result<string, string>)
    ensures r.Err? <==> AllBy(value, IsPySpace)
    ensures r.Err? ==> r.error == EmptyNoteText
    ensures r.Ok? ==> r.value != [] && NoEdgeBy(r.value, IsPySpace)
    ensures r.Ok? ==>
      var i := StripStart(value, IsPySpace);
      && i + |r.value| <= |value|
      && r.value == value[i..i + |r.value|]
      && AllBy(value[..i], IsPySpace)
      && AllBy(value[i + |r.value|..], IsPySpace)
  {
    StripEmptyIffBlank(value, IsPySpace);
    var stripped := Strip(value);
    if value == "" || stripped == "" then Err(EmptyNoteText) else Ok(stripped)
  }

  /** Validating accepted text again accepts it unchanged. */
  lemma ValidateTextIdempotent(value: string)
    requires ValidateText(value).Ok?
    ensures ValidateText(ValidateText(value).value) == ValidateText(value)
  {
    StripIdempotent(value, IsPySpace);
  }

  /** Whitespace around acceptable text is all that validation removes. */
  lemma ValidateTextPadded(ws1: string, text: string, ws2: string)
    requires AllBy(ws1, IsPySpace) && AllBy(ws2, IsPySpace)
    requires text != [] && NoEdgeBy(text, IsPySpace)
    ensures ValidateText(ws1 + text + ws2) == Ok(text)
  {
    StripPadded(ws1, text, ws2, IsPySpace);
  }

  /** Whitespace-only text such as "   " is rejected. */
  lemma WhitespaceOnlyRejected()
    ensures ValidateText("   ") == Err(EmptyNoteText)
    ensures ValidateText("") == Err(EmptyNoteText)
  {
  }

  const NoteFields: seq<string> := ["id", "medication", "text", "created_at"]
  const NoteReadOnlyFields: seq<string> := ["created_at"]

  /**
   * A field a client may set: a listed field that is neither declared
   * read-only nor the primary key, which ModelSerializer makes read-only.
   */
  predicate IsNoteWritable(field: string) {
    field in NoteFields && field !in NoteReadOnlyFields && field != "id"
  }

  /** The part of the request data the serializer reads: the writable fields only. */
  function WritableNoteData(input: map<string, Json>): (r: map<string, Json>)
    ensures r.Keys <= {"medication", "text"}
    ensures "created_at" !in r && "id" !in r
    ensures forall k :: k in r <==> k in input && IsNoteWritable(k)
    ensures forall k :: k in r ==> r[k] == input[k]
  {
    map k | k in input && IsNoteWritable(k) :: input[k]
  }

  datatype NoteError = MissingField(field: string) | TextRejected(message: string)

  /**
   * Creating a note from request data: the store assigns `id` and the
   * creation instant `now`; medication and text come from the data, the
   * text through `validate_text`.
   */
  function CreateNote(id: int, input: map<string, Json>, now: int): (r: Result<DoctorNote, NoteError>)
    ensures r.Ok? ==> r.value.id == id && r.value.createdAt == now
    ensures r.Ok? ==> "medication" in input && input["medication"] == JInt(r.value.medication)
    ensures r.Ok? ==> "text" in input && input["text"].JStr? && ValidateText(input["text"].s) == Ok(r.value.text)
    ensures "text" in input && input["text"].JStr? && ValidateText(input["text"].s).Err? ==> r.Err?
    ensures "medication" in input && input["medication"].JInt? && "text" in input && input["text"].JStr?
            && ValidateText(input["text"].s).Ok? ==>
      r == Ok(DoctorNote(id, input["medication"].i, ValidateText(input["text"].s).value, now))
  {
    var data := WritableNoteData(input);
    assert IsNoteWritable("medication") && IsNoteWritable("text");
    if "medication" !in data || !data["medication"].JInt? then Err(MissingField("medication"))
    else if "text" !in data || !data["text"].JStr? then Err(MissingField("text"))
    else
      match ValidateText(data["text"].s)
      case Err(msg) => Err(TextRejected(msg))
      case Ok(text) => Ok(DoctorNote(id, data["medication"].i, text, now))
  }

  /** A client-supplied `created_at` (or `id`) changes nothing about the note created. */
  lemma ReadOnlyFieldsIgnored(id: int, input: map<string, Json>, now: int, field: string, v: Json)
    requires field == "created_at" || field == "id"
    ensures CreateNote(id, input[field := v], now) == CreateNote(id, input, now)
  {
    assert WritableNoteData(input[field := v]) == WritableNoteData(input);
  }

  /** `serializer.data` for a note: exactly the four listed fields. */
  function NoteRepresentation(note: DoctorNote): (r: map<string, Json>)
    ensures r.Keys == set f | f in NoteFields
    ensures r["created_at"] == JInt(note.createdAt) && r["text"] == JStr(note.text)
    ensures r["id"] == JInt(note.id) && r["medication"] == JInt(note.medication)
  {
    map["id" := JInt(note.id), "medication" := JInt(note.medication),
        "text" := JStr(note.text), "created_at" := JInt(note.createdAt)]
  }

  /**
   * Posting a stored note's representation back creates the same note,
   * given the store's id and instant: the read-only fields come from the
   * store, the others survive the round trip.
   */
  lemma NoteRoundTrip(note: DoctorNote)
    requires note.text != [] && NoEdgeBy(note.text, IsPySpace)
    ensures CreateNote(note.id, NoteRepresentation(note), note.createdAt) == Ok(note)
  {
    StripNoEdge(note.text, IsPySpace);
  }

  // ---------------------------------------------------------------------
  // MedicationSerializer

  const MedicationFields: seq<string> := ["id", "name", "dosage_mg", "prescribed_per_day", "adherence"]

  /**
   * `serializer.data` for a medication. `adherenceRate` is the model's
   * `adherence_rate()`, to which `get_adherence` delegates.
   */
  function MedicationRepresentation(m: Medication, adherenceRate: Medication -> real): (r: map<string, Json>)
    ensures r.Keys == set f | f in MedicationFields
    ensures r["adherence"] == JReal(adherenceRate(m))
    ensures r["id"] == JInt(m.id) && r["name"] == JStr(m.name)
    ensures r["dosage_mg"] == JInt(m.dosageMg) && r["prescribed_per_day"] == JInt(m.prescribedPerDay)
  {
    var r := map["id" := JInt(m.id), "name" := JStr(m.name), "dosage_mg" := JInt(m.dosageMg),
                 "prescribed_per_day" := JInt(m.prescribedPerDay), "adherence" := JReal(adherenceRate(m))];
    assert r.Keys == {"id", "name", "dosage_mg", "prescribed_per_day", "adherence"};
    r
  }
}
