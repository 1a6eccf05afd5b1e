/**
 * Importing a label list from a JSON file: the payload must be an array whose every entry has
 * truthy `id`, `size`, `elements`, `uuid` and `shortUuid`; on any failure an error is shown and
 * nothing is imported. Reading the file and `JSON.parse` are outside the model: the parsed value
 * (or the parse failure) is an input.
 */
module ImportLabels {
  import opened Wrappers
  import opened JsNumbers

  /** A parsed JSON value. An object maps each key to its (last) value. */
  datatype Json =
    | JNull
    | JBool(b: bool)
    | JNumber(n: real)
    | JString(s: string)
    | JArray(items: seq<Json>)
    | JObject(fields: map<string, Json>)

  /** JavaScript truthiness of a JSON value (NaN cannot come out of `JSON.parse`). */
  function Truthy(v: Json): (r: bool)
    ensures !r <==> v == JNull || v == JBool(false) || v == JNumber(0.0) || v == JString("")
  {
    match v
    case JNull => false
    case JBool(b) => b
    case JNumber(n) => n != 0.0
    case JString(s) => s != ""
    case _ => true
  }

  /** `v[key]` on a value that is not null: defined only for a key an object carries. */
  function Property(v: Json, key: string): (r: Option<Json>)
    ensures r.Some? ==> v.JObject? && key in v.fields && r.value == v.fields[key]
  {
    if v.JObject? && key in v.fields then Some(v.fields[key]) else None
  }

  /** `v[key]` is truthy: the object carries the key, with a truthy value. */
  function TruthyProperty(v: Json, key: string): (r: bool)
    ensures r <==> v.JObject? && key in v.fields && Truthy(v.fields[key])
  {
    Property(v, key).Some? && Truthy(Property(v, key).value)
  }

  /** The properties every imported label must carry. */
  const RequiredKeys: seq<string> := ["id", "size", "elements", "uuid", "shortUuid"]

  /** The `every` callback on a non-null entry: the five properties, each truthy. */
  function HasRequired(v: Json): (r: bool)
    ensures r ==> v.JObject?
    ensures r <==> forall k :: k in RequiredKeys ==> TruthyProperty(v, k)
  {
    TruthyProperty(v, "id") && TruthyProperty(v, "size") && TruthyProperty(v, "elements")
    && TruthyProperty(v, "uuid") && TruthyProperty(v, "shortUuid")
  }

  /** Why an import failed. */
  datatype ImportError =
    | ParseFailure      // `JSON.parse` threw; its message is the runtime's
    | NotAnArray
    | MissingProperties
    | NullEntry         // `null.id` threw a TypeError; its message is the runtime's
    | NotJsonFile

  /** The messages the component writes itself. */
  function Message(e: ImportError): (r: Option<string>)
    ensures r.Some? <==> e.NotAnArray? || e.MissingProperties? || e.NotJsonFile?
  {
    match e
    case NotAnArray => Some("Invalid file format: Data must be an array of labels")
    case MissingProperties => Some("Invalid file format: One or more labels are missing required properties")
    case NotJsonFile => Some("Please provide a JSON file")
    case _ => None
  }

  datatype Outcome = Imported(labels: seq<Json>) | Failed(error: ImportError)

  /**
   * `data.every(...)`: entries are checked left to right and the scan stops at the first that
   * fails; a null entry throws rather than failing the check.
   */
  function CheckEntries(items: seq<Json>): (r: Outcome)
    ensures r.Imported? ==> r.labels == items
    ensures r.Failed? ==> r.error == NullEntry || r.error == MissingProperties
  {
    if |items| == 0 then Imported(items)
    else if items[0] == JNull then Failed(NullEntry)
    else if !HasRequired(items[0]) then Failed(MissingProperties)
    else match CheckEntries(items[1..])
      case Imported(_) => Imported(items)
      case Failed(e) => Failed(e)
  }

  /** The entries are accepted exactly when every one has the five truthy properties. */
  lemma {:induction false} CheckEntriesAccepts(items: seq<Json>)
    ensures CheckEntries(items).Imported? <==> forall i :: 0 <= i < |items| ==> HasRequired(items[i])
  {
    if |items| > 0 {
      CheckEntriesAccepts(items[1..]);
      assert forall i :: 1 <= i < |items| ==> items[i] == items[1..][i - 1];
    }
  }

  /** A null entry raises the TypeError exactly when every entry before it passed. */
  lemma {:induction false} CheckEntriesNull(items: seq<Json>)
    ensures CheckEntries(items) == Failed(NullEntry) <==>
      exists i :: 0 <= i < |items| && items[i] == JNull && forall j :: 0 <= j < i ==> HasRequired(items[j])
  {
    if |items| > 0 {
      CheckEntriesNull(items[1..]);
      if CheckEntries(items) == Failed(NullEntry) && items[0] != JNull {
        var i :| 0 <= i < |items[1..]| && items[1..][i] == JNull && forall j :: 0 <= j < i ==> HasRequired(items[1..][j]);
        assert forall j :: 0 <= j < i + 1 ==> HasRequired(items[j]) by {
          forall j | 0 <= j < i + 1 ensures HasRequired(items[j]) {
            if j > 0 { assert items[j] == items[1..][j - 1]; }
          }
        }
        assert items[i + 1] == JNull;
      }
      if exists i :: 0 <= i < |items| && items[i] == JNull && forall j :: 0 <= j < i ==> HasRequired(items[j]) {
        var i :| 0 <= i < |items| && items[i] == JNull && forall j :: 0 <= j < i ==> HasRequired(items[j]);
        if i > 0 {
          assert HasRequired(items[0]);
          assert items[1..][i - 1] == JNull;
          assert forall j :: 0 <= j < i - 1 ==> HasRequired(items[1..][j]) by {
            forall j | 0 <= j < i - 1 ensures HasRequired(items[1..][j]) {
              assert items[1..][j] == items[j + 1];
            }
          }
        }
      }
    }
  }

  /** The validation of `handleFileSelect`; `None` is a payload `JSON.parse` rejected. */
  function Validate(parsed: Option<Json>): (r: Outcome)
    ensures parsed.None? ==> r == Failed(ParseFailure)
    ensures parsed.Some? && !parsed.value.JArray? ==> r == Failed(NotAnArray)
    ensures parsed.Some? && parsed.value.JArray? ==> r == CheckEntries(parsed.value.items)
  {
    if parsed.None? then Failed(ParseFailure)
    else if !parsed.value.JArray? then Failed(NotAnArray)
    else CheckEntries(parsed.value.items)
  }

  /** An import succeeds exactly for an array all of whose entries carry the five properties, and hands it on unchanged. */
  lemma ValidateMeaning(parsed: Option<Json>)
    ensures Validate(parsed).Imported? <==>
      parsed.Some? && parsed.value.JArray? && forall i :: 0 <= i < |parsed.value.items| ==> HasRequired(parsed.value.items[i])
    ensures Validate(parsed).Imported? ==> Validate(parsed).labels == parsed.value.items
  {
    if parsed.Some? && parsed.value.JArray? {
      CheckEntriesAccepts(parsed.value.items);
    }
  }

  /** An empty array is accepted, and an entry whose id is the empty string is rejected. */
  lemma ValidateEdgeCases(entry: Json)
    requires entry.JObject? && "id" in entry.fields && entry.fields["id"] == JString("")
    ensures Validate(Some(JArray([]))) == Imported([])
    ensures Validate(Some(JArray([entry]))) == Failed(MissingProperties)
  {
  }

  /** The modal's state and what it has handed to its callbacks. */
  class ImportModal {
    var error: Option<ImportError>
    var isDragging: bool
    var imported: Option<seq<Json>>
    var closed: bool

    constructor ()
      ensures error == None && !isDragging && imported == None && !closed
    {
      error := None;
      isDragging := false;
      imported := None;
      closed := false;
    }

    /** `handleFileSelect`: a valid payload goes to `onImport` and the modal closes; otherwise only an error is set. */
    method HandleFileSelect(parsed: Option<Json>)
      modifies this
      ensures Validate(parsed).Imported? ==>
        imported == Some(Validate(parsed).labels) && closed && error == old(error)
      ensures Validate(parsed).Failed? ==>
        error == Some(Validate(parsed).error) && imported == old(imported) && closed == old(closed)
      ensures isDragging == old(isDragging)
    {
      var outcome := Validate(parsed);
      match outcome {
        case Imported(labels) =>
          imported := Some(labels);
          closed := true;
        case Failed(e) =>
          error := Some(e);
      }
    }

    method HandleDragOver()
      modifies this
      ensures isDragging && error == old(error) && imported == old(imported) && closed == old(closed)
    {
      isDragging := true;
    }

    method HandleDragLeave()
      modifies this
      ensures !isDragging && error == old(error) && imported == old(imported) && closed == old(closed)
    {
      isDragging := false;
    }

    /**
     * `handleDrop`: the error is cleared, then a first file whose name ends in '.json' is read;
     * anything else sets 'Please provide a JSON file' without being parsed.
     */
    method HandleDrop(fileName: Option<string>, parsed: Option<Json>)
      modifies this
      ensures !isDragging
      ensures !(fileName.Some? && EndsWith(fileName.value, ".json")) ==>
        error == Some(NotJsonFile) && imported == old(imported) && closed == old(closed)
      ensures fileName.Some? && EndsWith(fileName.value, ".json") && Validate(parsed).Imported? ==>
        imported == Some(Validate(parsed).labels) && closed && error == None
      ensures fileName.Some? && EndsWith(fileName.value, ".json") && Validate(parsed).Failed? ==>
        error == Some(Validate(parsed).error) && imported == old(imported) && closed == old(closed)
    {
      isDragging := false;
      error := None;
      if fileName.Some? && EndsWith(fileName.value, ".json") {
        HandleFileSelect(parsed);
      } else {
        error := Some(NotJsonFile);
      }
    }
  }
}
