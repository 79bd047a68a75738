/** The travel-guide service: the arguments handed to the prompt, and the
    reconciliation of the model's reply text into a dictionary. The
    language model itself is a parameter: a function from the prompt
    arguments to the reply text. */
module GuideService {
  import opened Wrappers
  import opened Text
  import opened Dicts
  import opened Json
  import opened JsonDecode
  import opened JsonEncode
  import opened Models
  import Schema
  import opened Seqs

  /** The Python exception class an error is raised as. */
  datatype ErrorKind = ValueError | KeyError | TypeError

  datatype ServiceError =
      /** The stripped reply does not start with `{`. */
    | NotAnObject
      /** `json.loads` failed; the decoder's error is kept. */
    | InvalidJson(error: DecodeError)
      /** A dictionary lookup found no such key. */
    | MissingKey(key: string)
      /** `json.loads` was handed a value that is not text. */
    | NotAString(typeName: string)
      /** A value that is not a dictionary was subscripted by a key. */
    | NotADict(typeName: string)
  {
    function Kind(): ErrorKind {
      match this
      case NotAnObject => ValueError
      case InvalidJson(_) => ValueError
      case MissingKey(_) => KeyError
      case NotAString(_) => TypeError
      case NotADict(_) => TypeError
    }

    /** `str()` of the raised exception. */
    function Message(): string {
      match this
      case NotAnObject => "Invalid JSON format: Output does not start with '{'"
      case InvalidJson(e) => "Invalid JSON output: " + DecodeMessage(e)
      case MissingKey(k) => "'" + k + "'"
      case NotAString(t) => "the JSON object must be str, bytes or bytearray, not " + t
      case NotADict(t) =>
        if t == "list" then "list indices must be integers or slices, not str"
        else if t == "str" then "string indices must be integers, not 'str'"
        else "'" + t + "' object is not subscriptable"
    }
  }

  /** The name of the Python class a decoded value belongs to. */
  function TypeName(j: Json): string {
    match j
    case JNull => "NoneType"
    case JBool(_) => "bool"
    case JInt(_) => "int"
    case JDecimal(_, _) => "float"
    case JNonFinite(_) => "float"
    case JString(_) => "str"
    case JArray(_) => "list"
    case JObject(_) => "dict"
  }

  // ---------------------------------------------------------------------
  // The prompt arguments.

  /** The placeholders of the question template, in the order they appear. */
  const QuestionVariables: seq<string> :=
    ["destinations", "start_date", "end_date", "interests", "user_budget", "number_of_travellers"]

  /** The placeholders are distinct: no two have the same length. */
  lemma PlaceholdersDistinct()
    ensures forall i, j :: 0 <= i < j < |QuestionVariables| ==> QuestionVariables[i] != QuestionVariables[j]
  {
    var lengths := [12, 10, 8, 9, 11, 20];
    assert forall i :: 0 <= i < 6 ==> |QuestionVariables[i]| == lengths[i];
  }

  const ListSeparator: string := ", "

  /** The dictionary handed to the chain: the lists rendered as
      comma-separated text, the two dates looked up in `travel_dates`
      (a `KeyError` when either is absent, `start_date` first). */
  function InvokeArguments(destinations: seq<string>, travelDates: Entries<Json>, interests: seq<string>,
                           userBudget: string, numberOfTravellers: int): (r: Result<Entries<Json>, ServiceError>)
    ensures r.Ok? <==> HasKey(travelDates, "start_date") && HasKey(travelDates, "end_date")
    ensures !HasKey(travelDates, "start_date") ==> r == Err(MissingKey("start_date"))
    ensures HasKey(travelDates, "start_date") && !HasKey(travelDates, "end_date") ==> r == Err(MissingKey("end_date"))
    ensures r.Ok? ==> Keys(r.value) == QuestionVariables && DistinctKeys(r.value)
    ensures r.Ok? ==>
      && Get(r.value, "start_date") == Get(travelDates, "start_date")
      && Get(r.value, "end_date") == Get(travelDates, "end_date")
      && Get(r.value, "destinations") == Some(JString(Join(destinations, ListSeparator)))
      && Get(r.value, "interests") == Some(JString(Join(interests, ListSeparator)))
  {
    match (Get(travelDates, "start_date"), Get(travelDates, "end_date"))
    case (None, _) => Err(MissingKey("start_date"))
    case (_, None) => Err(MissingKey("end_date"))
    case (Some(startDate), Some(endDate)) =>
      Ok(Arguments(Join(destinations, ListSeparator), startDate, endDate, Join(interests, ListSeparator),
                   userBudget, numberOfTravellers))
  }

  /** The six entries, one per placeholder, in the template's order. */
  function Arguments(destinations: string, startDate: Json, endDate: Json, interests: string,
                     userBudget: string, numberOfTravellers: int): (args: Entries<Json>)
    ensures Keys(args) == QuestionVariables && DistinctKeys(args)
    ensures Get(args, "destinations") == Some(JString(destinations))
    ensures Get(args, "start_date") == Some(startDate) && Get(args, "end_date") == Some(endDate)
    ensures Get(args, "interests") == Some(JString(interests))
    ensures Get(args, "user_budget") == Some(JString(userBudget))
    ensures Get(args, "number_of_travellers") == Some(JInt(numberOfTravellers))
  {
    var values := [JString(destinations), startDate, endDate, JString(interests), JString(userBudget),
                   JInt(numberOfTravellers)];
    var args := seq(6, i requires 0 <= i < 6 => (QuestionVariables[i], values[i]));
    assert Keys(args) == QuestionVariables;
    PlaceholdersDistinct();
    assert DistinctKeys(args);
    GetEntry(args, 0);
    GetEntry(args, 1);
    GetEntry(args, 2);
    GetEntry(args, 3);
    GetEntry(args, 4);
    GetEntry(args, 5);
    args
  }

  /** The rendered destination list can be split back into the destinations,
      as long as no destination name contains a comma. */
  lemma DestinationsRecoverable(destinations: seq<string>, travelDates: Entries<Json>, interests: seq<string>,
                                userBudget: string, numberOfTravellers: int)
    requires HasKey(travelDates, "start_date") && HasKey(travelDates, "end_date")
    requires |destinations| > 0 && forall i :: 0 <= i < |destinations| ==> ',' !in destinations[i]
    ensures var r := InvokeArguments(destinations, travelDates, interests, userBudget, numberOfTravellers);
      && r.Ok?
      && Get(r.value, "destinations").Some? && Get(r.value, "destinations").value.JString?
      && Split(Get(r.value, "destinations").value.s, ListSeparator) == destinations
  {
    var r := InvokeArguments(destinations, travelDates, interests, userBudget, numberOfTravellers);
    GetEntry(r.value, 0);
    SplitJoin(destinations, ListSeparator);
  }

  // ---------------------------------------------------------------------
  // Reconciling the reply.

  const ObjectPrefix: string := "{"
  /** A reply wrapped in an `output` key, as some chains return it. */
  const EnvelopePrefix: string := "{\"output\":"

  /** `json.loads(text)`, its decoding error kept as `InvalidJson`. */
  function Decode(text: string): (r: Result<Json, ServiceError>)
    ensures r.Ok? <==> ParseJson(text).Ok?
    ensures r.Ok? ==> r.value == ParseJson(text).value && Valid(r.value)
    ensures r.Err? ==> r.error == InvalidJson(ParseJson(text).error)
  {
    match ParseJson(text)
    case Ok(v) => Ok(v)
    case Err(e) => Err(InvalidJson(e))
  }

  /** `json.loads(json.loads(text)["output"])`. */
  function Unwrap(text: string): (r: Result<Json, ServiceError>)
    ensures r.Ok? ==> Valid(r.value)
    ensures r.Err? ==> !r.error.NotAnObject?
    ensures ParseJson(text).Err? ==> r == Err(InvalidJson(ParseJson(text).error))
    ensures ParseJson(text).Ok? && !ParseJson(text).value.JObject? ==> r.Err? && r.error.NotADict?
    ensures ParseJson(text).Ok? && ParseJson(text).value.JObject? ==>
      var outer := ParseJson(text).value.members;
      && (!HasKey(outer, "output") ==> r == Err(MissingKey("output")))
      && (HasKey(outer, "output") && !Get(outer, "output").value.JString? ==> r.Err? && r.error.NotAString?)
      && (HasKey(outer, "output") && Get(outer, "output").value.JString? ==>
            r == Decode(Get(outer, "output").value.s))
  {
    var outer: Json :- Decode(text);
    if !outer.JObject? then Err(NotADict(TypeName(outer)))
    else
      var field: Option<Json> := Get(outer.members, "output");
      if field.None? then Err(MissingKey("output"))
      else if field.value.JString? then Decode(field.value.s)
      else Err(NotAString(TypeName(field.value)))
  }

  /** The reply as the service reconciles it: stripped, then decoded if it
      starts with `{`; the branch for a reply wrapped in `output` is checked
      second, after the test for `{` it can never fail. */
  function Reconcile(raw: string): Result<Json, ServiceError> {
    Reconciled(Strip(raw))
  }

  /** The branches taken on the stripped reply `output`. */
  function Reconciled(output: string): Result<Json, ServiceError> {
    if StartsWith(output, ObjectPrefix) then
      Decode(output)
    else if StartsWith(output, EnvelopePrefix) then
      Unwrap(output)
    else Err(NotAnObject)
  }

  lemma OpensObject(t: string)
    requires t != [] && t[0] == '{'
    ensures StartsWith(t, ObjectPrefix)
  {
    assert t[..1] == [t[0]];
  }

  /** A reply that starts with the envelope prefix starts with `{`. */
  lemma EnvelopeIsObjectText(s: string)
    requires StartsWith(s, EnvelopePrefix)
    ensures StartsWith(s, ObjectPrefix)
  {
    assert EnvelopePrefix == ObjectPrefix + "\"output\":";
    StartsWithLonger(s, ObjectPrefix, "\"output\":");
  }

  /** Only white space around the reply is ignored. */
  lemma ReconcileIgnoresPadding(raw: string)
    ensures Reconcile(raw) == Reconcile(Strip(raw))
  {
    StripIdempotent(raw);
    assert Reconcile(Strip(raw)) == Reconciled(Strip(Strip(raw)));
  }

  /** The three outcomes: a reply starting with `{` is exactly what
      `json.loads` makes of it, and anything else is refused as not an
      object. In particular the unwrapping branch is never taken, and
      every error is a `ValueError`. */
  lemma ReconcileOutcomes(raw: string)
    ensures StartsWith(Strip(raw), ObjectPrefix) ==> Reconcile(raw) == Decode(Strip(raw))
    ensures !StartsWith(Strip(raw), ObjectPrefix) ==> Reconcile(raw) == Err(NotAnObject)
    ensures Reconcile(raw).Err? ==> Reconcile(raw).error.Kind() == ValueError
  {
    if !StartsWith(Strip(raw), ObjectPrefix) && StartsWith(Strip(raw), EnvelopePrefix) {
      EnvelopeIsObjectText(Strip(raw));
      assert false;
    }
  }

  /** Every accepted reply is a dictionary: the text `json.loads` decoded,
      which started with `{`. */
  lemma ReconcileAcceptsOnlyObjects(raw: string)
    ensures Reconcile(raw).Ok? ==>
      && StartsWith(Strip(raw), ObjectPrefix)
      && ParseJson(Strip(raw)) == Ok(Reconcile(raw).value)
      && Reconcile(raw).value.JObject? && Valid(Reconcile(raw).value)
  {
    ReconcileOutcomes(raw);
    var s := Strip(raw);
    if StartsWith(s, ObjectPrefix) {
      assert s[0] == s[..1][0];
    }
  }

  /** The reply's error message names the cause. */
  lemma ReconcileMessages(raw: string)
    ensures Reconcile(raw).Err? ==>
      var m := Reconcile(raw).error.Message();
      || m == "Invalid JSON format: Output does not start with '{'"
      || (ParseJson(Strip(raw)).Err? && m == "Invalid JSON output: " + DecodeMessage(ParseJson(Strip(raw)).error))
  {
    ReconcileOutcomes(raw);
  }

  /** A white-space-only reply is refused. */
  lemma BlankReplyRefused(raw: string)
    requires AllSpace(raw)
    ensures Reconcile(raw) == Err(NotAnObject)
  {
    assert raw == raw + [] + [];
    StripPadded(raw, [], []);
  }

  /** A written object, with any white space around it, is read back. */
  lemma ReconcileReadsObject(before: string, v: Json, after: string)
    requires AllSpace(before) && AllSpace(after)
    requires v.JObject? && Valid(v)
    ensures Reconcile(before + Serialize(v) + after) == Ok(v)
  {
    StripWritten(before, v, after);
    ReconcileIgnoresPadding(before + Serialize(v) + after);
    ReconcileReadsText(v);
  }

  /** The text of an object is left as it is by stripping. */
  lemma StripWritten(before: string, v: Json, after: string)
    requires AllSpace(before) && AllSpace(after) && v.JObject?
    ensures Strip(before + Serialize(v) + after) == Serialize(v)
  {
    var t := Serialize(v);
    assert !IsSpace(t[0]) && !IsSpace(t[|t| - 1]);
    StripPadded(before, t, after);
  }

  lemma ReconcileReadsText(v: Json)
    requires v.JObject? && Valid(v)
    ensures Reconcile(Serialize(v)) == Ok(v)
  {
    var t := Serialize(v);
    StripWritten([], v, []);
    assert [] + t + [] == t;
    OpensObject(t);
    RoundTrip(v);
  }


  // ---------------------------------------------------------------------
  // The wrapped reply.

  /** A reply wrapped in an `output` key holding the reply's own text. */
  function Envelope(v: Json): (e: Json)
    ensures e.JObject? && Valid(e)
    ensures Keys(e.members) == ["output"]
    ensures Get(e.members, "output").Some? && Get(e.members, "output").value.JString?
  {
    JObject([("output", JString(Serialize(v)))])
  }

  /** Text without quotes, backslashes or control characters is written
      as it is. */
  lemma {:induction false} EscapePlain(s: string)
    requires forall i :: 0 <= i < |s| ==> s[i] != '"' && s[i] != '\\' && s[i] >= ' '
    ensures Escape(s) == s
    decreases |s|
  {
    if s != [] {
      assert [s[0]] + s[1..] == s;
      EscapePlain(s[1..]);
    }
  }

  /** A member whose key is written as it is. */
  lemma PlainMemberText(k: string, v: Json)
    requires Escape(k) == k
    ensures SerializeMember((k, v)) == "\"" + k + "\":" + Serialize(v)
  {
  }

  lemma OutputKeyPlain()
    ensures Escape("output") == "output"
  {
    EscapePlain("output");
  }

  lemma EmptyObjectTextPlain()
    ensures Escape("{}") == "{}"
  {
    EscapePlain("{}");
  }

  /** A character written as it is comes first in the escaped text. */
  lemma EscapeHead(s: string)
    requires s != [] && s[0] != '"' && s[0] != '\\' && s[0] >= ' '
    ensures Escape(s) == [s[0]] + Escape(s[1..])
  {
  }



  /** The envelope prefix is an opening brace, the quoted key `output`
      and a colon. */
  lemma EnvelopePrefixQuotesKey()
    ensures EnvelopePrefix == "{" + Quote("output") + ":"
  {
    OutputKeyPlain();
  }

  /** The written envelope is the envelope prefix, the quoted text, and a
      closing brace. */
  lemma EnvelopeText(v: Json)
    ensures Serialize(Envelope(v)) == EnvelopePrefix + Quote(Serialize(v)) + "}"
  {
    var m := ("output", JString(Serialize(v)));
    var q := Quote(Serialize(v));
    assert SerializeMember(m) == Quote("output") + ":" + q;
    assert SerializeMembers([m]) == SerializeMember(m);
    assert Serialize(Envelope(v)) == "{" + SerializeMember(m) + "}";
    Regroup("{", Quote("output"), ":", q, "}");
    EnvelopePrefixQuotesKey();
  }

  lemma EnvelopeStarts(v: Json)
    ensures StartsWith(Serialize(Envelope(v)), EnvelopePrefix)
  {
    EnvelopeText(v);
    PrefixOf(EnvelopePrefix, Quote(Serialize(v)) + "}");
    Assoc(EnvelopePrefix, Quote(Serialize(v)), "}");
  }

  /** As written, a wrapped reply is returned whole: the caller gets the
      envelope, not the guide inside it. */
  lemma ReconcileKeepsEnvelope(v: Json)
    requires Valid(v)
    ensures Reconcile(Serialize(Envelope(v))) == Ok(Envelope(v))
  {
    ReconcileReadsText(Envelope(v));
  }


  /** The smallest instance: `{"output":"{}"}` comes back as the envelope
      and not as the empty guide `{}`. */
  lemma ReconcileKeepsEmptyEnvelope()
    ensures Reconcile("{\"output\":\"{}\"}") == Ok(JObject([("output", JString("{}"))]))
    ensures Reconcile("{\"output\":\"{}\"}") != Ok(JObject([]))
  {
    EmptyEnvelopeText();
    ReconcileKeepsEnvelope(JObject([]));
  }

  lemma EmptyEnvelopeText()
    ensures Serialize(Envelope(JObject([]))) == "{\"output\":\"{}\"}"
    ensures Envelope(JObject([])) == JObject([("output", JString("{}"))])
  {
    EmptyObjectText();
    EnvelopeText(JObject([]));
    assert EnvelopePrefix + "\"{}\"" + "}" == "{\"output\":\"{}\"}";
  }

  lemma EmptyObjectText()
    ensures Serialize(JObject([])) == "{}"
    ensures Quote("{}") == "\"{}\""
  {
    EmptyObjectTextPlain();
  }



  /** The reconciliation as the comment at the branch intends it: a wrapped
      reply is unwrapped (checked first), any other reply starting with `{`
      is decoded, and anything else is refused. */
  function ReconcileUnwrapping(raw: string): (r: Result<Json, ServiceError>)
    ensures r.Ok? ==> Valid(r.value)
  {
    var output := Strip(raw);
    if StartsWith(output, EnvelopePrefix) then Unwrap(output)
    else if StartsWith(output, ObjectPrefix) then Decode(output)
    else Err(NotAnObject)
  }

  /** A wrapped reply, with white space around it, gives the value inside. */
  lemma UnwrapsEnvelope(before: string, v: Json, after: string)
    requires AllSpace(before) && AllSpace(after) && Valid(v)
    ensures ReconcileUnwrapping(before + Serialize(Envelope(v)) + after) == Ok(v)
  {
    StripWritten(before, Envelope(v), after);
    EnvelopeStarts(v);
    UnwrapEnvelopeText(v);
  }

  lemma UnwrapEnvelopeText(v: Json)
    requires Valid(v)
    ensures Unwrap(Serialize(Envelope(v))) == Ok(v)
  {
    var e := Envelope(v);
    RoundTrip(e);
    EnvelopeField(v);
    RoundTrip(v);
    UnwrapDecoded(Serialize(e), e, Serialize(v), v);
  }

  lemma EnvelopeField(v: Json)
    ensures Get(Envelope(v).members, "output") == Some(JString(Serialize(v)))
  {
  }

  /** `Unwrap` reads the inner text from the `output` key and decodes it. */
  lemma UnwrapDecoded(text: string, e: Json, inner: string, v: Json)
    requires ParseJson(text) == Ok(e) && e.JObject?
    requires Get(e.members, "output") == Some(JString(inner))
    requires ParseJson(inner) == Ok(v)
    ensures Unwrap(text) == Ok(v)
  {
  }


  /** On every reply that is not wrapped, the corrected reconciliation is
      the one written. */
  lemma UnwrappingAgreesOffEnvelope(raw: string)
    requires !StartsWith(Strip(raw), EnvelopePrefix)
    ensures ReconcileUnwrapping(raw) == Reconcile(raw)
  {
  }

  /** A written guide never looks like a wrapped reply: its first key is
      `overview`. */
  lemma GuideIsNotEnvelope(x: TravelGuideOutput)
    ensures !StartsWith(Serialize(OutputToJson(x)), EnvelopePrefix)
  {
    ObjectNotEnvelope(OutputEntries(x));
  }

  /** An object whose first key is `overview` is not written as an
      envelope: the two texts differ at their fourth character. */
  lemma ObjectNotEnvelope(ms: Entries<Json>)
    requires |ms| > 0 && ms[0].0 == "overview"
    ensures !StartsWith(Serialize(JObject(ms)), EnvelopePrefix)
  {
    var s := Serialize(JObject(ms));
    var first := SerializeMember(ms[0]);
    var members := SerializeMembers(ms);
    assert |first| > 2 && first[2] == 'v' by {
      var k := ms[0].0;
      EscapeHead(k);
      EscapeHead(k[1..]);
      var e := Escape(k);
      assert |e| >= 2 && e[1] == 'v';
      assert first == "\"" + e + "\"" + ":" + Serialize(ms[0].1);
    }
    assert members[2] == 'v' by {
      if |ms| == 1 {
        assert members == first;
      } else {
        assert members == first + "," + SerializeMembers(ms[1..]);
      }
    }
    assert s[3] == 'v' by {
      assert s == "{" + members + "}";
    }
    DiffersAt(s, EnvelopePrefix, 3);
  }



  // ---------------------------------------------------------------------
  // The structure the system prompt asks for.

  /** The example guide the system prompt spells out as the structure to
      return, each value being the placeholder text shown there. */
  const PromptExample: TravelGuideOutput := TravelGuideOutput(
    "A brief overview of the travel guide",
    [("region_name", JArray([JObject([("location", JString("Name of the location")),
                                      ("activity", JString("Description of the activity"))])]))],
    [("key_tip", JString("Description of the tip"))],
    [("region_name", JArray([JObject([("location", JString("Name of the location")),
                                      ("activities", JArray([JString("Description of activity 1"),
                                                             JString("Description of activity 2")]))])]))],
    [("category", JArray([JString("Description of activity or experience")]))],
    [DayItinerarySchema(
      "Day 1",
      "Name of the location (e.g., Kenya)",
      "Day of the week and date (e.g., Thursday, Mar 27)",
      [ImageSchema("Title of the image (e.g., Lion Pride)", Some("URL of the image"),
                   "Description of the image (e.g., Majestic Lion Pride in the Savannah)")],
      ["Activity 1 (e.g., Morning safari game drive)", "Activity 2 (e.g., Traditional lunch experience)",
       "Activity 3 (e.g., Evening cultural show)", "Activity 4 (e.g., Sunset photography session)"],
      ["Name of the accommodation (e.g., Giraffe Manor)"],
      ["Breakfast", "Lunch", "Dinner"])],
    [("category", JObject([("subcategory", JString("Description of the cost"))]))],
    ["Description of safety tip"],
    "A brief conclusion of the travel guide")

  /** The structure the system prompt writes out, as the JSON object its
      text denotes. */
  function PromptStructure(): Json {
    JObject([
      ("overview", JString("A brief overview of the travel guide")),
      ("itinerary_suggestions", JObject([
        ("region_name", JArray([JObject([("location", JString("Name of the location")),
                                         ("activity", JString("Description of the activity"))])]))])),
      ("tips_and_recommendations", JObject([("key_tip", JString("Description of the tip"))])),
      ("must_visit_attractions", JObject([
        ("region_name", JArray([JObject([("location", JString("Name of the location")),
                                         ("activities", JArray([JString("Description of activity 1"),
                                                                JString("Description of activity 2")]))])]))])),
      ("activities_and_experiences", JObject([
        ("category", JArray([JString("Description of activity or experience")]))])),
      ("itinerary_example", JArray([PromptDay()])),
      ("budget_breakdown", JObject([("category", JObject([("subcategory", JString("Description of the cost"))]))])),
      ("safety_tips", JArray([JString("Description of safety tip")])),
      ("conclusion", JString("A brief conclusion of the travel guide"))])
  }

  /** The one day of the itinerary example in the system prompt. */
  function PromptDay(): Json {
    JObject([
      ("day", JString("Day 1")),
      ("location", JString("Name of the location (e.g., Kenya)")),
      ("date_time", JString("Day of the week and date (e.g., Thursday, Mar 27)")),
      ("list_of_images", JArray([PromptImage()])),
      ("activities", JArray([JString("Activity 1 (e.g., Morning safari game drive)"),
                             JString("Activity 2 (e.g., Traditional lunch experience)"),
                             JString("Activity 3 (e.g., Evening cultural show)"),
                             JString("Activity 4 (e.g., Sunset photography session)")])),
      ("accommodations", JArray([JString("Name of the accommodation (e.g., Giraffe Manor)")])),
      ("included_meals", JArray([JString("Breakfast"), JString("Lunch"), JString("Dinner")]))])
  }

  /** The one image of the itinerary example in the system prompt. */
  function PromptImage(): Json {
    JObject([
      ("image_title", JString("Title of the image (e.g., Lion Pride)")),
      ("image_url", JString("URL of the image")),
      ("image_description", JString("Description of the image (e.g., Majestic Lion Pride in the Savannah)"))])
  }

  /** The prompt's structure is the encoding of the example guide. */
  lemma PromptStructureWritten()
    ensures PromptStructure() == OutputToJson(PromptExample)
  {
    var d := PromptExample.itineraryExample[0];
    assert PromptImage() == ImageToJson(d.listOfImages[0]);
    assert ImagesToJson(d.listOfImages).items == [PromptImage()];
    assert Schema.StringListToJson(d.activities).items == PromptDay().members[4].1.items;
    assert Schema.StringListToJson(d.accommodations).items == PromptDay().members[5].1.items;
    assert Schema.StringListToJson(d.includedMeals).items == PromptDay().members[6].1.items;
    assert PromptDay() == DayToJson(d);
    assert DaysToJson(PromptExample.itineraryExample).items == [PromptDay()];
    assert Schema.StringListToJson(PromptExample.safetyTips).items == [JString("Description of safety tip")];
  }

  /** The structure asked for has exactly the response model's fields, in
      the same order, and is itself a valid response. */
  lemma PromptStructureIsAGuide()
    ensures PromptStructure().JObject? && Keys(PromptStructure().members) == OutputFields
    ensures ValidateOutput(PromptStructure()) == Ok(PromptExample)
  {
    PromptStructureWritten();
    OutputEntriesKeys(PromptExample);
    OutputRoundTrip(PromptExample);
  }

  // ---------------------------------------------------------------------
  // The whole service call.

  /** `generate_travel_guide`: the arguments are built, the model is asked
      with them, and its reply is reconciled as written. A reply is either
      a dictionary or a `ValueError`; a missing date is a `KeyError`. */
  function GenerateTravelGuide(destinations: seq<string>, travelDates: Entries<Json>, interests: seq<string>,
                               userBudget: string, numberOfTravellers: int, complete: Entries<Json> -> string)
    : (r: Result<Json, ServiceError>)
    ensures r.Ok? ==> r.value.JObject? && Valid(r.value)
    ensures !HasKey(travelDates, "start_date") ==> r == Err(MissingKey("start_date"))
    ensures HasKey(travelDates, "start_date") && !HasKey(travelDates, "end_date") ==> r == Err(MissingKey("end_date"))
    ensures HasKey(travelDates, "start_date") && HasKey(travelDates, "end_date") ==>
      var raw := complete(InvokeArguments(destinations, travelDates, interests, userBudget, numberOfTravellers).value);
      && (StartsWith(Strip(raw), ObjectPrefix) ==> r == Decode(Strip(raw)))
      && (!StartsWith(Strip(raw), ObjectPrefix) ==> r == Err(NotAnObject))
      && (r.Err? ==> r.error.Kind() == ValueError)
  {
    var args :- InvokeArguments(destinations, travelDates, interests, userBudget, numberOfTravellers);
    ReconcileOutcomes(complete(args));
    ReconcileAcceptsOnlyObjects(complete(args));
    Reconcile(complete(args))
  }

  /** The service call with the corrected reconciliation, which unwraps a
      reply wrapped in `output`. */
  function GenerateUnwrapping(destinations: seq<string>, travelDates: Entries<Json>, interests: seq<string>,
                              userBudget: string, numberOfTravellers: int, complete: Entries<Json> -> string)
    : (r: Result<Json, ServiceError>)
    ensures r.Ok? ==> Valid(r.value)
    ensures !HasKey(travelDates, "start_date") ==> r == Err(MissingKey("start_date"))
    ensures HasKey(travelDates, "start_date") && !HasKey(travelDates, "end_date") ==> r == Err(MissingKey("end_date"))
    ensures HasKey(travelDates, "start_date") && HasKey(travelDates, "end_date") ==>
      var raw := complete(InvokeArguments(destinations, travelDates, interests, userBudget, numberOfTravellers).value);
      && (StartsWith(Strip(raw), EnvelopePrefix) ==> r == Unwrap(Strip(raw)))
      && (!StartsWith(Strip(raw), EnvelopePrefix) ==> r == Reconcile(raw))
  {
    var args :- InvokeArguments(destinations, travelDates, interests, userBudget, numberOfTravellers);
    UnwrappingOutcomes(complete(args));
    ReconcileUnwrapping(complete(args))
  }

  /** The corrected reconciliation unwraps a wrapped reply and otherwise
      is the one written. */
  lemma UnwrappingOutcomes(raw: string)
    ensures StartsWith(Strip(raw), EnvelopePrefix) ==> ReconcileUnwrapping(raw) == Unwrap(Strip(raw))
    ensures !StartsWith(Strip(raw), EnvelopePrefix) ==> ReconcileUnwrapping(raw) == Reconcile(raw)
  {
    if !StartsWith(Strip(raw), EnvelopePrefix) {
      UnwrappingAgreesOffEnvelope(raw);
    }
  }

  /** A model that answers with a written guide, padded or not, gets that
      guide back through the response model. */
  lemma GenerateReadsGuide(destinations: seq<string>, travelDates: Entries<Json>, interests: seq<string>,
                           userBudget: string, numberOfTravellers: int, complete: Entries<Json> -> string,
                           x: TravelGuideOutput, before: string, after: string)
    requires HasKey(travelDates, "start_date") && HasKey(travelDates, "end_date")
    requires Valid(OutputToJson(x)) && AllSpace(before) && AllSpace(after)
    requires forall args :: complete(args) == before + Serialize(OutputToJson(x)) + after
    ensures var r := GenerateTravelGuide(destinations, travelDates, interests, userBudget, numberOfTravellers, complete);
      r == Ok(OutputToJson(x)) && ValidateOutput(r.value) == Ok(x)
  {
    ReconcileReadsObject(before, OutputToJson(x), after);
    OutputRoundTrip(x);
  }

  /** A model that answers with a wrapped reply gets the wrapper itself back
      from the service as written. */
  lemma GenerateKeepsWrappedReply(destinations: seq<string>, travelDates: Entries<Json>, interests: seq<string>,
                                  userBudget: string, numberOfTravellers: int, complete: Entries<Json> -> string,
                                  v: Json, before: string, after: string)
    requires HasKey(travelDates, "start_date") && HasKey(travelDates, "end_date")
    requires Valid(v) && AllSpace(before) && AllSpace(after)
    requires forall args :: complete(args) == before + Serialize(Envelope(v)) + after
    ensures GenerateTravelGuide(destinations, travelDates, interests, userBudget, numberOfTravellers, complete)
            == Ok(Envelope(v))
  {
    GenerateCalls(destinations, travelDates, interests, userBudget, numberOfTravellers, complete);
    ReconcileReadsObject(before, Envelope(v), after);
  }

  /** The same wrapped reply gives the value inside through the corrected
      service call. */
  lemma GenerateUnwrapsWrappedReply(destinations: seq<string>, travelDates: Entries<Json>, interests: seq<string>,
                                    userBudget: string, numberOfTravellers: int, complete: Entries<Json> -> string,
                                    v: Json, before: string, after: string)
    requires HasKey(travelDates, "start_date") && HasKey(travelDates, "end_date")
    requires Valid(v) && AllSpace(before) && AllSpace(after)
    requires forall args :: complete(args) == before + Serialize(Envelope(v)) + after
    ensures GenerateUnwrapping(destinations, travelDates, interests, userBudget, numberOfTravellers, complete) == Ok(v)
  {
    GenerateCalls(destinations, travelDates, interests, userBudget, numberOfTravellers, complete);
    UnwrapsEnvelope(before, v, after);
  }

  /** With both dates given, each service call reconciles the model's answer
      to the arguments. */
  lemma GenerateCalls(destinations: seq<string>, travelDates: Entries<Json>, interests: seq<string>,
                      userBudget: string, numberOfTravellers: int, complete: Entries<Json> -> string)
    requires HasKey(travelDates, "start_date") && HasKey(travelDates, "end_date")
    ensures var raw := complete(InvokeArguments(destinations, travelDates, interests, userBudget, numberOfTravellers).value);
      && GenerateTravelGuide(destinations, travelDates, interests, userBudget, numberOfTravellers, complete) == Reconcile(raw)
      && GenerateUnwrapping(destinations, travelDates, interests, userBudget, numberOfTravellers, complete)
         == ReconcileUnwrapping(raw)
  {
  }
}
