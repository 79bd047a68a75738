/** The service's request and response records and their strict
    validation from decoded JSON. A record is read from an object; keys it
    does not declare are ignored, and the first failing field, in
    declaration order, gives the error. */
module Models {
  import opened Wrappers
  import opened Dicts
  import opened Json
  import opened Schema

  datatype ImageSchema = ImageSchema(
    imageTitle: string,
    imageUrl: Option<string>,
    imageDescription: string)

  datatype DayItinerarySchema = DayItinerarySchema(
    day: string,
    location: string,
    dateTime: string,
    listOfImages: seq<ImageSchema>,
    activities: seq<string>,
    accommodations: seq<string>,
    includedMeals: seq<string>)

  datatype TravelGuideOutput = TravelGuideOutput(
    overview: string,
    itinerarySuggestions: Entries<Json>,
    tipsAndRecommendations: Entries<Json>,
    mustVisitAttractions: Entries<Json>,
    activitiesAndExperiences: Entries<Json>,
    itineraryExample: seq<DayItinerarySchema>,
    budgetBreakdown: Entries<Json>,
    safetyTips: seq<string>,
    conclusion: string)

  datatype TravelGuideInput = TravelGuideInput(
    destinations: seq<string>,
    travelDates: Entries<Json>,
    interests: seq<string>,
    userBudget: string,
    numberOfTravellers: int)

  /** The declared field names, in declaration order. */
  const ImageFields: seq<string> := ["image_title", "image_url", "image_description"]
  const DayFields: seq<string> :=
    ["day", "location", "date_time", "list_of_images", "activities", "accommodations", "included_meals"]
  const OutputFields: seq<string> :=
    ["overview", "itinerary_suggestions", "tips_and_recommendations", "must_visit_attractions",
     "activities_and_experiences", "itinerary_example", "budget_breakdown", "safety_tips", "conclusion"]
  const InputFields: seq<string> :=
    ["destinations", "travel_dates", "interests", "user_budget", "number_of_travellers"]

  /** Every one of `keys` is present. */
  predicate HasKeys(ms: Entries<Json>, keys: seq<string>) {
    forall k :: k in keys ==> HasKey(ms, k)
  }

  /** `image_url: Optional[str] = ""`: absent means `""`, `null` means no
      URL. */
  function ImageUrl(v: Option<Json>, loc: Loc): (r: Result<Option<string>, SchemaError>)
    ensures v.None? ==> r == Ok(Some(""))
    ensures v.Some? && v.value.JNull? ==> r == Ok(None)
    ensures v.Some? && v.value.JString? ==> r == Ok(Some(v.value.s))
    ensures v.Some? && !v.value.JNull? && !v.value.JString? ==> r == Err(WrongType(loc, StringType))
  {
    match v
    case None => Ok(Some(""))
    case Some(JNull) => Ok(None)
    case Some(JString(s)) => Ok(Some(s))
    case Some(_) => Err(WrongType(loc, StringType))
  }

  function ValidateImage(j: Json, loc: Loc): (r: Result<ImageSchema, SchemaError>)
    ensures !j.JObject? ==> r == Err(WrongType(loc, ModelType("ImageSchema")))
    ensures r.Ok? ==> j.JObject? && HasKey(j.members, "image_title") && HasKey(j.members, "image_description")
    ensures j.JObject? && !HasKey(j.members, "image_title") ==> r == Err(Missing(loc + [Key("image_title")]))
    ensures r.Ok? ==> Get(j.members, "image_title") == Some(JString(r.value.imageTitle))
    ensures r.Ok? ==> ImageUrl(Get(j.members, "image_url"), loc + [Key("image_url")]) == Ok(r.value.imageUrl)
    ensures r.Ok? ==> Get(j.members, "image_description") == Some(JString(r.value.imageDescription))
  {
    if !j.JObject? then Err(WrongType(loc, ModelType("ImageSchema")))
    else
      var ms := j.members;
      var title :- StringField(ms, loc, "image_title");
      var url :- ImageUrl(Get(ms, "image_url"), loc + [Key("image_url")]);
      var description :- StringField(ms, loc, "image_description");
      Ok(ImageSchema(title, url, description))
  }

  function ValidateDay(j: Json, loc: Loc): (r: Result<DayItinerarySchema, SchemaError>)
    ensures !j.JObject? ==> r == Err(WrongType(loc, ModelType("DayItinerarySchema")))
    ensures r.Ok? ==> j.JObject?
    ensures r.Ok? ==> Get(j.members, "day") == Some(JString(r.value.day))
    ensures r.Ok? ==> Get(j.members, "location") == Some(JString(r.value.location))
    ensures r.Ok? ==> Get(j.members, "date_time") == Some(JString(r.value.dateTime))
    ensures r.Ok? ==> ListField(j.members, loc, "list_of_images", ValidateImage) == Ok(r.value.listOfImages)
    ensures r.Ok? ==> ListField(j.members, loc, "activities", AsString) == Ok(r.value.activities)
    ensures r.Ok? ==> ListField(j.members, loc, "accommodations", AsString) == Ok(r.value.accommodations)
    ensures r.Ok? ==> ListField(j.members, loc, "included_meals", AsString) == Ok(r.value.includedMeals)
  {
    if !j.JObject? then Err(WrongType(loc, ModelType("DayItinerarySchema")))
    else
      var ms := j.members;
      var day :- StringField(ms, loc, "day");
      var location :- StringField(ms, loc, "location");
      var dateTime :- StringField(ms, loc, "date_time");
      var images :- ListField(ms, loc, "list_of_images", ValidateImage);
      var activities :- ListField(ms, loc, "activities", AsString);
      var accommodations :- ListField(ms, loc, "accommodations", AsString);
      var meals :- ListField(ms, loc, "included_meals", AsString);
      Ok(DayItinerarySchema(day, location, dateTime, images, activities, accommodations, meals))
  }

  /** The response model. The five plain `dict` fields take any mapping. */
  function ValidateOutput(j: Json): (r: Result<TravelGuideOutput, SchemaError>)
    ensures !j.JObject? ==> r == Err(WrongType([], ModelType("TravelGuideOutput")))
    ensures r.Ok? ==> j.JObject?
    ensures r.Ok? ==> Get(j.members, "overview") == Some(JString(r.value.overview))
    ensures r.Ok? ==> Get(j.members, "itinerary_suggestions") == Some(JObject(r.value.itinerarySuggestions))
    ensures r.Ok? ==> Get(j.members, "tips_and_recommendations") == Some(JObject(r.value.tipsAndRecommendations))
    ensures r.Ok? ==> Get(j.members, "must_visit_attractions") == Some(JObject(r.value.mustVisitAttractions))
    ensures r.Ok? ==> Get(j.members, "activities_and_experiences") == Some(JObject(r.value.activitiesAndExperiences))
    ensures r.Ok? ==> ListField(j.members, [], "itinerary_example", ValidateDay) == Ok(r.value.itineraryExample)
    ensures r.Ok? ==> Get(j.members, "budget_breakdown") == Some(JObject(r.value.budgetBreakdown))
    ensures r.Ok? ==> ListField(j.members, [], "safety_tips", AsString) == Ok(r.value.safetyTips)
    ensures r.Ok? ==> Get(j.members, "conclusion") == Some(JString(r.value.conclusion))
  {
    if !j.JObject? then Err(WrongType([], ModelType("TravelGuideOutput")))
    else
      var ms := j.members;
      var overview :- StringField(ms, [], "overview");
      var suggestions :- DictField(ms, [], "itinerary_suggestions");
      var tips :- DictField(ms, [], "tips_and_recommendations");
      var attractions :- DictField(ms, [], "must_visit_attractions");
      var experiences :- DictField(ms, [], "activities_and_experiences");
      var example :- ListField(ms, [], "itinerary_example", ValidateDay);
      var budget :- DictField(ms, [], "budget_breakdown");
      var safety :- ListField(ms, [], "safety_tips", AsString);
      var conclusion :- StringField(ms, [], "conclusion");
      Ok(TravelGuideOutput(overview, suggestions, tips, attractions, experiences, example, budget,
                           safety, conclusion))
  }

  /** The request model. */
  function ValidateInput(j: Json): (r: Result<TravelGuideInput, SchemaError>)
    ensures !j.JObject? ==> r == Err(WrongType([], ModelType("TravelGuideInput")))
    ensures r.Ok? ==> j.JObject? && HasKeys(j.members, InputFields)
    ensures r.Ok? ==> ListField(j.members, [], "destinations", AsString) == Ok(r.value.destinations)
    ensures r.Ok? ==> Get(j.members, "travel_dates") == Some(JObject(r.value.travelDates))
    ensures r.Ok? ==> ListField(j.members, [], "interests", AsString) == Ok(r.value.interests)
    ensures r.Ok? ==> Get(j.members, "user_budget") == Some(JString(r.value.userBudget))
    ensures r.Ok? ==> Get(j.members, "number_of_travellers") == Some(JInt(r.value.numberOfTravellers))
  {
    if !j.JObject? then Err(WrongType([], ModelType("TravelGuideInput")))
    else
      var ms := j.members;
      var destinations :- ListField(ms, [], "destinations", AsString);
      var dates :- DictField(ms, [], "travel_dates");
      var interests :- ListField(ms, [], "interests", AsString);
      var budget :- StringField(ms, [], "user_budget");
      var travellers :- IntField(ms, [], "number_of_travellers");
      Ok(TravelGuideInput(destinations, dates, interests, budget, travellers))
  }

  // Encoders: the JSON object each record is written as.

  function UrlToJson(url: Option<string>): Json {
    match url
    case None => JNull
    case Some(u) => JString(u)
  }

  function ImageToJson(x: ImageSchema): Json {
    JObject([("image_title", JString(x.imageTitle)), ("image_url", UrlToJson(x.imageUrl)),
             ("image_description", JString(x.imageDescription))])
  }

  function ImagesToJson(xs: seq<ImageSchema>): (j: Json)
    ensures j.JArray? && |j.items| == |xs|
    ensures forall i :: 0 <= i < |xs| ==> j.items[i] == ImageToJson(xs[i])
  {
    JArray(seq(|xs|, i requires 0 <= i < |xs| => ImageToJson(xs[i])))
  }

  function DayEntries(x: DayItinerarySchema): Entries<Json> {
    [("day", JString(x.day)), ("location", JString(x.location)), ("date_time", JString(x.dateTime)),
     ("list_of_images", ImagesToJson(x.listOfImages)), ("activities", StringListToJson(x.activities)),
     ("accommodations", StringListToJson(x.accommodations)),
     ("included_meals", StringListToJson(x.includedMeals))]
  }

  function DayToJson(x: DayItinerarySchema): Json {
    JObject(DayEntries(x))
  }

  function DaysToJson(xs: seq<DayItinerarySchema>): (j: Json)
    ensures j.JArray? && |j.items| == |xs|
    ensures forall i :: 0 <= i < |xs| ==> j.items[i] == DayToJson(xs[i])
  {
    JArray(seq(|xs|, i requires 0 <= i < |xs| => DayToJson(xs[i])))
  }

  function OutputEntries(x: TravelGuideOutput): Entries<Json> {
    [("overview", JString(x.overview)), ("itinerary_suggestions", JObject(x.itinerarySuggestions)),
     ("tips_and_recommendations", JObject(x.tipsAndRecommendations)),
     ("must_visit_attractions", JObject(x.mustVisitAttractions)),
     ("activities_and_experiences", JObject(x.activitiesAndExperiences)),
     ("itinerary_example", DaysToJson(x.itineraryExample)), ("budget_breakdown", JObject(x.budgetBreakdown)),
     ("safety_tips", StringListToJson(x.safetyTips)), ("conclusion", JString(x.conclusion))]
  }

  function OutputToJson(x: TravelGuideOutput): Json {
    JObject(OutputEntries(x))
  }

  function InputEntries(x: TravelGuideInput): Entries<Json> {
    [("destinations", StringListToJson(x.destinations)), ("travel_dates", JObject(x.travelDates)),
     ("interests", StringListToJson(x.interests)), ("user_budget", JString(x.userBudget)),
     ("number_of_travellers", JInt(x.numberOfTravellers))]
  }

  function InputToJson(x: TravelGuideInput): Json {
    JObject(InputEntries(x))
  }

  // Round trips: every record is read back from the object it is written as.

  lemma ImageRoundTrip(x: ImageSchema, loc: Loc)
    ensures ValidateImage(ImageToJson(x), loc) == Ok(x)
  {
    var ms := ImageToJson(x).members;
    assert DistinctKeys(ms);
    GetEntry(ms, 0);
    GetEntry(ms, 1);
    GetEntry(ms, 2);
  }

  lemma ImagesRoundTrip(xs: seq<ImageSchema>, loc: Loc)
    ensures ListOf(ImagesToJson(xs), loc, ValidateImage) == Ok(xs)
  {
    var js := ImagesToJson(xs).items;
    forall i, l | 0 <= i < |js| ensures ValidateImage(js[i], l) == Ok(xs[i]) {
      ImageRoundTrip(xs[i], l);
    }
    ItemsOf(js, xs, loc, 0, ValidateImage);
  }

  /** Where each field of a written day is found. */
  lemma DayEntriesFound(x: DayItinerarySchema)
    ensures var ms := DayEntries(x);
      && Get(ms, "day") == Some(JString(x.day))
      && Get(ms, "location") == Some(JString(x.location))
      && Get(ms, "date_time") == Some(JString(x.dateTime))
      && Get(ms, "list_of_images") == Some(ImagesToJson(x.listOfImages))
      && Get(ms, "activities") == Some(StringListToJson(x.activities))
      && Get(ms, "accommodations") == Some(StringListToJson(x.accommodations))
      && Get(ms, "included_meals") == Some(StringListToJson(x.includedMeals))
  {
    var ms := DayEntries(x);
    DayEntriesDistinct(x);
    GetEntry(ms, 0);
    GetEntry(ms, 1);
    GetEntry(ms, 2);
    GetEntry(ms, 3);
    GetEntry(ms, 4);
    GetEntry(ms, 5);
    GetEntry(ms, 6);
  }

  lemma DayFieldsDistinct()
    ensures forall i, j :: 0 <= i < j < |DayFields| ==> DayFields[i] != DayFields[j]
  {
    var tags := [(3, 'd'), (8, 'l'), (9, 'd'), (14, 'l'), (10, 'a'), (14, 'a'), (14, 'i')];
    assert forall i :: 0 <= i < 7 ==> (|DayFields[i]|, DayFields[i][0]) == tags[i];
  }

  lemma DayEntriesDistinct(x: DayItinerarySchema)
    ensures DistinctKeys(DayEntries(x))
  {
    var ms := DayEntries(x);
    DayFieldsDistinct();
    assert forall i :: 0 <= i < |ms| ==> ms[i].0 == DayFields[i];
  }

  lemma DayRoundTrip(x: DayItinerarySchema, loc: Loc)
    ensures ValidateDay(DayToJson(x), loc) == Ok(x)
  {
    DayFieldsOf(x, loc);
  }

  /** Each field of a written day is read back. */
  lemma DayFieldsOf(x: DayItinerarySchema, loc: Loc)
    ensures var ms := DayEntries(x);
      && StringField(ms, loc, "day") == Ok(x.day)
      && StringField(ms, loc, "location") == Ok(x.location)
      && StringField(ms, loc, "date_time") == Ok(x.dateTime)
      && ListField(ms, loc, "list_of_images", ValidateImage) == Ok(x.listOfImages)
      && ListField(ms, loc, "activities", AsString) == Ok(x.activities)
      && ListField(ms, loc, "accommodations", AsString) == Ok(x.accommodations)
      && ListField(ms, loc, "included_meals", AsString) == Ok(x.includedMeals)
  {
    DayEntriesFound(x);
    ImagesRoundTrip(x.listOfImages, loc + [Key("list_of_images")]);
    StringListOf(x.activities, loc + [Key("activities")]);
    StringListOf(x.accommodations, loc + [Key("accommodations")]);
    StringListOf(x.includedMeals, loc + [Key("included_meals")]);
  }

  lemma DaysRoundTrip(xs: seq<DayItinerarySchema>, loc: Loc)
    ensures ListOf(DaysToJson(xs), loc, ValidateDay) == Ok(xs)
  {
    var js := DaysToJson(xs).items;
    forall i, l | 0 <= i < |js| ensures ValidateDay(js[i], l) == Ok(xs[i]) {
      DayRoundTrip(xs[i], l);
    }
    ItemsOf(js, xs, loc, 0, ValidateDay);
  }

  /** Where each field of a written response is found. */
  lemma OutputEntriesFound(x: TravelGuideOutput)
    ensures var ms := OutputEntries(x);
      && Get(ms, "overview") == Some(JString(x.overview))
      && Get(ms, "itinerary_suggestions") == Some(JObject(x.itinerarySuggestions))
      && Get(ms, "tips_and_recommendations") == Some(JObject(x.tipsAndRecommendations))
      && Get(ms, "must_visit_attractions") == Some(JObject(x.mustVisitAttractions))
      && Get(ms, "activities_and_experiences") == Some(JObject(x.activitiesAndExperiences))
      && Get(ms, "itinerary_example") == Some(DaysToJson(x.itineraryExample))
      && Get(ms, "budget_breakdown") == Some(JObject(x.budgetBreakdown))
      && Get(ms, "safety_tips") == Some(StringListToJson(x.safetyTips))
      && Get(ms, "conclusion") == Some(JString(x.conclusion))
  {
    var ms := OutputEntries(x);
    OutputEntriesDistinct(x);
    GetEntry(ms, 0);
    GetEntry(ms, 1);
    GetEntry(ms, 2);
    GetEntry(ms, 3);
    GetEntry(ms, 4);
    GetEntry(ms, 5);
    GetEntry(ms, 6);
    GetEntry(ms, 7);
    GetEntry(ms, 8);
  }

  lemma OutputFieldsDistinct()
    ensures forall i, j :: 0 <= i < j < |OutputFields| ==> OutputFields[i] != OutputFields[j]
  {
    var lengths := [8, 21, 24, 22, 26, 17, 16, 11, 10];
    assert forall i :: 0 <= i < 9 ==> |OutputFields[i]| == lengths[i];
  }

  lemma OutputEntriesDistinct(x: TravelGuideOutput)
    ensures DistinctKeys(OutputEntries(x))
  {
    var ms := OutputEntries(x);
    OutputEntriesKeys(x);
    OutputFieldsDistinct();
    assert forall i :: 0 <= i < |ms| ==> ms[i].0 == OutputFields[i];
  }

  /** A written response holds exactly the declared fields, in order. */
  lemma OutputEntriesKeys(x: TravelGuideOutput)
    ensures Keys(OutputEntries(x)) == OutputFields
  {
    var ks := Keys(OutputEntries(x));
    assert forall i :: 0 <= i < |OutputFields| ==> ks[i] == OutputFields[i];
  }

  /** The response round-trips whatever its `dict` fields hold. */
  lemma OutputRoundTrip(x: TravelGuideOutput)
    ensures ValidateOutput(OutputToJson(x)) == Ok(x)
  {
    OutputFieldsValid(x);
    OutputListsValid(x);
  }

  /** Each field of the encoded response reads back as the field it was
      written from. */
  lemma OutputFieldsValid(x: TravelGuideOutput)
    ensures var ms := OutputEntries(x);
      && StringField(ms, [], "overview") == Ok(x.overview)
      && DictField(ms, [], "itinerary_suggestions") == Ok(x.itinerarySuggestions)
      && DictField(ms, [], "tips_and_recommendations") == Ok(x.tipsAndRecommendations)
      && DictField(ms, [], "must_visit_attractions") == Ok(x.mustVisitAttractions)
      && DictField(ms, [], "activities_and_experiences") == Ok(x.activitiesAndExperiences)
      && DictField(ms, [], "budget_breakdown") == Ok(x.budgetBreakdown)
      && StringField(ms, [], "conclusion") == Ok(x.conclusion)
  {
    OutputEntriesFound(x);
  }

  /** The two list fields of the encoded response read back likewise. */
  lemma OutputListsValid(x: TravelGuideOutput)
    ensures var ms := OutputEntries(x);
      && ListField(ms, [], "itinerary_example", ValidateDay) == Ok(x.itineraryExample)
      && ListField(ms, [], "safety_tips", AsString) == Ok(x.safetyTips)
  {
    OutputEntriesFound(x);
    DaysRoundTrip(x.itineraryExample, [] + [Key("itinerary_example")]);
    StringListOf(x.safetyTips, [] + [Key("safety_tips")]);
  }

  /** Where each field of a written request is found. */
  lemma InputEntriesFound(x: TravelGuideInput)
    ensures var ms := InputEntries(x);
      && Get(ms, "destinations") == Some(StringListToJson(x.destinations))
      && Get(ms, "travel_dates") == Some(JObject(x.travelDates))
      && Get(ms, "interests") == Some(StringListToJson(x.interests))
      && Get(ms, "user_budget") == Some(JString(x.userBudget))
      && Get(ms, "number_of_travellers") == Some(JInt(x.numberOfTravellers))
  {
    var ms := InputEntries(x);
    assert DistinctKeys(ms);
    GetEntry(ms, 0);
    GetEntry(ms, 1);
    GetEntry(ms, 2);
    GetEntry(ms, 3);
    GetEntry(ms, 4);
  }

  lemma InputRoundTrip(x: TravelGuideInput)
    ensures ValidateInput(InputToJson(x)) == Ok(x)
  {
    var ms := InputEntries(x);
    InputEntriesFound(x);
    StringListOf(x.destinations, [] + [Key("destinations")]);
    StringListOf(x.interests, [] + [Key("interests")]);
    assert ListField(ms, [], "destinations", AsString) == Ok(x.destinations);
    assert DictField(ms, [], "travel_dates") == Ok(x.travelDates);
    assert ListField(ms, [], "interests", AsString) == Ok(x.interests);
    assert StringField(ms, [], "user_budget") == Ok(x.userBudget);
    assert IntField(ms, [], "number_of_travellers") == Ok(x.numberOfTravellers);
  }

  // Required fields: a record is only read from an object holding every
  // field that has no default.

  lemma DayRequiresFields(j: Json, loc: Loc)
    requires ValidateDay(j, loc).Ok?
    ensures HasKeys(j.members, DayFields)
  {
    var ms := j.members;
    DayFieldsRead(j, loc);
  }

  lemma DayFieldsRead(j: Json, loc: Loc)
    requires ValidateDay(j, loc).Ok?
    ensures var ms := j.members;
      && StringField(ms, loc, "day").Ok? && StringField(ms, loc, "location").Ok?
      && StringField(ms, loc, "date_time").Ok?
      && ListField(ms, loc, "list_of_images", ValidateImage).Ok?
      && ListField(ms, loc, "activities", AsString).Ok?
      && ListField(ms, loc, "accommodations", AsString).Ok?
      && ListField(ms, loc, "included_meals", AsString).Ok?
  {
  }

  lemma OutputRequiresFields(j: Json)
    requires ValidateOutput(j).Ok?
    ensures HasKeys(j.members, OutputFields)
  {
    var ms := j.members;
    assert ListField(ms, [], "itinerary_example", ValidateDay).Ok?;
    assert ListField(ms, [], "safety_tips", AsString).Ok?;
    OutputKeysListed(ms);
  }

  /** The nine field names, one by one, make up `OutputFields`. */
  lemma OutputKeysListed(ms: Entries<Json>)
    requires HasKey(ms, "overview") && HasKey(ms, "itinerary_suggestions")
    requires HasKey(ms, "tips_and_recommendations") && HasKey(ms, "must_visit_attractions")
    requires HasKey(ms, "activities_and_experiences") && HasKey(ms, "itinerary_example")
    requires HasKey(ms, "budget_breakdown") && HasKey(ms, "safety_tips") && HasKey(ms, "conclusion")
    ensures HasKeys(ms, OutputFields)
  {
  }

  /** `image_url` may be left out (it reads as `""`) or be `null` (no URL). */
  lemma ImageUrlDefault(title: string, description: string, loc: Loc)
    ensures ValidateImage(JObject([("image_title", JString(title)), ("image_description", JString(description))]), loc)
         == Ok(ImageSchema(title, Some(""), description))
    ensures ValidateImage(JObject([("image_title", JString(title)), ("image_url", JNull),
                                   ("image_description", JString(description))]), loc)
         == Ok(ImageSchema(title, None, description))
  {
    var ms := [("image_title", JString(title)), ("image_description", JString(description))];
    assert DistinctKeys(ms);
    GetEntry(ms, 0);
    GetEntry(ms, 1);
    assert !HasKey(ms, "image_url");
    var ns := [("image_title", JString(title)), ("image_url", JNull), ("image_description", JString(description))];
    assert DistinctKeys(ns);
    GetEntry(ns, 0);
    GetEntry(ns, 1);
    GetEntry(ns, 2);
  }

  // Undeclared keys are ignored: only the values under the declared fields
  // decide the outcome.

  lemma ImageIgnoresOtherKeys(ms: Entries<Json>, ms': Entries<Json>, loc: Loc)
    requires AgreeOn(ms, ms', ImageFields)
    ensures ValidateImage(JObject(ms), loc) == ValidateImage(JObject(ms'), loc)
  {
    FieldsAgree(ms, ms', loc, ImageFields[0]);
    assert Get(ms, ImageFields[1]) == Get(ms', ImageFields[1]);
    FieldsAgree(ms, ms', loc, ImageFields[2]);
  }

  lemma DayIgnoresOtherKeys(ms: Entries<Json>, ms': Entries<Json>, loc: Loc)
    requires AgreeOn(ms, ms', DayFields)
    ensures ValidateDay(JObject(ms), loc) == ValidateDay(JObject(ms'), loc)
  {
    FieldsAgree(ms, ms', loc, DayFields[0]);
    FieldsAgree(ms, ms', loc, DayFields[1]);
    FieldsAgree(ms, ms', loc, DayFields[2]);
    ListFieldsAgree(ms, ms', loc, DayFields[3], ValidateImage);
    ListFieldsAgree(ms, ms', loc, DayFields[4], AsString);
    ListFieldsAgree(ms, ms', loc, DayFields[5], AsString);
    ListFieldsAgree(ms, ms', loc, DayFields[6], AsString);
  }

  lemma OutputIgnoresOtherKeys(ms: Entries<Json>, ms': Entries<Json>)
    requires AgreeOn(ms, ms', OutputFields)
    ensures ValidateOutput(JObject(ms)) == ValidateOutput(JObject(ms'))
  {
    FieldsAgree(ms, ms', [], OutputFields[0]);
    FieldsAgree(ms, ms', [], OutputFields[1]);
    FieldsAgree(ms, ms', [], OutputFields[2]);
    FieldsAgree(ms, ms', [], OutputFields[3]);
    FieldsAgree(ms, ms', [], OutputFields[4]);
    ListFieldsAgree(ms, ms', [], OutputFields[5], ValidateDay);
    FieldsAgree(ms, ms', [], OutputFields[6]);
    ListFieldsAgree(ms, ms', [], OutputFields[7], AsString);
    FieldsAgree(ms, ms', [], OutputFields[8]);
  }

  lemma InputIgnoresOtherKeys(ms: Entries<Json>, ms': Entries<Json>)
    requires AgreeOn(ms, ms', InputFields)
    ensures ValidateInput(JObject(ms)) == ValidateInput(JObject(ms'))
  {
    ListFieldsAgree(ms, ms', [], InputFields[0], AsString);
    FieldsAgree(ms, ms', [], InputFields[1]);
    ListFieldsAgree(ms, ms', [], InputFields[2], AsString);
    FieldsAgree(ms, ms', [], InputFields[3]);
    FieldsAgree(ms, ms', [], InputFields[4]);
  }
}
