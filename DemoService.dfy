/** The demonstration script's planning step: the budget is classified into
    a tier, the tier's row of the tier table is rendered as a description,
    and the eight prompt variables are assembled. Its record types describe
    the guide it asks for. */
module DemoService {
  import opened Wrappers
  import opened Text
  import opened Dicts

  // ---------------------------------------------------------------------
  // Records.

  /** A calendar date. */
  datatype Date = Date(year: int, month: int, day: int)

  /** The query: destinations and interests are free text, the budget a
      number of dollars. */
  datatype TravelQuery = TravelQuery(
    destinations: string,
    startDate: Date,
    endDate: Date,
    interests: string,
    userBudget: real,
    numberOfTravellers: int)

  datatype ImageItem = ImageItem(imageTitle: string, imageUrl: string, imageDescription: string)

  datatype AccommodationItem = AccommodationItem(
    name: string,
    location: string,
    amenities: seq<string>,
    kind: string,
    description: string,
    pricePerNight: real)

  datatype MustVisitAttractionItem = MustVisitAttractionItem(location: string, activities: seq<string>)

  datatype ItineraryDay = ItineraryDay(
    day: string,
    location: string,
    dateTime: string,
    listOfImages: seq<ImageItem>,
    activities: seq<string>,
    activitiesAndExperiences: Entries<seq<string>>,
    accommodations: seq<AccommodationItem>,
    includes: seq<string>,
    excludes: seq<string>)

  datatype TravelGuideResponse = TravelGuideResponse(
    overview: string,
    tipsAndRecommendations: Entries<string>,
    mustVisitAttractions: Entries<seq<MustVisitAttractionItem>>,
    itinerary: seq<ItineraryDay>,
    budgetBreakdown: Entries<Entries<string>>,
    safetyTips: seq<string>,
    conclusion: string)

  // ---------------------------------------------------------------------
  // Budget tiers.

  datatype Tier = Budget | Comfort | Luxury {
    /** The tier's name, the key of its row in the tier table. */
    function Name(): string {
      match this
      case Budget => "Budget"
      case Comfort => "Comfort"
      case Luxury => "Luxury"
    }

    /** The tier's place in the order Budget < Comfort < Luxury. */
    function Rank(): nat {
      match this
      case Budget => 0
      case Comfort => 1
      case Luxury => 2
    }
  }

  const MinimumBudget: real := 1000.0
  const BelowMinimumMessage: string := "Budget must be at least $1000"

  /** `get_budget_tier`: the tier of a budget of at least $1000, which
      includes $2000 in Budget and $4000 in Comfort. */
  function GetBudgetTier(userBudget: real): (r: Result<Tier, string>)
    ensures r.Ok? <==> userBudget >= MinimumBudget
    ensures r.Err? ==> r.error == BelowMinimumMessage
    ensures r == Ok(Budget) <==> 1000.0 <= userBudget <= 2000.0
    ensures r == Ok(Comfort) <==> 2000.0 < userBudget <= 4000.0
    ensures r == Ok(Luxury) <==> userBudget > 4000.0
  {
    if 1000.0 <= userBudget <= 2000.0 then Ok(Budget)
    else if 2000.0 < userBudget <= 4000.0 then Ok(Comfort)
    else if userBudget > 4000.0 then Ok(Luxury)
    else Err(BelowMinimumMessage)
  }

  /** The thresholds above which a budget moves up one tier. */
  const TierThresholds: seq<real> := [2000.0, 4000.0]

  /** How many of `thresholds` the budget exceeds. */
  function CountExceeded(b: real, thresholds: seq<real>): (n: nat)
    ensures n <= |thresholds|
  {
    if thresholds == [] then 0
    else (if b > thresholds[0] then 1 else 0) + CountExceeded(b, thresholds[1..])
  }

  /** The tier of an accepted budget is the number of thresholds it
      exceeds. */
  lemma TierCountsThresholds(userBudget: real)
    requires userBudget >= MinimumBudget
    ensures GetBudgetTier(userBudget).Ok?
    ensures GetBudgetTier(userBudget).value.Rank() == CountExceeded(userBudget, TierThresholds)
  {
    assert TierThresholds[1..] == [4000.0];
    assert TierThresholds[1..][1..] == [];
  }

  /** A larger budget never gives a lower tier. */
  lemma TierMonotone(a: real, b: real)
    requires MinimumBudget <= a <= b
    ensures GetBudgetTier(a).Ok? && GetBudgetTier(b).Ok?
    ensures GetBudgetTier(a).value.Rank() <= GetBudgetTier(b).value.Rank()
  {
    TierCountsThresholds(a);
    TierCountsThresholds(b);
    ExceededMonotone(a, b, TierThresholds);
  }

  lemma {:induction false} ExceededMonotone(a: real, b: real, thresholds: seq<real>)
    requires a <= b
    ensures CountExceeded(a, thresholds) <= CountExceeded(b, thresholds)
    decreases |thresholds|
  {
    if thresholds != [] {
      ExceededMonotone(a, b, thresholds[1..]);
    }
  }

  /** The three tiers' budget ranges do not overlap and together cover every
      budget of at least $1000. */
  lemma TierRangesPartition(userBudget: real)
    ensures userBudget >= MinimumBudget <==>
      || (1000.0 <= userBudget <= 2000.0)
      || (2000.0 < userBudget <= 4000.0)
      || (userBudget > 4000.0)
    ensures !(userBudget <= 2000.0 && 2000.0 < userBudget)
    ensures !(userBudget <= 4000.0 && userBudget > 4000.0)
    ensures GetBudgetTier(userBudget).Ok? ==>
      forall t: Tier :: t != GetBudgetTier(userBudget).value ==> GetBudgetTier(userBudget) != Ok(t)
  {
  }

  /** The row names of the tier table, in the order each row lists them. */
  const DetailKeys: seq<string> := ["range", "accommodations", "tours", "transportation", "meals", "extras"]

  /** The details of each tier, in `DetailKeys` order, copied as written
      (the Budget range reads "$500 - $2000"). */
  const BudgetDetails: seq<string> :=
    ["$500 - $2000", "3-star accommodations", "Group tours", "Local transportation",
     "Basic meals included", "Guided city tours"]
  const ComfortDetails: seq<string> :=
    ["$2000 - $4000", "4-star accommodations", "Private tours", "Private transportation",
     "Premium meals included", "Professional photography session"]
  const LuxuryDetails: seq<string> :=
    ["$4000+", "5-star luxury resorts", "VIP experiences", "Luxury vehicle transfers",
     "Gourmet dining", "Personal concierge service"]

  /** One row of the table: each detail name with its value. */
  function Row(values: seq<string>): (row: Entries<string>)
    requires |values| == |DetailKeys|
    ensures Keys(row) == DetailKeys
    ensures forall j :: 0 <= j < |row| ==> row[j].1 == values[j]
  {
    var row := seq(6, j requires 0 <= j < 6 => (DetailKeys[j], values[j]));
    assert Keys(row) == DetailKeys;
    row
  }

  /** `budget_tiers`: a row per tier name. */
  const BudgetTiers: Entries<Entries<string>> :=
    [("Budget", Row(BudgetDetails)), ("Comfort", Row(ComfortDetails)), ("Luxury", Row(LuxuryDetails))]

  /** The index of a tier's row in the table. */
  function RowIndex(t: Tier): (i: nat)
    ensures i < |BudgetTiers| && BudgetTiers[i].0 == t.Name()
  {
    t.Rank()
  }

  /** Every tier names a row of the table, so `budget_tiers[tier]` finds
      that row, and every row lists the six details in the same order. */
  lemma TierRowFound(t: Tier)
    ensures Get(BudgetTiers, t.Name()) == Some(BudgetTiers[RowIndex(t)].1)
    ensures Keys(BudgetTiers[RowIndex(t)].1) == DetailKeys
  {
    TierNamesDistinct();
    GetEntry(BudgetTiers, RowIndex(t));
    RowKeys(RowIndex(t));
  }

  lemma RowKeys(i: nat)
    requires i < |BudgetTiers|
    ensures Keys(BudgetTiers[i].1) == DetailKeys
  {
  }

  lemma TierNamesDistinct()
    ensures DistinctKeys(BudgetTiers)
  {
    assert |BudgetTiers[0].0| == 6 && |BudgetTiers[1].0| == 7 && |BudgetTiers[2].0| == 6;
    assert BudgetTiers[0].0[0] != BudgetTiers[2].0[0];
  }

  /** `budget_tiers[tier]`. */
  function TierDetails(t: Tier): (row: Entries<string>)
    ensures Get(BudgetTiers, t.Name()) == Some(row)
    ensures Keys(row) == DetailKeys
  {
    TierRowFound(t);
    Get(BudgetTiers, t.Name()).value
  }

  const DescriptionSeparator: string := ", "

  /** The `"key: value"` rendering of each entry of a row. */
  function DetailPieces(row: Entries<string>): (pieces: seq<string>)
    ensures |pieces| == |row|
    ensures forall i :: 0 <= i < |row| ==> pieces[i] == row[i].0 + ": " + row[i].1
  {
    seq(|row|, i requires 0 <= i < |row| => row[i].0 + ": " + row[i].1)
  }

  /** `budget_description`: the tier's details joined by ", ". */
  function BudgetDescription(t: Tier): string {
    Join(DetailPieces(TierDetails(t)), DescriptionSeparator)
  }

  /** No key or value of a row contains a comma. */
  predicate CommaFree(row: Entries<string>) {
    forall i :: 0 <= i < |row| ==> ',' !in row[i].0 && ',' !in row[i].1
  }

  lemma DetailKeysCommaFree()
    ensures forall j :: 0 <= j < |DetailKeys| ==> ',' !in DetailKeys[j]
  {
    assert ',' !in DetailKeys[0] && ',' !in DetailKeys[1] && ',' !in DetailKeys[2];
    assert ',' !in DetailKeys[3] && ',' !in DetailKeys[4] && ',' !in DetailKeys[5];
  }

  lemma BudgetDetailsCommaFree()
    ensures forall j :: 0 <= j < |BudgetDetails| ==> ',' !in BudgetDetails[j]
  {
    BudgetHeadCommaFree();
    BudgetTailCommaFree();
  }

  lemma BudgetHeadCommaFree()
    ensures ',' !in BudgetDetails[0] && ',' !in BudgetDetails[1] && ',' !in BudgetDetails[2]
  {
    assert ',' !in BudgetDetails[0];
    assert ',' !in BudgetDetails[1];
    assert ',' !in BudgetDetails[2];
  }

  lemma BudgetTailCommaFree()
    ensures ',' !in BudgetDetails[3] && ',' !in BudgetDetails[4] && ',' !in BudgetDetails[5]
  {
    assert ',' !in BudgetDetails[3];
    assert ',' !in BudgetDetails[4];
    assert ',' !in BudgetDetails[5];
  }

  lemma ComfortDetailsCommaFree()
    ensures forall j :: 0 <= j < |ComfortDetails| ==> ',' !in ComfortDetails[j]
  {
    ComfortHeadCommaFree();
    ComfortTailCommaFree();
  }

  lemma ComfortHeadCommaFree()
    ensures ',' !in ComfortDetails[0] && ',' !in ComfortDetails[1] && ',' !in ComfortDetails[2]
  {
    assert ',' !in ComfortDetails[0];
    assert ',' !in ComfortDetails[1];
    assert ',' !in ComfortDetails[2];
  }

  lemma ComfortTailCommaFree()
    ensures ',' !in ComfortDetails[3] && ',' !in ComfortDetails[4] && ',' !in ComfortDetails[5]
  {
    assert ',' !in ComfortDetails[3];
    assert ',' !in ComfortDetails[4];
    assert ',' !in ComfortDetails[5];
  }

  lemma LuxuryDetailsCommaFree()
    ensures forall j :: 0 <= j < |LuxuryDetails| ==> ',' !in LuxuryDetails[j]
  {
    LuxuryHeadCommaFree();
    LuxuryTailCommaFree();
  }

  lemma LuxuryHeadCommaFree()
    ensures ',' !in LuxuryDetails[0] && ',' !in LuxuryDetails[1] && ',' !in LuxuryDetails[2]
  {
    assert ',' !in LuxuryDetails[0];
    assert ',' !in LuxuryDetails[1];
    assert ',' !in LuxuryDetails[2];
  }

  lemma LuxuryTailCommaFree()
    ensures ',' !in LuxuryDetails[3] && ',' !in LuxuryDetails[4] && ',' !in LuxuryDetails[5]
  {
    assert ',' !in LuxuryDetails[3];
    assert ',' !in LuxuryDetails[4];
    assert ',' !in LuxuryDetails[5];
  }

  /** A row built from comma-free values is free of commas. */
  lemma RowOfCommaFree(values: seq<string>)
    requires |values| == |DetailKeys|
    requires forall j :: 0 <= j < |values| ==> ',' !in values[j]
    ensures CommaFree(Row(values))
  {
    var row := Row(values);
    DetailKeysCommaFree();
    forall j | 0 <= j < |row| ensures ',' !in row[j].0 && ',' !in row[j].1 {
      assert row[j].0 == Keys(row)[j];
    }
  }

  /** Every row of the table is free of commas. */
  lemma RowCommaFree(i: nat)
    requires i < |BudgetTiers|
    ensures CommaFree(BudgetTiers[i].1)
  {
    if i == 0 {
      BudgetDetailsCommaFree();
      RowOfCommaFree(BudgetDetails);
    } else if i == 1 {
      ComfortDetailsCommaFree();
      RowOfCommaFree(ComfortDetails);
    } else {
      LuxuryDetailsCommaFree();
      RowOfCommaFree(LuxuryDetails);
    }
  }

  /** No rendered detail of any tier contains a comma. */
  lemma DetailsCommaFree(t: Tier)
    ensures forall i :: 0 <= i < |TierDetails(t)| ==> ',' !in DetailPieces(TierDetails(t))[i]
  {
    var row := TierDetails(t);
    TierRowFound(t);
    RowCommaFree(RowIndex(t));
    forall i | 0 <= i < |row| ensures ',' !in DetailPieces(row)[i] {
      CommaFreeEntry(row[i].0, row[i].1);
    }
  }

  lemma CommaFreeEntry(k: string, v: string)
    requires ',' !in k && ',' !in v
    ensures ',' !in k + ": " + v
  {
  }

  /** Splitting the description at ", " gives back the six `"key: value"`
      pieces, in table order. */
  lemma DescriptionPieces(t: Tier)
    ensures Split(BudgetDescription(t), DescriptionSeparator) == DetailPieces(TierDetails(t))
    ensures |DetailPieces(TierDetails(t))| == |DetailKeys|
    ensures forall i :: 0 <= i < |DetailKeys| ==>
      DetailPieces(TierDetails(t))[i] == DetailKeys[i] + ": " + TierDetails(t)[i].1
  {
    DetailsCommaFree(t);
    SplitJoin(DetailPieces(TierDetails(t)), DescriptionSeparator);
  }

  // ---------------------------------------------------------------------
  // The prompt variables.

  /** A value handed to the prompt. A date is handed over as
      `date.isoformat()`, which is not modelled here. */
  datatype PromptValue = Text(s: string) | Number(r: real) | Count(n: int) | IsoDate(d: Date)

  /** The template's declared `input_variables`, in declared order. */
  const InputVariables: seq<string> :=
    ["destinations", "start_date", "end_date", "interests", "user_budget", "number_of_travellers",
     "budget_tier", "budget_description"]

  /** The dictionary handed to the chain: the query's fields, the tier's
      name and its description. A budget below the minimum stops the script
      before anything is assembled. */
  function InvokeArguments(q: TravelQuery): (r: Result<Entries<PromptValue>, string>)
    ensures r.Ok? <==> q.userBudget >= MinimumBudget
    ensures r.Err? ==> r.error == BelowMinimumMessage
    ensures r.Ok? ==> Keys(r.value) == InputVariables && DistinctKeys(r.value)
    ensures r.Ok? ==>
      && Get(r.value, "destinations") == Some(Text(q.destinations))
      && Get(r.value, "start_date") == Some(IsoDate(q.startDate))
      && Get(r.value, "end_date") == Some(IsoDate(q.endDate))
      && Get(r.value, "interests") == Some(Text(q.interests))
      && Get(r.value, "user_budget") == Some(Number(q.userBudget))
      && Get(r.value, "number_of_travellers") == Some(Count(q.numberOfTravellers))
    ensures r.Ok? ==>
      && Get(r.value, "budget_tier") == Some(Text(GetBudgetTier(q.userBudget).value.Name()))
      && Get(r.value, "budget_description") == Some(Text(BudgetDescription(GetBudgetTier(q.userBudget).value)))
  {
    var tier :- GetBudgetTier(q.userBudget);
    Ok(Arguments(q, tier))
  }

  /** The eight entries, one per declared variable, in declared order. */
  function Arguments(q: TravelQuery, tier: Tier): (args: Entries<PromptValue>)
    ensures Keys(args) == InputVariables && DistinctKeys(args)
    ensures Get(args, "destinations") == Some(Text(q.destinations))
    ensures Get(args, "start_date") == Some(IsoDate(q.startDate))
    ensures Get(args, "end_date") == Some(IsoDate(q.endDate))
    ensures Get(args, "interests") == Some(Text(q.interests))
    ensures Get(args, "number_of_travellers") == Some(Count(q.numberOfTravellers))
    ensures Get(args, "budget_tier") == Some(Text(tier.Name()))
    ensures Get(args, "budget_description") == Some(Text(BudgetDescription(tier)))
    ensures Get(args, "user_budget") == Some(Number(q.userBudget))
  {
    var values := [Text(q.destinations), IsoDate(q.startDate), IsoDate(q.endDate), Text(q.interests),
                   Number(q.userBudget), Count(q.numberOfTravellers), Text(tier.Name()),
                   Text(BudgetDescription(tier))];
    var args := Pair(values);
    PairFound(values);
    assert InputVariables[0] == "destinations";
    assert InputVariables[1] == "start_date";
    assert InputVariables[2] == "end_date";
    assert InputVariables[3] == "interests";
    assert InputVariables[4] == "user_budget";
    assert InputVariables[5] == "number_of_travellers";
    assert InputVariables[6] == "budget_tier";
    assert InputVariables[7] == "budget_description";
    args
  }

  /** The declared variables paired, in order, with `values`. */
  function Pair(values: seq<PromptValue>): (args: Entries<PromptValue>)
    requires |values| == |InputVariables|
    ensures Keys(args) == InputVariables && DistinctKeys(args)
  {
    var args := seq(8, i requires 0 <= i < 8 => (InputVariables[i], values[i]));
    assert Keys(args) == InputVariables;
    VariablesDistinct();
    args
  }

  lemma PairFound(values: seq<PromptValue>)
    requires |values| == |InputVariables|
    ensures forall i :: 0 <= i < |values| ==> Get(Pair(values), InputVariables[i]) == Some(values[i])
  {
    var args := Pair(values);
    forall i | 0 <= i < |values| ensures Get(args, InputVariables[i]) == Some(values[i]) {
      GetEntry(args, i);
    }
  }

  lemma VariablesDistinct()
    ensures forall i, j :: 0 <= i < j < |InputVariables| ==> InputVariables[i] != InputVariables[j]
  {
    var lengths := [12, 10, 8, 9, 11, 20, 11, 18];
    assert forall i :: 0 <= i < 8 ==> |InputVariables[i]| == lengths[i];
    assert InputVariables[4][0] != InputVariables[6][0];
  }

  /** The tier handed to the prompt is the budget's tier, and the
      description is that tier's row. */
  lemma ArgumentsDescribeTier(q: TravelQuery)
    requires q.userBudget >= MinimumBudget
    ensures var r := InvokeArguments(q);
      && r.Ok?
      && Get(r.value, "budget_tier") == Some(Text(GetBudgetTier(q.userBudget).value.Name()))
      && Get(r.value, "budget_description") == Some(Text(BudgetDescription(GetBudgetTier(q.userBudget).value)))
  {
  }
}
