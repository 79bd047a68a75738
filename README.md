# AI-Powered Travel Planner — a verified model of its planning core

The travel planner asks a language model for a travel guide and hands the
answer back as a dictionary. This project models, in Dafny, the parts of the
planner that do not depend on the model itself:

- **The guide service** (`app/services.py`, `generate_travel_guide`). It builds
  the prompt arguments: the destination and interest lists are joined with
  `", "`, and the two dates are looked up in `travel_dates`. It then
  reconciles the model's reply text into a dictionary: the text is stripped,
  decoded by `json.loads` when it starts with `{`, and otherwise refused with
  a `ValueError`. The language model is a parameter, a function from the
  prompt arguments to the reply text.
- **`json.loads`**, which the service calls. It is modelled as a
  recursive-descent decoder in the shape of CPython's scanner (module
  `JsonDecode`). It accepts the RFC 8259 grammar plus the bare words `NaN`,
  `Infinity` and `-Infinity`, and it folds repeated keys the way a `dict`
  does. A compact encoder (module `JsonEncode`) is its partner: decoding
  the encoder's text gives the value back.
- **The demonstration script** (`app/demo-service.py`). It classifies a dollar
  budget into the Budget, Comfort or Luxury tier and renders that tier's row
  of the `budget_tiers` table as a `"key: value, ..."` description. It also
  assembles the eight prompt variables, and declares the record types of the
  guide it asks for.
- **The request and response models** (`app/models.py`). `ImageSchema`,
  `DayItinerarySchema`, `TravelGuideOutput` and `TravelGuideInput` become
  datatypes. Each has a strict validator from decoded JSON and an encoder
  back to JSON.

All three source files are side-effect-free sequential code. The model is
therefore functions, datatypes and lemmas, with no classes or loops.

Modules, in dependency order:

- `Wrappers`: `Option` and `Result`.
- `Text`: `str.strip`, `str.startswith`, `", ".join`, `str.split`, and digits.
- `Seqs`: small concatenation facts.
- `Dicts`: dictionaries as entry lists with distinct keys, with lookup and
  insertion.
- `Json`: the values `json.loads` returns.
- `JsonDecode`: the decoder.
- `JsonEncode`: the encoder and the round trip.
- `Schema`: strict field checks.
- `Models`: the service's records.
- `GuideService`: the service's arguments and the reconciliation.
- `DemoService`: budget tiers, descriptions and the prompt variables.

Where an outcome is an exception, the model returns an error value. It
carries the Python exception class (`ValueError`, `KeyError`, `TypeError`)
and the text `str()` of that exception gives.

## Model

| member | source | states |
|---|---|---|
| Text.Strip | app/services.py:132 | the result has no leading or trailing white space (Python's `str.isspace` set) and is the input with only white space removed at either end |
| Text.StripPadded | app/services.py:132 | stripping white space from around an already trimmed text gives that text |
| Text.StripIdempotent | app/services.py:132 | stripping twice is stripping once |
| Text.Join | app/services.py:123 | joining no items gives `""`; joining one item gives that item |
| Text.JoinSnoc | app/services.py:126 | joining a list with one more item appends the separator and that item, so order is kept |
| Text.Find | app/services.py:123 | the first occurrence of the separator, or none when it occurs nowhere. Find and `Split` are not in the source; they exist to show that the `", ".join` there can be undone (`SplitJoin`, `DestinationsRecoverable`) |
| Text.SplitJoin | app/services.py:123 | splitting a joined list at the separator gives the list back, when no item contains the separator's first character |
| GuideService.PlaceholdersDistinct | app/services.py:26-30 | the six placeholders of the question template are pairwise distinct |
| GuideService.InvokeArguments | app/services.py:122-129 | the arguments exist exactly when `travel_dates` holds both dates. A missing `start_date` is a `KeyError` for it, checked before `end_date`. The keys are the six placeholders, distinct and in order. The dates are copied from `travel_dates`, and destinations and interests are joined with `", "` |
| GuideService.Arguments | app/services.py:122-129 | every placeholder maps to the argument the service passes for it |
| GuideService.DestinationsRecoverable | app/services.py:123 | the rendered destinations split at `", "` give back the destination list when no name contains a comma |
| GuideService.Unwrap | app/services.py:141-142 | a reply that is not JSON is an `InvalidJson` error; a decoded value that is not a dictionary is the `TypeError` of subscripting it; a missing `output` key is `KeyError('output')`; a non-string under `output` is the `TypeError` of `json.loads`; a string there is decoded in turn, and every value returned is a well-formed dictionary tree |
| GuideService.EnvelopeIsObjectText | app/services.py:137-139 | every text starting with `{"output":` starts with `{` |
| GuideService.ReconcileIgnoresPadding | app/services.py:132 | the outcome depends only on the stripped reply |
| GuideService.ReconcileOutcomes | app/services.py:132-146 | a stripped reply starting with `{` gives exactly what `json.loads` makes of it, and any other reply gives the not-an-object error. Every error is a `ValueError`, and the unwrapping branch is never taken |
| GuideService.ReconcileAcceptsOnlyObjects | app/services.py:137-138 | every accepted reply started with `{`, is the decoder's value of the stripped text, and is a dictionary |
| GuideService.ReconcileMessages | app/services.py:143-146 | an error's message is either `Invalid JSON format: Output does not start with '{'` or `Invalid JSON output: ` followed by the decoder's message |
| GuideService.BlankReplyRefused | app/services.py:143-144 | an empty or all-white-space reply is refused as not an object |
| GuideService.StripWritten | app/services.py:132 | stripping leaves an encoded object, with white space around it, as just the encoded object |
| GuideService.ReconcileReadsText | app/services.py:137-138 | the encoded text of any dictionary is reconciled to that dictionary |
| GuideService.ReconcileReadsObject | app/services.py:132-138 | the same holds with any white space around the text |
| GuideService.Envelope | app/services.py:139-142 | the wrapped reply is a well-formed dictionary whose only key is `output`, holding a string |
| GuideService.EnvelopeText | app/services.py:139 | the encoded envelope is the prefix `{"output":`, the quoted inner text, and `}` |
| GuideService.EnvelopeStarts | app/services.py:139 | the encoded envelope starts with the envelope prefix |
| GuideService.ReconcileKeepsEnvelope | app/services.py:137-142 | as written, a wrapped reply comes back as the envelope itself, not as the value inside it |
| GuideService.ReconcileKeepsEmptyEnvelope | app/services.py:137-142 | `{"output":"{}"}` comes back as the envelope, not as `{}` |
| GuideService.ReconcileUnwrapping | app/services.py:136-144 | every value the corrected reconciliation returns is a well-formed dictionary tree; its outcomes are stated by `UnwrappingOutcomes`, `UnwrapsEnvelope` and `UnwrappingAgreesOffEnvelope` |
| GuideService.UnwrappingOutcomes | app/services.py:136-144 | the corrected reconciliation unwraps a reply starting with `{"output":` and otherwise returns what the written one returns |
| GuideService.UnwrapsEnvelope | app/services.py:139-142 | the corrected reconciliation returns the value inside a wrapped reply, with any white space around it |
| GuideService.UnwrapEnvelopeText | app/services.py:141-142 | unwrapping the encoded envelope of a value gives the value |
| GuideService.UnwrapDecoded | app/services.py:141-142 | unwrapping decodes the text found under `output` |
| GuideService.UnwrappingAgreesOffEnvelope | app/services.py:137-144 | on every reply that is not wrapped, the corrected and the written reconciliation agree |
| GuideService.ObjectNotEnvelope | app/services.py:139 | an object whose first key is `overview` is never encoded with the envelope prefix |
| GuideService.GuideIsNotEnvelope | app/services.py:137-142 | an encoded guide never looks like a wrapped reply |
| GuideService.PromptStructureWritten | app/services.py:40-106 | the structure written out in the system prompt, copied key by key and placeholder by placeholder, is the encoding of one response record |
| GuideService.PromptStructureIsAGuide | app/services.py:40-106 | the structure written out in the system prompt has exactly the nine fields of `TravelGuideOutput`, in order, and validates as that response record |
| GuideService.GenerateTravelGuide | app/services.py:9-146 | a missing date is a `KeyError` for that date, `start_date` first; with both dates, a reply whose stripped text starts with `{` gives exactly what `json.loads` makes of it, any other reply is refused, every error is a `ValueError`, and every result is a well-formed dictionary |
| GuideService.GenerateUnwrapping | app/services.py:9-146 | the same call with the corrected reconciliation: the same `KeyError`s; with both dates, a wrapped reply is unwrapped and any other reply gives what the written reconciliation gives |
| GuideService.GenerateCalls | app/services.py:122-146 | with both dates, each service call reconciles the model's answer to the built arguments |
| GuideService.GenerateReadsGuide | app/services.py:122-146 | a model answering with an encoded guide, padded or not, gets that guide back, and it validates as the same record |
| GuideService.GenerateKeepsWrappedReply | app/services.py:137-142 | as written, a model answering with a wrapped reply gets the wrapper dictionary back, not the value inside |
| GuideService.GenerateUnwrapsWrappedReply | app/services.py:136-142 | with the corrected reconciliation, the same wrapped reply gives the value inside |
| JsonDecode.SkipWs | app/services.py:138 | the result is a suffix of the text that does not start with JSON white space, and everything skipped before it is JSON white space |
| JsonDecode.ParseValue | app/services.py:138 | a value read is well formed and consumes input. A value opening with `{`, `[` or `"` is an object, an array or a string |
| JsonDecode.ParseObject | app/services.py:138 | an object read is a dictionary of well-formed values |
| JsonDecode.MakeError | app/services.py:146 | the error keeps the message and offset; its line is one more than the number of newlines before the offset, and its column is one more than the number of characters between the last such newline (or the start) and the offset |
| JsonDecode.ParseJson | app/services.py:138 | every decoded value is a well-formed dictionary tree; a document starting with `{` decodes to an object; an error's offset lies inside the document |
| Dicts.Get | app/services.py:124-125 | a lookup finds a value exactly when the key is present, and that entry is in the dictionary |
| Dicts.Insert | app/services.py:138 | after `d[k] = v` the key maps to `v`, every other key is unchanged, and keys stay distinct |
| Dicts.FromPairs | app/services.py:138 | the dictionary of the decoded members has distinct keys, and every key holds its last value |
| Dicts.FromDistinctPairs | app/services.py:138 | members without repeated keys become the dictionary unchanged, in the same order |
| JsonEncode.Serialize | app/services.py:138 | encoded text is never empty and never starts with white space or a byte order mark; an object's text starts with `{` and ends with `}` |
| JsonEncode.ParseSerialized | app/services.py:138 | the decoder reads the encoding of any well-formed value back, leaving the text after it |
| JsonEncode.RoundTrip | app/services.py:138 | `json.loads` of the encoding of any well-formed value gives the value |
| DemoService.GetBudgetTier | app/demo-service.py:99-107 | a budget in [1000, 2000] is Budget, one in (2000, 4000] is Comfort, and one above 4000 is Luxury, each both ways. Below 1000 the result is the error `Budget must be at least $1000` |
| DemoService.TierCountsThresholds | app/demo-service.py:99-107 | an accepted budget's tier rank is the number of thresholds (2000, 4000) it exceeds |
| DemoService.TierMonotone | app/demo-service.py:99-107 | a larger budget never gets a lower tier |
| DemoService.TierRangesPartition | app/demo-service.py:100-107 | the three ranges are disjoint and together cover exactly the budgets of at least 1000 |
| DemoService.TierNamesDistinct | app/demo-service.py:109-134 | the table's tier names are distinct |
| DemoService.TierRowFound | app/demo-service.py:109-134 | `budget_tiers[tier]` finds the tier's row for every tier, and the row has the six details in order |
| DemoService.TierDetails | app/demo-service.py:185 | the row looked up is the table's row for that tier |
| DemoService.RowCommaFree | app/demo-service.py:109-134 | no detail name or value of any row contains a comma |
| DemoService.DetailsCommaFree | app/demo-service.py:185 | no rendered piece contains a comma |
| DemoService.DescriptionPieces | app/demo-service.py:185 | splitting the description at `", "` gives the six `key: value` pieces back, in table order |
| DemoService.VariablesDistinct | app/demo-service.py:169 | the eight declared input variables are distinct |
| DemoService.Pair | app/demo-service.py:169 | pairing values with the declared variables gives exactly those keys, distinct and in order |
| DemoService.PairFound | app/demo-service.py:189-198 | each declared variable finds its own value |
| DemoService.Arguments | app/demo-service.py:189-198 | the map has exactly the eight declared variables. Each holds its value: the request's destinations and interests text as given, the two ISO dates, the traveller count, the budget, the tier's name and its description |
| DemoService.InvokeArguments | app/demo-service.py:184-198 | the arguments exist exactly when the budget is at least 1000, otherwise the error is the classifier's message. The keys are the eight declared variables, each holding the request's value, and the tier and description are those of the budget's tier |
| DemoService.ArgumentsDescribeTier | app/demo-service.py:184-198 | the tier passed is the budget's tier and the description is that tier's rendered row |
| Schema.Field | app/models.py:6 | a required field is found exactly when its key is present; otherwise the error is `Missing` at that key |
| Schema.StringField | app/models.py:6 | succeeds exactly when the key holds a string, with that string; a missing key is `Missing` and a value of another type is `WrongType` at that key |
| Schema.IntField | app/models.py:35 | succeeds exactly when the key holds an integer, with that integer; a missing key is `Missing` and a value of another type is `WrongType` at that key |
| Schema.DictField | app/models.py:21 | succeeds exactly when the key holds an object, with its entries; a missing key is `Missing` and a value of another type is `WrongType` at that key |
| Schema.Items | app/models.py:14 | a list validates exactly when every item does, each at its own index; the result is the items' values in order |
| Schema.ListOf | app/models.py:14 | a `List[...]` field needs an array and validates item by item |
| Schema.ListField | app/models.py:14-17 | a required list field: `Missing` when absent, otherwise the list's validation |
| Schema.ItemsOf | app/models.py:14 | items that each validate to an element validate to the whole list |
| Schema.StringListOf | app/models.py:15-17 | a list of strings round-trips |
| Schema.FieldsAgree | app/models.py:19-28 | a scalar field's outcome depends only on the value under its key |
| Schema.ListFieldsAgree | app/models.py:14-17 | a list field's outcome depends only on the value under its key |
| Models.ValidateImage | app/models.py:5-8 | only an object validates; `image_title` and `image_description` are required. A validated image holds the title, URL and description the object gives |
| Models.ValidateDay | app/models.py:10-17 | only an object validates as a day. A validated day holds the object's three strings under their keys, and its four lists are what those keys' lists validate to |
| Models.ValidateOutput | app/models.py:19-28 | only an object validates as the response. A validated response holds the object's strings and dictionaries under their keys, and its two lists are what those keys' lists validate to |
| Models.ValidateInput | app/models.py:30-35 | only an object validates, and a valid request holds all five fields. A validated request holds the object's budget string, its integer traveller count and its `travel_dates` dictionary under their keys, and its two lists are what those keys' lists of strings validate to |
| Models.ImageRoundTrip | app/models.py:5-8 | every image record is read back from the object it is written as |
| Models.ImagesRoundTrip | app/models.py:14 | every list of images is read back |
| Models.DayFieldsOf | app/models.py:10-17 | each of the seven fields of a written day is read back |
| Models.DayRoundTrip | app/models.py:10-17 | every day record is read back |
| Models.DaysRoundTrip | app/models.py:25 | every list of days is read back |
| Models.OutputEntriesKeys | app/models.py:19-28 | a written response holds exactly the nine declared fields, in order |
| Models.OutputRoundTrip | app/models.py:19-28 | every response record is read back, whatever its `dict` fields hold |
| Models.InputRoundTrip | app/models.py:30-35 | every request record is read back |
| Models.DayRequiresFields | app/models.py:10-17 | a day validates only if all seven fields are present |
| Models.OutputRequiresFields | app/models.py:19-28 | a response validates only if all nine fields are present |
| Models.ImageUrlDefault | app/models.py:7 | an image without `image_url` gets `""`, and one with `null` gets no URL |
| Models.ImageIgnoresOtherKeys | app/models.py:5-8 | undeclared keys do not change an image's validation |
| Models.DayIgnoresOtherKeys | app/models.py:10-17 | undeclared keys do not change a day's validation |
| Models.OutputIgnoresOtherKeys | app/models.py:19-28 | undeclared keys do not change the response's validation |
| Models.InputIgnoresOtherKeys | app/models.py:30-35 | undeclared keys do not change the request's validation |

## Left out

- The language model: `ChatOllama`, `ChatGroq`, the chain invocation and the output parsers. The model is a parameter that maps the prompt arguments to reply text. The demonstration script's chain parses the reply with `JsonOutputParser`, which is not part of this model.
- The prompt templates' rendering. Only the declared placeholders and the structure the system prompt spells out are modelled.
- The streaming relay `stream_travel_response` and `get_chat_ollama`: asynchronous websocket I/O.
- `main.py`, environment loading and the script's module-level checks of `.env` variables: process and transport plumbing.
- `date.isoformat()`: a date argument is handed to the prompt as an `IsoDate` value, not rendered as text.
- Floating point. A JSON number with a fraction or exponent is kept exactly as mantissa and power of ten, not rounded to a double. The budget is a `real`, so NaN and rounding at the tier boundaries are not modelled.
- Pydantic's lax coercions (a numeric string for an `int`, `true` for an `int`, and so on). Validation is strict. Only the first failing field is reported, where pydantic collects every error.
- The record types of the demonstration script (`TravelQuery`, `ImageItem`, `AccommodationItem`, `MustVisitAttractionItem`, `ItineraryDay`, `TravelGuideResponse`) are datatypes without validators, since the script only hands the schema's text to the parser.
- JSON `\u` escapes that leave a lone surrogate are rejected, because a Dafny `char` cannot hold one; Python would keep them.
- The decoder's error messages follow the wording of CPython 3.12's C scanner (3.13 reports a trailing comma with its own message). The offset is where this decoder detects the problem, which can differ from CPython's offset for some malformed numbers.
- ReconcileOutcomes and ReconcileMessages: nesting depth is unbounded here. CPython's scanner raises `RecursionError` on deeply nested input, which is not a `ValueError` and escapes the `except json.JSONDecodeError` at app/services.py:145; the model decodes any depth.
- ReconcileOutcomes and ReconcileMessages: integers of any length are decoded here. CPython refuses an integer literal of more than 4300 digits with a plain `ValueError` (the integer-string conversion limit), which is not a `JSONDecodeError` and so is not reported as "Invalid JSON output"; the model returns the integer.
- `str()` of a `KeyError` is modelled as the key in single quotes, without Python's escaping of quotes inside the key.
- The Budget row's range label `$500 - $2000` is kept as written in the table, although the classifier admits Budget only from 1000.

## Findings

| source | as written | input that shows it | evidently intended | confidence | as-written member | corrected member |
|---|---|---|---|---|---|---|
| app/services.py:137-142 | the `{` test comes first, so the branch that unwraps `{"output": ...}` can never be reached and a wrapped reply is returned as the envelope | `{"output":"{}"}` is returned as `{"output": "{}"}` rather than `{}` | a wrapped reply is unwrapped and the inner JSON text decoded, as the comment at line 136 says | not executed | GuideService.ReconcileKeepsEmptyEnvelope | GuideService.UnwrapsEnvelope |
