# AgriRoots decision logic in Dafny

A model of the pure decision logic of the AgriRoots farming assistant, with proofs about it. AgriRoots has a Flask backend and a React web client.

The backend parts modelled are:

- **The crop recommender.** A table of thirteen crops, each with ideal ranges for seven parameters. Each crop gets a match score, and the crops that score anything are ranked.
- **The AgroLens nutrient estimator.** It estimates soil N, P, K and pH from twelve Sentinel-2 band reflectances. Its spectral fetch has a simulated branch, used when no Sentinel Hub credentials are configured, and that branch is modelled too.
- **The diagnosis reply extractor.** It turns a vision model's free-text reply into a diagnosis record. The current backend (`backend/main.py`) and the older one (`app.py`) each have a copy.
- **The `/diagnose` status ladder.**
- **The planner endpoint.** It fills in request defaults, cleans the reply and adds a location echo.

The web-client parts modelled are:

- The Smart Planner page: the geolocation box, the request it sends, and how the reply fills the field card.
- The Crop Doctor page's scan outcome.
- The Marketplace buyer carousel.
- The Settings switches.
- The Smart Alerts card.
- The voice-assistant button.

Everything is modelled as immutable datatypes and pure functions.

- Python dictionaries are sequences of key/value pairs (`JsonValue`), with the meanings of `get`, `setdefault` and item assignment.
- Python strings are `seq<char>`. `PyText` gives them the meanings of `in`, `find`, `rfind`, `split`, `strip` and the non-greedy thinking-block `re.sub`.
- JavaScript's property reads, truthiness and comparison coercions are in `JsValue`.
- What the code cannot see is a parameter:
  - the vision and language model's reply;
  - `json.loads`;
  - the extraction regex's `re.findall`;
  - Python's `str()` of numbers and containers;
  - the browser's number parsing and exception texts;
  - the seeded random generator;
  - the live Sentinel Hub result.
- A Python exception that the code lets escape becomes an explicit outcome: `None`, `Failed`, or a 500 response. The model does not forbid it with a precondition.

The cross-component lemmas in `Integration` record how the client and the server actually interact:

- The planner page never sends a soil type, so the backend always assumes 'Red Loam'.
- The recommendation records the planner endpoint asks the model for carry `suitability`, but the page reads `score`, so every such card is labelled "moderate".
- The Crop Doctor page reads only `detail` from an error body, and the backend never sends one. Every failed diagnosis therefore shows "Failed to analyze image".
- A 500 from the planner endpoint is read by the page as a non-success body, and the page shows the endpoint's `message`.

Three facts about the client shape these lemmas:
- The Crop Doctor page stores any body of an ok response as the diagnosis, without validating it (agriroots-hub-main/src/pages/CropDoctor.tsx:69-70).
- The Crop Doctor page reads only `detail` from an error body (agriroots-hub-main/src/pages/CropDoctor.tsx:66).
- The planner page's request body has `coords`, `temperature`, `humidity` and `rainfall`, and no `soil_type` (agriroots-hub-main/src/pages/SmartPlanner.tsx:92-97).

## Model

| member | source | states |
|---|---|---|
| PyText.Find | backend/main.py:292 | The first occurrence of the pattern, with none before it; `None` (Python's -1) exactly when it does not occur |
| PyText.RFind | backend/main.py:293 | The last occurrence of the pattern, with none after it; `None` exactly when it does not occur |
| PyText.Split | backend/main.py:235 | `str.split(sep)`: always at least one piece; SplitPieces and JoinSplit characterise the pieces (none holds the separator, and joining them with it gives the input back) |
| PyText.SplitPieces | backend/main.py:235 | No piece of `s.split(sep)` contains the separator, and there is more than one piece exactly when the separator occurs |
| PyText.JoinSplit | backend/main.py:235 | Joining the pieces of `s.split(sep)` with `sep` gives back `s`, so the split loses no text |
| PyText.SplitPart | backend/main.py:235 | `s.split(sep)[0]` always exists, `s.split(sep)[1]` raises IndexError exactly when the separator is absent, and a piece never holds the separator |
| PyText.Strip | backend/main.py:235 | `s.strip()` is a slice of `s` with only whitespace removed at each end, and it neither begins nor ends with whitespace |
| PyText.RemoveThinking | backend/main.py:206 | The non-greedy substitution never lengthens the text, and it leaves the text unchanged when either tag is absent |
| PyText.RemoveLeadingBlock | backend/main.py:206 | A leading `<thinking>…</thinking>` block, in whose body no closing tag starts, is deleted whole (up to the first closing tag), and the scan carries on over the rest |
| JsonValue.Get | backend/main.py:218 | `d.get(key)` is present exactly when the key is, and then it is a value stored under that key |
| JsonValue.Assign | backend/main.py:221 | `d[key] = v` makes `key` look up `v` and changes no other lookup; a new key adds one entry, and distinct keys stay distinct |
| JsonValue.SetDefault | backend/main.py:224-226 | `setdefault` leaves a present key and the whole dict untouched; an absent key is appended with the default |
| Extraction.Judge | backend/main.py:215 | A candidate is accepted exactly when it parses to an object with both `disease` and `crop`; an unparsable one is rejected; Python's `in` on a str, list or scalar leads to rejection or an escaping exception |
| Extraction.JudgeEach | backend/main.py:274-289 | The regex loop rejects exactly when every candidate is rejected; an accepted object has both keys |
| Extraction.JsonFence | backend/main.py:233-235 | The json-fence text exists whenever "```json" occurs in the reply |
| Extraction.AnyFence | backend/main.py:252-254 | The any-fence text exists whenever "```" occurs in the reply |
| Extraction.BraceSpan | backend/main.py:292-297 | The brace span is tried exactly when some '{' precedes some '}', and it is exactly the slice from the first '{' to the last '}' |
| Extraction.BraceOrder | backend/main.py:292-296 | The guard "both found and last '}' after first '{'" holds exactly when some '{' comes before some '}' |
| Extraction.Cascade | backend/main.py:212-310 | Whatever method picks an object, that object has both `disease` and `crop` |
| Extraction.FirstDecisive | backend/main.py:212-310 | The reference reading: a pick is the first candidate that is not rejected, an exception is the first such candidate raising, and nothing is picked exactly when all are rejected |
| Extraction.CascadeOrder | backend/main.py:212-311 | The cascade is the first decisive verdict over the candidates in the order direct, json fence, any fence, regex matches, brace span |
| Extraction.Ladder | backend/main.py:212-311 | The five methods tried in source order, the first verdict that does not reject deciding (accepted object, or the escaping exception); LadderIsFirstDecisive equates it with the FirstDecisive reference |
| Extraction.LadderIsFirstDecisive | app.py:113-182 | The five-rung ladder of either backend equals the first decisive verdict over the concatenated candidate groups |
| Extraction.JudgeEachIsFirstDecisive | backend/main.py:274-289 | The regex loop that stops at the first non-rejected candidate is the first decisive verdict over its matches |
| Extraction.JsonFenceSegment | backend/main.py:233-235 | For any decomposition of the text at its first "```json", of the rest at its next "```json", and of that piece at its first "```", the json-fence text is the stripped piece before that "```" (or to the end) |
| Extraction.CutUnique | backend/main.py:233-235 | A cut at the first occurrence of a mark (or at the end when there is none) is unique, so the decompositions above are determined by the text |
| Extraction.AnyFenceSegment | backend/main.py:252-254 | For any decomposition of the text at its first "```" and of the rest at its next "```" (or the end), the any-fence text is the stripped piece between them |
| Diagnosis.CleanThinking | backend/main.py:205-206 | Thinking blocks are removed only when both tags occur; otherwise the reply passes unchanged, and the result is never longer |
| Diagnosis.LeadingThinkingRemoved | backend/main.py:205-206 | A reply that opens with a thinking block, closed by the first closing tag after it, and has no further opening tag is cleaned to the stripped text after that block |
| Diagnosis.Flatten | backend/main.py:220-221 | The "key: value" texts of a notes dict joined by single spaces; FlattenAppend characterises it note by note |
| Diagnosis.FlattenAppend | backend/main.py:219-221 | Flattened notes are the "key: value" texts joined by single spaces, in order |
| Diagnosis.FlattenNotes | backend/main.py:218-221 | A dict `additional_notes` is replaced in place by its flattened text; every other key and value is kept |
| Diagnosis.Defaults | backend/main.py:224-226 | `symptoms`, `additional_notes` and `recovery_plan` are added as [], "" and [] when absent; present values are kept |
| Diagnosis.Normalize | backend/main.py:217-226 | An accepted object gains exactly the three defaulted keys; everything but a dict `additional_notes` keeps its parsed value |
| Diagnosis.NormalizeKeys | backend/main.py:215-226 | A normalised accepted object carries `disease`, `crop`, `symptoms`, `additional_notes` and `recovery_plan` |
| Diagnosis.FallbackRecord | backend/main.py:317-327 | The fallback is "Unable to analyze", "Unknown", confidence 50, severity "unknown", an empty recovery plan, with each key once and the normalised keys present |
| Diagnosis.Outcome | backend/main.py:212-332 | Any record the analysis returns, normalised or fallback, carries `disease`, `crop`, `symptoms`, `additional_notes` and `recovery_plan` |
| Diagnosis.Analyze | backend/main.py:204-332 | `analyze_crop_disease` from the reply onward never returns a record missing one of the normalised keys |
| Diagnosis.OutcomeSource | backend/main.py:212-327 | The outcome of the first decisive verdict is the fallback after all rejections, the normalised deciding object, or the deciding candidate's exception |
| Diagnosis.AnalyzeSource | backend/main.py:204-332 | A returned record is the fallback (all candidates rejected) or the normalised form of the first candidate not rejected; a failure means that candidate raised |
| Diagnosis.Diagnose | backend/main.py:334-374 | A 200 from the current backend carries a record with the normalised keys; a 500 means the model call or the analysis raised |
| DiagnoseRoute.Respond | backend/main.py:334-374 | The ladder is 503 when not ready, then 400 for no file, empty name or a bad image (each with its message), then 500 with `error` and `message` when analysis raised, else 200 with the record; no error body has `detail` |
| LegacyDiagnosis.Normalize | app.py:116-120 | The older backend defaults only `symptoms` and `additional_notes`; it adds no `recovery_plan` and flattens nothing |
| LegacyDiagnosis.FallbackRecord | app.py:188-197 | The older fallback is the current one without its `recovery_plan` entry |
| LegacyDiagnosis.Analyze | app.py:109-202 | A record the older analysis returns always names a `disease` and a `crop` |
| LegacyDiagnosis.RecoveryPlanOnlyFromModel | app.py:113-197 | An older-backend record has a recovery plan only when the model's own accepted object carried one |
| LegacyDiagnosis.SameDecisionWithoutThinking | app.py:113-115 | Without a thinking tag, both backends raise together or return records naming the same disease and crop |
| LegacyDiagnosis.Diagnose | app.py:204-245 | The older endpoint follows the same ladder; a 200 carries `disease` and `crop`, and a 500 means the model call or the analysis raised |
| PlannerRoute.ReadFieldData | backend/main.py:417-421 | Each request value is the posted one when its key is present, even if null, and otherwise the default |
| PlannerRoute.EmptyBodyDefaults | backend/main.py:417-421 | An empty body gets the demo farm box, 'Red Loam', 28, 65 and 120 |
| PlannerRoute.CleanReply | backend/main.py:461-468 | Cleaning never lengthens the reply and leaves a reply with no thinking tag and no fence unchanged |
| PlannerRoute.FencedAnswer | backend/main.py:465-466 | For a reply without a thinking tag and any decomposition at its first "```json", the next "```json" and then the first "```", the answer is read from the stripped piece before that "```" |
| PlannerRoute.UnclosedThinkingStripped | backend/main.py:462-463 | The planner cleans on the opening tag alone, so an unclosed tag survives while surrounding whitespace goes |
| PlannerRoute.Location | backend/main.py:474-479 | The echoed `location` object: the request's coords, temperature, humidity and rainfall, and never the soil type; Recommend shows every 200 carries it |
| PlannerRoute.Recommend | backend/main.py:405-489 | OPTIONS gives 200 `{"status": "ok"}` regardless of body; a non-object body, a failed model call, or a cleaned reply that does not parse to a JSON object gives 500 with `error` and the fixed message; a 200 carries the location echo of the request values |
| PlannerRoute.AnswerKeptWithLocation | backend/main.py:471-481 | A parsed answer object is returned with `location` set and every other key as the model gave it |
| PlannerRoute.NonObjectAnswerFails | backend/main.py:471-489 | A valid JSON answer that is not an object makes the item assignment raise, so the result is 500 |
| Agrolens.Ndvi | backend/agrolens_service.py:128-130 | The NDVI of non-negative bands lies in [-1, 1], is 0 for equal bands, and solves `ndvi·(nir+red) = nir−red` when the sum is positive |
| Agrolens.ClampPh | backend/agrolens_service.py:137-138 | pH is clamped into [4.0, 8.5], and an in-range value is kept |
| Agrolens.PredictNutrients | backend/agrolens_service.py:116-146 | An estimate exists exactly for twelve or more bands; N, P and K are non-negative, pH is in [4.0, 8.5], and it is marked estimated |
| Agrolens.FlatSpectrum | backend/agrolens_service.py:130-138 | Equal bands give NDVI 0 and pH 6.5 |
| Agrolens.ReadsSixBands | backend/agrolens_service.py:128-138 | Only bands B02, B04, B06, B08, B11 and B12 affect the estimate |
| Agrolens.SeedPart | backend/agrolens_service.py:55-56 | `int(abs(x)*10000)` is the non-negative floor of the scaled magnitude |
| Agrolens.MockSeed | backend/agrolens_service.py:55-57 | The simulation seed exists exactly when two coordinates are given, and it is non-negative |
| Agrolens.FetchSpectralBands | backend/agrolens_service.py:48-72 | With credentials the live result passes through; otherwise the simulation raises (`None`) on fewer than two coordinates or a seed of 2^32 or more, and else gives twelve named bands, each the base signature times the seeded draw, marked as mock |
| Agrolens.MockDependsOnCornerOnly | backend/agrolens_service.py:55-64 | Two boxes whose first two coordinates give the same seed get the same simulated bands, whatever the other corner |
| Agrolens.MockWithinTwentyPercent | backend/agrolens_service.py:60-64 | With two coordinates, a seed the generator accepts, and draws in [0.8, 1.2), each simulated band lies within 20% of its base value |
| CropScoring.RangesProper | backend/npk.py:8-61 | The table has thirteen crops, and every one of their ninety-one ranges has min < max |
| CropScoring.CropsNamedOnce | backend/npk.py:8-61 | No crop is listed twice in the table |
| CropScoring.Width | backend/npk.py:87 | The width used for partial credit is always positive |
| CropScoring.ParamScore | backend/npk.py:80-89 | A parameter earns 1 exactly inside its inclusive range, 0.5 exactly when it lies outside by less than a fifth of the range's width, and otherwise 0 |
| CropScoring.Credit | backend/npk.py:76-89 | The summed credit lies in [0, 7] |
| CropScoring.CropScore | backend/npk.py:76-91 | The score lies in [0, 100]; it is 100 exactly when every parameter fits, and positive exactly when some parameter is in or near its range |
| CropScoring.Scores | backend/npk.py:75-92 | One score per table entry, in table order |
| CropScoring.Insert | backend/npk.py:95 | Inserting a later table index into a ranked list keeps it ranked and adds exactly that index |
| CropScoring.Sort | backend/npk.py:95 | The sort ranks every table index exactly once, by descending score, with ties in table order |
| CropScoring.KeepScored | backend/npk.py:96 | The filter keeps exactly the entries with positive score, in ranked order |
| CropScoring.Ranking | backend/npk.py:94-96 | The ranking is stable descending, and a table index is in it exactly when its crop scores above zero |
| CropScoring.RecommendCrop | backend/npk.py:63-96 | The k-th recommendation is the k-th ranked crop with its own score, and every listed score is in (0, 100] |
| CropScoring.RecommendationsOrdered | backend/npk.py:94-95 | Scores never increase down the list, and equal scores keep table order, as Python's stable reverse sort does |
| CropScoring.RecommendedIffScored | backend/npk.py:96 | A crop is recommended exactly when it scores above zero |
| CropScoring.RecommendedEntry | backend/npk.py:92-96 | A recommended crop carries its own table entry's positive score |
| CropScoring.CropsDistinct | backend/npk.py:75-96 | No crop appears twice among the recommendations |
| CropScoring.RankedUnique | backend/npk.py:95 | Only one stable descending order exists for a given set of indices, so the sort here computes Python's `sorted(..., reverse=True)` |
| CropScoring.SampleFieldRanksRiceFirst | backend/npk.py:130 | The sample field ranks rice first with a score of exactly 100 |
| CropScoring.RecommendFromSatellite | backend/npk.py:98-126 | A fetch error is passed through; otherwise the soil is the nutrient estimate and the recommendations score it with the given climate; a short band list gives `None` (IndexError) |
| CropScoring.SatelliteReadingInBounds | backend/npk.py:109-120 | A satellite reading scores a non-negative N, P and K, a pH in [4, 8.5], and the given climate unchanged |
| JsValue.Prop | agriroots-hub-main/src/pages/SmartPlanner.tsx:104 | A property read gives an object's member, and `undefined` on any other non-null value; reading from null is excluded, since it throws |
| JsValue.Or | agriroots-hub-main/src/pages/CropDoctor.tsx:66 | `a \|\| b` is `a` when truthy, else `b` |
| JsValue.NeverAbove | agriroots-hub-main/src/pages/SmartPlanner.tsx:105-107 | `undefined`, `null` or a small number is never above a non-negative threshold |
| SmartPlanner.BoxAround | agriroots-hub-main/src/pages/SmartPlanner.tsx:50-55 | The live box is 0.01 degrees across in latitude and in longitude, centred on the position |
| SmartPlanner.RefusalText | agriroots-hub-main/src/pages/SmartPlanner.tsx:61-64 | The geolocation error text: codes 1, 2 and 3 have their own, any other code is "Location Error"; RefusalStatus pins each case |
| SmartPlanner.LocationStatus | agriroots-hub-main/src/pages/SmartPlanner.tsx:44-79 | The status line after `getUserLocation`: live location, the refusal text with the demo suffix, or "Geolocation not supported"; LocationChoice relates it to the box sent |
| SmartPlanner.BoxToSend | agriroots-hub-main/src/pages/SmartPlanner.tsx:86 | `customBox \|\| [demo farm]`; LocationChoice shows only a located browser sends its own box |
| SmartPlanner.LocationChoice | agriroots-hub-main/src/pages/SmartPlanner.tsx:44-86 | Only a located browser scans its own box, with the live status; unsupported browsers, refusals and Retry scan the demo farm; a refusal shows its code's text plus " - Using Demo Farm" |
| SmartPlanner.RefusalStatus | agriroots-hub-main/src/pages/SmartPlanner.tsx:61-66 | A refusal with code 1 reads "Permission Denied - Using Demo Farm", and a code outside 1–3 reads "Location Error - Using Demo Farm" |
| SmartPlanner.RequestBody | agriroots-hub-main/src/pages/SmartPlanner.tsx:92-97 | The request carries exactly coords, temperature, humidity and rainfall, and no soil type |
| SmartPlanner.Begin | agriroots-hub-main/src/pages/SmartPlanner.tsx:82-83 | A fetch starts loading with no error and changes nothing else |
| SmartPlanner.Level | agriroots-hub-main/src/pages/SmartPlanner.tsx:105-107 | The bucket is "High" exactly above the high threshold, "Medium" exactly between the two, otherwise "Low" |
| SmartPlanner.NitrogenLevels | agriroots-hub-main/src/pages/SmartPlanner.tsx:105 | Numeric nitrogen is "High" above 100 and "Medium" above 50, with strict comparisons |
| SmartPlanner.MissingNutrientIsLow | agriroots-hub-main/src/pages/SmartPlanner.tsx:105 | A missing or null nutrient shows as "Low" |
| SmartPlanner.FirstThree | agriroots-hub-main/src/pages/SmartPlanner.tsx:109 | `.slice(0, 3)` keeps a prefix of at most three items, exactly three when available, and it raises on a non-array, non-string value |
| SmartPlanner.Fetched | agriroots-hub-main/src/pages/SmartPlanner.tsx:100-117 | Loading ends. Area and soil are kept. No error only after a non-null success reply. A non-null body without `status: "success"` (object, array, string, number or boolean) shows its `message` or "Failed to fetch data". A transport or parse failure, or a null body, shows the connect hint. New cards only without an error |
| SmartPlanner.SuccessFillsCard | agriroots-hub-main/src/pages/SmartPlanner.tsx:101-109 | A well-formed success reply sets pH and the three buckets from the soil data and shows its first three recommendations |
| SmartPlanner.CardUpdatedBeforeSliceFails | agriroots-hub-main/src/pages/SmartPlanner.tsx:102-109 | A success reply without recommendations still updates the card, then shows the connect hint and keeps the old cards |
| SmartPlanner.FetchSettles | agriroots-hub-main/src/pages/SmartPlanner.tsx:81-118 | A whole fetch never leaves the page loading or changes the location line; the error line is clear only after a success reply, and an error leaves the recommendation cards as they were |
| SmartPlanner.YieldLabel | agriroots-hub-main/src/pages/SmartPlanner.tsx:386 | A null card throws (`None`); any other card reads "high" exactly when its score is above 80, else "moderate" |
| CropDoctor.Start | agriroots-hub-main/src/pages/CropDoctor.tsx:52-53 | A scan starts with scanning on and no diagnosis, keeping the preview and toast |
| CropDoctor.Reset | agriroots-hub-main/src/pages/CropDoctor.tsx:80-84 | Reset clears the preview and the diagnosis and stops scanning |
| CropDoctor.ResetIdempotent | agriroots-hub-main/src/pages/CropDoctor.tsx:80-84 | Resetting twice is resetting once |
| CropDoctor.FailureMessage | agriroots-hub-main/src/pages/CropDoctor.tsx:64-67 | An unreadable body (read as `{}`) or one without a truthy `detail` gives "Failed to analyze image"; a null body raises a TypeError instead |
| CropDoctor.ToastText | agriroots-hub-main/src/pages/CropDoctor.tsx:73 | The toast is the error's message when non-empty, else the backend hint, and it is never empty |
| CropDoctor.Caught | agriroots-hub-main/src/pages/CropDoctor.tsx:71-77 | A failure shows its toast and leaves the page reset, not scanning |
| CropDoctor.Scanned | agriroots-hub-main/src/pages/CropDoctor.tsx:55-78 | Scanning stops after every outcome; a diagnosis is stored exactly for an ok response with a JSON body; every other outcome shows a non-empty toast and resets |
| CropDoctor.NoClientValidation | agriroots-hub-main/src/pages/CropDoctor.tsx:69-70 | Any JSON an ok response carries is stored as the diagnosis, unvalidated |
| CropDoctor.DetailShown | agriroots-hub-main/src/pages/CropDoctor.tsx:64-66 | A failed response with a non-empty string `detail` shows that text |
| Marketplace.NextBuyer | agriroots-hub-main/src/pages/Marketplace.tsx:102-104 | The next index stays in range, steps by one, and wraps from the last buyer to the first |
| Marketplace.PrevBuyer | agriroots-hub-main/src/pages/Marketplace.tsx:106-108 | The previous index stays in range, steps back by one, and wraps from the first buyer to the last |
| Marketplace.Press | agriroots-hub-main/src/pages/Marketplace.tsx:273-290 | "Pass" and "Connect" always leave a valid buyer index |
| Marketplace.PassUndoesConnect | agriroots-hub-main/src/pages/Marketplace.tsx:102-108 | Next then previous, and previous then next, are the identity |
| Marketplace.ConnectTimesAdvances | agriroots-hub-main/src/pages/Marketplace.tsx:103 | k presses of "Connect" advance the index by k modulo the number of buyers |
| Marketplace.FullCircle | agriroots-hub-main/src/pages/Marketplace.tsx:103 | Going once round the carousel returns to the same buyer |
| Marketplace.Carousel | agriroots-hub-main/src/pages/Marketplace.tsx:100-108 | From the first buyer, any run of presses shows a valid buyer |
| Marketplace.ConnectOnly | agriroots-hub-main/src/pages/Marketplace.tsx:100-104 | After k presses of "Connect" from the start the carousel shows buyer k mod 3 |
| Settings.Toggle | agriroots-hub-main/src/pages/Settings.tsx:95-100 | Toggling flips how that switch shows, stores the label, and keeps every other stored value |
| Settings.ToggleIsLocal | agriroots-hub-main/src/pages/Settings.tsx:96-99 | Toggling one switch never changes how another shows |
| Settings.ToggleTwice | agriroots-hub-main/src/pages/Settings.tsx:95-100 | Toggling twice restores how every switch shows; the map itself is restored for a stored label, while an unstored one is left stored as false |
| Settings.InitialState | agriroots-hub-main/src/pages/Settings.tsx:88-93 | The four switchable rows start stored, and all are on except Telegram Sync |
| SmartAlerts.Dismiss | agriroots-hub-main/src/components/dashboard/SmartAlerts.tsx:61-63 | Dismissal keeps exactly the alerts with a different id and never lengthens the list |
| SmartAlerts.DismissConcat | agriroots-hub-main/src/components/dashboard/SmartAlerts.tsx:62 | Dismissal distributes over concatenation, so the remaining alerts keep their order |
| SmartAlerts.DismissUnknown | agriroots-hub-main/src/components/dashboard/SmartAlerts.tsx:62 | Dismissing an id that no alert has leaves the list unchanged |
| SmartAlerts.DismissIdempotent | agriroots-hub-main/src/components/dashboard/SmartAlerts.tsx:61-63 | Dismissing twice is dismissing once |
| SmartAlerts.DismissOne | agriroots-hub-main/src/components/dashboard/SmartAlerts.tsx:61-63 | With distinct ids, dismissing a shown alert lowers the count by exactly one |
| SmartAlerts.BadgeCount | agriroots-hub-main/src/components/dashboard/SmartAlerts.tsx:69-71 | The badge count is zero exactly when no alert is left, which is when "All caught up!" shows |
| SmartAlerts.DismissAllInitial | agriroots-hub-main/src/components/dashboard/SmartAlerts.tsx:13-35 | Dismissing the three initial alerts one by one empties the card |
| VoiceFab.Toggle | agriroots-hub-main/src/components/VoiceAssistantFAB.tsx:9-16 | A press flips the panel, and listening follows the new open state |
| VoiceFab.Pressed | agriroots-hub-main/src/components/VoiceAssistantFAB.tsx:6-16 | From the closed start, every reachable state listens exactly when open |
| VoiceFab.PressParity | agriroots-hub-main/src/components/VoiceAssistantFAB.tsx:6-16 | After an odd number of presses the panel is open and listening; after an even number it is closed and silent |
| VoiceFab.TwoPressesRestore | agriroots-hub-main/src/components/VoiceAssistantFAB.tsx:9-16 | From any reachable state two presses change nothing |
| Integration.PlannerOmitsSoilType | agriroots-hub-main/src/pages/SmartPlanner.tsx:92-97 | The backend reads the planner's request with soil type 'Red Loam', and the climate values it sends equal the backend's own defaults |
| Integration.PlannerFailureShown | agriroots-hub-main/src/pages/SmartPlanner.tsx:100-111 | A 500 from the planner endpoint shows "Failed to generate crop recommendations" on the page |
| Integration.DoctorShowsGenericFailure | agriroots-hub-main/src/pages/CropDoctor.tsx:64-66 | Every non-200 answer of `/diagnose` shows the toast "Failed to analyze image" |
| Integration.ModelCardsAreModerate | agriroots-hub-main/src/pages/SmartPlanner.tsx:386 | A recommendation record without `score`, as the planner endpoint's schema produces, is labelled "moderate" |
| Integration.FallbackLacksScreenFields | agriroots-hub-main/src/pages/CropDoctor.tsx:258-296 | On the backend's fallback record, `healthScore`, `harvestDays`, `product` and `productPrice` all read `undefined` |

## Left out

- The vision and language model calls, their prompts and the local TensorFlow classifier are not modelled: they are foreign calls over opaque models. The reply text is an input, and a raised call is `None`.
- `json.loads`, the extraction regex's `re.findall` and Python's `str()` of numbers and containers are not modelled. They are parameters (`parse`, `findAll`, `render`).
- Parsed objects are taken to have distinct keys. `json.loads` keeps the last of repeated keys, and `Get` returns the first one stored.
- JavaScript's `Number(string)`, number-to-text conversion and the browser's exception texts are parameters (`Engine`).
- The live Sentinel Hub request, the evalscript and `np.random` are not modelled: they are network I/O and a random generator. The live result is a parameter, and the seeded draws are a function of seed and band index.
- Agrolens.PredictNutrients: the values are not rounded to two decimals as the source does. Decimal rounding of floats is left abstract, so the bounds are proved on the unrounded values; rounding keeps them.
- CropScoring.RecommendFromSatellite: inherits the unrounded soil values, so a score that rounding would tip across a range boundary may differ.
- Agrolens.SeedPart: the floor is taken over exact reals. Python multiplies IEEE doubles, so a coordinate such as 0.0003 (3 here, 2 in Python), or any whose scaled value lies within rounding of an integer, may seed differently. MockSeed and FetchSpectralBands inherit this.
- SmartPlanner.BoxAround: reals stand for JavaScript doubles, so the 0.01-degree extent and the centring on the position hold up to rounding (for latitude 11.0168 the doubles give an extent of 0.010000000000001563).
- Agrolens.Ndvi: reals stand for Python floats, so the defining equation `ndvi * (nir + red) == nir - red` holds up to rounding; the bounds in [-1, 1] are stated on exact values.
- CropScoring.ParamScore: reals stand for Python floats, so comparisons at the exact 20% boundary follow exact arithmetic, not IEEE rounding.
- Flask routing, CORS, the multipart parser, `file.read()` failures and PIL's image check are not modelled: they are framework I/O. Image validity is a boolean input, and the upload is either no `file` part or a file name.
- Browser APIs are not modelled: fetch, FileReader, geolocation and toasts. Their results are inputs. The preview image set by the FileReader callback is left out, because it arrives asynchronously.
- Ordering between concurrent requests and stale responses is not modelled: it is concurrency.
- No backend record guarantees the fields the crop doctor screen reads besides `disease`: `confidence`, `severity`, `treatment`, `healthScore`, `harvestDays`, `product` and `productPrice`. The records promise only the normalised keys (Diagnosis.NormalisedKeys), and the fallback lacks the last four (Integration.FallbackLacksScreenFields). A record without a string `severity` makes the screen's `severity.charAt` throw while rendering; that is not modelled, since rendering is left out.
- Rendering is not modelled: `Math.round(rec.score)`, bar widths, animations, the Settings rows that only navigate, the machinery listings and the static dashboard cards.
- The `/health` and `/` endpoints and the diagnostic scripts are not modelled: they report configuration only.
