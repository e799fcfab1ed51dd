# Astrology life-strategy document backend — a Dafny model

This project models the core of a backend that writes a long, multi-step
"life strategy" document from a birth chart. The document is a fixed
catalogue of sessions and steps. Each step combines pre-written static
text (prologue, theory, lecture) with dynamic blocks that a generative-text
provider writes (analysis, symbol, scenario, action, letter).

The model covers these parts of the system:

- **Content generation** (`ai_generator.py`). This covers provider configuration and the
  length-recovery loop, which asks again with an "expand" or "summarise" prompt until a
  block's character count lies in its range or the retries run out. It also covers block,
  step and streaming generation, the persona profile derived once step 2-A is generated
  (from the variables of steps 1-A, 1-B and 2-A), and the in-module `SessionManager`.
- **The HTTP service's session store** (`api_server.py`). This covers session creation, the
  step look-up in the content catalogue, step generation with its cache, completed-step
  bookkeeping and the running character total. It also covers status, the full-text view,
  the sessions structure and the PDF/preview assembly.
- **Chart arithmetic** (`astro_calculator.py`). This covers signs and degrees from a
  longitude, houses, aspects with their orbs and the element/quality balance. It also
  covers the dominant element and modality and the flat variable bag that prompts are
  filled from.
- **PDF story assembly** (`pdf_generator.py`). This covers the title, the table of contents
  and the order of chapters and sections in the flowable list, with the empty-section and
  error-section rules.
- **The birth-data service** (`main.py`). This covers the prefecture table, the coordinate
  look-up, sign names and the chart endpoint's validation and result.

The modules mirror the source files. Pure logic is written as datatypes and
functions. Objects whose methods update fields (`SessionManager`, the API's
session store, `AstroCalculator`, the PDF story builder) are classes whose
methods state their new state.

Wherever the code and its documented design differ, the model follows the
code. Where the two disagree:

- a re-generated step is counted again in the character total;
- a step whose generation failed is still recorded as completed;
- `SessionManager` appends a step id to its completed list again;
- streaming bypasses the length-recovery loop;
- there is no locking;
- `min_chars=0` falls back to the default;
- a block brought into range by the last permitted retry keeps the status "success";
- `astro_calculator.py`'s prefecture search gives 東京都新宿区 the coordinates of 東京都;
- the generation endpoint takes the step from the last catalogue session that holds it,
  while `get_step_content` takes the first;
- `create_generator("gemini")` does not use its module preset's 8192 tokens;
- `generate_user_profile` is documented as returning at most 500 characters (ai_generator.py:647), but the code asks for 400 to 600 and returns the text even when the recovery failed.

Each of these is stated by a lemma in the table below.

## Model

| member | source | states |
|---|---|---|
| AIConfigs.CreateAIClient | ai_generator.py:285-292 | OpenAI and Gemini configurations get their client; Anthropic, the only other provider, fails with "Unsupported provider: …" |
| AIConfigs.CreateGeneratorConfig | ai_generator.py:782-815 | exactly the names "openai" and "gemini" are accepted; the model falls back to the provider default when absent or empty; every other field takes the dataclass default (4096 tokens, 2500–4000 characters, 3 retries) |
| AIConfigs.CreatedConfigHasClient | ai_generator.py:782-815 | any configuration `create_generator` accepts has a client, so its generator construction cannot fail |
| AIConfigs.GeminiGeneratorIgnoresPreset | ai_generator.py:55-63 | `create_generator("gemini")` does not use the module's Gemini preset (8192 tokens); the OpenAI default equals its preset |
| Recovery.TemplateQuotes | ai_generator.py:426-450 | a prompt built as header, number, middle, quoted text, tail contains both the number and the quoted text |
| Recovery.ExpansionPromptQuotes | ai_generator.py:426-437 | the expansion prompt contains the current text and the number shortage + 200 |
| Recovery.SummaryPromptQuotes | ai_generator.py:439-450 | the summary prompt contains the current text and the target length |
| Recovery.IntToStringIsNumber | ai_generator.py:428 | the decimal rendering of a number is a well-formed number text |
| Recovery.NumberPrefixDigit | ai_generator.py:428 | when one number text is a strict prefix of a longer one, the next character is a digit |
| Recovery.NumberPrefixUnique | ai_generator.py:428 | a number text followed by a non-digit can be split off uniquely |
| Recovery.IntToStringInjective | ai_generator.py:428 | distinct numbers render as distinct texts |
| Recovery.CancelPrefix | ai_generator.py:426-450 | a common prefix cancels from equal texts |
| Recovery.TemplateInjective | ai_generator.py:426-450 | a template instance determines its number, its quoted text and its tail |
| Recovery.ExpansionPromptInjective | ai_generator.py:426-437 | two equal expansion prompts quote the same text and ask for the same shortage |
| Recovery.SummaryPromptInjective | ai_generator.py:439-450 | two equal summary prompts quote the same text and name the same target |
| Recovery.RecoverFrom | ai_generator.py:360-417 | the recovery loop from a given state; its lemmas (`RecoveryFacts.LoopOutcome`, `LoopConsistent`, `RetriesBounded`) state how it ends, that the history stays chained and that retries stay within `max_retry` |
| Recovery.RecoverySpec | ai_generator.py:317-424 | the whole `generate_with_recovery`; its lemmas state the initial failure, the in-range result when not "failed", the chained history, expansion keeping the first reply as a prefix and a summary replacing the text |
| Recovery.StepInRange | ai_generator.py:365-368 | a length in range ends the loop with status "success" before any retry, "recovered" after one |
| Recovery.StepRaised | ai_generator.py:391-394 | a raising recovery call ends the loop "failed", with the retry counted and the request recorded |
| Recovery.StepExpand | ai_generator.py:373-389 | a short text gets the reply appended after a blank line and an expansion entry (before, after, retry) |
| Recovery.StepSummarize | ai_generator.py:396-412 | a long text is replaced by the reply and a summary entry (before, after, retry) is recorded |
| Recovery.GenerateWithRecovery | ai_generator.py:317-424 | the method's result and the requests it sends are those of the recovery specification for the given replies |
| Recovery.RecoveryLoop | ai_generator.py:360-417 | the `while retry < max_retry` loop computes the specification's loop state from the first reply |
| RecoveryFacts.ChainedAppend | ai_generator.py:381-386 | an entry whose `before` is the last `after` and whose retry number follows keeps the history chained |
| RecoveryFacts.RequestsAppend | ai_generator.py:376-402 | an expansion request for a short text or a summary request for a long one, paired with its entry, keeps requests and entries in step |
| RecoveryFacts.LoopOutcome | ai_generator.py:360-417 | the loop ends "failed", in range, or with retries used up and status untouched; the retry count only grows and stays within `max_retry` |
| RecoveryFacts.LoopConsistent | ai_generator.py:360-417 | the loop keeps the history chained, the reported length correct and one request per entry |
| RecoveryFacts.LoopExpansionsAppend | ai_generator.py:380 | while only expansions happen the text only grows at its end |
| RecoveryFacts.LoopSummaryIsReply | ai_generator.py:403 | after a summary entry the text is exactly the reply to that summary request |
| RecoveryFacts.NotFailedMeansInRange | ai_generator.py:418-422 | the reported count is the text's length; a result that is not "failed" is in range; retries used up with the length out of range give "failed" |
| RecoveryFacts.RetriesBounded | ai_generator.py:361-371 | `retry_count` never exceeds `max_retry`, so the provider is called at most `1 + max_retry` times |
| RecoveryFacts.InitialFailure | ai_generator.py:355-358 | a raising first call gives an empty "failed" result after exactly one request |
| RecoveryFacts.HistoryChained | ai_generator.py:381-409 | entries are numbered 1, 2, … and chained from the first reply's length to the final length, one request per entry, no entry for a raising call |
| RecoveryFacts.ExpansionsKeepPrefix | ai_generator.py:380 | when every recovery was an expansion, the first reply is a prefix of the final text |
| RecoveryFacts.SummaryReplaces | ai_generator.py:403 | when the last recovery was a summary, the final text is that reply, whole |
| RecoveryFacts.ZeroBoundsFallBack | ai_generator.py:338-339 | `min_chars=0` and `max_chars=0` behave as if absent: the configured bounds are used |
| RecoveryFacts.LastRetryRecoveryStaysSuccess | ai_generator.py:362-422 | a text brought into range by the last permitted retry keeps the status "success" with one retry recorded |
| RecoveryFacts.EarlierRecoveryIsRecovered | ai_generator.py:365-368 | the same text reaching range with a retry to spare is marked "recovered" |
| ContentGeneration.NewContentGenerator | ai_generator.py:460-474 | the constructor succeeds exactly when the configuration has a client, and raises the client's error otherwise |
| ContentGeneration.CreateGenerator | ai_generator.py:782-815 | a generator is made for exactly "openai" and "gemini", with the configuration `create_generator` chooses |
| ContentGeneration.GenerateBlock | ai_generator.py:486-522 | the block carries its id and the recovered text, count, status, retries and history |
| ContentGeneration.GenerateBlocks | ai_generator.py:559-576 | the `for` loop over the prompts yields the specification's blocks in prompt order and their total count |
| ContentGeneration.GenerateStep | ai_generator.py:524-583 | without a prompt generator the step raises; a raising prompt generator's error is passed on; otherwise the result is the step specification |
| ContentGeneration.StreamFramesAt | ai_generator.py:608-634 | the frames from block `i` on are its start, chunk and end frames followed by those of the later blocks, unless its stream raises |
| ContentGeneration.GenerateStepStream | ai_generator.py:585-634 | the frames yielded are those of the stream specification |
| ContentGeneration.StreamBlocks | ai_generator.py:608-634 | the loop over the prompts yields the specification's frames; a raising stream ends it with an error |
| ContentGeneration.StreamChunks | ai_generator.py:617-627 | one chunk frame per chunk, in order, and the accumulated text is their concatenation |
| ContentGeneration.DropStep | ai_generator.py:608-618 | advancing past one block's stream leaves the later streams in place |
| ContentGeneration.GenerateUserProfile | ai_generator.py:636-661 | the profile is the text recovered with bounds 400–600, returned whatever its status, as the profile specification says; it is between 400 and 600 characters unless the recovery failed |
| ContentGeneration.StepSpec | ai_generator.py:524-583 | `generate_step`; `ContentFacts.StepSpecShape` states one block per prompt in prompt order, the total as the sum of counts and "partial" exactly when some block failed |
| ContentGeneration.StreamSpec | ai_generator.py:585-634 | `generate_step_stream`; `ContentFacts.StreamStarts`, `StreamEnds` and `StreamError` state which blocks start and end, in order, with their text lengths, and when the run errs |
| ContentGeneration.ProfileSpec | ai_generator.py:636-678 | `generate_user_profile`; `ContentFacts.ProfileShape` and `ProfileIsFirstReply` state the prompt used and that the text recovered with bounds 400–600 is returned whatever its status: "" when the first call raises, between 400 and 600 characters unless the recovery failed |
| ContentFacts.StepBlockShape | ai_generator.py:559-576 | a step block keeps its id, is its prefix, a newline and the generated text, counts only the generated text, and a block not failed is within [min, 2 × min] |
| ContentFacts.SumCountsAppend | ai_generator.py:574 | the step total adds up over any split of the blocks |
| ContentFacts.NoneFailedIff | ai_generator.py:578-583 | "no block failed" holds exactly when every block's status is not "failed" |
| ContentFacts.SumCountsNonNegative | ai_generator.py:574 | the total is non-negative and bounds every block's count |
| ContentFacts.StepSpecShape | ai_generator.py:559-583 | one block per prompt in prompt order, the total is the sum of the counts, and "partial" exactly when some block failed |
| ContentFacts.FramesAppend | ai_generator.py:608-634 | block starts, block ends and chunk texts distribute over concatenated frames |
| ContentFacts.StartsAppend | ai_generator.py:610-614 | the block-start ids of concatenated frames are concatenated |
| ContentFacts.EndsAppend | ai_generator.py:630-634 | the block-end pairs of concatenated frames are concatenated |
| ContentFacts.ChunkTextAppend | ai_generator.py:623-627 | a block's chunk text over concatenated frames is the concatenation |
| ContentFacts.ChunkFramesText | ai_generator.py:622-627 | one block's chunk frames carry exactly its chunks and no text for any other block |
| ContentFacts.BlockFrames | ai_generator.py:610-627 | a block's start and chunk frames name it once as started and carry only its text |
| ContentFacts.TailAt | ai_generator.py:618 | the stream of block `i + 1` is the stream at `i` of the remaining streams |
| ContentFacts.StreamUnfold | ai_generator.py:608-634 | a first block that does not raise contributes its start, chunks and end before the later blocks' frames |
| ContentFacts.StreamCons | ai_generator.py:608-634 | the block starts, ends and chunk texts of a step decompose into its first block's and the rest's |
| ContentFacts.BlockThenRest | ai_generator.py:608-634 | one block's frames followed by `rest`: its id, its length and its text come first |
| ContentFacts.BlockThenRestStarts | ai_generator.py:610-614 | the block's id precedes the later block starts |
| ContentFacts.BlockThenRestEnds | ai_generator.py:630-634 | the block's end pair, with the length of its text, precedes the later ends |
| ContentFacts.BlockThenRestText | ai_generator.py:622-627 | the block's text precedes the later frames' text for the same id |
| ContentFacts.StreamError | ai_generator.py:618-621 | a streamed step ends without error exactly when no block's stream raises |
| ContentFacts.StreamStarts | ai_generator.py:608-614 | the block starts name a prefix of the blocks in prompt order, all of them when the run completes |
| ContentFacts.StreamEnds | ai_generator.py:628-634 | a completed run ends every block in order, each with the length of the text its chunks carried |
| ContentFacts.ForeignChunkText | ai_generator.py:623-627 | a block id that no prompt carries gets no chunk text |
| ContentFacts.ProfileIsFirstReply | ai_generator.py:636-661 | a first reply already within 400–600 characters is the profile, so a profile can exceed 500 characters; with no retry allowed the first reply is the profile whatever its length |
| ContentFacts.ProfileShape | ai_generator.py:636-678 | without a prompt generator the prompt quotes the variables' JSON; a raising first call gives ""; a result not failed is 400–600 characters |
| Sessions.CombineVariables | ai_generator.py:756-758 | the `update` loop over the steps computes the merge of their variables in order |
| Sessions.Contents | ai_generator.py:772-773 | one content per block |
| Sessions.AppendContents | ai_generator.py:772-773 | the inner loop appends the block contents, in block order, to the parts collected so far |
| Sessions.SessionManager.constructor | ai_generator.py:697-699 | a manager with the given generator and no session |
| Sessions.SessionManager.GetSession | ai_generator.py:716-718 | a session is found exactly when its id is stored, and it is the stored one |
| Sessions.SessionManager.CreateSession | ai_generator.py:701-714 | a fresh session replaces any with the same id; no other session changes |
| Sessions.SessionManager.GenerateStep | ai_generator.py:720-761 | the new session table and the result or error are those of the step outcome specification |
| Sessions.SessionManager.RecordStep | ai_generator.py:749-761 | recording the result and perhaps deriving the profile give the specification's sessions and result |
| Sessions.SessionManager.GetFullContent | ai_generator.py:763-775 | the text is the specification's full content: the completed steps' block contents joined by blank lines |
| Sessions.StepOutcome | ai_generator.py:720-761 | `SessionManager.generate_step`; `SessionFacts.UnknownSession`, `StepOutcomeEffects` and `StepOutcomeProfile` state the raise for an unknown id, that only the session changes, and when the profile is derived |
| Sessions.FullContent | ai_generator.py:763-775 | `get_full_content`; `SessionFacts.FullContentAfterNewStep` states that a step's first generation appends exactly its block contents |
| SessionFacts.UnknownSession | ai_generator.py:727-729 | an unknown session id raises "Session not found: …" and changes nothing |
| SessionFacts.StepOutcomeEffects | ai_generator.py:727-761 | a raising step changes nothing; otherwise only session `id` changes: the step is appended even when already completed, its result stored, the total grows by its count |
| SessionFacts.RecordedFacts | ai_generator.py:749-752 | recording appends the step once more, stores the result under it alone and adds its total |
| SessionFacts.AfterStepSessions | ai_generator.py:749-761 | after the step only session `id` changes, into the recorded session with perhaps a new profile |
| SessionFacts.StepOutcomeProfile | ai_generator.py:754-759 | the profile is derived only after step "2-A" of a session without a profile, from the merged variables of 1-A, 1-B and 2-A; a raising derivation leaves the step recorded and raises |
| SessionFacts.CombineGet | ai_generator.py:756-758 | in the merged variables each key reads the value of the latest step that defines it |
| SessionFacts.ContentPartsFrame | ai_generator.py:769-773 | storing a result for a step not among `steps` leaves their contents alone |
| SessionFacts.FullContentAfterNewStep | ai_generator.py:720-775 | a step's first generation adds exactly its block contents, in block order, at the end of the full content |
| SessionFacts.ContentPartsAppend | ai_generator.py:769-773 | appending a new step with its result adds that result's block contents at the end |
| SessionFacts.AfterStepRecorded | ai_generator.py:749-752 | whether or not the profile is derived, the step is appended and its result stored in session `id` |
| Chart.NthIndex | astro_calculator.py:48-61 | the table lookup helper reads the element at its index |
| Chart.SignNumber | astro_calculator.py:20 | every sign has a position 0..11 in `SIGNS` |
| Chart.SignKeyInjective | astro_calculator.py:20 | the twelve sign keys are different, so a key determines its sign |
| Chart.PyIndex | astro_calculator.py:152 | Python list indexing: defined exactly for −n ≤ i < n, negative indices counting from the end |
| Chart.LongitudeToSign | astro_calculator.py:148-152 | whenever a sign is found, the degree lies in [0, 30) |
| Chart.LongitudeToSignInRange | astro_calculator.py:148-152 | for 0 ≤ L < 360 the sign is number ⌊L/30⌋ and 30·index + degree = L |
| Chart.LongitudeToSignNegative | astro_calculator.py:150-152 | a longitude in [−360, 0) reads the sign list from the end and so gives the sign of L + 360 |
| Chart.LongitudeToSignFails | astro_calculator.py:150-152 | `SIGNS[...]` raises exactly for longitudes outside [−360, 360) |
| Chart.SabianDegree | astro_calculator.py:155-157 | `get_sabian_degree`; `Chart.SabianDegreeRange` states the result is 1..30, the ceiling of a positive degree |
| Chart.Normalized | astro_calculator.py:160-166 | `normalize_degree`; `Chart.NormalizedRange` and `NormalizedUnique` state it is the only d + 360·k in [0, 360) |
| Chart.AspectAngle | astro_calculator.py:169-174 | `calculate_aspect_angle`; `Chart.AspectAngleFacts` states it is symmetric and lies in [0, 180] |
| Chart.SabianDegreeRange | astro_calculator.py:155-157 | for a degree in [0, 30) the Sabian degree is in 1..30, the ceiling of a positive degree |
| Chart.NormalizeDegree | astro_calculator.py:160-166 | the two `while` loops compute the normal form: the value d + 360·k in [0, 360) |
| Chart.NormalizedUnique | astro_calculator.py:160-166 | the normal form is the only d + 360·k in [0, 360) |
| Chart.FloorIs | astro_calculator.py:150 | a real between n and n + 1 has floor n |
| Chart.NormalizedRange | astro_calculator.py:160-166 | the normal form lies in [0, 360), differs by a multiple of 360, and leaves [0, 360) unchanged |
| Chart.AspectAngleFacts | astro_calculator.py:169-174 | the angle is symmetric and, for longitudes in [0, 360), lies in [0, 180] as the difference or its complement to 360 |
| Chart.FirstAspectFrom | astro_calculator.py:361-376 | a found aspect lies at or after the starting position of the table |
| Chart.FirstAspectFromSpec | astro_calculator.py:361-376 | the search finds the first aspect whose orb admits the angle, and none when no orb does |
| Chart.GroupOf | astro_calculator.py:389-392 | the first group holding the sign, and none exactly when no group holds it |
| Chart.GroupOfFirst | astro_calculator.py:389-392 | a group list whose first group holding the sign is `g` answers `g` |
| Chart.SignGroups | astro_calculator.py:33-45 | each sign is in element SignNumber mod 4 and modality SignNumber mod 3 and in no earlier group |
| Chart.SignElement | astro_calculator.py:33-38 | the element loop finds each sign in group SignNumber mod 4 |
| Chart.SignModality | astro_calculator.py:41-45 | the modality loop finds each sign in group SignNumber mod 3 |
| Chart.FirstMax | astro_calculator.py:397 | `max(counts, key=counts.get)`: the first key with the largest count |
| Chart.FirstMin | astro_calculator.py:398 | `min(counts, key=counts.get)`: the first key with the smallest count |
| Chart.HouseFrom | astro_calculator.py:332-346 | the house is the first cusp interval containing the longitude (wrapping at 360), 12 when none does |
| Chart.House | astro_calculator.py:330-348 | every planet's house is in 1..12 |
| Chart.DegreeFormatted | astro_calculator.py:247 | `f"{int(degree)}°{int((degree % 1) * 60):02d}'"`; `Chart.DegreeFormattedMinutes` and `DegreeFormattedReadsBack` state its shape and that it reads back as the degree to the minute |
| Chart.DegreeFormattedReadsBack | astro_calculator.py:247 | for a non-negative degree the text is the whole degrees, °, two minute digits and '; both numbers read back, and degree + minutes/60 is the degree rounded down to the minute |
| Chart.MinutesBracket | astro_calculator.py:247 | the whole degrees plus the minutes over 60 lie at most one minute below a non-negative degree, never above it |
| Chart.DegreeFormattedMinutes | astro_calculator.py:247 | for a non-negative degree the minutes are 0..59, written with two digits that read back as themselves |
| Chart.FloorBelow | astro_calculator.py:247 | a real in [0, n) has its floor in 0..n−1 |
| Chart.TwoDigits | astro_calculator.py:247 | `:02d` of 0..99 is two digits reading back as the number |
| AstroCalc.HousesOutcome | astro_calculator.py:278-348 | `_calculate_houses` with `_assign_planets_to_houses`; `AstroFacts.HousesRecorded`, `EveryPlanetHoused` and `HousesOutcomeAgree` state when it raises, that every planet gets a house in 1..12 and that no sign changes |
| AstroCalc.AllAspects | astro_calculator.py:350-376 | `_calculate_aspects`; `AstroAnalysis.AllAspectsMembers` states an aspect is recorded exactly for the pairs i < j some orb admits |
| AstroCalc.ElementVariables | astro_calculator.py:489-498 | step "1-A"; `AstroAnalysis.StepOneAVariables` states the four counts and the dominant and lacking elements |
| AstroCalc.ModalityVariables | astro_calculator.py:500-512 | step "1-B"; `AstroAnalysis.StepOneBCounts` and `StepOneBAngle` state the three counts and each angle's Japanese sign and formatted degree, or "" for a missing angle |
| AstroCalc.LuminaryVariables | astro_calculator.py:514-537 | step "2-A"; `AstroAnalysis.StepTwoALuminary` and `SunMoonVariablesFacts` state the sun's and moon's sign, house, degree and Sabian degree and the first sun–moon aspect |
| AstroCalc.PersonalPlanetVariables | astro_calculator.py:539-557 | step "2-B"; `AstroAnalysis.StepTwoBPlanet` and `StepTwoBMissing` state each planet's sign, house and retrograde flag, or "", 0, false when missing |
| AstroCalc.BodiesUpToNext | astro_calculator.py:225-255 | one more round of the planet loop assigns the next body's entry, if it has one, over the dictionary so far |
| AstroCalc.AssignHouses | astro_calculator.py:330-348 | assigning houses keeps one entry per planet |
| AstroCalc.Zeros | astro_calculator.py:380 | the counts start at zero, one per group |
| AstroCalc.GroupCounts | astro_calculator.py:386-392 | one count per group |
| AstroCalc.Balance | astro_calculator.py:394 | the balance pairs each group name with its count, in group order |
| AstroCalc.PresentCount | astro_calculator.py:386-387 | at most as many present as there are main planets |
| AstroCalc.Filter | astro_calculator.py:449-452 | a list comprehension keeps exactly the elements passing the test |
| AstroCalc.AstroCalculator.constructor | astro_calculator.py:184-211 | the coordinates are those of the birth place; every result starts empty |
| AstroCalc.AstroCalculator.CalculateAll | astro_calculator.py:213-221 | planets, houses, angles, aspects and both balances are those the five calculations compute in order from what the ephemeris reports |
| AstroCalc.AstroCalculator.PlaceBodies | astro_calculator.py:215-216 | the planets with the south node, then the houses and angles and each planet's house |
| AstroCalc.AstroCalculator.AnalyzeChart | astro_calculator.py:217-219 | the aspects of the placed planets are appended; both balances and analyses are computed from the placed planets |
| AstroCalc.AstroCalculator.CalculatePlanets | astro_calculator.py:223-276 | one entry per body the ephemeris could place with a sign, then the south node |
| AstroCalc.AstroCalculator.RecordPlanets | astro_calculator.py:225-255 | the planet loop assigns the entries of the placed bodies in `PLANETS` order |
| AstroCalc.AstroCalculator.CalculateHouses | astro_calculator.py:278-324 | the houses, angles and planet houses are those of the houses outcome, and a raised error stops the rest |
| AstroCalc.AstroCalculator.RecordCusps | astro_calculator.py:285-296 | the cusp loop assigns houses 1..12 in order until a cusp has no sign |
| AstroCalc.AstroCalculator.RecordAngles | astro_calculator.py:299-318 | the angle loop assigns asc, mc, ic and dc in order until an angle has no sign |
| AstroCalc.AstroCalculator.AssignPlanetsToHouses | astro_calculator.py:326-348 | each planet gets the house its longitude falls in; nothing else changes |
| AstroCalc.AstroCalculator.CalculateAspects | astro_calculator.py:350-376 | every pair i < j in dictionary order contributes at most its first admitted aspect, appended in loop order |
| AstroCalc.AstroCalculator.AnalyzeElementBalance | astro_calculator.py:378-406 | the element counts of the main planets present, with the first dominant and the first lacking element |
| AstroCalc.AstroCalculator.AnalyzeModalityBalance | astro_calculator.py:408-434 | the modality counts of the main planets present, with the first dominant and the first lacking modality |
| AstroCalc.AstroCalculator.GetPlanetInHouse | astro_calculator.py:436-445 | the entries whose house is `n`, in dictionary order |
| AstroCalc.AstroCalculator.GetAspectsForPlanet | astro_calculator.py:447-452 | exactly the recorded aspects that involve the planet |
| AstroCalc.AstroCalculator.GetVariablesForStep | astro_calculator.py:477-562 | step "1-A" raises exactly when the element analysis has not run; an unknown step gives no variables |
| AstroCalc.PairAspectFacts | astro_calculator.py:359-376 | a pair has an aspect exactly when some orb admits its angle; the aspect is the first such in table order and its orb is the difference |
| AstroCalc.ComputePlanet | astro_calculator.py:227-251 | the loop body computes the planet entry of the specification |
| AstroCalc.ComputeSouthNode | astro_calculator.py:258-276 | the south node entry of the specification, opposite the north node |
| AstroCalc.HouseOfLongitude | astro_calculator.py:331-346 | the inner loop with its `break` computes the house of the specification |
| AstroCalc.AspectRow | astro_calculator.py:355-376 | the inner loop collects entry i's aspects with every later entry |
| AstroCalc.FirstAspectOf | astro_calculator.py:361-376 | the aspect loop with its `break` finds the first admitted aspect |
| AstroCalc.CountGroups | astro_calculator.py:386-392 | each present main planet adds one to its first group |
| AstroCalc.HouseFromFirst | astro_calculator.py:334-346 | the first cusp interval containing the longitude is the house chosen |
| AstroAnalysis.RowFromMembers | astro_calculator.py:355-376 | row i holds exactly the aspects of i with the entries after it |
| AstroAnalysis.RowFromLength | astro_calculator.py:361-376 | a row holds at most one aspect per later entry |
| AstroAnalysis.RowsUpToMembers | astro_calculator.py:354-376 | the first n rows hold exactly the aspects of the pairs i < k with i < n |
| AstroAnalysis.RowsUpToLength | astro_calculator.py:354-376 | the first n rows hold at most one aspect per pair |
| AstroAnalysis.AllAspectsMembers | astro_calculator.py:350-376 | an aspect is recorded exactly for the pairs i < j whose angle some orb admits, at most n(n−1)/2 of them |
| AstroAnalysis.RecordedAspectHasPair | astro_calculator.py:350-376 | every recorded aspect comes from some pair i < j |
| AstroAnalysis.PairAspectRecorded | astro_calculator.py:350-376 | every pair with an aspect has it recorded |
| AstroAnalysis.SumZeros | astro_calculator.py:380 | the initial counts sum to zero |
| AstroAnalysis.SumIncrement | astro_calculator.py:391 | adding one to a single count adds one to the sum |
| AstroAnalysis.GroupCountsSum | astro_calculator.py:386-392 | when every sign lies in some group, each present main planet is counted exactly once |
| AstroAnalysis.BalanceCountsSum | astro_calculator.py:378-421 | the element counts and the modality counts each add up to the number of main planets present, at most 10 |
| AstroAnalysis.AnalysisFacts | astro_calculator.py:396-406 | the analysis keeps the counts and names the first largest group dominant and the first smallest lacking |
| AstroAnalysis.BalanceGet | astro_calculator.py:403-405 | with distinct names, `counts[name]` finds that group's count |
| AstroAnalysis.StepOneAVariables | astro_calculator.py:489-498 | after the element analysis, step "1-A" gives the four counts and the dominant and lacking elements |
| AstroAnalysis.StepOneBCounts | astro_calculator.py:500-505 | step "1-B" opens with the cardinal, fixed and mutable counts of the modality balance |
| AstroAnalysis.StepOneBAngle | astro_calculator.py:506-511 | each recorded angle gives its sign's Japanese name and, for ASC and MC, its formatted degree; an angle without a sign gives "" |
| AstroAnalysis.StepTwoALuminary | astro_calculator.py:514-537 | a placed sun or moon gives its Japanese sign, its house (0 when unassigned), its formatted degree and its Sabian degree, which is 1..30 |
| AstroAnalysis.LuminaryOf | astro_calculator.py:514-537 | the five variables of one luminary are read from its entry |
| AstroAnalysis.StepTwoBPlanet | astro_calculator.py:539-557 | a placed mercury, venus or mars gives its Japanese sign, its house (0 when unassigned) and whether its speed is negative |
| AstroAnalysis.PersonalPlanetOf | astro_calculator.py:539-557 | the four variables of one personal planet are read from its entry |
| AstroAnalysis.StepTwoBMissing | astro_calculator.py:539-557 | a planet without an entry gives "", 0 and false |
| AstroAnalysis.FilterFirst | astro_calculator.py:518-522 | the first element a filter keeps is the first element of the list that passes it |
| AstroAnalysis.SunMoonVariablesFacts | astro_calculator.py:518-536 | the sun–moon variables are the name and orb of the first sun–moon aspect, or なし and 0 without one |
| AstroFacts.PlanetKeysDistinct | astro_calculator.py:48-61 | the twelve keys of `PLANETS` are distinct and none is "south_node" |
| AstroFacts.BodiesUpToGet | astro_calculator.py:225-255 | after k bodies, body m's entry is the computed one when m < k and it was placed, and the old one otherwise |
| AstroFacts.BodiesUpToGetStep | astro_calculator.py:238-251 | placing one body changes only its own key |
| AstroFacts.PlanetsUpToGet | astro_calculator.py:225-255 | after the loop, each body's entry is computed from its position when placed with a sign, and untouched otherwise |
| AstroFacts.PlanetEntryFacts | astro_calculator.py:227-251 | an entry exists exactly when the longitude has a sign; it keeps names and position, the sign and degree, a Sabian degree in 1..30, and retrograde only for a negative speed of a body other than sun, moon and north node |
| AstroFacts.SouthNodeOpposite | astro_calculator.py:257-276 | the south node lies in [0, 360), 180° from the north node, never retrograde, at an angle of exactly 180 |
| AstroFacts.WithSouthNodeGet | astro_calculator.py:257-276 | the south node is added exactly when the north node was placed; no other key changes |
| AstroFacts.HouseAtFacts | astro_calculator.py:287-296 | a cusp raises exactly when it has no sign; otherwise its entry keeps the cusp and its sign and degree |
| AstroFacts.CuspsFromRaised | astro_calculator.py:285-296 | the cusp loop raises exactly when some remaining cusp has no entry |
| AstroFacts.CuspsFromFrame | astro_calculator.py:285-296 | the cusp loop touches only the house numbers still ahead |
| AstroFacts.CuspsFromRecorded | astro_calculator.py:285-296 | when the cusp loop does not raise, every remaining house holds its cusp's entry |
| AstroFacts.HousesRecorded | astro_calculator.py:280-296 | the cusp loop raises exactly when some cusp lies outside [−360, 360); otherwise house n holds cusp n − 1 |
| AstroFacts.AngleAtFacts | astro_calculator.py:306-318 | an angle raises exactly when it has no sign; otherwise its entry keeps its names and longitude |
| AstroFacts.AngleKeysDistinct | astro_calculator.py:299-304 | the four angle keys are distinct |
| AstroFacts.AnglesFromRaised | astro_calculator.py:306-318 | the angle loop raises exactly when some remaining angle has no entry |
| AstroFacts.AnglesFromFrame | astro_calculator.py:306-318 | the angle loop touches only the keys of the angles still ahead |
| AstroFacts.AnglesFromRecorded | astro_calculator.py:306-318 | when the angle loop does not raise, every remaining angle is recorded under its key |
| AstroFacts.AnglesRaise | astro_calculator.py:299-318 | IC and DC are normalised and always have a sign, so the loop raises exactly when the ascendant or midheaven has none; otherwise all four are recorded |
| AstroFacts.EveryPlanetHoused | astro_calculator.py:320-348 | when the houses are computed, every planet keeps its entry and gets a house in 1..12 |
| AstroFacts.PutSignNamesAgree | astro_calculator.py:243-245 | assigning an entry whose names match its sign keeps the whole dictionary matching |
| AstroFacts.BodiesUpToAgree | astro_calculator.py:225-255 | the planet loop keeps every entry's Japanese and English sign names matching its sign |
| AstroFacts.BodiesUpToAgreeStep | astro_calculator.py:238-251 | one round of the planet loop keeps the names matching |
| AstroFacts.WithSouthNodeAgree | astro_calculator.py:263-276 | adding the south node keeps the names matching |
| AstroFacts.HousesOutcomeAgree | astro_calculator.py:326-348 | assigning houses changes no sign and no name |
| AstroFacts.CalculatedSignNamesAgree | astro_calculator.py:213-221 | every entry `calculate_all` leaves carries the names of its own sign |
| Catalogue.FirstIn | api_server.py:324-327 | the first step of a catalogue session with the id, found exactly when one has it |
| Catalogue.FindStep | api_server.py:321-327 | the generation endpoint's nested loop ends with the first match of the last catalogue session holding the id |
| Catalogue.FirstInSkip | api_server.py:324-327 | skipping steps without the id does not change the first match |
| Catalogue.LastPartMatchNone | api_server.py:321-330 | with no catalogue session holding the id, the generation lookup finds nothing |
| Catalogue.LastPartMatchAt | api_server.py:321-327 | when session i is the last holding the id, the generation lookup returns its first match |
| Catalogue.StepContentNone | api_server.py:650-664 | with no catalogue session holding the id, `get_step_content` finds nothing (404) |
| Catalogue.StepContentAt | api_server.py:650-662 | when session i is the first holding the id, `get_step_content` returns its first match |
| Catalogue.LookupsAgree | api_server.py:321-327 | the two lookups agree when at most one catalogue session holds the id |
| Catalogue.LookupsDiffer | api_server.py:321-327 | when two catalogue sessions hold the id, generation takes the later one's step and `get_step_content` the earlier one's |
| Catalogue.Ids | api_server.py:675 | the step ids, one per step in order |
| Catalogue.StepIdsFacts | api_server.py:477 | the catalogue's step total counts every listed id, and an id is listed exactly when some session has it |
| Catalogue.StepsInfo | api_server.py:672-678 | one listing per step, with its id, chapter title and target, in catalogue order |
| Catalogue.SessionsStructure | api_server.py:667-685 | every catalogue session with its id, title, description and step listings, in order |
| ApiStore.NewStored | api_server.py:229-250 | the stored session `create_session` builds; `ApiFacts.NewStoredFacts` states it is well kept, holds the variables of 1-A, 1-B, 2-A, 2-B and nothing generated |
| ApiStore.VariablesOutcome | api_server.py:291-304 | `get_step_variables`; `ApiFacts.VariablesOnce` and `VariablesKeepStore` state that variables are computed at most once and the table stays well kept |
| ApiStore.GenerateOutcome | api_server.py:311-421 | `generate_step_content`; `ApiFacts.GenerateNotFound`, `GenerateKeepsStore`, `GenerateUpdatesSession` and `GenerateProfile` state the 404s, the one session changed, its bookkeeping and the profile rule |
| ApiStore.FullTextOf | api_server.py:505-539 | the full-text view; `ApiFacts.FullTextAfterNewStep` and `FullTextOfNew` state that a new step appends exactly its parts and a fresh session has none |
| ApiStore.PreviewOf | api_server.py:800-841 | the PDF preview; `ApiFacts.PreviewPartsFacts` and `PreviewStepsFacts` state its sections are the catalogue sessions with completed steps, listing exactly those steps with their counts |
| ApiStore.KeptUpdate | api_server.py:414-419 | replacing one session of a well-kept table by a well-kept session keeps the table well kept |
| ApiStore.Memo | api_server.py:333-337 | afterwards the step's variables are stored, computed by the calculator unless already there |
| ApiStore.GenerateOutcomeFound | api_server.py:332-421 | once session and step are found, the outcome is the updated session and the produced result |
| ApiStore.UpdateSession | api_server.py:414-419 | the update block computes the stored session of the specification, field by field |
| ApiStore.DynamicContent | api_server.py:379-381 | the loop over the result's blocks builds the dynamic content of the specification |
| ApiStore.AppendStatic | api_server.py:519-524 | the loop over static entries appends the step's static parts |
| ApiStore.AppendDynamic | api_server.py:527-530 | the loop over dynamic entries appends the non-empty ones |
| ApiStore.CollectPreviewSteps | api_server.py:826-836 | the preview's inner loop lists the completed steps of one catalogue session |
| ApiStore.SessionStore.constructor | api_server.py:151-167 | an empty session table over the given catalogue |
| ApiStore.SessionStore.CreateSession | api_server.py:204-263 | a fresh session is stored under the new id; the table stays well kept |
| ApiStore.SessionStore.GetStepVariables | api_server.py:291-304 | an unknown session gives 404; otherwise the variables are memoised and returned |
| ApiStore.SessionStore.MemoVariables | api_server.py:299-302 | the session gets the step's variables stored unless it already holds them; only that session changes |
| ApiStore.SessionStore.GenerateStepContent | api_server.py:311-421 | the new table and the result or 404 are those of the generation outcome specification |
| ApiStore.SessionStore.ProduceAndRecord | api_server.py:332-421 | variables memoised, result produced, session updated by the update block |
| ApiStore.SessionStore.RecordResult | api_server.py:339-419 | the session is marked "generating" while a generator runs, then replaced by the update block applied to the result; the table stays well kept |
| ApiStore.SessionStore.ProduceResult | api_server.py:339-412 | a placeholder when no generator is configured, the generator's result otherwise |
| ApiStore.SessionStore.GenerateWithGenerator | api_server.py:357-412 | the step is generated (an exception becomes an error result), then on "2-A" without a profile the profile is derived, a failure leaving it unset |
| ApiStore.SessionStore.GenerationStatus | api_server.py:470-486 | 404 exactly for an unknown session; otherwise the last completed step or "", the catalogue's step total, the number of completed steps, status and total |
| ApiStore.SessionStore.GetFullText | api_server.py:505-539 | 404 for an unknown session; otherwise the full-text view of the specification |
| ApiStore.SessionStore.PreviewPdfStructure | api_server.py:800-841 | 404 for an unknown session; otherwise the preview of the specification |
| ApiFacts.GenerateNotFound | api_server.py:316-330 | an unknown session fails with "Session not found", a step in no catalogue session with "Step not found", both changing nothing; otherwise the call succeeds |
| ApiFacts.LastHolder | api_server.py:323-327 | when some catalogue session holds the id, there is a last one that does |
| ApiFacts.GenerateSucceeded | api_server.py:316-421 | a successful generation is the update block applied to the session with its variables memoised |
| ApiFacts.StoredBookkeeping | api_server.py:414-419 | the step is listed (once if it was listed at most once), its result replaces the old one and no other, the total grows by the result's count, status "created" after an error and "generated" otherwise |
| ApiStore.StoredWellKept | api_server.py:414-417 | the update block keeps every completed step listed once and content exactly for the completed steps |
| ApiFacts.ListedOnce | api_server.py:415-416 | in a well-kept session a listed step occupies exactly one position |
| ApiFacts.GenerateKeepsStore | api_server.py:311-421 | a generation keeps the session ids, changes only the requested session and keeps every session well kept |
| ApiFacts.GenerateUpdatesSession | api_server.py:414-419 | the step ends up listed exactly once, its result stored, its count added again on re-generation, the status set by the result |
| ApiFacts.GenerateResult | api_server.py:342-412 | a placeholder counting 0 exactly without a generator; otherwise an error result counting 0 with no dynamic content, or the generator's blocks and total |
| ApiFacts.GenerateProfile | api_server.py:392-401 | the profile changes only on "2-A" of a session without one, when the generator produced the step, and becomes the derived profile |
| ApiFacts.GenerateMemoises | api_server.py:333-337 | the step's variables are memoised; variables computed before are kept |
| ApiFacts.MemoKeeps | api_server.py:299-302 | memoising keeps every variables entry already stored |
| ApiFacts.VariablesOnce | api_server.py:291-304 | variables are computed at most once per session and step: asking again changes nothing and returns the same |
| ApiFacts.VariablesKeepStore | api_server.py:291-304 | a variables request keeps the session ids and every session well kept |
| ApiFacts.NewStoredFacts | api_server.py:229-250 | a fresh session is well kept, holds the variables of 1-A, 1-B, 2-A and 2-B, and has nothing generated |
| ApiFacts.StatusAfterNewStep | api_server.py:470-486 | after a new step the status view reports it as current and counts one more step |
| ApiFacts.DynamicPartsFacts | api_server.py:527-530 | every dynamic part is a non-empty value, and every non-empty value is a part |
| ApiFacts.StaticPartsFacts | api_server.py:519-524 | each dict with a text is a part under "## title-or-key", each string is a part, and nothing else adds a part |
| ApiFacts.TextPartsFrame | api_server.py:515-530 | the rendered parts of steps depend only on those steps' stored results |
| ApiFacts.FullTextAfterNewStep | api_server.py:414-418 | generating a step not yet completed appends exactly its parts to the full text's parts |
| ApiFacts.FullTextOfNew | api_server.py:505-539 | a session with no completed step has an empty full text with count 0 |
| ApiFacts.DynamicOfFacts | api_server.py:379-381 | the dynamic content has a key exactly per block and, with distinct ids, each block's content under its id |
| ApiFacts.DynamicOfKeys | api_server.py:379-381 | a key is present exactly when some block has that id |
| ApiFacts.DynamicOfValues | api_server.py:379-381 | with distinct ids each block's content is stored under its id |
| ApiFacts.PreviewStepsFacts | api_server.py:826-836 | a catalogue session's preview lists exactly its completed steps, each with its stored count |
| ApiFacts.PreviewStepsHaveContent | api_server.py:829-835 | in a well-kept session every previewed step has content and the count stored for it |
| ApiFacts.PreviewPartsFacts | api_server.py:819-839 | the preview's sections are exactly the catalogue sessions with a completed step, none empty |
| Places.Lookup | astro_calculator.py:132-138 | `get_coordinates`; `Places.LookupFirst` states it gives the first matching entry, or the fallback exactly when none matches |
| Places.FirstMatch | astro_calculator.py:134-136 | a match found lies at or after the starting entry |
| Places.FirstMatchSpec | astro_calculator.py:134-136 | the entry found matches by containment in either direction and none before it does; none found means none matches |
| Places.LookupFirst | astro_calculator.py:132-138 | the coordinates of the first matching entry, or the fallback exactly when no entry matches |
| Places.Fallbacks | astro_calculator.py:86-87 | the fallback entries are 東京都 in the chart calculator's table and 東京都新宿区 in the service's |
| Places.EmptyPlace | main.py:61-65 | an empty place is contained in every name, so it gets the first entry (Sapporo) in both tables |
| Places.AstroHeadsBeforeTokyo | astro_calculator.py:74-86 | no entry before 東京都 starts with a character of 東京都新宿区 |
| Places.MainHeadsBeforeShinjuku | main.py:11-23 | no entry before 東京都新宿区 starts with a character of it |
| Places.LookupFindsEntry | astro_calculator.py:134-136 | when entry k matches and no earlier entry can, the lookup returns entry k |
| Places.ShinjukuGetsTokyo | astro_calculator.py:132-138 | in the chart calculator 東京都 comes first and is contained in 東京都新宿区, so Shinjuku gets Tokyo's coordinates |
| Places.ShinjukuGetsShinjuku | main.py:61-67 | the service's table has no 東京都 entry, so Shinjuku gets its own coordinates |
| Places.NoCommonPrefixMeansNoMatch | main.py:64 | two non-empty names, neither containing the other's first character, do not match |
| BirthApp.SignJapanese | main.py:69-76 | `get_sign_japanese`; `BirthApp.SignJapaneseFacts` states each abbreviation gets its Japanese name and other text comes back unchanged |
| BirthApp.DegreeToSignAndDegree | main.py:78-83 | `degree_to_sign_and_degree`; `BirthApp.DegreeToSignAndDegreeFacts` states it raises exactly outside [−360, 360) and decomposes the longitude otherwise |
| BirthApp.ParseDate | main.py:116 | the date split at "-" into three integers; `BirthApp.ParseDateOf` and `ParseDateOfIso` state that written dates read back |
| BirthApp.ParseTime | main.py:117 | the time split at ":" into two integers; `BirthApp.ParseTimeOf` and `ParseTimeOfClock` state that written times read back |
| BirthApp.DateLabel | main.py:213 | `f"{year}年{month:02d}月{day:02d}日"`; `BirthApp.LabelDateOfDateLabel` states every label reads back as its date |
| BirthApp.Angles | main.py:172-190 | the ASC/MC block with its fallback; `BirthApp.AnglesFacts` states each angle decomposes its longitude and the fallback is 0° Ari and 0° Can |
| BirthApp.PlanetsData | main.py:142-201 | the body list and the Midheaven; `BirthApp.PlanetsDataFacts` states the bodies come first, at most one per body, and the Midheaven last |
| BirthApp.CalculateAstrology | main.py:103-227 | the route; `BirthApp.CalculateAstrologyBirthInfo`, `CalculateAstrologyAngles` and `MissingDateFails` state when it answers and what the reply holds |
| BirthApp.SignOfKey | main.py:71-76 | the sign found has the key; none found means no sign has it |
| BirthApp.SignJapaneseFacts | main.py:69-76 | every sign abbreviation gets its Japanese name, and any other text comes back unchanged |
| BirthApp.DegreeToSignAndDegreeFacts | main.py:78-83 | indexing raises exactly outside [−360, 360); for 0 ≤ L < 360 the sign is number ⌊L/30⌋ and 30·⌊L/30⌋ + degree = L with the degree in [0, 30) |
| BirthApp.MapAll | main.py:116-117 | `map(int, …)` succeeds exactly when every piece converts as Python's `int()` reads it (whitespace around an optional sign and decimal digits of any script, single underscores between digits), giving each piece's value in order |
| BirthApp.ParseFields | main.py:116-117 | unpacking succeeds exactly when the split yields the expected number of pieces and each reads as an integer under `int()`'s rules (digits of any script, single underscores between digits) |
| BirthApp.FindCharAfter | main.py:116 | the first separator is right after a prefix that has none |
| BirthApp.SplitWhole | main.py:116-117 | text without the separator is not cut |
| BirthApp.SplitAtFirst | main.py:116-117 | text is cut at its first separator |
| BirthApp.DigitsHaveNoMarks | main.py:116-117 | a digit string holds none of "-", ":", 年, 月 |
| BirthApp.Pad2Digits | main.py:213 | `:02d` of a natural number is a digit string |
| BirthApp.SplitThree | main.py:116 | three pieces joined by the separator split back into those pieces |
| BirthApp.MapOne | main.py:116-117 | `map` over one convertible piece |
| BirthApp.MapTwo | main.py:117 | `map` over two convertible pieces |
| BirthApp.MapThree | main.py:116 | `map` over three convertible pieces |
| BirthApp.ParseDateOf | main.py:116 | three integers written with "-" between them read back as a date |
| BirthApp.ParseTimeOf | main.py:117 | two integers written with ":" between them read back as a time |
| BirthApp.ParseDateOfIso | main.py:116 | a date written `{y}-{mm}-{dd}` reads back as those numbers |
| BirthApp.ParseTimeOfClock | main.py:117 | a time written `{hh}:{mm}` reads back as those numbers |
| BirthApp.LabelDateFrom | main.py:213 | a label whose pieces around 年 and 月 read as integers reads back as that date |
| BirthApp.LabelOuter | main.py:213 | a label without its final 日 splits at 年 into the year and the rest |
| BirthApp.LabelInner | main.py:213 | the rest splits at 月 into month and day |
| BirthApp.LabelDateOf | main.py:213 | integers written with 年, 月, 日 after them read back as a date |
| BirthApp.NumberHasNoMarks | main.py:213 | `str(n)` and `:02d` hold neither 年 nor 月 |
| BirthApp.LabelDateOfDateLabel | main.py:213 | every date label `{year}年{MM}月{DD}日` reads back as the date it was written from |
| BirthApp.AnglesFacts | main.py:172-190 | each angle's sign and degree decompose its longitude; a failed house calculation gives ASC 0° Ari and MC 90° Can; otherwise the longitudes are the ephemeris's |
| BirthApp.DefaultAnglesConsistent | main.py:186-190 | the defaults are what the decomposition gives for 0° and 90° |
| BirthApp.BodyEntryOfFacts | main.py:144-170 | an entry exists exactly for a placed body with a sign; it keeps the names and longitude, its Japanese sign name matches, and the node is never retrograde |
| BirthApp.BodyEntriesFromFacts | main.py:144-170 | at most one entry per body, each from one of the bodies |
| BirthApp.BodyEntriesFromAll | main.py:144-170 | with every body placed in [0, 360), exactly one entry per body in list order |
| BirthApp.InRangeHasEntry | main.py:147-164 | a position in [0, 360) always gives an entry |
| BirthApp.PlanetsDataFacts | main.py:142-201 | the bodies come first, each well named, at most one per body; the Midheaven comes last with its sign from the angles and is never retrograde |
| BirthApp.CalculateAstrologyBirthInfo | main.py:103-227 | the route answers exactly when the date and the time (default 12:00) can be read, with `int()`'s rules for each piece (digits of any script, single underscores between digits); its date label reads back as the birth date and the time and place are echoed |
| BirthApp.CalculateAstrologyAngles | main.py:172-219 | in a reply the ascendant's sign decomposes its longitude with the matching Japanese name, and the body list ends with the Midheaven |
| BirthApp.MissingDateFails | main.py:109-116 | a request without a birth date fails |
| Text.FindFrom | main.py:116 | the first position at or after `i` where the separator occurs, none when it does not |
| Text.IsSubstringIff | astro_calculator.py:135 | `t in s` holds exactly when `t` occurs at some position of `s` |
| Text.IsSubstringTrivial | astro_calculator.py:135 | the empty string is in every string and every string is in itself |
| Text.IsSubstringOfConcat | ai_generator.py:428-431 | a string embedded between two others is in the result |
| Text.Split | pdf_generator.py:577 | `split` yields at least one piece |
| Text.JoinCons | ai_generator.py:775 | joining a head and a tail puts the separator between them |
| Text.JoinSplit | pdf_generator.py:577 | splitting and joining back with the same separator gives the text back |
| Text.SplitPiecesFree | pdf_generator.py:577 | no piece of a split contains the separator |
| Text.OutsideRanges | pdf_generator.py:579 | a character outside all the given ranges is in none of them |
| Text.VisibleAsciiNotSpace | pdf_generator.py:579 | printable ASCII other than the space is not whitespace |
| Text.AllSpaceTail | pdf_generator.py:579 | text is all whitespace exactly when its head is and its tail is |
| Text.AllSpaceInit | pdf_generator.py:579 | text is all whitespace exactly when its last character is and the rest is |
| Text.StripLeftFacts | pdf_generator.py:581 | `lstrip` keeps a suffix, empty exactly for all-whitespace text, otherwise starting with a non-space |
| Text.StripRightFacts | pdf_generator.py:581 | `rstrip` keeps a prefix, empty exactly for all-whitespace text, otherwise ending with a non-space |
| Text.StripFacts | pdf_generator.py:579-581 | `strip` gives "" exactly for all-whitespace text, and otherwise text with no whitespace at either end |
| Text.StripUnchanged | pdf_generator.py:581 | text with no whitespace at either end is left as it is |
| Text.ReplaceNewlinesFacts | pdf_generator.py:581 | replacing "\n" by "<br/>" leaves no line break, changes nothing without one and keeps non-empty text non-empty |
| Text.DigitChar | main.py:116 | a decimal digit character is a digit |
| Text.DigitValue | main.py:116 | a digit's value is below 10 |
| Text.DigitsValue | main.py:116 | the value of a digit string is non-negative |
| Text.NatToString | main.py:213 | `str(n)` of a natural number is a non-empty digit string |
| Text.IntToString | ai_generator.py:428 | `str(n)` is never empty |
| Text.DigitsOfNat | main.py:213 | the digits of `str(n)` have value n |
| Text.DigitsLeadingZero | main.py:213 | a leading zero does not change a digit string's value |
| Text.ParseIntOfDigits | main.py:116 | `int()` of a digit string is its value |
| Text.ParseIntOfNegativeDigits | main.py:116 | `int()` of a minus sign and digits is the negated value |
| Text.NegativeUnstripped | main.py:116 | a minus sign and digits have no whitespace to strip |
| Text.ParseStrippedNegative | main.py:116 | the stripped text "-digits" reads as the negated value |
| Text.ParseIntOfIntToString | main.py:116 | `int(str(n)) == n` |
| Text.Pad2 | main.py:213 | `:02d` pads 0..9 to two characters with a leading zero and leaves wider numbers as `str(n)` |
| Text.ParseIntOfPad2 | main.py:213 | padding does not change the value `int()` reads back |
| Text.ParseInt | main.py:116-117 | Python's `int()` in base 10: surrounding whitespace, an optional sign and a numeral of decimal digits of any script with single underscores between digits; `Text.ParseIntFullWidth`, `ParseIntUnderscore`, `DoubleUnderscoreRefused`, `InfoSeparatorRefused` and `ParseIntOfIntToString` state what it accepts and refuses |
| Text.DecimalValue | main.py:116 | a decimal digit of any script has a value 0..9, its offset from its block's zero |
| Text.NumeralValue | main.py:116 | the value of a numeral is non-negative; underscores add nothing |
| Text.AsciiDecimal | main.py:116 | an ASCII digit is a decimal digit with its usual value |
| Text.AsciiNumeral | main.py:116 | an ASCII digit string is a numeral whose value is its usual value |
| Text.UnderscoreIgnored | main.py:116 | an underscore between two parts does not change the numeral's value |
| Text.HighNotSpace | main.py:116 | no character above U+3000 is whitespace |
| Text.ParseIntOfNumeral | main.py:116 | `int()` of a numeral without surrounding whitespace is its value |
| Text.NumeralUnsigned | main.py:116 | a numeral without sign reads as its value |
| Text.FullWidth | main.py:116 | the full-width form of an ASCII digit string, each digit shifted by U+FEE0 |
| Text.FullWidthNumeral | main.py:116 | full-width digits form a numeral with the value of the ASCII digits |
| Text.ParseIntFullWidth | main.py:116 | `int()` reads full-width digits as the ASCII ones |
| Text.ParseIntUnderscore | main.py:116 | `int()` reads two digit runs joined by one underscore as their concatenation |
| Text.UnderscoreNumeral | main.py:116 | two digit runs joined by one underscore form a numeral with no whitespace or separators |
| Text.NumeralJoin | main.py:116 | two numerals joined by one underscore form a numeral |
| Text.DoubleUnderscoreRefused | main.py:116 | `int()` refuses two digit runs joined by two underscores |
| Text.NotSigned | main.py:116 | text that starts with a digit or an underscore and is not a numeral does not read |
| Text.ParseIntStrips | main.py:116 | without information separators, `int()` reads the stripped text |
| Text.InfoSeparatorRefused | main.py:116 | `int()` refuses digits after U+001C, which `str.strip()` would remove |
| Text.SignedDigitsPlain | main.py:116 | a minus sign followed by ASCII digits holds no information separator |
| Text.ParseIntUnstripped | main.py:116 | stripped text without information separators reads as its stripped reading |
| Dicts.Keys | astro_calculator.py:352 | `list(d.keys())`: one key per entry, in insertion order |
| Dicts.GetFirst | astro_calculator.py:440 | a key is present exactly when some entry carries it, and `get` finds its entry |
| Dicts.Put | api_server.py:417 | after `d[k] = v`, `d.get(k)` is `v`; the size grows exactly for a new key |
| Dicts.PutOther | api_server.py:417 | assignment leaves every other key's value as it was |
| Dicts.PutHasKey | api_server.py:417 | assignment adds exactly its own key |
| Dicts.PutOrder | api_server.py:417 | a new key is appended at the end; an existing key keeps the key order |
| Dicts.PutEntries | api_server.py:417 | assignment introduces no entry other than the assigned one |
| Values.Update | ai_generator.py:758 | `d.update(e)` keeps every key of `d` |
| Values.UpdateGet | ai_generator.py:758 | after `d.update(e)` a key of `e` reads its last value in `e`, any other key reads as in `d` |
| PdfStory.TextsConcat | pdf_generator.py:566-588 | the paragraph texts of a style distribute over concatenated stories |
| PdfStory.BreaksConcat | pdf_generator.py:453 | page breaks add up over concatenated stories |
| PdfStory.Framed | pdf_generator.py:425-453 | a story between a head and a tail shows the head's texts and breaks, then its own, then the tail's |
| PdfStory.PageBreakFacts | pdf_generator.py:453 | a page break shows no text and counts one break |
| PdfStory.Lines | pdf_generator.py:443-451 | one line per step |
| PdfStory.LinesConcat | pdf_generator.py:443-451 | the lines of concatenated step lists are concatenated |
| PdfStory.PiecesStep | pdf_generator.py:578-585 | one more piece extends the body by that piece's flowables |
| PdfStory.FormattedFacts | pdf_generator.py:579-581 | a piece is blank exactly when all whitespace; a non-blank one shows as a non-empty paragraph without line breaks |
| PdfStory.BodyOfShape | pdf_generator.py:577-585 | each non-blank piece gives one Body paragraph with its stripped, `<br/>`-joined text followed by a 3 mm spacer; blank pieces give nothing; order is kept |
| PdfStory.ShapedSnoc | pdf_generator.py:578-585 | adding a piece's flowables keeps the body shaped after the non-blank pieces |
| PdfStory.NonBlankMembers | pdf_generator.py:579 | the non-blank pieces are exactly those whose stripped text is non-empty |
| PdfStory.PieceTexts | pdf_generator.py:579-585 | a piece shows its formatted text as a Body paragraph when non-blank, and nothing else |
| PdfStory.BodyOfTexts | pdf_generator.py:577-585 | the body's Body paragraphs are the formatted non-blank pieces, in order; no other style, no break |
| PdfStory.Section | pdf_generator.py:566-588 | a section is empty exactly for empty content, and otherwise ends with a 4 mm spacer |
| PdfStory.SectionParts | pdf_generator.py:566-588 | a section's texts in a style are its title paragraph's, then its body's |
| PdfStory.SectionTexts | pdf_generator.py:566-588 | a section shows its title exactly when title and content are both non-empty, its formatted non-blank pieces as Body paragraphs, and no chapter, session or break |
| PdfStory.SectionStyleText | pdf_generator.py:566-588 | the texts a section shows in each style |
| PdfStory.TitleParaTexts | pdf_generator.py:572-574 | the title paragraph appears only for a non-empty title |
| PdfStory.FlatConcat | pdf_generator.py:502-558 | the sections of concatenated item lists are concatenated |
| PdfStory.SectionsOfOne | pdf_generator.py:566-588 | the sections of one item are that item's section |
| PdfStory.SectionsStep | pdf_generator.py:510-515 | a story holding the sections of earlier items grows by one more item's |
| PdfStory.SectionsOfConcat | pdf_generator.py:502-558 | the sections of concatenated item lists are concatenated |
| PdfStory.SectionsTexts | pdf_generator.py:502-558 | a run of sections shows exactly its shown titles, in item order, and no chapter, session or break |
| PdfStory.ShownTitlesConcat | pdf_generator.py:502-558 | the shown titles of concatenated item lists are concatenated |
| PdfStory.StaticItems | pdf_generator.py:502-522 | the static sections of a step; `PdfStory.StaticItemsSucceed` and `StaticItemsStop` state they build exactly when every key reads and raise once one does not |
| PdfStory.StaticItem | pdf_generator.py:503-522 | a static key reads without raising exactly when its entry is a dict or absent |
| PdfStory.StaticItemsSucceed | pdf_generator.py:502-522 | the static sections read without raising exactly when every key they look at holds a dict or nothing |
| PdfStory.DynamicItem | pdf_generator.py:526-558 | a dynamic key contributes a section exactly when present |
| PdfStory.DynamicItemsSnoc | pdf_generator.py:526-558 | one more dynamic key appends its section |
| PdfStory.StaticItemsSnoc | pdf_generator.py:510-515 | one more static key succeeds exactly when readable, appending its section |
| PdfStory.DynamicSectionsStep | pdf_generator.py:526-558 | one more dynamic key extends the story by its sections |
| PdfStory.TocPartsStep | pdf_generator.py:435-451 | one more catalogue session's entry and lines extend the listing |
| PdfStory.TocStepsStep | pdf_generator.py:443-451 | one more step's line, when completed, extends the listing |
| PdfStory.CompletedOf | pdf_generator.py:445 | the completed steps among a list, in order |
| PdfStory.PartLines | pdf_generator.py:436-441 | one entry per catalogue session |
| PdfStory.TocStepsFacts | pdf_generator.py:443-451 | a session's lines are those of exactly its completed steps, in catalogue order |
| PdfStory.TocPartsFacts | pdf_generator.py:435-451 | the listing shows one entry per catalogue session and exactly the completed steps, in order, without breaks |
| PdfStory.TableOfContents | pdf_generator.py:425-453 | `_build_table_of_contents`; `PdfStory.TocFacts` and `FramedTocFacts` state one entry per catalogue session and exactly the completed steps, in order |
| PdfStory.TocFacts | pdf_generator.py:425-453 | one session entry per catalogue session in order, exactly the completed steps in catalogue order, one break, and a final PageBreak |
| PdfStory.TocEntryFramed | pdf_generator.py:437-451 | a session entry between listings adds its line to the session entries and nothing to the step lines |
| PdfStory.ParaFramedOther | pdf_generator.py:437-451 | a paragraph of another style between two listings adds no text of the observed style and no page break |
| PdfStory.ParaFramedOwn | pdf_generator.py:437-451 | a paragraph between two listings adds exactly its own text, in place, to the texts of its style |
| PdfStory.FramedTocFacts | pdf_generator.py:427-453 | the heading, the listing and the page break: the listing's entries, one more break, and a PageBreak last |
| PdfStory.TocHeadFacts | pdf_generator.py:427-429 | the heading shows only 目次 and no break |
| PdfStory.StepFlowablesText | pdf_generator.py:489-561 | a completed step's flowables show its chapter line once and nothing of the other styles its sections lack |
| PdfStory.StepFlowablesBreaks | pdf_generator.py:489-561 | a completed step's flowables hold no page break |
| PdfStory.StepFlowablesTitles | pdf_generator.py:489-561 | a step's section titles are its static sections', then its dynamic sections' |
| PdfStory.ChapterHeadNoSection | pdf_generator.py:490-495 | the chapter line and its spacer show no section title |
| PdfStory.StepFlowablesSections | pdf_generator.py:502-558 | a step shows the shown titles of its static items followed by its dynamic items |
| PdfStory.StepSectionTitles | pdf_generator.py:502-558 | a completed step shows its sections in the fixed order: prologue (1-A only), theory, theory_modality, theory_angles, lecture, analysis, symbol, scenario, action, letter |
| PdfStory.StepBlockFacts | pdf_generator.py:483-561 | a step shows its chapter line exactly when completed, and no session title or break |
| PdfStory.StepsBlockFacts | pdf_generator.py:483-561 | a session's steps show the chapter lines of exactly its completed steps, in order |
| PdfStory.PartHeaderFacts | pdf_generator.py:466-480 | a session's header shows its session line and no chapter or break |
| PdfStory.PartBlockFacts | pdf_generator.py:465-564 | a session block shows its title, the chapter lines of its completed steps, and one break |
| PdfStory.FramedPartFacts | pdf_generator.py:465-564 | the header, the steps and a page break: one session line, the steps' chapters, one break |
| PdfStory.Content | pdf_generator.py:459-564 | `_build_content`; `PdfStory.ContentFacts` and `TocMatchesContent` state one title per catalogue session, the completed steps' chapters in order, matching the table of contents |
| PdfStory.ContentFacts | pdf_generator.py:459-564 | the content shows one session title per catalogue session in order, the chapter lines of exactly the completed steps, one break per session, and ends with a PageBreak |
| PdfStory.TocMatchesContent | pdf_generator.py:425-564 | the table of contents and the content list the same steps in the same order |
| PdfStory.LinesAt | pdf_generator.py:443-451 | line k is that of step k |
| PdfStory.ContentWithoutSteps | pdf_generator.py:459-564 | with no completed step the content always builds and shows no chapter |
| PdfStory.EmptySteps | pdf_generator.py:483-487 | a session without completed steps contributes no step flowables |
| PdfStory.NoneCompletedOf | pdf_generator.py:445 | with nothing completed no step is listed |
| PdfStory.NothingCompleted | pdf_generator.py:435-451 | with nothing completed no step is listed in any session |
| PdfStory.DocumentTitle | pdf_generator.py:352-356 | the title is the name (ユーザー when absent) followed by 様 人生経営戦略書 |
| PdfStory.TitleMatchesPreview | pdf_generator.py:352-356 | the PDF's title for a stored session is the one the structure preview announces |
| PdfStory.StoryBuilder.constructor | pdf_generator.py:257-267 | a builder over the session and the catalogue with an empty story |
| PdfStory.StoryBuilder.AddSection | pdf_generator.py:566-588 | `_add_section` appends exactly the section to the story |
| PdfStory.StoryBuilder.AddPieces | pdf_generator.py:577-585 | the loop over the pieces appends the body of the specification |
| PdfStory.StoryBuilder.AddStaticKey | pdf_generator.py:503-522 | a static key appends its section; it fails exactly when its entry is not a dict |
| PdfStory.StoryBuilder.AddStaticSections | pdf_generator.py:502-522 | the static keys append their sections in key order, failing exactly when some entry is not a dict |
| PdfStory.StoryBuilder.AddDynamicKey | pdf_generator.py:526-530 | a dynamic key appends its section under its fixed title when present |
| PdfStory.StoryBuilder.AddDynamicSections | pdf_generator.py:524-558 | the dynamic keys append their sections in key order |
| PdfStory.StoryBuilder.BuildTableOfContents | pdf_generator.py:425-453 | `_build_table_of_contents` appends exactly the table of contents |
| PdfStory.StoryBuilder.AddTocSteps | pdf_generator.py:443-451 | the inner loop appends one line per completed step of a session |
| PdfStory.StaticItemsStop | pdf_generator.py:503-522 | once a key raises, the static sections raise |

## Left out

- The provider SDK clients (OpenAI, Anthropic, Gemini) and `_rate_limit`'s sleeping. Provider replies are an input sequence, and a reply past its end is a failure.
- Concurrency. asyncio, the server-sent-events transport and the `on_progress` callbacks are left out. Streaming is modelled as the list of frames it yields.
- Ephemeris calls and the Julian day. Planet longitudes, house cusps and retrograde flags are inputs. Floating-point arithmetic is modelled with exact reals. `round(x, n)` is not modelled: the model stores unrounded longitudes, degrees and orbs, and derives the south node from the unrounded north node. `degree_formatted` is modelled (`Chart.DegreeFormatted`) on those exact values.
- ReportLab styles, fonts, `NumberedCanvas`, `doc.build` and byte buffers. The PDF is modelled as its list of flowables.
- The PDF cover page, because it reads `datetime.now`.
- `_build_content` is modelled on values, by the story function and its lemmas, not as a method appending in place.
- HTTP routing and the endpoints that only read or forward: `get_session`, `get_chart`, `/api/calculate`, PDF download/save, prefectures, and AI status/test.
- The progressed and transit calculators and the forecast, which are outside the chart core.
- `uuid`, `datetime.now` and loading the content library from JSON files. Session ids and timestamps are inputs, and the catalogue is a value.
- `json.dumps`, which is a function parameter of the model.
- `main.py`'s `is_retrograde`. Its result is an input; the function compares the body's speed one day later with its speed at the instant.
- `api_server.py`'s `generate_step_content_stream` endpoint: its 404 and 503 checks, its memoisation of the step's variables, and its `data:` frames closed by a "done" or "error" frame. The streaming generator it drives is modelled (`ContentGeneration.StreamSpec`); the endpoint, a transport wrapper around it that records nothing in the session, is not.
- `performance_test.py` and `test_api.py`, which are test drivers.
- BirthApp.CalculateAstrology: the request's fields are strings or absent. A field present with a JSON null or a non-string value is not modelled: `data.get` returns it as it is, so a null date or time makes `.split` raise and the route answer 500, and a null name is echoed as `None`. A body that is not JSON, which also gives 500, is not modelled either.
- AstroCalc.AstroCalculator.GetAspectsForPlanet: states which aspects are returned, not the order in which they are returned.
- ContentGeneration.StreamBlocks: an exception raised by a block's stream is returned as the run's error value next to the frames yielded before it, not propagated.
