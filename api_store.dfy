/**
 * The API server's session store (`sessions` in the server module): a table
 * from session id to a stored session, updated by the step-generation
 * endpoint and the variables endpoint, and read by the status, full-text and
 * PDF-preview endpoints.  The step generator and the user-profile generator
 * are the content generator's operations, run against provider oracles; the
 * session's astrology calculator is represented by what its
 * `get_variables_for_step` returns.
 */
module ApiStore {
  import opened Wrappers
  import opened Dicts
  import opened Values
  import opened Text
  import opened Recovery
  import opened ContentGeneration
  import Sessions
  import opened Catalogue

  const SessionNotFound: string := "Session not found"
  const StepNotFound: string := "Step not found"
  const PlaceholderMessage: string := "AI APIキーが設定されていません。環境変数 OPENAI_API_KEY または GOOGLE_API_KEY を設定してください。"

  /** How a stored step result came about; each kind has the extra key its `dict` carries. */
  datatype GenKind =
    | Placeholder(message: string)
    | Errored(error: string)
    | Produced(status: StepStatus, blocksDetail: seq<BlockResult>)

  /** The `generated` dict the generation endpoint stores and returns. */
  datatype StepRecord = StepRecord(
    stepId: string,
    staticContent: StaticContent,
    dynamicContent: Dict<string, string>,
    characterCount: int,
    kind: GenKind)

  /** The session's `status`: "created", "generating" or "generated". */
  datatype SessionStatus = Created | Generating | Generated

  /** One entry of `sessions`; `calculator(step)` is what `calculator.get_variables_for_step(step)` returns. */
  datatype StoredSession = StoredSession(
    birthName: string,
    calculator: string -> VarBag,
    variables: Dict<string, VarBag>,
    status: SessionStatus,
    completedSteps: seq<string>,
    generatedContent: Dict<string, StepRecord>,
    totalCharacters: int,
    userProfile: Option<string>)

  /** The session `create_session` stores: the variables of the four chart steps, nothing generated yet. */
  function NewStored(birthName: string, calculator: string -> VarBag): StoredSession
  {
    StoredSession(birthName, calculator,
                  [("1-A", calculator("1-A")), ("1-B", calculator("1-B")), ("2-A", calculator("2-A")), ("2-B", calculator("2-B"))],
                  Created, [], [], 0, None)
  }

  /** The bookkeeping every stored session keeps: each completed step once, and content exactly for those. */
  ghost predicate WellKept(s: StoredSession)
  {
    && (forall a, b :: 0 <= a < b < |s.completedSteps| ==> s.completedSteps[a] != s.completedSteps[b])
    && (forall k :: HasKey(s.generatedContent, k) <==> k in s.completedSteps)
  }

  /** The update block keeps every completed step once and content exactly for the completed steps. */
  lemma StoredWellKept(s: StoredSession, stepId: string, record: StepRecord, profile: Option<string>)
    requires WellKept(s)
    ensures WellKept(Stored(s, stepId, record, profile))
  {
    var u := Stored(s, stepId, record, profile);
    forall k ensures HasKey(u.generatedContent, k) <==> k in u.completedSteps {
      PutHasKey(s.generatedContent, stepId, record, k);
    }
    if stepId !in s.completedSteps {
      forall a, b | 0 <= a < b < |u.completedSteps| ensures u.completedSteps[a] != u.completedSteps[b] {
        if b == |s.completedSteps| {
          assert u.completedSteps[a] in s.completedSteps;
        }
      }
    }
  }

  /** Every session of the table keeps its bookkeeping. */
  ghost predicate TableKept(table: map<string, StoredSession>)
  {
    forall id :: id in table ==> WellKept(table[id])
  }

  /** Replacing one session of a well-kept table by a well-kept session keeps the table well kept. */
  lemma KeptUpdate(table: map<string, StoredSession>, id: string, u: StoredSession)
    requires TableKept(table) && WellKept(u)
    ensures TableKept(table[id := u])
  {
  }

  // ---------------------------------------------------------------------------
  // get_step_variables
  // ---------------------------------------------------------------------------

  /** The session with the variables of `stepId` computed, unless they were computed before. */
  function Memo(s: StoredSession, stepId: string): (r: StoredSession)
    ensures Get(r.variables, stepId) == Some(StepVars(s, stepId))
  {
    if HasKey(s.variables, stepId) then s
    else s.(variables := Put(s.variables, stepId, s.calculator(stepId)))
  }

  /** The variables the session holds for `stepId`, or the calculator's when it holds none. */
  function StepVars(s: StoredSession, stepId: string): VarBag
  {
    Get(s.variables, stepId).GetOr(s.calculator(stepId))
  }

  /** The store after `get_step_variables`, and what it returns. */
  function VariablesOutcome(sessions: map<string, StoredSession>, id: string, stepId: string)
    : (map<string, StoredSession>, Result<VarBag, string>)
  {
    if id !in sessions then (sessions, Failure(SessionNotFound))
    else (sessions[id := Memo(sessions[id], stepId)], Success(StepVars(sessions[id], stepId)))
  }

  // ---------------------------------------------------------------------------
  // generate_step_content
  // ---------------------------------------------------------------------------

  /** The stored result when no AI generator is configured: fixed texts, the first carrying the variables' JSON. */
  function PlaceholderRecord(stepId: string, fixed: StaticContent, variables: VarBag, dumps: VarBag -> string): StepRecord
  {
    StepRecord(stepId, fixed,
               [("analysis", "[AI未設定] 配置分析コンテンツ\n変数: " + dumps(variables)),
                ("scenario", "[AI未設定] シナリオコンテンツ"),
                ("action", "[AI未設定] 提言コンテンツ")],
               0, Placeholder(PlaceholderMessage))
  }

  /** The stored result when generation raised. */
  function ErrorRecord(stepId: string, fixed: StaticContent, error: string): StepRecord
  {
    StepRecord(stepId, fixed, [], 0, Errored(error))
  }

  /** The `dynamic_content` dict built from the step's blocks: `dynamic[block_id] = content`, block by block. */
  function DynamicOf(bs: seq<BlockResult>): Dict<string, string>
  {
    if bs == [] then [] else Put(DynamicOf(bs[..|bs| - 1]), bs[|bs| - 1].blockId, bs[|bs| - 1].content)
  }

  /** The stored result of a step the generator produced. */
  function ProducedRecord(stepId: string, fixed: StaticContent, res: StepResult): StepRecord
  {
    StepRecord(stepId, fixed, DynamicOf(res.blocks), res.totalCharacterCount, Produced(res.status, res.blocks))
  }

  /**
   * `previous_summary`: nothing before the first step, and afterwards the
   * "summary" of the last stored result, which no stored result carries.
   */
  function PreviousSummary(s: StoredSession): Option<string>
  {
    if s.completedSteps == [] then None else Some("")
  }

  /** Python's `not session.get("user_profile")`. */
  predicate NoProfile(p: Option<string>)
  {
    p.None? || p == Some("")
  }

  /** The profile after step `stepId` succeeded: derived once on "2-A", an exception leaving it as it was. */
  function ProfileAfter(gen: ContentGenerator, s: StoredSession, stepId: string, profileReplies: seq<Response>): Option<string>
  {
    if stepId == "2-A" && NoProfile(s.userProfile) then
      match ProfileSpec(gen, Sessions.Combine(s.variables, Sessions.ProfileSteps), profileReplies)
      case Success(p) => Some(p)
      case Failure(_) => s.userProfile
    else s.userProfile
  }

  /** The stored result and the new profile when a generator is configured. */
  function Generation(gen: ContentGenerator, s: StoredSession, stepId: string, fixed: StaticContent,
                      blockReplies: seq<seq<Response>>, profileReplies: seq<Response>): (StepRecord, Option<string>)
  {
    match Sessions.StepRun(gen, stepId, StepVars(s, stepId), s.userProfile, PreviousSummary(s), blockReplies)
    case Failure(e) => (ErrorRecord(stepId, fixed, e), s.userProfile)
    case Success(res) => (ProducedRecord(stepId, fixed, res), ProfileAfter(gen, s, stepId, profileReplies))
  }

  /** The update block: the step listed once, its result stored, its count added, the status set. */
  function Stored(s: StoredSession, stepId: string, record: StepRecord, profile: Option<string>): StoredSession
  {
    s.(completedSteps := if stepId in s.completedSteps then s.completedSteps else s.completedSteps + [stepId],
       generatedContent := Put(s.generatedContent, stepId, record),
       totalCharacters := s.totalCharacters + record.characterCount,
       status := if record.kind.Errored? then Created else Generated,
       userProfile := profile)
  }

  /** The store after `generate_step_content`, and what it returns or the 404 detail it raises. */
  function GenerateOutcome(sessions: map<string, StoredSession>, master: Catalogue, dumps: VarBag -> string,
                           generator: Option<ContentGenerator>, id: string, stepId: string,
                           blockReplies: seq<seq<Response>>, profileReplies: seq<Response>)
    : (map<string, StoredSession>, Result<StepRecord, string>)
  {
    if id !in sessions then (sessions, Failure(SessionNotFound))
    else
      match LastPartMatch(master, stepId)
      case None => (sessions, Failure(StepNotFound))
      case Some(step) =>
        var s := Memo(sessions[id], stepId);
        var out := Produce(generator, dumps, s, stepId, StaticOf(step), blockReplies, profileReplies);
        (sessions[id := Stored(s, stepId, out.0, out.1)], Success(out.0))
  }

  /** Once the session and the step are found, the outcome is the updated session and the stored result. */
  lemma GenerateOutcomeFound(sessions: map<string, StoredSession>, master: Catalogue, dumps: VarBag -> string,
                             generator: Option<ContentGenerator>, id: string, stepId: string,
                             blockReplies: seq<seq<Response>>, profileReplies: seq<Response>, step: Step)
    requires id in sessions && LastPartMatch(master, stepId) == Some(step)
    ensures var s := Memo(sessions[id], stepId);
      var out := Produce(generator, dumps, s, stepId, StaticOf(step), blockReplies, profileReplies);
      GenerateOutcome(sessions, master, dumps, generator, id, stepId, blockReplies, profileReplies)
        == (sessions[id := Stored(s, stepId, out.0, out.1)], Success(out.0))
  {
  }

  /** The stored result and the new profile: a placeholder without a generator, the generation's otherwise. */
  function Produce(generator: Option<ContentGenerator>, dumps: VarBag -> string, s: StoredSession, stepId: string,
                   fixed: StaticContent, blockReplies: seq<seq<Response>>, profileReplies: seq<Response>)
    : (StepRecord, Option<string>)
  {
    if generator.None? then (PlaceholderRecord(stepId, fixed, StepVars(s, stepId), dumps), s.userProfile)
    else Generation(generator.value, s, stepId, fixed, blockReplies, profileReplies)
  }

  /** The update block, field by field. */
  method UpdateSession(s: StoredSession, stepId: string, record: StepRecord, profile: Option<string>)
    returns (u: StoredSession)
    ensures u == Stored(s, stepId, record, profile)
  {
    u := s.(userProfile := profile);
    if stepId !in u.completedSteps {
      u := u.(completedSteps := u.completedSteps + [stepId]);
    }
    u := u.(generatedContent := Put(u.generatedContent, stepId, record));
    u := u.(totalCharacters := u.totalCharacters + record.characterCount);
    u := u.(status := if record.kind.Errored? then Created else Generated);
  }

  /** The `for block_id, block_data in result["blocks"].items()` loop. */
  method DynamicContent(bs: seq<BlockResult>) returns (dynamic: Dict<string, string>)
    ensures dynamic == DynamicOf(bs)
  {
    dynamic := [];
    for i := 0 to |bs|
      invariant dynamic == DynamicOf(bs[..i])
    {
      assert bs[..i + 1][..i] == bs[..i];
      dynamic := Put(dynamic, bs[i].blockId, bs[i].content);
    }
    assert bs[..|bs|] == bs;
  }

  // ---------------------------------------------------------------------------
  // get_generation_status
  // ---------------------------------------------------------------------------

  datatype StatusView = StatusView(
    sessionId: string,
    currentStep: string,
    totalSteps: nat,
    completedSteps: nat,
    status: SessionStatus,
    totalCharacters: int)

  // ---------------------------------------------------------------------------
  // get_full_text
  // ---------------------------------------------------------------------------

  const PartSeparator: string := "\n\n---\n\n"

  /** How one static entry enters the full text: a `dict` with "text" as a headed section, a string as itself. */
  function EntryPart(key: string, e: StaticEntry): Option<string>
  {
    match e
    case Fields(title, text) => if text.Some? then Some("## " + title.GetOr(key) + "\n\n" + text.value) else None
    case Plain(s) => Some(s)
    case Other => None
  }

  /** The parts of the static entries, in the dict's order. */
  function StaticParts(st: StaticContent): seq<string>
  {
    if st == [] then []
    else
      var last := st[|st| - 1];
      StaticParts(st[..|st| - 1]) + match EntryPart(last.0, last.1) case Some(p) => [p] case None => []
  }

  /** The non-empty dynamic texts, in the dict's order. */
  function DynamicParts(d: Dict<string, string>): seq<string>
  {
    if d == [] then []
    else DynamicParts(d[..|d| - 1]) + if d[|d| - 1].1 != "" then [d[|d| - 1].1] else []
  }

  /** The parts one completed step contributes: static ones, then dynamic ones. */
  function StepParts(r: Option<StepRecord>): seq<string>
  {
    match r
    case None => []
    case Some(rec) => StaticParts(rec.staticContent) + DynamicParts(rec.dynamicContent)
  }

  /** The parts of the completed steps, in completion order. */
  function TextParts(steps: seq<string>, content: Dict<string, StepRecord>): seq<string>
  {
    if steps == [] then [] else TextParts(steps[..|steps| - 1], content) + StepParts(Get(content, steps[|steps| - 1]))
  }

  datatype FullTextView = FullTextView(sessionId: string, fullText: string, characterCount: nat, completedSteps: nat)

  /** What `get_full_text` returns for a known session. */
  function FullTextOf(id: string, s: StoredSession): FullTextView
  {
    var text := Join(TextParts(s.completedSteps, s.generatedContent), PartSeparator);
    FullTextView(id, text, |text|, |s.completedSteps|)
  }

  /** The loop over a step's static entries. */
  method AppendStatic(parts: seq<string>, st: StaticContent) returns (r: seq<string>)
    ensures r == parts + StaticParts(st)
  {
    r := parts;
    for i := 0 to |st|
      invariant r == parts + StaticParts(st[..i])
    {
      assert st[..i + 1][..i] == st[..i];
      var part := EntryPart(st[i].0, st[i].1);
      if part.Some? {
        r := r + [part.value];
      }
    }
    assert st[..|st|] == st;
  }

  /** The loop over a step's dynamic entries, skipping empty ones. */
  method AppendDynamic(parts: seq<string>, d: Dict<string, string>) returns (r: seq<string>)
    ensures r == parts + DynamicParts(d)
  {
    r := parts;
    for i := 0 to |d|
      invariant r == parts + DynamicParts(d[..i])
    {
      assert d[..i + 1][..i] == d[..i];
      if d[i].1 != "" {
        r := r + [d[i].1];
      }
    }
    assert d[..|d|] == d;
  }

  // ---------------------------------------------------------------------------
  // preview_pdf_structure
  // ---------------------------------------------------------------------------

  datatype PreviewStep = PreviewStep(stepId: string, chapterTitle: Option<string>, characterCount: int, hasContent: bool)

  datatype PreviewPart = PreviewPart(partId: string, title: Option<string>, steps: seq<PreviewStep>)

  datatype Preview = Preview(
    sessionId: string,
    documentTitle: string,
    totalCharacters: int,
    completedSteps: nat,
    sections: seq<PreviewPart>)

  /** How a completed catalogue step is previewed: its stored count (0 without a result) and whether a result exists. */
  function PreviewStepOf(s: StoredSession, step: Step): PreviewStep
  {
    var stored := Get(s.generatedContent, step.stepId);
    PreviewStep(step.stepId, step.chapterTitle, if stored.Some? then stored.value.characterCount else 0, stored.Some?)
  }

  /** The completed steps of one catalogue session, in catalogue order. */
  function PreviewSteps(s: StoredSession, steps: seq<Step>): seq<PreviewStep>
  {
    if steps == [] then []
    else
      var last := steps[|steps| - 1];
      PreviewSteps(s, steps[..|steps| - 1]) + if last.stepId in s.completedSteps then [PreviewStepOf(s, last)] else []
  }

  /** The catalogue sessions with at least one completed step. */
  function PreviewParts(s: StoredSession, cat: Catalogue): seq<PreviewPart>
  {
    if cat == [] then []
    else
      var p := cat[|cat| - 1];
      var steps := PreviewSteps(s, p.steps);
      PreviewParts(s, cat[..|cat| - 1]) + if steps != [] then [PreviewPart(p.partId, p.title, steps)] else []
  }

  /** The document title the preview announces. */
  function PreviewTitle(s: StoredSession): string
  {
    s.birthName + "様 人生経営戦略書"
  }

  function PreviewOf(id: string, s: StoredSession, cat: Catalogue): Preview
  {
    Preview(id, PreviewTitle(s), s.totalCharacters, |s.completedSteps|, PreviewParts(s, cat))
  }

  /** The inner loop of the preview over one catalogue session's steps. */
  method CollectPreviewSteps(s: StoredSession, steps: seq<Step>) returns (r: seq<PreviewStep>)
    ensures r == PreviewSteps(s, steps)
  {
    r := [];
    for j := 0 to |steps|
      invariant r == PreviewSteps(s, steps[..j])
    {
      assert steps[..j + 1][..j] == steps[..j];
      if steps[j].stepId in s.completedSteps {
        var stored := Get(s.generatedContent, steps[j].stepId);
        var count := if stored.Some? then stored.value.characterCount else 0;
        r := r + [PreviewStep(steps[j].stepId, steps[j].chapterTitle, count, stored.Some?)];
      }
    }
    assert steps[..|steps|] == steps;
  }

  // ---------------------------------------------------------------------------
  // The store
  // ---------------------------------------------------------------------------

  class SessionStore {
    const master: Catalogue
    const dumps: VarBag -> string
    var sessions: map<string, StoredSession>

    constructor(master: Catalogue, dumps: VarBag -> string)
      ensures this.master == master && this.dumps == dumps && sessions == map[]
    {
      this.master := master;
      this.dumps := dumps;
      sessions := map[];
    }

    /** Every stored session keeps its bookkeeping. */
    ghost predicate Valid()
      reads this
    {
      TableKept(sessions)
    }

    /** `create_session`, for the freshly drawn id. */
    method CreateSession(id: string, birthName: string, calculator: string -> VarBag)
      requires Valid()
      modifies this
      ensures Valid()
      ensures sessions == old(sessions)[id := NewStored(birthName, calculator)]
    {
      sessions := sessions[id := NewStored(birthName, calculator)];
    }

    /** `get_step_variables` */
    method GetStepVariables(id: string, stepId: string) returns (r: Result<VarBag, string>)
      requires Valid()
      modifies this
      ensures Valid()
      ensures (sessions, r) == VariablesOutcome(old(sessions), id, stepId)
    {
      if id !in sessions {
        return Failure(SessionNotFound);
      }
      var session := MemoVariables(id, stepId);
      r := Success(Get(session.variables, stepId).value);
    }

    /** The variables of `stepId` computed and stored, unless the session already holds them. */
    method MemoVariables(id: string, stepId: string) returns (s: StoredSession)
      requires Valid() && id in sessions
      modifies this
      ensures Valid()
      ensures s == Memo(old(sessions)[id], stepId)
      ensures sessions == old(sessions)[id := s]
    {
      s := sessions[id];
      if !HasKey(s.variables, stepId) {
        var variables := s.calculator(stepId);
        s := s.(variables := Put(s.variables, stepId, variables));
        sessions := sessions[id := s];
      } else {
        assert sessions == sessions[id := s];
      }
    }

    /** `generate_step_content`, with the configured generator (if any) and the providers' replies. */
    method GenerateStepContent(generator: Option<ContentGenerator>, id: string, stepId: string,
                               blockReplies: seq<seq<Response>>, profileReplies: seq<Response>)
      returns (r: Result<StepRecord, string>)
      requires Valid()
      modifies this
      ensures Valid()
      ensures (sessions, r) == GenerateOutcome(old(sessions), master, dumps, generator, id, stepId, blockReplies, profileReplies)
    {
      if id !in sessions {
        return Failure(SessionNotFound);
      }
      var step := FindStep(master, stepId);
      if step.None? {
        return Failure(StepNotFound);
      }
      GenerateOutcomeFound(sessions, master, dumps, generator, id, stepId, blockReplies, profileReplies, step.value);
      var record := ProduceAndRecord(generator, id, stepId, StaticOf(step.value), blockReplies, profileReplies);
      r := Success(record);
    }

    /** Everything after the lookups: the variables memoised, the result produced, the session updated. */
    method ProduceAndRecord(generator: Option<ContentGenerator>, id: string, stepId: string, fixed: StaticContent,
                            blockReplies: seq<seq<Response>>, profileReplies: seq<Response>)
      returns (record: StepRecord)
      requires Valid() && id in sessions
      modifies this
      ensures Valid()
      ensures var s := Memo(old(sessions)[id], stepId);
        var out := Produce(generator, dumps, s, stepId, fixed, blockReplies, profileReplies);
        record == out.0 && sessions == old(sessions)[id := Stored(s, stepId, out.0, out.1)]
    {
      var s := MemoVariables(id, stepId);
      record := RecordResult(generator, id, s, stepId, fixed, blockReplies, profileReplies);
    }

    /** The session marked as generating while the generator runs, then updated with the result. */
    method RecordResult(generator: Option<ContentGenerator>, id: string, s: StoredSession, stepId: string,
                        fixed: StaticContent, blockReplies: seq<seq<Response>>, profileReplies: seq<Response>)
      returns (record: StepRecord)
      requires Valid() && id in sessions && sessions[id] == s && HasKey(s.variables, stepId)
      modifies this
      ensures Valid()
      ensures var out := Produce(generator, dumps, s, stepId, fixed, blockReplies, profileReplies);
        record == out.0 && sessions == old(sessions)[id := Stored(s, stepId, out.0, out.1)]
    {
      if generator.Some? {
        sessions := sessions[id := s.(status := Generating)];
      }
      var profile;
      record, profile := ProduceResult(generator, s, stepId, fixed, blockReplies, profileReplies);
      var updated := UpdateSession(s, stepId, record, profile);
      StoredWellKept(s, stepId, record, profile);
      assert sessions[id := updated] == old(sessions)[id := updated];
      KeptUpdate(old(sessions), id, updated);
      sessions := sessions[id := updated];
    }

    /** The result: a placeholder when no generator is configured, the generator's otherwise. */
    method ProduceResult(generator: Option<ContentGenerator>, s: StoredSession, stepId: string, fixed: StaticContent,
                         blockReplies: seq<seq<Response>>, profileReplies: seq<Response>)
      returns (record: StepRecord, profile: Option<string>)
      requires HasKey(s.variables, stepId)
      ensures (record, profile) == Produce(generator, dumps, s, stepId, fixed, blockReplies, profileReplies)
    {
      if generator.None? {
        var variables := Get(s.variables, stepId).value;
        record := PlaceholderRecord(stepId, fixed, variables, dumps);
        profile := s.userProfile;
      } else {
        record, profile := GenerateWithGenerator(generator.value, s, stepId, fixed, blockReplies, profileReplies);
      }
    }

    /**
     * The generator branch: the step is generated (an exception becomes an
     * error result), then, on "2-A" without a profile, the profile is derived
     * from the variables of steps 1-A, 1-B and 2-A.
     */
    method GenerateWithGenerator(gen: ContentGenerator, s: StoredSession, stepId: string, fixed: StaticContent,
                                 blockReplies: seq<seq<Response>>, profileReplies: seq<Response>)
      returns (record: StepRecord, profile: Option<string>)
      ensures (record, profile) == Generation(gen, s, stepId, fixed, blockReplies, profileReplies)
    {
      var previousSummary := None;
      if s.completedSteps != [] {
        previousSummary := Some("");
      }
      var result := ContentGeneration.GenerateStep(gen, stepId, StepVars(s, stepId), s.userProfile, previousSummary, blockReplies);
      if result.Failure? {
        return ErrorRecord(stepId, fixed, result.error), s.userProfile;
      }
      var dynamic := DynamicContent(result.value.blocks);
      record := StepRecord(stepId, fixed, dynamic, result.value.totalCharacterCount, Produced(result.value.status, result.value.blocks));
      profile := s.userProfile;
      if stepId == "2-A" && (s.userProfile.None? || s.userProfile == Some("")) {
        var combined := Sessions.CombineVariables(s.variables, Sessions.ProfileSteps);
        var derived := GenerateUserProfile(gen, combined, profileReplies);
        if derived.Success? {
          profile := Some(derived.value);
        }
      }
    }

    /** `get_generation_status` */
    function GenerationStatus(id: string): (r: Result<StatusView, string>)
      reads this
      ensures r.Failure? <==> id !in sessions
      ensures r.Failure? ==> r.error == SessionNotFound
      ensures r.Success? ==>
        var s := sessions[id];
        && r.value.sessionId == id
        && (s.completedSteps == [] ==> r.value.currentStep == "")
        && (s.completedSteps != [] ==> r.value.currentStep == s.completedSteps[|s.completedSteps| - 1])
        && r.value.completedSteps == |s.completedSteps|
        && r.value.totalSteps == |StepIds(master)|
        && r.value.status == s.status && r.value.totalCharacters == s.totalCharacters
    {
      if id !in sessions then Failure(SessionNotFound)
      else
        var s := sessions[id];
        StepIdsFacts(master);
        Success(StatusView(id, if s.completedSteps != [] then s.completedSteps[|s.completedSteps| - 1] else "",
                           TotalSteps(master), |s.completedSteps|, s.status, s.totalCharacters))
    }

    /** `get_full_text` */
    method GetFullText(id: string) returns (r: Result<FullTextView, string>)
      ensures id !in sessions ==> r == Failure(SessionNotFound)
      ensures id in sessions ==> r == Success(FullTextOf(id, sessions[id]))
    {
      if id !in sessions {
        return Failure(SessionNotFound);
      }
      var s := sessions[id];
      var parts: seq<string> := [];
      for i := 0 to |s.completedSteps|
        invariant parts == TextParts(s.completedSteps[..i], s.generatedContent)
      {
        var stepData := Get(s.generatedContent, s.completedSteps[i]);
        if stepData.Some? {
          parts := AppendStatic(parts, stepData.value.staticContent);
          parts := AppendDynamic(parts, stepData.value.dynamicContent);
        }
        ghost var done := s.completedSteps[..i + 1];
        assert done[..i] == s.completedSteps[..i] && done[i] == s.completedSteps[i];
      }
      assert s.completedSteps[..|s.completedSteps|] == s.completedSteps;
      var text := Join(parts, PartSeparator);
      r := Success(FullTextView(id, text, |text|, |s.completedSteps|));
    }

    /** `preview_pdf_structure` */
    method PreviewPdfStructure(id: string) returns (r: Result<Preview, string>)
      ensures id !in sessions ==> r == Failure(SessionNotFound)
      ensures id in sessions ==> r == Success(PreviewOf(id, sessions[id], master))
    {
      if id !in sessions {
        return Failure(SessionNotFound);
      }
      var s := sessions[id];
      var sections: seq<PreviewPart> := [];
      for i := 0 to |master|
        invariant sections == PreviewParts(s, master[..i])
      {
        assert master[..i + 1][..i] == master[..i];
        var steps := CollectPreviewSteps(s, master[i].steps);
        if steps != [] {
          sections := sections + [PreviewPart(master[i].partId, master[i].title, steps)];
        }
      }
      assert master[..|master|] == master;
      r := Success(Preview(id, s.birthName + "様 人生経営戦略書", s.totalCharacters, |s.completedSteps|, sections));
    }
  }
}
