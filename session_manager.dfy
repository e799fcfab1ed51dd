/**
 * The generator's own session bookkeeping (`GenerationSession` and
 * `SessionManager`): sessions keyed by id, each recording the steps completed
 * in order, the latest result per step, a running character total and the
 * user profile derived once step "2-A" is done.
 */
module Sessions {
  import opened Wrappers
  import opened Dicts
  import opened Values
  import opened Text
  import opened Recovery
  import opened ContentGeneration

  datatype GenerationSession = GenerationSession(
    sessionId: string,
    chartData: VarBag,
    variables: Dict<string, VarBag>,
    userProfile: Option<string>,
    completedSteps: seq<string>,
    generatedContent: Dict<string, StepResult>,
    stepSummaries: Dict<string, string>,
    totalCharacters: int,
    status: string)

  /** A fresh session: nothing completed, nothing generated, status "created". */
  function NewSession(sessionId: string, chartData: VarBag, variables: Dict<string, VarBag>): GenerationSession
  {
    GenerationSession(sessionId, chartData, variables, None, [], [], [], 0, "created")
  }

  /** `session.variables.get(step_id, {})` */
  function StepVariables(s: GenerationSession, stepId: string): VarBag
  {
    Get(s.variables, stepId).GetOr([])
  }

  /** The summary recorded for the last completed step, if there is one. */
  function PreviousSummary(s: GenerationSession): Option<string>
  {
    if s.completedSteps == [] then None else Get(s.stepSummaries, s.completedSteps[|s.completedSteps| - 1])
  }

  /** Python's `not session.user_profile`: no profile, or an empty one. */
  predicate NeedsProfile(s: GenerationSession, stepId: string)
  {
    stepId == "2-A" && (s.userProfile.None? || s.userProfile == Some(""))
  }

  const ProfileSteps: seq<string> := ["1-A", "1-B", "2-A"]

  /** The variables of `steps`, merged with `dict.update` in order. */
  function Combine(variables: Dict<string, VarBag>, steps: seq<string>): VarBag
  {
    if steps == [] then [] else Update(Combine(variables, steps[..|steps| - 1]), Get(variables, steps[|steps| - 1]).GetOr([]))
  }

  /** The `for s in steps: combined.update(...)` loop. */
  method CombineVariables(variables: Dict<string, VarBag>, steps: seq<string>) returns (combined: VarBag)
    ensures combined == Combine(variables, steps)
  {
    combined := [];
    for k := 0 to |steps|
      invariant combined == Combine(variables, steps[..k])
    {
      assert steps[..k + 1][..k] == steps[..k];
      combined := Update(combined, Get(variables, steps[k]).GetOr([]));
    }
    assert steps[..|steps|] == steps;
  }

  /** The session after a step's result is recorded: the step appended, the result stored, the total increased. */
  function Recorded(s: GenerationSession, stepId: string, res: StepResult): GenerationSession
  {
    s.(completedSteps := s.completedSteps + [stepId],
       generatedContent := Put(s.generatedContent, stepId, res),
       totalCharacters := s.totalCharacters + res.totalCharacterCount)
  }

  /** The new session table and what `generate_step` returns or raises. */
  datatype Outcome = Outcome(sessions: map<string, GenerationSession>, result: Result<StepResult, string>)

  function NotFound(id: string): string
  {
    "Session not found: " + id
  }

  /** `ContentGenerator.generate_step`'s outcome, as `GenerateStep` promises it. */
  function StepRun(gen: ContentGenerator, stepId: string, variables: VarBag, userProfile: Option<string>,
                   previousSummary: Option<string>, blockReplies: seq<seq<Response>>): Result<StepResult, string>
  {
    match gen.promptGenerator
    case None => Failure(PromptGeneratorRequired)
    case Some(pg) =>
      match pg.stepPrompts(stepId, variables, userProfile, previousSummary)
      case Failure(e) => Failure(e)
      case Success(ps) => Success(StepSpec(gen.config, stepId, ps, blockReplies))
  }

  /**
   * `SessionManager.generate_step(session_id, step_id)`.  Generating the step
   * touches nothing when it raises; the profile is derived after the step is
   * recorded, so an exception there leaves the step recorded.
   */
  function StepOutcome(gen: ContentGenerator, sessions: map<string, GenerationSession>, id: string, stepId: string,
                       blockReplies: seq<seq<Response>>, profileReplies: seq<Response>): Outcome
  {
    if id !in sessions then Outcome(sessions, Failure(NotFound(id)))
    else
      var s := sessions[id];
      match StepRun(gen, stepId, StepVariables(s, stepId), s.userProfile, PreviousSummary(s), blockReplies)
      case Failure(e) => Outcome(sessions, Failure(e))
      case Success(res) => AfterStep(gen, sessions, id, stepId, res, profileReplies)
  }

  /** The rest of `generate_step` once the step result `res` is in: record it, then maybe derive the profile. */
  function AfterStep(gen: ContentGenerator, sessions: map<string, GenerationSession>, id: string, stepId: string,
                     res: StepResult, profileReplies: seq<Response>): Outcome
    requires id in sessions
  {
    var s := sessions[id];
    var s1 := Recorded(s, stepId, res);
    if !NeedsProfile(s, stepId) then Outcome(sessions[id := s1], Success(res))
    else
      match ProfileSpec(gen, Combine(s1.variables, ProfileSteps), profileReplies)
      case Failure(e) => Outcome(sessions[id := s1], Failure(e))
      case Success(p) => Outcome(sessions[id := s1.(userProfile := Some(p))], Success(res))
  }

  /** The block contents of one stored step result, in block order. */
  function BlockContents(r: Option<StepResult>): seq<string>
  {
    match r
    case None => []
    case Some(res) => Contents(res.blocks)
  }

  function Contents(bs: seq<BlockResult>): (cs: seq<string>)
    ensures |cs| == |bs|
  {
    seq(|bs|, i requires 0 <= i < |bs| => bs[i].content)
  }

  /** The inner `for block in step_content.blocks` loop of `get_full_content`. */
  method AppendContents(parts: seq<string>, blocks: seq<BlockResult>) returns (r: seq<string>)
    ensures r == parts + Contents(blocks)
  {
    r := parts;
    for j := 0 to |blocks|
      invariant r == parts + Contents(blocks[..j])
    {
      assert Contents(blocks[..j + 1]) == Contents(blocks[..j]) + [blocks[j].content];
      r := r + [blocks[j].content];
    }
    assert blocks[..|blocks|] == blocks;
  }

  /** The block contents of `steps`, step after step, looked up in `content`. */
  function ContentParts(steps: seq<string>, content: Dict<string, StepResult>): seq<string>
  {
    if steps == [] then []
    else ContentParts(steps[..|steps| - 1], content) + BlockContents(Get(content, steps[|steps| - 1]))
  }

  /** `get_full_content(session_id)` */
  function FullContent(sessions: map<string, GenerationSession>, id: string): string
  {
    if id !in sessions then ""
    else Join(ContentParts(sessions[id].completedSteps, sessions[id].generatedContent), "\n\n")
  }

  class SessionManager {
    const generator: ContentGenerator
    var sessions: map<string, GenerationSession>

    constructor(generator: ContentGenerator)
      ensures this.generator == generator && sessions == map[]
    {
      this.generator := generator;
      sessions := map[];
    }

    /** `get_session`: the stored session, or nothing for an unknown id. */
    function GetSession(id: string): (r: Option<GenerationSession>)
      reads this
      ensures r.Some? <==> id in sessions
      ensures r.Some? ==> r.value == sessions[id]
    {
      if id in sessions then Some(sessions[id]) else None
    }

    /** `create_session`: a fresh session, replacing any with the same id. */
    method CreateSession(id: string, chartData: VarBag, variables: Dict<string, VarBag>)
      returns (s: GenerationSession)
      modifies this
      ensures s == NewSession(id, chartData, variables)
      ensures sessions == old(sessions)[id := s]
      ensures GetSession(id) == Some(s)
    {
      s := NewSession(id, chartData, variables);
      sessions := sessions[id := s];
    }

    method GenerateStep(id: string, stepId: string, blockReplies: seq<seq<Response>>, profileReplies: seq<Response>)
      returns (r: Result<StepResult, string>)
      modifies this
      ensures var o := StepOutcome(generator, old(sessions), id, stepId, blockReplies, profileReplies);
        sessions == o.sessions && r == o.result
    {
      if id !in sessions {
        return Failure(NotFound(id));
      }
      var s := sessions[id];
      ghost var s0 := s;
      var variables := Get(s.variables, stepId).GetOr([]);
      var previousSummary := None;
      if s.completedSteps != [] {
        var lastStep := s.completedSteps[|s.completedSteps| - 1];
        previousSummary := Get(s.stepSummaries, lastStep);
      }
      assert previousSummary == PreviousSummary(s0);
      var step := ContentGeneration.GenerateStep(generator, stepId, variables, s.userProfile, previousSummary, blockReplies);
      assert step == StepRun(generator, stepId, StepVariables(s0, stepId), s0.userProfile, PreviousSummary(s0), blockReplies);
      if step.Failure? {
        return Failure(step.error);
      }
      var res := step.value;
      r := RecordStep(id, stepId, res, profileReplies);
    }

    /** The update block of `generate_step` and the one-time profile derivation. */
    method RecordStep(id: string, stepId: string, res: StepResult, profileReplies: seq<Response>)
      returns (r: Result<StepResult, string>)
      requires id in sessions
      modifies this
      ensures var o := AfterStep(generator, old(sessions), id, stepId, res, profileReplies);
        sessions == o.sessions && r == o.result
    {
      var s := sessions[id];
      ghost var s0 := s;
      s := s.(completedSteps := s.completedSteps + [stepId]);
      s := s.(generatedContent := Put(s.generatedContent, stepId, res));
      s := s.(totalCharacters := s.totalCharacters + res.totalCharacterCount);
      assert s == Recorded(s0, stepId, res);
      sessions := sessions[id := s];
      if stepId == "2-A" && (s.userProfile.None? || s.userProfile == Some("")) {
        var combined := CombineVariables(s.variables, ProfileSteps);
        var profile := GenerateUserProfile(generator, combined, profileReplies);
        assert profile == ProfileSpec(generator, Combine(Recorded(s0, stepId, res).variables, ProfileSteps), profileReplies);
        if profile.Failure? {
          return Failure(profile.error);
        }
        s := s.(userProfile := Some(profile.value));
        sessions := sessions[id := s];
      }
      r := Success(res);
    }

    /** `get_full_content`: the block contents of the completed steps, joined with blank lines. */
    method GetFullContent(id: string) returns (text: string)
      ensures text == FullContent(sessions, id)
    {
      if id !in sessions {
        return "";
      }
      var session := sessions[id];
      var parts: seq<string> := [];
      for i := 0 to |session.completedSteps|
        invariant parts == ContentParts(session.completedSteps[..i], session.generatedContent)
      {
        var stepContent := Get(session.generatedContent, session.completedSteps[i]);
        if stepContent.Some? {
          parts := AppendContents(parts, stepContent.value.blocks);
        }
        ghost var done := session.completedSteps[..i + 1];
        assert done[..i] == session.completedSteps[..i] && done[i] == session.completedSteps[i];
        assert parts == ContentParts(done[..i], session.generatedContent) + BlockContents(stepContent);
      }
      assert session.completedSteps[..|session.completedSteps|] == session.completedSteps;
      text := Join(parts, "\n\n");
    }
  }
}
