/**
 * What one call of `SessionManager.generate_step` does to the session table,
 * how the profile variables are merged, and how the full content grows.
 */
module SessionFacts {
  import opened Wrappers
  import opened Dicts
  import opened Values
  import opened Recovery
  import opened ContentGeneration
  import opened Sessions

  /** An unknown session id raises "Session not found: …" and changes nothing. */
  lemma UnknownSession(gen: ContentGenerator, sessions: map<string, GenerationSession>, id: string, stepId: string,
                       blockReplies: seq<seq<Response>>, profileReplies: seq<Response>)
    requires id !in sessions
    ensures StepOutcome(gen, sessions, id, stepId, blockReplies, profileReplies)
      == Outcome(sessions, Failure("Session not found: " + id))
  {
  }

  /**
   * When generating the step raises, nothing changes.  Otherwise only session
   * `id` changes: the step is appended even when it was already completed,
   * its result replaces any earlier one while the other steps' results stay,
   * and the total grows by the step's total.
   */
  lemma StepOutcomeEffects(gen: ContentGenerator, sessions: map<string, GenerationSession>, id: string, stepId: string,
                           blockReplies: seq<seq<Response>>, profileReplies: seq<Response>)
    requires id in sessions
    ensures var o := StepOutcome(gen, sessions, id, stepId, blockReplies, profileReplies);
      var s := sessions[id];
      var run := StepRun(gen, stepId, StepVariables(s, stepId), s.userProfile, PreviousSummary(s), blockReplies);
      && (run.Failure? ==> o == Outcome(sessions, Failure(run.error)))
      && (run.Success? ==>
            && o.sessions.Keys == sessions.Keys
            && (forall other :: other in sessions && other != id ==> o.sessions[other] == sessions[other])
            && o.sessions[id].completedSteps == s.completedSteps + [stepId]
            && multiset(o.sessions[id].completedSteps)[stepId] == multiset(s.completedSteps)[stepId] + 1
            && o.sessions[id].totalCharacters == s.totalCharacters + run.value.totalCharacterCount
            && Get(o.sessions[id].generatedContent, stepId) == Some(run.value)
            && (forall k :: k != stepId ==> Get(o.sessions[id].generatedContent, k) == Get(s.generatedContent, k))
            && o.sessions[id].variables == s.variables
            && o.sessions[id].stepSummaries == s.stepSummaries
            && o.sessions[id].status == s.status)
  {
    var s := sessions[id];
    var run := StepRun(gen, stepId, StepVariables(s, stepId), s.userProfile, PreviousSummary(s), blockReplies);
    if run.Success? {
      RecordedFacts(s, stepId, run.value);
      AfterStepSessions(gen, sessions, id, stepId, run.value, profileReplies);
    }
  }

  /** Recording a result appends the step, stores the result under it alone and adds its total. */
  lemma RecordedFacts(s: GenerationSession, stepId: string, res: StepResult)
    ensures var s1 := Recorded(s, stepId, res);
      && s1.completedSteps == s.completedSteps + [stepId]
      && multiset(s1.completedSteps)[stepId] == multiset(s.completedSteps)[stepId] + 1
      && s1.totalCharacters == s.totalCharacters + res.totalCharacterCount
      && Get(s1.generatedContent, stepId) == Some(res)
      && (forall k :: k != stepId ==> Get(s1.generatedContent, k) == Get(s.generatedContent, k))
      && s1.variables == s.variables
      && s1.stepSummaries == s.stepSummaries
      && s1.status == s.status
  {
    forall k | k != stepId
      ensures Get(Put(s.generatedContent, stepId, res), k) == Get(s.generatedContent, k)
    {
      PutOther(s.generatedContent, stepId, res, k);
    }
  }

  /** After the step only session `id` changes, into the recorded session with perhaps a new profile. */
  lemma AfterStepSessions(gen: ContentGenerator, sessions: map<string, GenerationSession>, id: string, stepId: string,
                          res: StepResult, profileReplies: seq<Response>)
    requires id in sessions
    ensures var o := AfterStep(gen, sessions, id, stepId, res, profileReplies);
      var s1 := Recorded(sessions[id], stepId, res);
      && o.sessions.Keys == sessions.Keys
      && (forall other :: other in sessions && other != id ==> o.sessions[other] == sessions[other])
      && o.sessions[id].(userProfile := s1.userProfile) == s1
  {
  }

  /**
   * After a successful step the profile is derived only for step "2-A" of a
   * session without a profile; a failing derivation leaves the profile as it
   * was and is what the call raises.
   */
  lemma StepOutcomeProfile(gen: ContentGenerator, sessions: map<string, GenerationSession>, id: string, stepId: string,
                           blockReplies: seq<seq<Response>>, profileReplies: seq<Response>)
    requires id in sessions
    ensures var o := StepOutcome(gen, sessions, id, stepId, blockReplies, profileReplies);
      var s := sessions[id];
      var run := StepRun(gen, stepId, StepVariables(s, stepId), s.userProfile, PreviousSummary(s), blockReplies);
      && (run.Success? && !NeedsProfile(s, stepId) ==> o.sessions[id].userProfile == s.userProfile && o.result == run)
      && (run.Success? && NeedsProfile(s, stepId) ==>
            match ProfileSpec(gen, Combine(s.variables, ProfileSteps), profileReplies)
            case Failure(e) => o.sessions[id].userProfile == s.userProfile && o.result == Failure(e)
            case Success(p) => o.sessions[id].userProfile == Some(p) && o.result == run)
  {
  }

  /** The value of `k` in the variables of the latest step of `steps` that sets it. */
  function LatestValue(variables: Dict<string, VarBag>, steps: seq<string>, k: string): Option<Value>
  {
    if steps == [] then None
    else
      var last := LastGet(Get(variables, steps[|steps| - 1]).GetOr([]), k);
      if last.Some? then last else LatestValue(variables, steps[..|steps| - 1], k)
  }

  /** Merging with `update` in step order lets a later step's value win. */
  lemma {:induction false} CombineGet(variables: Dict<string, VarBag>, steps: seq<string>, k: string)
    ensures Get(Combine(variables, steps), k) == LatestValue(variables, steps, k)
  {
    if steps != [] {
      var init := steps[..|steps| - 1];
      CombineGet(variables, init, k);
      UpdateGet(Combine(variables, init), Get(variables, steps[|steps| - 1]).GetOr([]), k);
    } else {
      assert !HasKey(Combine(variables, steps), k);
    }
  }

  /** Storing a result for a step that is not among `steps` leaves their contents alone. */
  lemma {:induction false} ContentPartsFrame(steps: seq<string>, content: Dict<string, StepResult>, stepId: string,
                                             res: StepResult)
    requires forall i :: 0 <= i < |steps| ==> steps[i] != stepId
    ensures ContentParts(steps, Put(content, stepId, res)) == ContentParts(steps, content)
  {
    if steps != [] {
      var init := steps[..|steps| - 1];
      ContentPartsFrame(init, content, stepId, res);
      PutOther(content, stepId, res, steps[|steps| - 1]);
    }
  }

  /**
   * The first generation of a step adds exactly that step's block contents, in
   * block order, to the end of the session's full content.
   */
  lemma FullContentAfterNewStep(gen: ContentGenerator, sessions: map<string, GenerationSession>, id: string,
                                stepId: string, blockReplies: seq<seq<Response>>, profileReplies: seq<Response>)
    requires id in sessions && stepId !in sessions[id].completedSteps
    ensures var o := StepOutcome(gen, sessions, id, stepId, blockReplies, profileReplies);
      var s := sessions[id];
      var run := StepRun(gen, stepId, StepVariables(s, stepId), s.userProfile, PreviousSummary(s), blockReplies);
      run.Success? ==>
        ContentParts(o.sessions[id].completedSteps, o.sessions[id].generatedContent)
          == ContentParts(s.completedSteps, s.generatedContent) + Contents(run.value.blocks)
  {
    var s := sessions[id];
    var run := StepRun(gen, stepId, StepVariables(s, stepId), s.userProfile, PreviousSummary(s), blockReplies);
    if run.Success? {
      assert StepOutcome(gen, sessions, id, stepId, blockReplies, profileReplies)
        == AfterStep(gen, sessions, id, stepId, run.value, profileReplies);
      AfterStepRecorded(gen, sessions, id, stepId, run.value, profileReplies);
      ContentPartsAppend(s.completedSteps, s.generatedContent, stepId, run.value);
    }
  }

  /** Appending a new step with its result adds that result's block contents at the end. */
  lemma ContentPartsAppend(steps: seq<string>, content: Dict<string, StepResult>, stepId: string, res: StepResult)
    requires stepId !in steps
    ensures ContentParts(steps + [stepId], Put(content, stepId, res)) == ContentParts(steps, content) + Contents(res.blocks)
  {
    var steps' := steps + [stepId];
    assert steps'[..|steps'| - 1] == steps && steps'[|steps'| - 1] == stepId;
    ContentPartsFrame(steps, content, stepId, res);
  }

  /** Whether or not the profile is then derived, the step's result is recorded in session `id`. */
  lemma AfterStepRecorded(gen: ContentGenerator, sessions: map<string, GenerationSession>, id: string, stepId: string,
                          res: StepResult, profileReplies: seq<Response>)
    requires id in sessions
    ensures var o := AfterStep(gen, sessions, id, stepId, res, profileReplies);
      && id in o.sessions
      && o.sessions[id].completedSteps == sessions[id].completedSteps + [stepId]
      && o.sessions[id].generatedContent == Put(sessions[id].generatedContent, stepId, res)
  {
  }
}
