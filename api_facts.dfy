/**
 * What the API's session store satisfies: the 404 cases change nothing; a
 * generation lists the step once, stores its result over any earlier one,
 * adds its count to the total (again, when the step is re-generated) and sets
 * the status; the profile is derived at most once; variables are computed at
 * most once per step; the full text and the preview list the completed steps
 * in the documented orders.
 */
module ApiFacts {
  import opened Wrappers
  import opened Dicts
  import opened Values
  import opened Text
  import opened Recovery
  import opened ContentGeneration
  import Sessions
  import opened Catalogue
  import opened ApiStore

  // ---------------------------------------------------------------------------
  // generate_step_content
  // ---------------------------------------------------------------------------

  /** An unknown session or a step no catalogue session holds fails with its 404 detail and changes nothing. */
  lemma GenerateNotFound(sessions: map<string, StoredSession>, master: Catalogue, dumps: VarBag -> string,
                         generator: Option<ContentGenerator>, id: string, stepId: string,
                         blockReplies: seq<seq<Response>>, profileReplies: seq<Response>)
    ensures id !in sessions ==>
      GenerateOutcome(sessions, master, dumps, generator, id, stepId, blockReplies, profileReplies) == (sessions, Failure(SessionNotFound))
    ensures id in sessions && (forall i :: !InPart(master, i, stepId)) ==>
      GenerateOutcome(sessions, master, dumps, generator, id, stepId, blockReplies, profileReplies) == (sessions, Failure(StepNotFound))
    ensures id in sessions && (exists i :: InPart(master, i, stepId)) ==>
      GenerateOutcome(sessions, master, dumps, generator, id, stepId, blockReplies, profileReplies).1.Success?
  {
    if forall i :: !InPart(master, i, stepId) {
      LastPartMatchNone(master, stepId);
    } else {
      var i :| InPart(master, i, stepId);
      var last := LastHolder(master, stepId, i);
      LastPartMatchAt(master, stepId, last);
    }
  }

  /** Some session holds the id and no later session does. */
  lemma {:induction false} LastHolder(cat: Catalogue, id: string, i: nat) returns (last: nat)
    requires InPart(cat, i, id)
    ensures InPart(cat, last, id) && forall k :: last < k ==> !InPart(cat, k, id)
    decreases |cat| - i
  {
    if k :| i < k && InPart(cat, k, id) {
      last := LastHolder(cat, id, k);
    } else {
      last := i;
    }
  }

  /** A successful generation is the update block applied to the session with its variables memoised. */
  lemma GenerateSucceeded(sessions: map<string, StoredSession>, master: Catalogue, dumps: VarBag -> string,
                          generator: Option<ContentGenerator>, id: string, stepId: string,
                          blockReplies: seq<seq<Response>>, profileReplies: seq<Response>)
    returns (step: Step, out: (StepRecord, Option<string>))
    requires GenerateOutcome(sessions, master, dumps, generator, id, stepId, blockReplies, profileReplies).1.Success?
    ensures id in sessions && LastPartMatch(master, stepId) == Some(step)
    ensures out == Produce(generator, dumps, Memo(sessions[id], stepId), stepId, StaticOf(step), blockReplies, profileReplies)
    ensures GenerateOutcome(sessions, master, dumps, generator, id, stepId, blockReplies, profileReplies)
      == (sessions[id := Stored(Memo(sessions[id], stepId), stepId, out.0, out.1)], Success(out.0))
  {
    step := LastPartMatch(master, stepId).value;
    out := Produce(generator, dumps, Memo(sessions[id], stepId), stepId, StaticOf(step), blockReplies, profileReplies);
  }

  /**
   * The update block: the step is listed (once, if it was listed at most
   * once), its result replaces any earlier one and no other, the total grows
   * by the result's count and the status follows the result.
   */
  lemma StoredBookkeeping(s: StoredSession, stepId: string, record: StepRecord, profile: Option<string>)
    ensures var u := Stored(s, stepId, record, profile);
      && stepId in u.completedSteps
      && (stepId in s.completedSteps ==> u.completedSteps == s.completedSteps)
      && (stepId !in s.completedSteps ==> u.completedSteps == s.completedSteps + [stepId])
      && Get(u.generatedContent, stepId) == Some(record)
      && (forall k :: k != stepId ==> Get(u.generatedContent, k) == Get(s.generatedContent, k))
      && u.totalCharacters == s.totalCharacters + record.characterCount
      && (u.status == Created <==> record.kind.Errored?)
      && (u.status == Generated <==> !record.kind.Errored?)
  {
    forall k | k != stepId ensures Get(Put(s.generatedContent, stepId, record), k) == Get(s.generatedContent, k) {
      PutOther(s.generatedContent, stepId, record, k);
    }
  }

  /** In a well-kept session a listed step occupies exactly one position. */
  lemma ListedOnce(s: StoredSession, stepId: string)
    requires WellKept(s) && stepId in s.completedSteps
    ensures exists i :: 0 <= i < |s.completedSteps| && s.completedSteps[i] == stepId
                     && forall j :: 0 <= j < |s.completedSteps| && s.completedSteps[j] == stepId ==> j == i
  {
    var i :| 0 <= i < |s.completedSteps| && s.completedSteps[i] == stepId;
    forall j | 0 <= j < |s.completedSteps| && s.completedSteps[j] == stepId ensures j == i {
    }
  }

  /** The session table: a generation changes only the requested session, and keeps every session well kept. */
  lemma GenerateKeepsStore(sessions: map<string, StoredSession>, master: Catalogue, dumps: VarBag -> string,
                           generator: Option<ContentGenerator>, id: string, stepId: string,
                           blockReplies: seq<seq<Response>>, profileReplies: seq<Response>)
    requires forall k :: k in sessions ==> WellKept(sessions[k])
    ensures var after := GenerateOutcome(sessions, master, dumps, generator, id, stepId, blockReplies, profileReplies).0;
      && after.Keys == sessions.Keys
      && (forall k :: k in after ==> WellKept(after[k]))
      && (forall k :: k in sessions && k != id ==> after[k] == sessions[k])
  {
    var o := GenerateOutcome(sessions, master, dumps, generator, id, stepId, blockReplies, profileReplies);
    if o.1.Success? {
      var step, out := GenerateSucceeded(sessions, master, dumps, generator, id, stepId, blockReplies, profileReplies);
      var s := Memo(sessions[id], stepId);
      assert WellKept(s);
      StoredWellKept(s, stepId, out.0, out.1);
    } else {
      assert o.0 == sessions;
    }
  }

  /**
   * A generation's effect on the session: the result is listed and stored,
   * its count is added to the total (a re-generated step counts again), and
   * the status is "created" after an error and "generated" otherwise.
   */
  lemma GenerateUpdatesSession(sessions: map<string, StoredSession>, master: Catalogue, dumps: VarBag -> string,
                               generator: Option<ContentGenerator>, id: string, stepId: string,
                               blockReplies: seq<seq<Response>>, profileReplies: seq<Response>)
    requires GenerateOutcome(sessions, master, dumps, generator, id, stepId, blockReplies, profileReplies).1.Success?
    ensures var o := GenerateOutcome(sessions, master, dumps, generator, id, stepId, blockReplies, profileReplies);
      var before := sessions[id];
      var after := o.0[id];
      var r := o.1.value;
      && (stepId in before.completedSteps ==> after.completedSteps == before.completedSteps)
      && (stepId !in before.completedSteps ==> after.completedSteps == before.completedSteps + [stepId])
      && Get(after.generatedContent, stepId) == Some(r)
      && (forall k :: k != stepId ==> Get(after.generatedContent, k) == Get(before.generatedContent, k))
      && after.totalCharacters == before.totalCharacters + r.characterCount
      && (after.status == Created <==> r.kind.Errored?)
      && (after.status == Generated <==> !r.kind.Errored?)
  {
    var step, out := GenerateSucceeded(sessions, master, dumps, generator, id, stepId, blockReplies, profileReplies);
    StoredBookkeeping(Memo(sessions[id], stepId), stepId, out.0, out.1);
  }

  /**
   * The result: a placeholder (counting 0) exactly when no generator is
   * configured; otherwise an error result (counting 0, no dynamic content) or
   * the generated blocks, whose count is the sum of the blocks' counts.
   * Either way it carries the static content of the step the lookup found.
   */
  lemma GenerateResult(sessions: map<string, StoredSession>, master: Catalogue, dumps: VarBag -> string,
                       generator: Option<ContentGenerator>, id: string, stepId: string,
                       blockReplies: seq<seq<Response>>, profileReplies: seq<Response>)
    requires GenerateOutcome(sessions, master, dumps, generator, id, stepId, blockReplies, profileReplies).1.Success?
    ensures var r := GenerateOutcome(sessions, master, dumps, generator, id, stepId, blockReplies, profileReplies).1.value;
      && r.stepId == stepId
      && r.staticContent == StaticOf(LastPartMatch(master, stepId).value)
      && (r.kind.Placeholder? <==> generator.None?)
      && (r.kind.Placeholder? ==> r.characterCount == 0 && Keys(r.dynamicContent) == ["analysis", "scenario", "action"])
      && (r.kind.Errored? ==> r.characterCount == 0 && r.dynamicContent == [])
      && (r.kind.Produced? ==> r.characterCount == SumCounts(r.kind.blocksDetail) && r.dynamicContent == DynamicOf(r.kind.blocksDetail))
  {
    var step, out := GenerateSucceeded(sessions, master, dumps, generator, id, stepId, blockReplies, profileReplies);
  }

  /**
   * The profile changes only on step "2-A" of a session without one, when a
   * generator is configured and produced the step; the new profile is then
   * what the profile generator returned.  Otherwise (including when deriving
   * it raised) it stays as it was.
   */
  lemma GenerateProfile(sessions: map<string, StoredSession>, master: Catalogue, dumps: VarBag -> string,
                        generator: Option<ContentGenerator>, id: string, stepId: string,
                        blockReplies: seq<seq<Response>>, profileReplies: seq<Response>)
    requires GenerateOutcome(sessions, master, dumps, generator, id, stepId, blockReplies, profileReplies).1.Success?
    ensures var o := GenerateOutcome(sessions, master, dumps, generator, id, stepId, blockReplies, profileReplies);
      var before := sessions[id];
      var after := o.0[id];
      && (after.userProfile != before.userProfile ==>
            && stepId == "2-A" && NoProfile(before.userProfile) && generator.Some? && o.1.value.kind.Produced?
            && ProfileSpec(generator.value, Sessions.Combine(Memo(before, stepId).variables, Sessions.ProfileSteps), profileReplies)
               == Success(after.userProfile.value))
      && (stepId != "2-A" || !NoProfile(before.userProfile) ==> after.userProfile == before.userProfile)
  {
    var step, out := GenerateSucceeded(sessions, master, dumps, generator, id, stepId, blockReplies, profileReplies);
  }

  /** The variables of the step are memoised; variables computed before are kept. */
  lemma GenerateMemoises(sessions: map<string, StoredSession>, master: Catalogue, dumps: VarBag -> string,
                         generator: Option<ContentGenerator>, id: string, stepId: string,
                         blockReplies: seq<seq<Response>>, profileReplies: seq<Response>)
    requires GenerateOutcome(sessions, master, dumps, generator, id, stepId, blockReplies, profileReplies).1.Success?
    ensures var after := GenerateOutcome(sessions, master, dumps, generator, id, stepId, blockReplies, profileReplies).0[id];
      && Get(after.variables, stepId) == Some(StepVars(sessions[id], stepId))
      && forall k :: HasKey(sessions[id].variables, k) ==> Get(after.variables, k) == Get(sessions[id].variables, k)
  {
    var step, out := GenerateSucceeded(sessions, master, dumps, generator, id, stepId, blockReplies, profileReplies);
    MemoKeeps(sessions[id], stepId);
  }

  lemma MemoKeeps(s: StoredSession, stepId: string)
    ensures forall k :: HasKey(s.variables, k) ==> Get(Memo(s, stepId).variables, k) == Get(s.variables, k)
  {
    forall k | HasKey(s.variables, k) ensures Get(Memo(s, stepId).variables, k) == Get(s.variables, k) {
      if !HasKey(s.variables, stepId) {
        PutOther(s.variables, stepId, s.calculator(stepId), k);
      }
    }
  }

  // ---------------------------------------------------------------------------
  // get_step_variables
  // ---------------------------------------------------------------------------

  /**
   * Variables are computed at most once per session and step: asking again
   * changes nothing and returns the same value, and values computed before
   * stay as they were.
   */
  lemma VariablesOnce(sessions: map<string, StoredSession>, id: string, stepId: string)
    ensures var o1 := VariablesOutcome(sessions, id, stepId);
      var o2 := VariablesOutcome(o1.0, id, stepId);
      o2 == o1
    ensures id in sessions ==>
      var after := VariablesOutcome(sessions, id, stepId).0[id];
      && Get(after.variables, stepId) == Some(StepVars(sessions[id], stepId))
      && forall k :: HasKey(sessions[id].variables, k) ==> Get(after.variables, k) == Get(sessions[id].variables, k)
  {
    if id in sessions {
      var o1 := VariablesOutcome(sessions, id, stepId);
      var s1 := Memo(sessions[id], stepId);
      assert HasKey(s1.variables, stepId);
      assert o1.0[id := Memo(s1, stepId)] == o1.0;
      MemoKeeps(sessions[id], stepId);
    }
  }

  /** A variables request leaves every stored session well kept. */
  lemma VariablesKeepStore(sessions: map<string, StoredSession>, id: string, stepId: string)
    requires forall k :: k in sessions ==> WellKept(sessions[k])
    ensures var after := VariablesOutcome(sessions, id, stepId).0;
      after.Keys == sessions.Keys && forall k :: k in after ==> WellKept(after[k])
  {
  }

  /** A fresh session is well kept, holds the variables of the four chart steps and has nothing generated. */
  lemma NewStoredFacts(birthName: string, calculator: string -> VarBag)
    ensures WellKept(NewStored(birthName, calculator))
    ensures StepVars(NewStored(birthName, calculator), "1-A") == calculator("1-A")
    ensures StepVars(NewStored(birthName, calculator), "1-B") == calculator("1-B")
    ensures StepVars(NewStored(birthName, calculator), "2-A") == calculator("2-A")
    ensures StepVars(NewStored(birthName, calculator), "2-B") == calculator("2-B")
  {
    var d := NewStored(birthName, calculator).variables;
    assert "1-A"[2] != "1-B"[2] && "1-A"[0] != "2-A"[0] && "1-A"[0] != "2-B"[0];
    assert "1-B"[0] != "2-A"[0] && "1-B"[0] != "2-B"[0] && "2-A"[2] != "2-B"[2];
    var d1, d2, d3 := d[1..], d[2..], d[3..];
    assert d1[1..] == d2 && d2[1..] == d3;
    assert Get(d, "1-B") == Get(d1, "1-B") == Some(calculator("1-B"));
    assert Get(d, "2-A") == Get(d1, "2-A") == Get(d2, "2-A") == Some(calculator("2-A"));
    assert Get(d, "2-B") == Get(d1, "2-B") == Get(d2, "2-B") == Get(d3, "2-B") == Some(calculator("2-B"));
  }

  // ---------------------------------------------------------------------------
  // get_generation_status
  // ---------------------------------------------------------------------------

  /** Once a new step is generated, the status view reports it as the current step and counts one more step. */
  lemma StatusAfterNewStep(store: SessionStore, sessions: map<string, StoredSession>, dumps: VarBag -> string,
                           generator: Option<ContentGenerator>, id: string, stepId: string,
                           blockReplies: seq<seq<Response>>, profileReplies: seq<Response>)
    requires id in sessions && stepId !in sessions[id].completedSteps
    requires GenerateOutcome(sessions, store.master, dumps, generator, id, stepId, blockReplies, profileReplies).1.Success?
    requires store.sessions == GenerateOutcome(sessions, store.master, dumps, generator, id, stepId, blockReplies, profileReplies).0
    ensures store.GenerationStatus(id).Success?
    ensures store.GenerationStatus(id).value.currentStep == stepId
    ensures store.GenerationStatus(id).value.completedSteps == |sessions[id].completedSteps| + 1
  {
    GenerateUpdatesSession(sessions, store.master, dumps, generator, id, stepId, blockReplies, profileReplies);
  }

  // ---------------------------------------------------------------------------
  // get_full_text
  // ---------------------------------------------------------------------------

  /** Every dynamic part is a non-empty value of the dict, and every non-empty value is a part. */
  lemma {:induction false} DynamicPartsFacts(d: Dict<string, string>)
    ensures forall p :: p in DynamicParts(d) ==> p != "" && exists i :: 0 <= i < |d| && d[i].1 == p
    ensures forall i :: 0 <= i < |d| && d[i].1 != "" ==> d[i].1 in DynamicParts(d)
  {
    if d != [] {
      var n := |d| - 1;
      DynamicPartsFacts(d[..n]);
      assert forall i :: 0 <= i < n ==> d[..n][i] == d[i];
    }
  }

  /** Every section dict with a text and every string entry is a part, under the documented heading. */
  lemma {:induction false} StaticPartsFacts(st: StaticContent)
    ensures |StaticParts(st)| <= |st|
    ensures forall i :: 0 <= i < |st| && st[i].1.Fields? && st[i].1.text.Some? ==>
      "## " + st[i].1.title.GetOr(st[i].0) + "\n\n" + st[i].1.text.value in StaticParts(st)
    ensures forall i :: 0 <= i < |st| && st[i].1.Plain? ==> st[i].1.s in StaticParts(st)
  {
    if st != [] {
      var n := |st| - 1;
      StaticPartsFacts(st[..n]);
      assert forall i :: 0 <= i < n ==> st[..n][i] == st[i];
    }
  }

  /** The rendered parts of the steps depend only on the stored results of those steps. */
  lemma {:induction false} TextPartsFrame(steps: seq<string>, content: Dict<string, StepRecord>, stepId: string, r: StepRecord)
    requires stepId !in steps
    ensures TextParts(steps, Put(content, stepId, r)) == TextParts(steps, content)
  {
    if steps != [] {
      var n := |steps| - 1;
      assert stepId !in steps[..n];
      TextPartsFrame(steps[..n], content, stepId, r);
      PutOther(content, stepId, r, steps[n]);
    }
  }

  /** Generating a step not yet completed appends exactly its parts to the full text's parts. */
  lemma FullTextAfterNewStep(sessions: map<string, StoredSession>, master: Catalogue, dumps: VarBag -> string,
                             generator: Option<ContentGenerator>, id: string, stepId: string,
                             blockReplies: seq<seq<Response>>, profileReplies: seq<Response>)
    requires id in sessions && stepId !in sessions[id].completedSteps
    requires GenerateOutcome(sessions, master, dumps, generator, id, stepId, blockReplies, profileReplies).1.Success?
    ensures var o := GenerateOutcome(sessions, master, dumps, generator, id, stepId, blockReplies, profileReplies);
      var before := sessions[id];
      var after := o.0[id];
      TextParts(after.completedSteps, after.generatedContent)
        == TextParts(before.completedSteps, before.generatedContent) + StepParts(Some(o.1.value))
  {
    var step, out := GenerateSucceeded(sessions, master, dumps, generator, id, stepId, blockReplies, profileReplies);
    var before := sessions[id];
    var steps := before.completedSteps + [stepId];
    var content := Put(before.generatedContent, stepId, out.0);
    assert steps[..|steps| - 1] == before.completedSteps;
    TextPartsFrame(before.completedSteps, before.generatedContent, stepId, out.0);
    assert TextParts(steps, content) == TextParts(before.completedSteps, content) + StepParts(Get(content, stepId));
  }

  /** A session with no completed step has an empty full text. */
  lemma FullTextOfNew(id: string, birthName: string, calculator: string -> VarBag)
    ensures FullTextOf(id, NewStored(birthName, calculator)) == FullTextView(id, "", 0, 0)
  {
  }

  // ---------------------------------------------------------------------------
  // The dynamic content dict
  // ---------------------------------------------------------------------------

  predicate DistinctBlocks(bs: seq<BlockResult>)
  {
    forall a, b :: 0 <= a < b < |bs| ==> bs[a].blockId != bs[b].blockId
  }

  /** The dynamic content has a key exactly for each block, and with distinct ids each block's content under its id. */
  lemma DynamicOfFacts(bs: seq<BlockResult>)
    ensures forall k :: HasKey(DynamicOf(bs), k) <==> exists i :: 0 <= i < |bs| && bs[i].blockId == k
    ensures DistinctBlocks(bs) ==> forall i :: 0 <= i < |bs| ==> Get(DynamicOf(bs), bs[i].blockId) == Some(bs[i].content)
  {
    DynamicOfKeys(bs);
    if DistinctBlocks(bs) {
      DynamicOfValues(bs);
    }
  }

  lemma {:induction false} DynamicOfKeys(bs: seq<BlockResult>)
    ensures forall k :: HasKey(DynamicOf(bs), k) <==> exists i :: 0 <= i < |bs| && bs[i].blockId == k
  {
    if bs != [] {
      var n := |bs| - 1;
      var init := bs[..n];
      DynamicOfKeys(init);
      forall k ensures HasKey(DynamicOf(bs), k) <==> exists i :: 0 <= i < |bs| && bs[i].blockId == k {
        PutHasKey(DynamicOf(init), bs[n].blockId, bs[n].content, k);
        if HasKey(DynamicOf(init), k) {
          var i :| 0 <= i < n && init[i].blockId == k;
          assert bs[i].blockId == k;
        }
      }
    }
  }

  lemma {:induction false} DynamicOfValues(bs: seq<BlockResult>)
    requires DistinctBlocks(bs)
    ensures forall i :: 0 <= i < |bs| ==> Get(DynamicOf(bs), bs[i].blockId) == Some(bs[i].content)
  {
    if bs != [] {
      var n := |bs| - 1;
      var init := bs[..n];
      assert forall i :: 0 <= i < n ==> init[i] == bs[i];
      assert DistinctBlocks(init);
      DynamicOfValues(init);
      forall i | 0 <= i < n ensures Get(DynamicOf(bs), bs[i].blockId) == Some(bs[i].content) {
        PutOther(DynamicOf(init), bs[n].blockId, bs[n].content, bs[i].blockId);
      }
    }
  }

  // ---------------------------------------------------------------------------
  // preview_pdf_structure
  // ---------------------------------------------------------------------------

  /** A session's preview lists exactly its completed steps, each with its stored count. */
  lemma {:induction false} PreviewStepsFacts(s: StoredSession, steps: seq<Step>)
    ensures forall p :: p in PreviewSteps(s, steps) <==>
      exists j :: 0 <= j < |steps| && steps[j].stepId in s.completedSteps && p == PreviewStepOf(s, steps[j])
  {
    if steps != [] {
      var n := |steps| - 1;
      var init := steps[..n];
      PreviewStepsFacts(s, init);
      assert forall j :: 0 <= j < n ==> init[j] == steps[j];
      forall p ensures p in PreviewSteps(s, steps) <==>
        exists j :: 0 <= j < |steps| && steps[j].stepId in s.completedSteps && p == PreviewStepOf(s, steps[j]) {
        if p in PreviewSteps(s, init) {
          var j :| 0 <= j < n && init[j].stepId in s.completedSteps && p == PreviewStepOf(s, init[j]);
          assert steps[j] == init[j];
        }
      }
    }
  }

  /** In a well-kept session every previewed step has content and the count stored for it. */
  lemma PreviewStepsHaveContent(s: StoredSession, steps: seq<Step>)
    requires WellKept(s)
    ensures forall p :: p in PreviewSteps(s, steps) ==>
      p.hasContent && HasKey(s.generatedContent, p.stepId)
      && p.characterCount == Get(s.generatedContent, p.stepId).value.characterCount
  {
    PreviewStepsFacts(s, steps);
  }

  /**
   * The preview's sections are the catalogue sessions with a completed step,
   * in catalogue order, each listing those steps; no section is empty.
   */
  lemma {:induction false} PreviewPartsFacts(s: StoredSession, cat: Catalogue)
    ensures forall sec :: sec in PreviewParts(s, cat) ==>
      sec.steps != [] && exists i :: 0 <= i < |cat| && sec == PreviewPart(cat[i].partId, cat[i].title, PreviewSteps(s, cat[i].steps))
    ensures forall i :: 0 <= i < |cat| && PreviewSteps(s, cat[i].steps) != [] ==>
      PreviewPart(cat[i].partId, cat[i].title, PreviewSteps(s, cat[i].steps)) in PreviewParts(s, cat)
  {
    if cat != [] {
      var n := |cat| - 1;
      var init := cat[..n];
      PreviewPartsFacts(s, init);
      assert forall i :: 0 <= i < n ==> init[i] == cat[i];
    }
  }
}
