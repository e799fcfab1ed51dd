/**
 * The content catalogue (`MASTER_CONTENT["sessions"]`): an ordered list of
 * catalogue sessions, each holding an ordered list of steps with their static
 * content.  Two lookups read it differently: the generation endpoint keeps
 * overwriting its match and so ends with the first matching step of the LAST
 * session that has one, while `get_step_content` returns the first match of
 * the whole catalogue.
 */
module Catalogue {
  import opened Wrappers
  import opened Dicts

  /** One value of a step's `static_content`: a `dict` (`None` where a key is absent), a string, or anything else. */
  datatype StaticEntry =
    | Fields(title: Option<string>, text: Option<string>)
    | Plain(s: string)
    | Other

  type StaticContent = Dict<string, StaticEntry>

  /** A step of the catalogue; an absent key is `None`. */
  datatype Step = Step(
    stepId: string,
    chapterNumber: Option<string>,
    chapterTitle: Option<string>,
    staticContent: Option<StaticContent>,
    targetCharacters: Option<int>)

  /** A session of the catalogue (a part of the document, not a user session). */
  datatype Part = Part(partId: string, title: Option<string>, description: Option<string>, steps: seq<Step>)

  type Catalogue = seq<Part>

  /** `step_content.get("static_content", {})` */
  function StaticOf(s: Step): StaticContent
  {
    s.staticContent.GetOr([])
  }

  // ---------------------------------------------------------------------------
  // Step lookup
  // ---------------------------------------------------------------------------

  predicate HasStep(steps: seq<Step>, id: string)
  {
    exists j :: 0 <= j < |steps| && steps[j].stepId == id
  }

  /** The first step of `steps` with the id: the inner loop, which stops at its first match. */
  function FirstIn(steps: seq<Step>, id: string): (r: Option<Step>)
    ensures r.Some? <==> HasStep(steps, id)
    ensures r.Some? ==> exists j :: 0 <= j < |steps| && steps[j] == r.value && r.value.stepId == id
                              && forall k :: 0 <= k < j ==> steps[k].stepId != id
  {
    if steps == [] then None
    else if steps[0].stepId == id then Some(steps[0])
    else
      var r := FirstIn(steps[1..], id);
      assert forall j :: 1 <= j < |steps| ==> steps[j] == steps[1..][j - 1];
      r
  }

  /**
   * What the generation endpoint's nested loop leaves in `step_content`: the
   * outer loop does not stop, so a later session's match replaces an earlier one.
   */
  function LastPartMatch(cat: Catalogue, id: string): Option<Step>
  {
    if cat == [] then None
    else
      match FirstIn(cat[|cat| - 1].steps, id)
      case Some(s) => Some(s)
      case None => LastPartMatch(cat[..|cat| - 1], id)
  }

  /** `get_step_content`: the first step of the whole catalogue with the id. */
  function StepContent(cat: Catalogue, id: string): Option<Step>
  {
    if cat == [] then None
    else
      match FirstIn(cat[0].steps, id)
      case Some(s) => Some(s)
      case None => StepContent(cat[1..], id)
  }

  /** The generation endpoint's lookup: the outer loop runs over every session, the inner one breaks at a match. */
  method FindStep(cat: Catalogue, id: string) returns (found: Option<Step>)
    ensures found == LastPartMatch(cat, id)
  {
    found := None;
    for i := 0 to |cat|
      invariant found == LastPartMatch(cat[..i], id)
    {
      var steps := cat[i].steps;
      var j := 0;
      while j < |steps|
        invariant 0 <= j <= |steps|
        invariant forall k :: 0 <= k < j ==> steps[k].stepId != id
        invariant found == LastPartMatch(cat[..i], id)
      {
        if steps[j].stepId == id {
          found := Some(steps[j]);
          break;
        }
        j := j + 1;
      }
      assert cat[..i + 1][..i] == cat[..i];
      assert found == LastPartMatch(cat[..i + 1], id) by {
        if j < |steps| {
          assert FirstIn(steps[j..], id) == Some(steps[j]);
          FirstInSkip(steps, id, j);
        } else {
          assert !HasStep(steps, id);
        }
      }
    }
    assert cat[..|cat|] == cat;
  }

  /** Skipping a prefix without the id does not change the first match. */
  lemma {:induction false} FirstInSkip(steps: seq<Step>, id: string, j: nat)
    requires j <= |steps|
    requires forall k :: 0 <= k < j ==> steps[k].stepId != id
    ensures FirstIn(steps, id) == FirstIn(steps[j..], id)
  {
    if j > 0 {
      assert steps[1..][j - 1..] == steps[j..];
      FirstInSkip(steps[1..], id, j - 1);
    }
  }

  predicate InPart(cat: Catalogue, i: int, id: string)
  {
    0 <= i < |cat| && HasStep(cat[i].steps, id)
  }

  /** With no session holding the id, the generation lookup finds nothing. */
  lemma {:induction false} LastPartMatchNone(cat: Catalogue, id: string)
    requires forall i :: !InPart(cat, i, id)
    ensures LastPartMatch(cat, id) == None
  {
    if cat != [] {
      var n := |cat| - 1;
      assert !InPart(cat, n, id);
      forall k ensures !InPart(cat[..n], k, id) {
        if 0 <= k < n {
          assert cat[..n][k] == cat[k] && !InPart(cat, k, id);
        }
      }
      LastPartMatchNone(cat[..n], id);
    }
  }

  /** When session i is the last one holding the id, the generation lookup returns its first match. */
  lemma {:induction false} LastPartMatchAt(cat: Catalogue, id: string, i: nat)
    requires InPart(cat, i, id)
    requires forall k :: i < k ==> !InPart(cat, k, id)
    ensures LastPartMatch(cat, id) == FirstIn(cat[i].steps, id)
  {
    var n := |cat| - 1;
    if i < n {
      assert !InPart(cat, n, id);
      assert cat[..n][i] == cat[i];
      forall k | i < k ensures !InPart(cat[..n], k, id) {
        if k < n {
          assert cat[..n][k] == cat[k] && !InPart(cat, k, id);
        }
      }
      LastPartMatchAt(cat[..n], id, i);
    }
  }

  /** With no session holding the id, `get_step_content` finds nothing. */
  lemma {:induction false} StepContentNone(cat: Catalogue, id: string)
    requires forall i :: !InPart(cat, i, id)
    ensures StepContent(cat, id) == None
  {
    if cat != [] {
      assert !InPart(cat, 0, id);
      forall k ensures !InPart(cat[1..], k, id) {
        if 0 <= k < |cat| - 1 {
          assert cat[1..][k] == cat[k + 1] && !InPart(cat, k + 1, id);
        }
      }
      StepContentNone(cat[1..], id);
    }
  }

  /** When session i is the first one holding the id, `get_step_content` returns its first match. */
  lemma {:induction false} StepContentAt(cat: Catalogue, id: string, i: nat)
    requires InPart(cat, i, id)
    requires forall k :: k < i ==> !InPart(cat, k, id)
    ensures StepContent(cat, id) == FirstIn(cat[i].steps, id)
  {
    if i > 0 {
      assert !InPart(cat, 0, id);
      assert cat[1..][i - 1] == cat[i];
      forall k | k < i - 1 ensures !InPart(cat[1..], k, id) {
        if 0 <= k {
          assert cat[1..][k] == cat[k + 1] && !InPart(cat, k + 1, id);
        }
      }
      StepContentAt(cat[1..], id, i - 1);
    }
  }

  /** The two lookups agree when at most one session has the id. */
  lemma LookupsAgree(cat: Catalogue, id: string)
    requires forall a, b :: InPart(cat, a, id) && InPart(cat, b, id) ==> a == b
    ensures LastPartMatch(cat, id) == StepContent(cat, id)
  {
    if i :| InPart(cat, i, id) {
      LastPartMatchAt(cat, id, i);
      StepContentAt(cat, id, i);
    } else {
      LastPartMatchNone(cat, id);
      StepContentNone(cat, id);
    }
  }

  /**
   * When two sessions have the id, the generation endpoint takes its step from
   * the later one and `get_step_content` from the earlier one.
   */
  lemma LookupsDiffer(cat: Catalogue, id: string, a: nat, b: nat)
    requires a < b && InPart(cat, a, id) && InPart(cat, b, id)
    requires forall k :: InPart(cat, k, id) ==> k == a || k == b
    ensures LastPartMatch(cat, id) == FirstIn(cat[b].steps, id)
    ensures StepContent(cat, id) == FirstIn(cat[a].steps, id)
  {
    LastPartMatchAt(cat, id, b);
    StepContentAt(cat, id, a);
  }

  // ---------------------------------------------------------------------------
  // Counting and listing
  // ---------------------------------------------------------------------------

  /** `sum(len(s.get("steps", [])) for s in sessions)` */
  function TotalSteps(cat: Catalogue): nat
  {
    if cat == [] then 0 else TotalSteps(cat[..|cat| - 1]) + |cat[|cat| - 1].steps|
  }

  /** Every step id of the catalogue, session after session. */
  function StepIds(cat: Catalogue): seq<string>
  {
    if cat == [] then [] else StepIds(cat[..|cat| - 1]) + Ids(cat[|cat| - 1].steps)
  }

  function Ids(steps: seq<Step>): (r: seq<string>)
    ensures |r| == |steps| && forall j :: 0 <= j < |steps| ==> r[j] == steps[j].stepId
  {
    seq(|steps|, j requires 0 <= j < |steps| => steps[j].stepId)
  }

  /** The step total counts every listed step id, and an id is listed exactly when some session has it. */
  lemma {:induction false} StepIdsFacts(cat: Catalogue)
    ensures |StepIds(cat)| == TotalSteps(cat)
    ensures forall id :: id in StepIds(cat) <==> exists i :: InPart(cat, i, id)
  {
    if cat != [] {
      var n := |cat| - 1;
      var init := cat[..n];
      StepIdsFacts(init);
      assert forall i :: 0 <= i < n ==> init[i] == cat[i];
      forall id ensures id in StepIds(cat) <==> exists i :: InPart(cat, i, id) {
        if id in StepIds(init) {
          var i :| InPart(init, i, id);
          assert InPart(cat, i, id);
        }
        if id in Ids(cat[n].steps) {
          var j :| 0 <= j < |cat[n].steps| && Ids(cat[n].steps)[j] == id;
          assert InPart(cat, n, id);
        }
        if exists i :: InPart(cat, i, id) {
          var i :| InPart(cat, i, id);
          if i < n {
            assert InPart(init, i, id);
          } else {
            var j :| 0 <= j < |cat[n].steps| && cat[n].steps[j].stepId == id;
            assert Ids(cat[n].steps)[j] == id;
          }
        }
      }
    }
  }

  /** One step as `get_sessions_structure` lists it. */
  datatype StepInfo = StepInfo(stepId: string, chapterTitle: Option<string>, targetCharacters: Option<int>)

  /** One session as `get_sessions_structure` lists it. */
  datatype PartInfo = PartInfo(partId: string, title: Option<string>, description: Option<string>, steps: seq<StepInfo>)

  function InfoOf(s: Step): StepInfo
  {
    StepInfo(s.stepId, s.chapterTitle, s.targetCharacters)
  }

  /** The step listing of one session, in catalogue order. */
  method StepsInfo(steps: seq<Step>) returns (infos: seq<StepInfo>)
    ensures |infos| == |steps|
    ensures forall j :: 0 <= j < |steps| ==> infos[j] == StepInfo(steps[j].stepId, steps[j].chapterTitle, steps[j].targetCharacters)
  {
    infos := [];
    for j := 0 to |steps|
      invariant |infos| == j
      invariant forall k :: 0 <= k < j ==> infos[k] == InfoOf(steps[k])
    {
      infos := infos + [InfoOf(steps[j])];
    }
  }

  /** `get_sessions_structure`: every session with its steps' ids, chapter titles and targets, in order. */
  method SessionsStructure(cat: Catalogue) returns (infos: seq<PartInfo>)
    ensures |infos| == |cat|
    ensures forall i :: 0 <= i < |cat| ==>
      && infos[i].partId == cat[i].partId && infos[i].title == cat[i].title
      && infos[i].description == cat[i].description
      && |infos[i].steps| == |cat[i].steps|
      && forall j :: 0 <= j < |cat[i].steps| ==> infos[i].steps[j] == InfoOf(cat[i].steps[j])
  {
    infos := [];
    for i := 0 to |cat|
      invariant |infos| == i
      invariant forall k :: 0 <= k < i ==>
        && infos[k].partId == cat[k].partId && infos[k].title == cat[k].title
        && infos[k].description == cat[k].description
        && |infos[k].steps| == |cat[k].steps|
        && forall j :: 0 <= j < |cat[k].steps| ==> infos[k].steps[j] == InfoOf(cat[k].steps[j])
    {
      var steps := StepsInfo(cat[i].steps);
      infos := infos + [PartInfo(cat[i].partId, cat[i].title, cat[i].description, steps)];
    }
  }
}
