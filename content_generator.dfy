/**
 * `ContentGenerator`: one block through the recovery loop, a whole step block
 * by block, the streaming variant of a step, and the user profile.
 *
 * The prompt generator is an external object; it is given as functions whose
 * `Failure` result stands for an exception it raises.  `json.dumps` is the
 * opaque function `dumps`.  Each block of a step has its own provider oracle
 * (`blockReplies[i]`; a missing one fails on the first call).
 */
module ContentGeneration {
  import opened Wrappers
  import opened Values
  import opened AIConfigs
  import opened Recovery

  /** One entry of the `dict` that `get_step_prompts` returns: `min_characters` may be absent. */
  datatype BlockPrompt = BlockPrompt(blockId: string, prompt: string, prefix: string, minCharacters: Option<int>)

  /** The block ids are the keys of a `dict`, hence distinct. */
  predicate DistinctIds(ps: seq<BlockPrompt>)
  {
    forall i, j :: 0 <= i < j < |ps| ==> ps[i].blockId != ps[j].blockId
  }

  type StepPrompts = ps: seq<BlockPrompt> | DistinctIds(ps) witness []

  datatype PromptGenerator = PromptGenerator(
    stepPrompts: (string, VarBag, Option<string>, Option<string>) -> Result<StepPrompts, string>,
    profilePrompt: VarBag -> Result<string, string>)

  datatype ContentGenerator = ContentGenerator(
    config: AIConfig,
    promptGenerator: Option<PromptGenerator>,
    dumps: VarBag -> string)

  const PromptGeneratorRequired: string := "PromptGenerator is required for step generation"

  /** `ContentGenerator(config, prompt_generator)`: the constructor creates the client, which may raise. */
  function NewContentGenerator(config: AIConfig, promptGenerator: Option<PromptGenerator>, dumps: VarBag -> string)
    : (r: Result<ContentGenerator, string>)
    ensures r.Success? <==> CreateAIClient(config).Success?
    ensures r.Success? ==> r.value.config == config
    ensures r.Failure? ==> r.error == CreateAIClient(config).error
  {
    match CreateAIClient(config)
    case Success(_) => Success(ContentGenerator(config, promptGenerator, dumps))
    case Failure(e) => Failure(e)
  }

  /** `create_generator`: a provider name, optional model and key, to a generator. */
  function CreateGenerator(provider: string, model: Option<string>, apiKey: Option<string>,
                           promptGenerator: Option<PromptGenerator>, dumps: VarBag -> string)
    : (r: Result<ContentGenerator, string>)
    ensures r.Success? <==> provider == "openai" || provider == "gemini"
    ensures r.Success? ==> r.value.config == CreateGeneratorConfig(provider, model, apiKey).value
    ensures r.Failure? ==> r.error == "Unsupported provider: " + provider
  {
    match CreateGeneratorConfig(provider, model, apiKey)
    case Failure(e) => Failure(e)
    case Success(config) => NewContentGenerator(config, promptGenerator, dumps)
  }

  // ---------------------------------------------------------------------------
  // generate_block
  // ---------------------------------------------------------------------------

  /** The `dict` `generate_block` returns. */
  datatype BlockResult = BlockResult(
    blockId: string,
    content: string,
    characterCount: nat,
    status: Status,
    retryCount: nat,
    history: seq<Entry>)

  method GenerateBlock(gen: ContentGenerator, blockId: string, prompt: string, minChars: int, maxChars: int,
                       replies: seq<Response>)
    returns (b: BlockResult)
    ensures var r := RecoverySpec(gen.config, prompt, Some(minChars), Some(maxChars), replies).result;
      b == BlockResult(blockId, r.content, r.characterCount, r.status, r.retryCount, r.history)
  {
    var result, _ := GenerateWithRecovery(gen.config, prompt, Some(minChars), Some(maxChars), replies);
    b := BlockResult(blockId, result.content, result.characterCount, result.status, result.retryCount, result.history);
  }

  // ---------------------------------------------------------------------------
  // generate_step
  // ---------------------------------------------------------------------------

  datatype StepStatus = StepSuccess | StepPartial

  /** The `dict` `generate_step` returns; `blocks` keeps the prompts' order. */
  datatype StepResult = StepResult(stepId: string, blocks: seq<BlockResult>, totalCharacterCount: int, status: StepStatus)

  function ReplyAt(blockReplies: seq<seq<Response>>, i: nat): seq<Response>
  {
    if i < |blockReplies| then blockReplies[i] else []
  }

  /** `prompt_data.get("min_characters", 500)` */
  function BlockMin(p: BlockPrompt): int
  {
    p.minCharacters.GetOr(500)
  }

  /** Block `p` as it appears in the step's result: generated with max = 2 × min, then prefixed. */
  function StepBlock(config: AIConfig, p: BlockPrompt, replies: seq<Response>): BlockResult
  {
    var r := RecoverySpec(config, p.prompt, Some(BlockMin(p)), Some(BlockMin(p) * 2), replies).result;
    BlockResult(p.blockId, p.prefix + "\n" + r.content, r.characterCount, r.status, r.retryCount, r.history)
  }

  function StepBlocks(config: AIConfig, ps: seq<BlockPrompt>, blockReplies: seq<seq<Response>>): seq<BlockResult>
  {
    seq(|ps|, i requires 0 <= i < |ps| => StepBlock(config, ps[i], ReplyAt(blockReplies, i)))
  }

  /** Sum of the blocks' `character_count`, in order. */
  function SumCounts(bs: seq<BlockResult>): int
  {
    if bs == [] then 0 else SumCounts(bs[..|bs| - 1]) + bs[|bs| - 1].characterCount
  }

  /** `all(b["status"] != "failed" for b in results.values())` */
  function NoneFailed(bs: seq<BlockResult>): bool
  {
    bs == [] || (bs[0].status != Failed && NoneFailed(bs[1..]))
  }

  function StepSpec(config: AIConfig, stepId: string, ps: seq<BlockPrompt>, blockReplies: seq<seq<Response>>): StepResult
  {
    var bs := StepBlocks(config, ps, blockReplies);
    StepResult(stepId, bs, SumCounts(bs), if NoneFailed(bs) then StepSuccess else StepPartial)
  }

  /** The blocks of a step, generated one after another as the `for` loop does. */
  method GenerateBlocks(gen: ContentGenerator, ps: StepPrompts, blockReplies: seq<seq<Response>>)
    returns (results: seq<BlockResult>, total: int)
    ensures results == StepBlocks(gen.config, ps, blockReplies)
    ensures total == SumCounts(results)
  {
    results, total := [], 0;
    var i := 0;
    while i < |ps|
      invariant 0 <= i <= |ps|
      invariant |results| == i
      invariant forall k :: 0 <= k < i ==> results[k] == StepBlock(gen.config, ps[k], ReplyAt(blockReplies, k))
      invariant total == SumCounts(results)
    {
      var p := ps[i];
      var m := BlockMin(p);
      var block := GenerateBlock(gen, p.blockId, p.prompt, m, m * 2, ReplyAt(blockReplies, i));
      block := block.(content := p.prefix + "\n" + block.content);
      assert (results + [block])[..i] == results;
      results := results + [block];
      total := total + block.characterCount;
      i := i + 1;
    }
  }

  /** `generate_step`: fails when there is no prompt generator or when it raises. */
  method GenerateStep(gen: ContentGenerator, stepId: string, variables: VarBag, userProfile: Option<string>,
                      previousSummary: Option<string>, blockReplies: seq<seq<Response>>)
    returns (r: Result<StepResult, string>)
    ensures gen.promptGenerator.None? ==> r == Failure(PromptGeneratorRequired)
    ensures gen.promptGenerator.Some? ==>
      match gen.promptGenerator.value.stepPrompts(stepId, variables, userProfile, previousSummary)
      case Failure(e) => r == Failure(e)
      case Success(ps) => r == Success(StepSpec(gen.config, stepId, ps, blockReplies))
  {
    if gen.promptGenerator.None? {
      return Failure(PromptGeneratorRequired);
    }
    var prompts := gen.promptGenerator.value.stepPrompts(stepId, variables, userProfile, previousSummary);
    if prompts.Failure? {
      return Failure(prompts.error);
    }
    var results, total := GenerateBlocks(gen, prompts.value, blockReplies);
    var status := if NoneFailed(results) then StepSuccess else StepPartial;
    r := Success(StepResult(stepId, results, total, status));
  }

  // ---------------------------------------------------------------------------
  // generate_step_stream
  // ---------------------------------------------------------------------------

  /** What the provider's stream delivers for one block: chunks, possibly followed by an exception. */
  datatype StreamReply = StreamReply(chunks: seq<string>, raised: bool)

  datatype Frame =
    | BlockStart(blockId: string, prefix: string)
    | Chunk(blockId: string, content: string)
    | BlockEnd(blockId: string, characterCount: nat)

  /** The frames yielded before the generator finishes or raises, and the error it raised. */
  datatype StreamRun = StreamRun(frames: seq<Frame>, error: Option<string>)

  const StreamFailed: string := "stream failed"

  function Concat(chunks: seq<string>): string
  {
    if chunks == [] then "" else Concat(chunks[..|chunks| - 1]) + chunks[|chunks| - 1]
  }

  function ChunkFrames(id: string, chunks: seq<string>): seq<Frame>
  {
    if chunks == [] then [] else ChunkFrames(id, chunks[..|chunks| - 1]) + [Chunk(id, chunks[|chunks| - 1])]
  }

  function StreamRepliesAt(streams: seq<StreamReply>, i: nat): StreamReply
  {
    if i < |streams| then streams[i] else StreamReply([], true)
  }

  /** Frames of the blocks `ps`, stopping at the first stream that raises. */
  function StreamFrames(ps: seq<BlockPrompt>, streams: seq<StreamReply>): StreamRun
  {
    if ps == [] then StreamRun([], None)
    else
      var s := StreamRepliesAt(streams, 0);
      var started := [BlockStart(ps[0].blockId, ps[0].prefix)] + ChunkFrames(ps[0].blockId, s.chunks);
      if s.raised then StreamRun(started, Some(StreamFailed))
      else
        var rest := StreamFrames(ps[1..], if |streams| > 0 then streams[1..] else []);
        StreamRun(started + [BlockEnd(ps[0].blockId, |Concat(s.chunks)|)] + rest.frames, rest.error)
  }

  function StreamSpec(gen: ContentGenerator, stepId: string, variables: VarBag, userProfile: Option<string>,
                      previousSummary: Option<string>, streams: seq<StreamReply>): StreamRun
  {
    match gen.promptGenerator
    case None => StreamRun([], Some(PromptGeneratorRequired))
    case Some(pg) =>
      match pg.stepPrompts(stepId, variables, userProfile, previousSummary)
      case Failure(e) => StreamRun([], Some(e))
      case Success(ps) => StreamFrames(ps, streams)
  }

  lemma StreamFramesAt(ps: seq<BlockPrompt>, streams: seq<StreamReply>, i: nat)
    requires i < |ps|
    ensures var s := StreamRepliesAt(streams, i);
      var started := [BlockStart(ps[i].blockId, ps[i].prefix)] + ChunkFrames(ps[i].blockId, s.chunks);
      var rest := StreamFrames(ps[i + 1..], Drop(streams, i + 1));
      StreamFrames(ps[i..], Drop(streams, i))
        == if s.raised then StreamRun(started, Some(StreamFailed))
           else StreamRun(started + [BlockEnd(ps[i].blockId, |Concat(s.chunks)|)] + rest.frames, rest.error)
  {
    DropStep(streams, i);
    assert ps[i..][1..] == ps[i + 1..];
  }

  /** `generate_step_stream` as the frames it yields. */
  method GenerateStepStream(gen: ContentGenerator, stepId: string, variables: VarBag, userProfile: Option<string>,
                            previousSummary: Option<string>, streams: seq<StreamReply>)
    returns (run: StreamRun)
    ensures run == StreamSpec(gen, stepId, variables, userProfile, previousSummary, streams)
  {
    if gen.promptGenerator.None? {
      return StreamRun([], Some(PromptGeneratorRequired));
    }
    var prompts := gen.promptGenerator.value.stepPrompts(stepId, variables, userProfile, previousSummary);
    if prompts.Failure? {
      return StreamRun([], Some(prompts.error));
    }
    run := StreamBlocks(prompts.value, streams);
  }

  /** The `for block in prompts` loop of `generate_step_stream`; a raising stream ends it with an error frame. */
  method StreamBlocks(ps: seq<BlockPrompt>, streams: seq<StreamReply>) returns (run: StreamRun)
    ensures run == StreamFrames(ps, streams)
  {
    var frames: seq<Frame> := [];
    var i := 0;
    while i < |ps|
      invariant 0 <= i <= |ps|
      invariant StreamFrames(ps, streams) == StreamRun(frames + StreamFrames(ps[i..], Drop(streams, i)).frames,
                                                       StreamFrames(ps[i..], Drop(streams, i)).error)
    {
      var p := ps[i];
      var s := StreamRepliesAt(streams, i);
      ghost var before := frames;
      frames := frames + [BlockStart(p.blockId, p.prefix)];
      var chunkFrames, fullContent := StreamChunks(p.blockId, s.chunks);
      frames := frames + chunkFrames;
      StreamFramesAt(ps, streams, i);
      if s.raised {
        return StreamRun(frames, Some(StreamFailed));
      }
      frames := frames + [BlockEnd(p.blockId, |fullContent|)];
      ghost var rest := StreamFrames(ps[i + 1..], Drop(streams, i + 1)).frames;
      assert frames + rest == before + ([BlockStart(p.blockId, p.prefix)] + chunkFrames + [BlockEnd(p.blockId, |fullContent|)] + rest);
      i := i + 1;
    }
    assert ps[i..] == [];
    run := StreamRun(frames, None);
  }

  /** The `async for chunk in stream` loop of one block: a chunk frame per chunk, and the text they make up. */
  method StreamChunks(blockId: string, chunks: seq<string>) returns (frames: seq<Frame>, fullContent: string)
    ensures frames == ChunkFrames(blockId, chunks) && fullContent == Concat(chunks)
  {
    frames, fullContent := [], "";
    for j := 0 to |chunks|
      invariant frames == ChunkFrames(blockId, chunks[..j])
      invariant fullContent == Concat(chunks[..j])
    {
      fullContent := fullContent + chunks[j];
      frames := frames + [Chunk(blockId, chunks[j])];
      assert chunks[..j + 1][..j] == chunks[..j];
    }
    assert chunks[..|chunks|] == chunks;
  }

  function Drop(streams: seq<StreamReply>, i: nat): seq<StreamReply>
  {
    if i <= |streams| then streams[i..] else []
  }

  lemma DropStep(streams: seq<StreamReply>, i: nat)
    ensures (if |Drop(streams, i)| > 0 then Drop(streams, i)[1..] else []) == Drop(streams, i + 1)
    ensures StreamRepliesAt(Drop(streams, i), 0) == StreamRepliesAt(streams, i)
  {
  }

  // ---------------------------------------------------------------------------
  // generate_user_profile
  // ---------------------------------------------------------------------------

  const ProfileHead: string := "以下の占星術データに基づいて、この人の「ユーザープロファイル」を500文字以内で作成してください。\n\n【データ】\n"
  const ProfileTail: string := "\n\n【出力形式】\n- 箇条書きではなく、流れるような文章で\n- 500文字以内に収める\n- ビジネスパーソンとしての特性を強調"

  /** `_get_default_profile_prompt`, around the JSON rendering of the variables. */
  function DefaultProfilePrompt(json: string): string
  {
    ProfileHead + (json + ProfileTail)
  }

  /** The prompt `generate_user_profile` sends, or the prompt generator's exception. */
  function ProfilePrompt(gen: ContentGenerator, variables: VarBag): Result<string, string>
  {
    match gen.promptGenerator
    case None => Success(DefaultProfilePrompt(gen.dumps(variables)))
    case Some(pg) => pg.profilePrompt(variables)
  }

  function ProfileSpec(gen: ContentGenerator, variables: VarBag, replies: seq<Response>): Result<string, string>
  {
    match ProfilePrompt(gen, variables)
    case Failure(e) => Failure(e)
    case Success(prompt) => Success(RecoverySpec(gen.config, prompt, Some(400), Some(600), replies).result.content)
  }

  /**
   * `generate_user_profile`: the text recovered with bounds 400 to 600, returned
   * whatever its status; between 400 and 600 characters unless the recovery failed.
   */
  method GenerateUserProfile(gen: ContentGenerator, variables: VarBag, replies: seq<Response>)
    returns (r: Result<string, string>)
    ensures r == ProfileSpec(gen, variables, replies)
  {
    var prompt := ProfilePrompt(gen, variables);
    if prompt.Failure? {
      return Failure(prompt.error);
    }
    var result, _ := GenerateWithRecovery(gen.config, prompt.value, Some(400), Some(600), replies);
    r := Success(result.content);
  }
}
