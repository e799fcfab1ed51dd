/**
 * What a generated step and a streamed step look like: the shape of each
 * block, the step total and status, and the order and lengths of the frames.
 */
module ContentFacts {
  import opened Wrappers
  import opened Text
  import opened AIConfigs
  import opened Recovery
  import opened RecoveryFacts
  import opened ContentGeneration

  // ---------------------------------------------------------------------------
  // generate_step
  // ---------------------------------------------------------------------------

  /**
   * A block of a step keeps its id, is its prefix and a newline followed by the
   * generated text, counts only the generated text, and is within
   * [min, 2 × min] unless it failed (when `min` is 0 the `or` falls back to the
   * configured bounds).
   */
  lemma StepBlockShape(config: AIConfig, p: BlockPrompt, replies: seq<Response>)
    ensures var b := StepBlock(config, p, replies);
      && b.blockId == p.blockId
      && |b.content| == |p.prefix| + 1 + b.characterCount
      && b.content[..|p.prefix| + 1] == p.prefix + "\n"
      && (b.status != Failed && BlockMin(p) != 0 ==> BlockMin(p) <= b.characterCount <= 2 * BlockMin(p))
      && (b.status != Failed && BlockMin(p) == 0 ==>
            config.minCharacters <= b.characterCount <= config.maxCharacters)
  {
    NotFailedMeansInRange(config, p.prompt, Some(BlockMin(p)), Some(BlockMin(p) * 2), replies);
  }

  /** The step total adds up over any split of the blocks. */
  lemma {:induction false} SumCountsAppend(a: seq<BlockResult>, b: seq<BlockResult>)
    ensures SumCounts(a + b) == SumCounts(a) + SumCounts(b)
    decreases |b|
  {
    if b == [] {
      assert a + b == a;
    } else {
      var b' := b[..|b| - 1];
      assert (a + b)[..|a + b| - 1] == a + b';
      assert (a + b)[|a + b| - 1] == b[|b| - 1];
      SumCountsAppend(a, b');
    }
  }

  /** No block failed exactly when every block's status is not `Failed`. */
  lemma {:induction false} NoneFailedIff(bs: seq<BlockResult>)
    ensures NoneFailed(bs) <==> forall i :: 0 <= i < |bs| ==> bs[i].status != Failed
  {
    if bs != [] {
      NoneFailedIff(bs[1..]);
      assert forall i :: 1 <= i < |bs| ==> bs[i] == bs[1..][i - 1];
    }
  }

  /** The blocks' counts are all non-negative, so is the total. */
  lemma {:induction false} SumCountsNonNegative(bs: seq<BlockResult>)
    ensures SumCounts(bs) >= 0
    ensures forall i :: 0 <= i < |bs| ==> bs[i].characterCount <= SumCounts(bs)
  {
    if bs != [] {
      var init := bs[..|bs| - 1];
      SumCountsNonNegative(init);
      assert forall i :: 0 <= i < |init| ==> bs[i] == init[i];
    }
  }

  /**
   * `generate_step`'s result: one block per prompt, in prompt order, the total
   * bounding every block's count, and status "partial" exactly when some block
   * failed.
   */
  lemma StepSpecShape(config: AIConfig, stepId: string, ps: seq<BlockPrompt>, blockReplies: seq<seq<Response>>)
    ensures var r := StepSpec(config, stepId, ps, blockReplies);
      && r.stepId == stepId
      && |r.blocks| == |ps|
      && (forall i :: 0 <= i < |ps| ==> r.blocks[i].blockId == ps[i].blockId)
      && (r.status == StepPartial <==> exists i :: 0 <= i < |ps| && r.blocks[i].status == Failed)
      && r.totalCharacterCount >= 0
      && (forall i :: 0 <= i < |ps| ==> r.blocks[i].characterCount <= r.totalCharacterCount)
  {
    var bs := StepBlocks(config, ps, blockReplies);
    NoneFailedIff(bs);
    SumCountsNonNegative(bs);
  }

  // ---------------------------------------------------------------------------
  // generate_step_stream
  // ---------------------------------------------------------------------------

  /** The ids of the `block_start` frames, in order. */
  function Starts(fs: seq<Frame>): seq<string>
  {
    if fs == [] then [] else (if fs[0].BlockStart? then [fs[0].blockId] else []) + Starts(fs[1..])
  }

  /** The `block_end` frames as (id, character_count), in order. */
  function Ends(fs: seq<Frame>): seq<(string, nat)>
  {
    if fs == [] then [] else (if fs[0].BlockEnd? then [(fs[0].blockId, fs[0].characterCount)] else []) + Ends(fs[1..])
  }

  /** The text the `chunk` frames of block `id` carry, joined in order. */
  function ChunkText(fs: seq<Frame>, id: string): string
  {
    if fs == [] then "" else (if fs[0].Chunk? && fs[0].blockId == id then fs[0].content else "") + ChunkText(fs[1..], id)
  }

  lemma {:induction false} FramesAppend(a: seq<Frame>, b: seq<Frame>, id: string)
    ensures Starts(a + b) == Starts(a) + Starts(b)
    ensures Ends(a + b) == Ends(a) + Ends(b)
    ensures ChunkText(a + b, id) == ChunkText(a, id) + ChunkText(b, id)
  {
    StartsAppend(a, b);
    EndsAppend(a, b);
    ChunkTextAppend(a, b, id);
  }

  lemma {:induction false} StartsAppend(a: seq<Frame>, b: seq<Frame>)
    ensures Starts(a + b) == Starts(a) + Starts(b)
  {
    if a == [] {
      assert a + b == b;
    } else {
      assert (a + b)[0] == a[0];
      assert (a + b)[1..] == a[1..] + b;
      StartsAppend(a[1..], b);
    }
  }

  lemma {:induction false} EndsAppend(a: seq<Frame>, b: seq<Frame>)
    ensures Ends(a + b) == Ends(a) + Ends(b)
  {
    if a == [] {
      assert a + b == b;
    } else {
      assert (a + b)[0] == a[0];
      assert (a + b)[1..] == a[1..] + b;
      EndsAppend(a[1..], b);
    }
  }

  lemma {:induction false} ChunkTextAppend(a: seq<Frame>, b: seq<Frame>, id: string)
    ensures ChunkText(a + b, id) == ChunkText(a, id) + ChunkText(b, id)
  {
    if a == [] {
      assert a + b == b;
    } else {
      assert (a + b)[0] == a[0];
      assert (a + b)[1..] == a[1..] + b;
      ChunkTextAppend(a[1..], b, id);
    }
  }

  /** The chunk frames of one block carry its chunks and nothing for any other block. */
  lemma {:induction false} ChunkFramesText(id: string, chunks: seq<string>, other: string)
    ensures Starts(ChunkFrames(id, chunks)) == [] && Ends(ChunkFrames(id, chunks)) == []
    ensures ChunkText(ChunkFrames(id, chunks), other) == if other == id then Concat(chunks) else ""
    decreases |chunks|
  {
    if chunks != [] {
      var init := chunks[..|chunks| - 1];
      var last := Chunk(id, chunks[|chunks| - 1]);
      ChunkFramesText(id, init, other);
      FramesAppend(ChunkFrames(id, init), [last], other);
      assert [last][1..] == [];
    }
  }

  /** The frames of one block, split into its start, its chunks and its end. */
  lemma BlockFrames(id: string, prefix: string, chunks: seq<string>, other: string)
    ensures var fs := [BlockStart(id, prefix)] + ChunkFrames(id, chunks);
      && Starts(fs) == [id] && Ends(fs) == []
      && ChunkText(fs, other) == if other == id then Concat(chunks) else ""
  {
    var fs := [BlockStart(id, prefix)] + ChunkFrames(id, chunks);
    ChunkFramesText(id, chunks, other);
    FramesAppend([BlockStart(id, prefix)], ChunkFrames(id, chunks), other);
    assert [BlockStart(id, prefix)][1..] == [];
  }

  function Tail(streams: seq<StreamReply>): seq<StreamReply>
  {
    if |streams| > 0 then streams[1..] else []
  }

  lemma TailAt(streams: seq<StreamReply>, i: nat)
    ensures StreamRepliesAt(Tail(streams), i) == StreamRepliesAt(streams, i + 1)
  {
  }

  /** One unfolding of the stream's frames when its first block does not raise. */
  lemma StreamUnfold(ps: seq<BlockPrompt>, streams: seq<StreamReply>)
    requires ps != [] && !StreamRepliesAt(streams, 0).raised
    ensures var s := StreamRepliesAt(streams, 0);
      var run := StreamFrames(ps, streams);
      var rest := StreamFrames(ps[1..], Tail(streams));
      && run.error == rest.error
      && run.frames == [BlockStart(ps[0].blockId, ps[0].prefix)] + ChunkFrames(ps[0].blockId, s.chunks)
                       + [BlockEnd(ps[0].blockId, |Concat(s.chunks)|)] + rest.frames
  {
  }

  /** How the frames of a step whose first block streams without raising decompose. */
  lemma StreamCons(ps: seq<BlockPrompt>, streams: seq<StreamReply>, id: string)
    requires ps != [] && !StreamRepliesAt(streams, 0).raised
    ensures var s := StreamRepliesAt(streams, 0);
      var run := StreamFrames(ps, streams);
      var rest := StreamFrames(ps[1..], Tail(streams));
      && run.error == rest.error
      && Starts(run.frames) == [ps[0].blockId] + Starts(rest.frames)
      && Ends(run.frames) == [(ps[0].blockId, |Concat(s.chunks)|)] + Ends(rest.frames)
      && ChunkText(run.frames, id) == (if id == ps[0].blockId then Concat(s.chunks) else "") + ChunkText(rest.frames, id)
  {
    StreamUnfold(ps, streams);
    BlockThenRest(ps[0].blockId, ps[0].prefix, StreamRepliesAt(streams, 0).chunks, StreamFrames(ps[1..], Tail(streams)).frames, id);
  }

  /** One block's start, chunk and end frames, then the frames `rest` of the blocks after it. */
  lemma BlockThenRest(b: string, prefix: string, chunks: seq<string>, rest: seq<Frame>, id: string)
    ensures var fs := [BlockStart(b, prefix)] + ChunkFrames(b, chunks) + [BlockEnd(b, |Concat(chunks)|)] + rest;
      && Starts(fs) == [b] + Starts(rest)
      && Ends(fs) == [(b, |Concat(chunks)|)] + Ends(rest)
      && ChunkText(fs, id) == (if id == b then Concat(chunks) else "") + ChunkText(rest, id)
  {
    BlockThenRestStarts(b, prefix, chunks, rest);
    BlockThenRestEnds(b, prefix, chunks, rest);
    BlockThenRestText(b, prefix, chunks, rest, id);
  }

  lemma BlockThenRestStarts(b: string, prefix: string, chunks: seq<string>, rest: seq<Frame>)
    ensures Starts([BlockStart(b, prefix)] + ChunkFrames(b, chunks) + [BlockEnd(b, |Concat(chunks)|)] + rest) == [b] + Starts(rest)
  {
    var start, endF := [BlockStart(b, prefix)], [BlockEnd(b, |Concat(chunks)|)];
    assert start[1..] == [] && endF[1..] == [];
    ChunkFramesText(b, chunks, b);
    StartsAppend(start, ChunkFrames(b, chunks));
    StartsAppend(start + ChunkFrames(b, chunks), endF);
    StartsAppend(start + ChunkFrames(b, chunks) + endF, rest);
  }

  lemma BlockThenRestEnds(b: string, prefix: string, chunks: seq<string>, rest: seq<Frame>)
    ensures Ends([BlockStart(b, prefix)] + ChunkFrames(b, chunks) + [BlockEnd(b, |Concat(chunks)|)] + rest)
      == [(b, |Concat(chunks)|)] + Ends(rest)
  {
    var start, endF := [BlockStart(b, prefix)], [BlockEnd(b, |Concat(chunks)|)];
    assert start[1..] == [] && endF[1..] == [];
    ChunkFramesText(b, chunks, b);
    EndsAppend(start, ChunkFrames(b, chunks));
    EndsAppend(start + ChunkFrames(b, chunks), endF);
    EndsAppend(start + ChunkFrames(b, chunks) + endF, rest);
  }

  lemma BlockThenRestText(b: string, prefix: string, chunks: seq<string>, rest: seq<Frame>, id: string)
    ensures ChunkText([BlockStart(b, prefix)] + ChunkFrames(b, chunks) + [BlockEnd(b, |Concat(chunks)|)] + rest, id)
      == (if id == b then Concat(chunks) else "") + ChunkText(rest, id)
  {
    var start, cf, endF := [BlockStart(b, prefix)], ChunkFrames(b, chunks), [BlockEnd(b, |Concat(chunks)|)];
    assert start[1..] == [] && endF[1..] == [];
    assert ChunkText(start, id) == "" && ChunkText(endF, id) == "";
    ChunkTextAppend(start, cf, id);
    ChunkTextAppend(start + cf, endF, id);
    ChunkTextAppend(start + cf + endF, rest, id);
    assert ChunkText(start + cf + endF, id) == ChunkText(cf, id);
    ChunkFramesText(b, chunks, id);
  }

  /** A streamed step ends without an error exactly when no block's stream raises. */
  lemma {:induction false} StreamError(ps: seq<BlockPrompt>, streams: seq<StreamReply>)
    ensures var run := StreamFrames(ps, streams);
      && (run.error.None? <==> forall i :: 0 <= i < |ps| ==> !StreamRepliesAt(streams, i).raised)
      && (run.error.Some? ==> run.error == Some(StreamFailed))
    decreases |ps|
  {
    if ps != [] && !StreamRepliesAt(streams, 0).raised {
      StreamError(ps[1..], Tail(streams));
      StreamUnfold(ps, streams);
      forall i | 1 <= i < |ps| ensures StreamRepliesAt(streams, i) == StreamRepliesAt(Tail(streams), i - 1) {
        TailAt(streams, i - 1);
      }
      forall i | 0 <= i < |ps| - 1 ensures StreamRepliesAt(Tail(streams), i) == StreamRepliesAt(streams, i + 1) {
        TailAt(streams, i);
      }
    }
  }

  /**
   * The `block_start` frames name a prefix of the blocks in prompt order, all
   * of them when the run completes.
   */
  lemma {:induction false} StreamStarts(ps: seq<BlockPrompt>, streams: seq<StreamReply>)
    ensures var run := StreamFrames(ps, streams);
      && |Starts(run.frames)| <= |ps|
      && (forall i :: 0 <= i < |Starts(run.frames)| ==> Starts(run.frames)[i] == ps[i].blockId)
      && (run.error.None? ==> |Starts(run.frames)| == |ps|)
    decreases |ps|
  {
    if ps != [] {
      var s := StreamRepliesAt(streams, 0);
      if s.raised {
        BlockFrames(ps[0].blockId, ps[0].prefix, s.chunks, ps[0].blockId);
      } else {
        StreamStarts(ps[1..], Tail(streams));
        StreamCons(ps, streams, ps[0].blockId);
      }
    }
  }

  /**
   * When a streamed step completes, its `block_end` frames name the blocks in
   * prompt order, each with the length of the text its `chunk` frames carried,
   * which is the block's whole stream.
   */
  lemma {:induction false} StreamEnds(ps: seq<BlockPrompt>, streams: seq<StreamReply>)
    requires DistinctIds(ps)
    requires StreamFrames(ps, streams).error.None?
    ensures var run := StreamFrames(ps, streams);
      && |Ends(run.frames)| == |ps|
      && forall i :: 0 <= i < |ps| ==>
           ChunkText(run.frames, ps[i].blockId) == Concat(StreamRepliesAt(streams, i).chunks)
           && Ends(run.frames)[i] == (ps[i].blockId, |ChunkText(run.frames, ps[i].blockId)|)
    decreases |ps|
  {
    if ps != [] {
      var p := ps[0];
      var tl := ps[1..];
      var run := StreamFrames(ps, streams);
      var rest := StreamFrames(tl, Tail(streams));
      assert DistinctIds(tl) by {
        forall i, j | 0 <= i < j < |tl| ensures tl[i].blockId != tl[j].blockId {
          assert tl[i] == ps[i + 1] && tl[j] == ps[j + 1];
        }
      }
      StreamCons(ps, streams, p.blockId);
      StreamEnds(tl, Tail(streams));
      ForeignChunkText(tl, Tail(streams), p.blockId);
      forall i | 1 <= i < |ps|
        ensures ChunkText(run.frames, ps[i].blockId) == Concat(StreamRepliesAt(streams, i).chunks)
        ensures Ends(run.frames)[i] == (ps[i].blockId, |ChunkText(run.frames, ps[i].blockId)|)
      {
        assert tl[i - 1] == ps[i];
        StreamCons(ps, streams, ps[i].blockId);
        TailAt(streams, i - 1);
      }
    }
  }

  /** A block id that no prompt carries gets no chunk text. */
  lemma {:induction false} ForeignChunkText(ps: seq<BlockPrompt>, streams: seq<StreamReply>, id: string)
    requires forall i :: 0 <= i < |ps| ==> ps[i].blockId != id
    ensures ChunkText(StreamFrames(ps, streams).frames, id) == ""
    decreases |ps|
  {
    if ps != [] {
      var s := StreamRepliesAt(streams, 0);
      var p := ps[0];
      if s.raised {
        BlockFrames(p.blockId, p.prefix, s.chunks, id);
      } else {
        StreamCons(ps, streams, id);
        ForeignChunkText(ps[1..], Tail(streams), id);
      }
    }
  }

  // ---------------------------------------------------------------------------
  // generate_user_profile
  // ---------------------------------------------------------------------------

  /**
   * Without a prompt generator the profile prompt quotes the JSON of the
   * variables; the profile is "" when the first call raises, and otherwise
   * between 400 and 600 characters unless the recovery loop failed.
   */
  lemma ProfileShape(gen: ContentGenerator, variables: Values.VarBag, replies: seq<Response>)
    ensures gen.promptGenerator.None? ==> IsSubstring(gen.dumps(variables), ProfilePrompt(gen, variables).value)
    ensures ProfilePrompt(gen, variables).Success? ==> ProfileSpec(gen, variables, replies).Success?
    ensures ProfilePrompt(gen, variables).Failure? ==> ProfileSpec(gen, variables, replies) == Failure(ProfilePrompt(gen, variables).error)
    ensures ProfilePrompt(gen, variables).Success? && Respond(replies, 0) == Raised ==>
      ProfileSpec(gen, variables, replies) == Success("")
    ensures ProfilePrompt(gen, variables).Success?
      && RecoverySpec(gen.config, ProfilePrompt(gen, variables).value, Some(400), Some(600), replies).result.status != Failed
      ==> 400 <= |ProfileSpec(gen, variables, replies).value| <= 600
  {
    if gen.promptGenerator.None? {
      IsSubstringOfConcat(ProfileHead, gen.dumps(variables), ProfileTail);
    }
    if ProfilePrompt(gen, variables).Success? {
      NotFailedMeansInRange(gen.config, ProfilePrompt(gen, variables).value, Some(400), Some(600), replies);
    }
  }

  /**
   * The profile is the first reply whenever that reply is already within 400
   * to 600 characters, so it can be longer than 500 characters; with no retry
   * allowed it is the first reply whatever its length, even when the run failed.
   */
  lemma ProfileIsFirstReply(gen: ContentGenerator, variables: Values.VarBag, replies: seq<Response>, text: string)
    requires ProfilePrompt(gen, variables).Success? && Respond(replies, 0) == Reply(text)
    ensures 400 <= |text| <= 600 ==> ProfileSpec(gen, variables, replies) == Success(text)
    ensures gen.config.maxRetry <= 0 ==> ProfileSpec(gen, variables, replies) == Success(text)
  {
    var st := LoopState(text, 0, Succeeded, [], [Initial(ProfilePrompt(gen, variables).value)]);
    assert Bounds(gen.config, Some(400), Some(600)) == (400, 600);
    if 400 <= |text| <= 600 && 0 < gen.config.maxRetry {
      StepInRange(st, 400, 600, gen.config.maxRetry, replies);
    }
  }
}
