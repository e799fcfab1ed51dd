/**
 * What `generate_with_recovery` guarantees, proved about `Recovery.RecoverySpec`
 * (which the loop method is proved to compute).
 */
module RecoveryFacts {
  import opened Wrappers
  import opened AIConfigs
  import opened Recovery

  function Max(a: int, b: int): int { if a < b then b else a }

  /** Length the text has after the recorded history, starting from length `start`. */
  function LastLength(start: nat, h: seq<Entry>): nat
  {
    if h == [] then start else h[|h| - 1].after
  }

  /** An entry is made only when the length is out of range on the side its kind repairs. */
  predicate EntryFits(e: Entry, lo: int, hi: int)
  {
    (e.kind == Expansion ==> e.before < lo && e.after >= e.before + 2)
    && (e.kind == Summary ==> e.before > hi && e.before >= lo)
  }

  /** Entries are numbered 1, 2, … and each one starts at the length the previous one left. */
  predicate Chained(start: nat, h: seq<Entry>, lo: int, hi: int)
  {
    (forall k :: 0 <= k < |h| ==> h[k].retry == k + 1 && EntryFits(h[k], lo, hi))
    && (forall k :: 0 < k < |h| ==> h[k].before == h[k - 1].after)
    && (|h| > 0 ==> h[0].before == start)
  }

  /** The request behind an entry: an expansion asks for the shortage, a summary for `hi`. */
  predicate RequestFor(r: Request, e: Entry, lo: int, hi: int)
  {
    if e.kind == Expansion then r.Expand? && |r.content| == e.before && r.shortage == lo - e.before
    else r.Summarize? && |r.content| == e.before && r.target == hi
  }

  /** Request k + 1 is the one whose reply produced entry k. */
  predicate RequestsMatch(prompts: seq<Request>, h: seq<Entry>, lo: int, hi: int)
  {
    forall k :: 0 <= k < |h| ==> k + 1 < |prompts| && RequestFor(prompts[k + 1], h[k], lo, hi)
  }

  /** The loop's state is consistent with a start length `start`. */
  predicate Consistent(st: LoopState, start: nat, lo: int, hi: int)
  {
    && Chained(start, st.history, lo, hi)
    && |st.content| == LastLength(start, st.history)
    && |st.prompts| == st.retry + 1
    && RequestsMatch(st.prompts, st.history, lo, hi)
    && (st.retry == |st.history| || (st.status == Failed && st.retry == |st.history| + 1))
  }

  lemma ChainedAppend(start: nat, h: seq<Entry>, e: Entry, lo: int, hi: int)
    requires Chained(start, h, lo, hi)
    requires e.retry == |h| + 1 && EntryFits(e, lo, hi) && e.before == LastLength(start, h)
    ensures Chained(start, h + [e], lo, hi)
  {
    var h' := h + [e];
    forall k | 0 < k < |h'| ensures h'[k].before == h'[k - 1].after {
      if k < |h| { assert h'[k] == h[k] && h'[k - 1] == h[k - 1]; }
    }
  }

  lemma RequestsAppend(prompts: seq<Request>, h: seq<Entry>, r: Request, e: Entry, lo: int, hi: int)
    requires RequestsMatch(prompts, h, lo, hi) && |prompts| == |h| + 1
    requires RequestFor(r, e, lo, hi)
    ensures RequestsMatch(prompts + [r], h + [e], lo, hi)
  {
    var p', h' := prompts + [r], h + [e];
    forall k | 0 <= k < |h'| ensures k + 1 < |p'| && RequestFor(p'[k + 1], h'[k], lo, hi) {
      if k < |h| { assert p'[k + 1] == prompts[k + 1] && h'[k] == h[k]; }
    }
  }

  // ---------------------------------------------------------------------------
  // Facts about the loop
  // ---------------------------------------------------------------------------

  /**
   * The loop ends in one of three ways: a provider failure, a length in range
   * (marked success or recovered), or retries used up with the status untouched.
   * It never runs past `max_retry`, and it only appends to the history and the requests.
   */
  lemma {:induction false} LoopOutcome(st: LoopState, lo: int, hi: int, maxRetry: int, replies: seq<Response>)
    requires st.status == Succeeded
    ensures var r := RecoverFrom(st, lo, hi, maxRetry, replies);
      && (r.status == Failed
          || (r.status != Failed && lo <= |r.content| <= hi)
          || (r.status == Succeeded && r.retry >= maxRetry))
      && st.retry <= r.retry <= Max(st.retry, maxRetry)
      && st.history <= r.history && st.prompts <= r.prompts
      && |r.prompts| - |st.prompts| == r.retry - st.retry
    decreases maxRetry - st.retry
  {
    if st.retry < maxRetry && !(lo <= |st.content| <= hi) {
      var c := |st.content|;
      var retry := st.retry + 1;
      match Respond(replies, |st.prompts|)
      case Raised =>
      case Reply(t) =>
        if c < lo {
          var content := st.content + "\n\n" + t;
          LoopOutcome(LoopState(content, retry, st.status, st.history + [Entry(Expansion, c, |content|, retry)],
                                st.prompts + [Expand(st.content, lo - c)]), lo, hi, maxRetry, replies);
        } else {
          LoopOutcome(LoopState(t, retry, st.status, st.history + [Entry(Summary, c, |t|, retry)],
                                st.prompts + [Summarize(st.content, hi)]), lo, hi, maxRetry, replies);
        }
    }
  }

  /** The loop keeps the history chained, the length it reports, and the requests in step with the entries. */
  lemma {:induction false} LoopConsistent(st: LoopState, start: nat, lo: int, hi: int, maxRetry: int, replies: seq<Response>)
    requires st.status == Succeeded && st.retry == |st.history|
    requires Consistent(st, start, lo, hi)
    ensures Consistent(RecoverFrom(st, lo, hi, maxRetry, replies), start, lo, hi)
    decreases maxRetry - st.retry
  {
    if st.retry < maxRetry && !(lo <= |st.content| <= hi) {
      var c := |st.content|;
      var retry := st.retry + 1;
      match Respond(replies, |st.prompts|)
      case Raised =>
      case Reply(t) =>
        if c < lo {
          var content := st.content + "\n\n" + t;
          var e := Entry(Expansion, c, |content|, retry);
          var q := Expand(st.content, lo - c);
          ChainedAppend(start, st.history, e, lo, hi);
          RequestsAppend(st.prompts, st.history, q, e, lo, hi);
          LoopConsistent(LoopState(content, retry, st.status, st.history + [e], st.prompts + [q]),
                         start, lo, hi, maxRetry, replies);
        } else {
          var e := Entry(Summary, c, |t|, retry);
          var q := Summarize(st.content, hi);
          ChainedAppend(start, st.history, e, lo, hi);
          RequestsAppend(st.prompts, st.history, q, e, lo, hi);
          LoopConsistent(LoopState(t, retry, st.status, st.history + [e], st.prompts + [q]),
                         start, lo, hi, maxRetry, replies);
        }
    }
  }

  /** While only expansions happen, the text only grows at its end. */
  lemma {:induction false} LoopExpansionsAppend(st: LoopState, lo: int, hi: int, maxRetry: int, replies: seq<Response>)
    requires st.status == Succeeded
    ensures var r := RecoverFrom(st, lo, hi, maxRetry, replies);
      (forall k :: |st.history| <= k < |r.history| ==> r.history[k].kind == Expansion) ==> st.content <= r.content
    decreases maxRetry - st.retry
  {
    if st.retry < maxRetry && !(lo <= |st.content| <= hi) {
      var c := |st.content|;
      var retry := st.retry + 1;
      match Respond(replies, |st.prompts|)
      case Raised =>
      case Reply(t) =>
        if c < lo {
          var content := st.content + "\n\n" + t;
          var next := LoopState(content, retry, st.status, st.history + [Entry(Expansion, c, |content|, retry)],
                                st.prompts + [Expand(st.content, lo - c)]);
          LoopExpansionsAppend(next, lo, hi, maxRetry, replies);
          LoopOutcome(next, lo, hi, maxRetry, replies);
          assert st.content <= content;
        } else {
          var next := LoopState(t, retry, st.status, st.history + [Entry(Summary, c, |t|, retry)],
                                st.prompts + [Summarize(st.content, hi)]);
          LoopOutcome(next, lo, hi, maxRetry, replies);
          assert RecoverFrom(st, lo, hi, maxRetry, replies).history[|st.history|].kind == Summary;
        }
    }
  }

  /** After a summary, the text is exactly the provider's reply to the call that made the entry. */
  lemma {:induction false} LoopSummaryIsReply(st: LoopState, lo: int, hi: int, maxRetry: int, replies: seq<Response>)
    requires st.status == Succeeded && |st.prompts| == |st.history| + 1
    requires st.history != [] && st.history[|st.history| - 1].kind == Summary ==> Respond(replies, |st.history|) == Reply(st.content)
    ensures var r := RecoverFrom(st, lo, hi, maxRetry, replies);
      r.history != [] && r.history[|r.history| - 1].kind == Summary ==> Respond(replies, |r.history|) == Reply(r.content)
    decreases maxRetry - st.retry
  {
    if st.retry < maxRetry && !(lo <= |st.content| <= hi) {
      var c := |st.content|;
      var retry := st.retry + 1;
      match Respond(replies, |st.prompts|)
      case Raised =>
      case Reply(t) =>
        if c < lo {
          var content := st.content + "\n\n" + t;
          LoopSummaryIsReply(LoopState(content, retry, st.status, st.history + [Entry(Expansion, c, |content|, retry)],
                                       st.prompts + [Expand(st.content, lo - c)]), lo, hi, maxRetry, replies);
        } else {
          LoopSummaryIsReply(LoopState(t, retry, st.status, st.history + [Entry(Summary, c, |t|, retry)],
                                       st.prompts + [Summarize(st.content, hi)]), lo, hi, maxRetry, replies);
        }
    }
  }

  // ---------------------------------------------------------------------------
  // Facts about generate_with_recovery
  // ---------------------------------------------------------------------------

  /**
   * A result that is not "failed" has a length within `[lo, hi]`, and a run that
   * used up `max_retry` with the length out of range is "failed".
   */
  lemma NotFailedMeansInRange(config: AIConfig, prompt: string, minChars: Option<int>, maxChars: Option<int>,
                              replies: seq<Response>)
    ensures var r := RecoverySpec(config, prompt, minChars, maxChars, replies).result;
      var (lo, hi) := Bounds(config, minChars, maxChars);
      && r.characterCount == |r.content|
      && (r.status != Failed ==> lo <= r.characterCount <= hi)
      && (r.retryCount >= config.maxRetry && !(lo <= r.characterCount <= hi) ==> r.status == Failed)
  {
    var (lo, hi) := Bounds(config, minChars, maxChars);
    if Respond(replies, 0).Reply? {
      LoopOutcome(LoopState(Respond(replies, 0).text, 0, Succeeded, [], [Initial(prompt)]), lo, hi, config.maxRetry, replies);
    }
  }

  /** `retry_count` never exceeds `max_retry`, so the provider is called at most `1 + max_retry` times. */
  lemma RetriesBounded(config: AIConfig, prompt: string, minChars: Option<int>, maxChars: Option<int>,
                       replies: seq<Response>)
    ensures var run := RecoverySpec(config, prompt, minChars, maxChars, replies);
      && run.result.retryCount <= Max(0, config.maxRetry)
      && |run.prompts| == run.result.retryCount + 1
      && |run.prompts| <= 1 + Max(0, config.maxRetry)
      && run.prompts[0] == Initial(prompt)
  {
    var (lo, hi) := Bounds(config, minChars, maxChars);
    if Respond(replies, 0).Reply? {
      LoopOutcome(LoopState(Respond(replies, 0).text, 0, Succeeded, [], [Initial(prompt)]), lo, hi, config.maxRetry, replies);
    }
  }

  /** A failed first call gives an empty failed result and no further provider calls. */
  lemma InitialFailure(config: AIConfig, prompt: string, minChars: Option<int>, maxChars: Option<int>,
                       replies: seq<Response>)
    requires Respond(replies, 0) == Raised
    ensures RecoverySpec(config, prompt, minChars, maxChars, replies)
      == Run(GenerationResult("", 0, 0, 0, Failed, []), [Initial(prompt)])
  {
  }

  /**
   * The history is numbered 1, 2, … in order, each `before` is the previous `after`
   * (the first is the initial length), the final length is the last `after`, each
   * entry has a matching request, and there is one entry per retry except a
   * retry whose provider call failed.
   */
  lemma HistoryChained(config: AIConfig, prompt: string, minChars: Option<int>, maxChars: Option<int>,
                       replies: seq<Response>)
    requires Respond(replies, 0).Reply?
    ensures var run := RecoverySpec(config, prompt, minChars, maxChars, replies);
      var r := run.result;
      var (lo, hi) := Bounds(config, minChars, maxChars);
      var start := |Respond(replies, 0).text|;
      && Chained(start, r.history, lo, hi)
      && r.characterCount == LastLength(start, r.history)
      && RequestsMatch(run.prompts, r.history, lo, hi)
      && (|r.history| == r.retryCount || (r.status == Failed && |r.history| == r.retryCount - 1))
  {
    var (lo, hi) := Bounds(config, minChars, maxChars);
    var text := Respond(replies, 0).text;
    LoopConsistent(LoopState(text, 0, Succeeded, [], [Initial(prompt)]), |text|, lo, hi, config.maxRetry, replies);
  }

  /** When every recovery was an expansion, the first reply is a prefix of the final text. */
  lemma ExpansionsKeepPrefix(config: AIConfig, prompt: string, minChars: Option<int>, maxChars: Option<int>,
                             replies: seq<Response>)
    requires Respond(replies, 0).Reply?
    ensures var r := RecoverySpec(config, prompt, minChars, maxChars, replies).result;
      (forall k :: 0 <= k < |r.history| ==> r.history[k].kind == Expansion) ==> Respond(replies, 0).text <= r.content
  {
    var (lo, hi) := Bounds(config, minChars, maxChars);
    LoopExpansionsAppend(LoopState(Respond(replies, 0).text, 0, Succeeded, [], [Initial(prompt)]), lo, hi, config.maxRetry, replies);
  }

  /** When the last recovery was a summary, the final text is that summary reply, whole. */
  lemma SummaryReplaces(config: AIConfig, prompt: string, minChars: Option<int>, maxChars: Option<int>,
                        replies: seq<Response>)
    ensures var r := RecoverySpec(config, prompt, minChars, maxChars, replies).result;
      r.history != [] && r.history[|r.history| - 1].kind == Summary ==> Respond(replies, |r.history|) == Reply(r.content)
  {
    var (lo, hi) := Bounds(config, minChars, maxChars);
    if Respond(replies, 0).Reply? {
      LoopSummaryIsReply(LoopState(Respond(replies, 0).text, 0, Succeeded, [], [Initial(prompt)]), lo, hi, config.maxRetry, replies);
    }
  }

  /** `min_chars=0` and `max_chars=0` mean "use the configured bound", as `None` does. */
  lemma ZeroBoundsFallBack(config: AIConfig, prompt: string, replies: seq<Response>)
    ensures RecoverySpec(config, prompt, Some(0), Some(0), replies) == RecoverySpec(config, prompt, None, None, replies)
    ensures Bounds(config, Some(0), None) == (config.minCharacters, config.maxCharacters)
  {
  }

  /**
   * A text brought into range by the last permitted retry keeps the status
   * "success": the loop exits on its guard before the in-range check that would
   * mark it "recovered".
   */
  lemma LastRetryRecoveryStaysSuccess()
    ensures var config := ConfigWith(OpenAI, "gpt-4o", None).(maxRetry := 1);
      var r := RecoverySpec(config, "p", Some(5), Some(100), [Reply("ab"), Reply("cdefg")]).result;
      && r.content == "ab\n\ncdefg" && r.retryCount == 1 && |r.history| == 1
      && r.status == Succeeded
  {
    var config := ConfigWith(OpenAI, "gpt-4o", None).(maxRetry := 1);
    var replies := [Reply("ab"), Reply("cdefg")];
    var st := LoopState("ab", 0, Succeeded, [], [Initial("p")]);
    assert |"ab"| == 2;
    var next := LoopState("ab\n\ncdefg", 1, Succeeded, [Entry(Expansion, 2, 9, 1)], [Initial("p"), Expand("ab", 3)]);
    assert |"ab\n\ncdefg"| == 9;
    assert RecoverFrom(st, 5, 100, 1, replies) == next;
  }

  /** The same text is marked "recovered" when one more retry is permitted. */
  lemma EarlierRecoveryIsRecovered()
    ensures var config := ConfigWith(OpenAI, "gpt-4o", None).(maxRetry := 2);
      RecoverySpec(config, "p", Some(5), Some(100), [Reply("ab"), Reply("cdefg")]).result.status == Recovered
  {
    var replies := [Reply("ab"), Reply("cdefg")];
    var st := LoopState("ab", 0, Succeeded, [], [Initial("p")]);
    assert |"ab"| == 2;
    var next := LoopState("ab\n\ncdefg", 1, Succeeded, [Entry(Expansion, 2, 9, 1)], [Initial("p"), Expand("ab", 3)]);
    assert |"ab\n\ncdefg"| == 9;
    assert RecoverFrom(next, 5, 100, 2, replies) == next.(status := Recovered);
    assert RecoverFrom(st, 5, 100, 2, replies) == next.(status := Recovered);
  }
}
