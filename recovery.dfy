/**
 * The length-recovery loop of `CharacterCountManager.generate_with_recovery`.
 *
 * The AI provider is an oracle: the k-th call made during one recovery run
 * (k = 0 for the initial prompt) receives `replies[k]`; a call beyond the end of
 * the sequence, or a `Raised` entry, is a provider exception.  The run also
 * reports every request it sent, in order; `RequestText` gives the exact prompt text.
 */
module Recovery {
  import opened Wrappers
  import opened Text
  import opened AIConfigs

  datatype Response = Reply(text: string) | Raised

  function Respond(replies: seq<Response>, k: nat): Response
  {
    if k < |replies| then replies[k] else Raised
  }

  datatype Status = Succeeded | Recovered | Failed

  datatype Kind = Expansion | Summary

  /** One `recovery_history` entry: `{"type", "before", "after", "retry"}`. */
  datatype Entry = Entry(kind: Kind, before: nat, after: nat, retry: nat)

  /** A prompt sent to the provider: the caller's, or one of the two recovery prompts. */
  datatype Request =
    | Initial(prompt: string)
    | Expand(content: string, shortage: int)
    | Summarize(content: string, target: int)

  /** `GenerationResult`; `token_count` is never set by the loop and stays 0. */
  datatype GenerationResult = GenerationResult(
    content: string,
    characterCount: nat,
    tokenCount: nat,
    retryCount: nat,
    status: Status,
    history: seq<Entry>)

  // ---------------------------------------------------------------------------
  // Recovery prompts
  // ---------------------------------------------------------------------------

  const ExpansionHead: string := "以下のテキストに、約"
  const ExpansionMid: string := "文字の追加コンテンツを自然に付け加えてください。\n\n【現在のテキスト】\n"
  const ExpansionTail: string := "\n\n【追加の指示】\n- 同じ内容を繰り返さず、新しい視点や具体例を追加してください\n- 文脈の流れを維持し、自然に接続してください\n- 追加部分のみを出力してください（元のテキストは含めない）\n- ビジネスや経営の観点からの洞察を含めてください"

  const SummaryHead: string := "以下のテキストを約"
  const SummaryMid: string := "文字に要約してください。\n\n【元のテキスト】\n"
  const SummaryTail: string := "\n\n【要約の指示】\n- 重要なポイントを維持しながら簡潔にまとめてください\n- 具体例は最も重要なものだけを残してください\n- 文の流れと読みやすさを保ってください\n- 約"
  const SummaryEnd: string := "文字に収めてください"

  /** `_create_expansion_prompt`: asks for about `shortage + 200` more characters. */
  function ExpansionPrompt(content: string, shortage: int): (p: string)
  {
    ExpansionHead + (IntToString(shortage + 200) + (ExpansionMid + (content + ExpansionTail)))
  }

  /** `_create_summary_prompt`: asks for a summary of about `target` characters. */
  function SummaryPrompt(content: string, target: int): (p: string)
  {
    var n := IntToString(target);
    SummaryHead + (n + (SummaryMid + (content + (SummaryTail + (n + SummaryEnd)))))
  }

  /** `h + (n + (m + (c + t)))` contains both `n` and `c`. */
  lemma TemplateQuotes(h: string, n: string, m: string, c: string, t: string)
    ensures IsSubstring(n, h + (n + (m + (c + t))))
    ensures IsSubstring(c, h + (n + (m + (c + t))))
  {
    IsSubstringOfConcat(h, n, m + (c + t));
    ConcatAssoc(n, m, c + t);
    ConcatAssoc(h, n + m, c + t);
    IsSubstringOfConcat(h + (n + m), c, t);
  }

  /** The expansion prompt quotes the current text and the number of characters asked for. */
  lemma ExpansionPromptQuotes(content: string, shortage: int)
    ensures IsSubstring(content, ExpansionPrompt(content, shortage))
    ensures IsSubstring(IntToString(shortage + 200), ExpansionPrompt(content, shortage))
  {
    TemplateQuotes(ExpansionHead, IntToString(shortage + 200), ExpansionMid, content, ExpansionTail);
  }

  /** The summary prompt quotes the current text and the target length. */
  lemma SummaryPromptQuotes(content: string, target: int)
    ensures IsSubstring(content, SummaryPrompt(content, target))
    ensures IsSubstring(IntToString(target), SummaryPrompt(content, target))
  {
    var n := IntToString(target);
    TemplateQuotes(SummaryHead, n, SummaryMid, content, SummaryTail + (n + SummaryEnd));
  }

  /** The exact text the provider receives for a request. */
  function RequestText(r: Request): string
  {
    match r
    case Initial(p) => p
    case Expand(c, n) => ExpansionPrompt(c, n)
    case Summarize(c, t) => SummaryPrompt(c, t)
  }

  /** The text of a decimal integer: an optional leading sign, then digits. */
  predicate NumberText(a: string)
  {
    |a| >= 1 && forall k :: 1 <= k < |a| ==> IsDigit(a[k])
  }

  lemma IntToStringIsNumber(n: int)
    ensures NumberText(IntToString(n))
  {
    if n < 0 {
      var d := NatToString(-n);
      assert forall k :: 1 <= k < |"-" + d| ==> ("-" + d)[k] == d[k - 1];
    }
  }

  /** Where one number ends before another, the text after the shorter one starts with a digit. */
  lemma NumberPrefixDigit(a: string, x: string, b: string, y: string)
    requires NumberText(a) && NumberText(b)
    requires x != "" && a + x == b + y
    ensures |a| < |b| ==> IsDigit(x[0])
  {
    if |a| < |b| {
      assert (a + x)[|a|] == x[0];
      assert (b + y)[|a|] == b[|a|];
    }
  }

  /** A number followed by text that starts with a non-digit can be read off uniquely. */
  lemma NumberPrefixUnique(a: string, x: string, b: string, y: string)
    requires NumberText(a) && NumberText(b)
    requires x != "" && y != "" && !IsDigit(x[0]) && !IsDigit(y[0])
    requires a + x == b + y
    ensures a == b && x == y
  {
    NumberPrefixDigit(a, x, b, y);
    NumberPrefixDigit(b, y, a, x);
    assert a == (a + x)[..|a|];
    assert b == (b + y)[..|b|];
    assert x == (a + x)[|a|..];
    assert y == (b + y)[|b|..];
  }

  lemma IntToStringInjective(m: int, n: int)
    requires IntToString(m) == IntToString(n)
    ensures m == n
  {
    ParseIntOfIntToString(m);
    ParseIntOfIntToString(n);
  }

  lemma CancelPrefix(h: string, x: string, y: string)
    requires h + x == h + y
    ensures x == y
  {
    assert x == (h + x)[|h|..];
    assert y == (h + y)[|h|..];
  }

  /** A text `h + (n + (m + (c + t)))`, with `m` starting with a non-digit, determines the number and `c`. */
  lemma TemplateInjective(h: string, m: string, t1: string, t2: string, n1: string, c1: string, n2: string, c2: string)
    requires m != "" && !IsDigit(m[0])
    requires NumberText(n1) && NumberText(n2)
    requires |t1| == |t2|
    requires h + (n1 + (m + (c1 + t1))) == h + (n2 + (m + (c2 + t2)))
    ensures n1 == n2 && c1 == c2 && t1 == t2
  {
    CancelPrefix(h, n1 + (m + (c1 + t1)), n2 + (m + (c2 + t2)));
    NumberPrefixUnique(n1, m + (c1 + t1), n2, m + (c2 + t2));
    CancelPrefix(m, c1 + t1, c2 + t2);
    assert c1 == (c1 + t1)[..|c1|] && c2 == (c2 + t2)[..|c2|];
    assert t1 == (c1 + t1)[|c1|..] && t2 == (c2 + t2)[|c2|..];
  }

  /** An expansion prompt determines both the text it quotes and the requested shortage. */
  lemma ExpansionPromptInjective(c1: string, s1: int, c2: string, s2: int)
    requires ExpansionPrompt(c1, s1) == ExpansionPrompt(c2, s2)
    ensures c1 == c2 && s1 == s2
  {
    IntToStringIsNumber(s1 + 200);
    IntToStringIsNumber(s2 + 200);
    assert ExpansionMid[0] == '文';
    TemplateInjective(ExpansionHead, ExpansionMid, ExpansionTail, ExpansionTail,
                      IntToString(s1 + 200), c1, IntToString(s2 + 200), c2);
    IntToStringInjective(s1 + 200, s2 + 200);
  }

  /** A summary prompt determines both the text it quotes and the target length. */
  lemma SummaryPromptInjective(c1: string, t1: int, c2: string, t2: int)
    requires SummaryPrompt(c1, t1) == SummaryPrompt(c2, t2)
    ensures c1 == c2 && t1 == t2
  {
    var n1, n2 := IntToString(t1), IntToString(t2);
    IntToStringIsNumber(t1);
    IntToStringIsNumber(t2);
    assert SummaryMid[0] == '文';
    var x1 := SummaryMid + (c1 + (SummaryTail + (n1 + SummaryEnd)));
    var x2 := SummaryMid + (c2 + (SummaryTail + (n2 + SummaryEnd)));
    CancelPrefix(SummaryHead, n1 + x1, n2 + x2);
    NumberPrefixUnique(n1, x1, n2, x2);
    TemplateInjective(SummaryHead, SummaryMid, SummaryTail + (n1 + SummaryEnd), SummaryTail + (n2 + SummaryEnd),
                      n1, c1, n2, c2);
    IntToStringInjective(t1, t2);
  }

  // ---------------------------------------------------------------------------
  // The loop, as a specification
  // ---------------------------------------------------------------------------

  /** Python's `arg or default` for an optional integer argument: `None` and `0` fall back. */
  function OrDefault(arg: Option<int>, default: int): int
  {
    match arg
    case Some(x) => if x != 0 then x else default
    case None => default
  }

  /** The loop's variables: the partial result (`retry` doubles as `retry_count`) and the prompts sent. */
  datatype LoopState = LoopState(
    content: string,
    retry: nat,
    status: Status,
    history: seq<Entry>,
    prompts: seq<Request>)

  /** The `while retry < max_retry` loop run from state `st` to its exit. */
  function RecoverFrom(st: LoopState, lo: int, hi: int, maxRetry: int, replies: seq<Response>): (r: LoopState)
    decreases maxRetry - st.retry
  {
    if st.retry >= maxRetry then st
    else
      var c := |st.content|;
      if lo <= c <= hi then st.(status := if st.retry == 0 then Succeeded else Recovered)
      else
        var retry := st.retry + 1;
        if c < lo then
          var prompts := st.prompts + [Expand(st.content, lo - c)];
          match Respond(replies, |st.prompts|)
          case Raised => st.(retry := retry, status := Failed, prompts := prompts)
          case Reply(additional) =>
            var content := st.content + "\n\n" + additional;
            RecoverFrom(LoopState(content, retry, st.status, st.history + [Entry(Expansion, c, |content|, retry)], prompts),
                        lo, hi, maxRetry, replies)
        else
          var prompts := st.prompts + [Summarize(st.content, hi)];
          match Respond(replies, |st.prompts|)
          case Raised => st.(retry := retry, status := Failed, prompts := prompts)
          case Reply(summarized) =>
            RecoverFrom(LoopState(summarized, retry, st.status, st.history + [Entry(Summary, c, |summarized|, retry)], prompts),
                        lo, hi, maxRetry, replies)
  }

  /** The code after the loop: recount, and fail a run that used up its retries out of range. */
  function Finish(st: LoopState, lo: int, hi: int, maxRetry: int): GenerationResult
  {
    var count := |st.content|;
    var status := if st.retry >= maxRetry && !(lo <= count <= hi) then Failed else st.status;
    GenerationResult(st.content, count, 0, st.retry, status, st.history)
  }

  datatype Run = Run(result: GenerationResult, prompts: seq<Request>)

  function Bounds(config: AIConfig, minChars: Option<int>, maxChars: Option<int>): (int, int)
  {
    (OrDefault(minChars, config.minCharacters), OrDefault(maxChars, config.maxCharacters))
  }

  const FailedResult: GenerationResult := GenerationResult("", 0, 0, 0, Failed, [])

  /** What `generate_with_recovery(prompt, min_chars=minChars, max_chars=maxChars)` returns. */
  function RecoverySpec(config: AIConfig, prompt: string, minChars: Option<int>, maxChars: Option<int>,
                        replies: seq<Response>): Run
  {
    var (lo, hi) := Bounds(config, minChars, maxChars);
    match Respond(replies, 0)
    case Raised => Run(FailedResult, [Initial(prompt)])
    case Reply(text) =>
      var st := RecoverFrom(LoopState(text, 0, Succeeded, [], [Initial(prompt)]), lo, hi, config.maxRetry, replies);
      Run(Finish(st, lo, hi, config.maxRetry), st.prompts)
  }

  /** One pass of the loop body, for each way it can go. */
  lemma StepInRange(st: LoopState, lo: int, hi: int, maxRetry: int, replies: seq<Response>)
    requires st.retry < maxRetry && lo <= |st.content| <= hi
    ensures RecoverFrom(st, lo, hi, maxRetry, replies) == st.(status := if st.retry == 0 then Succeeded else Recovered)
  {
  }

  lemma StepRaised(st: LoopState, lo: int, hi: int, maxRetry: int, replies: seq<Response>, p: Request)
    requires st.retry < maxRetry && !(lo <= |st.content| <= hi)
    requires p == if |st.content| < lo then Expand(st.content, lo - |st.content|) else Summarize(st.content, hi)
    requires Respond(replies, |st.prompts|) == Raised
    ensures RecoverFrom(st, lo, hi, maxRetry, replies) == st.(retry := st.retry + 1, status := Failed, prompts := st.prompts + [p])
  {
  }

  lemma StepExpand(st: LoopState, lo: int, hi: int, maxRetry: int, replies: seq<Response>, additional: string)
    requires st.retry < maxRetry && |st.content| < lo
    requires Respond(replies, |st.prompts|) == Reply(additional)
    ensures var c := st.content + "\n\n" + additional;
      RecoverFrom(st, lo, hi, maxRetry, replies)
      == RecoverFrom(LoopState(c, st.retry + 1, st.status, st.history + [Entry(Expansion, |st.content|, |c|, st.retry + 1)],
                               st.prompts + [Expand(st.content, lo - |st.content|)]), lo, hi, maxRetry, replies)
  {
  }

  lemma StepSummarize(st: LoopState, lo: int, hi: int, maxRetry: int, replies: seq<Response>, summarized: string)
    requires st.retry < maxRetry && |st.content| > hi && |st.content| >= lo
    requires Respond(replies, |st.prompts|) == Reply(summarized)
    ensures RecoverFrom(st, lo, hi, maxRetry, replies)
      == RecoverFrom(LoopState(summarized, st.retry + 1, st.status, st.history + [Entry(Summary, |st.content|, |summarized|, st.retry + 1)],
                               st.prompts + [Summarize(st.content, hi)]), lo, hi, maxRetry, replies)
  {
  }

  // ---------------------------------------------------------------------------
  // The loop, as the code runs it
  // ---------------------------------------------------------------------------

  method GenerateWithRecovery(config: AIConfig, prompt: string, minChars: Option<int>, maxChars: Option<int>,
                              replies: seq<Response>)
    returns (result: GenerationResult, prompts: seq<Request>)
    ensures Run(result, prompts) == RecoverySpec(config, prompt, minChars, maxChars, replies)
  {
    var lo := OrDefault(minChars, config.minCharacters);
    var hi := OrDefault(maxChars, config.maxCharacters);
    result := GenerationResult("", 0, 0, 0, Succeeded, []);
    prompts := [Initial(prompt)];
    var first := Respond(replies, 0);
    if first.Raised? {
      result := result.(status := Failed);
      assert result == FailedResult;
      return;
    }
    result := result.(content := first.text, characterCount := |first.text|);

    ghost var goal := RecoverFrom(LoopState(first.text, 0, Succeeded, [], [Initial(prompt)]), lo, hi, config.maxRetry, replies);
    result, prompts := RecoveryLoop(result, prompts, lo, hi, config.maxRetry, replies);
    assert LoopState(result.content, result.retryCount, result.status, result.history, prompts) == goal;
    assert (lo, hi) == Bounds(config, minChars, maxChars);

    result := result.(characterCount := |result.content|);
    if result.retryCount >= config.maxRetry && !(lo <= result.characterCount <= hi) {
      result := result.(status := Failed);
    }
    assert result == Finish(goal, lo, hi, config.maxRetry);
    assert Respond(replies, 0) == Reply(first.text);
    assert RecoverySpec(config, prompt, minChars, maxChars, replies) == Run(Finish(goal, lo, hi, config.maxRetry), goal.prompts);
  }

  /** The `while retry_count < max_retry` loop, started after the first reply with no retry made yet. */
  method RecoveryLoop(start: GenerationResult, startPrompts: seq<Request>, lo: int, hi: int, maxRetry: int,
                      replies: seq<Response>)
    returns (result: GenerationResult, prompts: seq<Request>)
    requires start.retryCount == 0 && start.status == Succeeded && start.tokenCount == 0 && start.history == []
    ensures result.tokenCount == 0
    ensures LoopState(result.content, result.retryCount, result.status, result.history, prompts)
      == RecoverFrom(LoopState(start.content, 0, Succeeded, [], startPrompts), lo, hi, maxRetry, replies)
  {
    result, prompts := start, startPrompts;
    ghost var goal := RecoverFrom(LoopState(start.content, 0, Succeeded, [], startPrompts), lo, hi, maxRetry, replies);
    var retry: nat := 0;
    while retry < maxRetry
      invariant result.retryCount == retry && result.status == Succeeded && result.tokenCount == 0
      invariant RecoverFrom(LoopState(result.content, retry, result.status, result.history, prompts),
                            lo, hi, maxRetry, replies) == goal
      decreases maxRetry - retry
    {
      ghost var st := LoopState(result.content, retry, result.status, result.history, prompts);
      var count := |result.content|;
      if lo <= count <= hi {
        StepInRange(st, lo, hi, maxRetry, replies);
        result := result.(status := if retry == 0 then Succeeded else Recovered);
        break;
      }
      retry := retry + 1;
      result := result.(retryCount := retry);
      var recoveryPrompt := if count < lo then Expand(result.content, lo - count) else Summarize(result.content, hi);
      var reply := Respond(replies, |prompts|);
      prompts := prompts + [recoveryPrompt];
      if reply.Raised? {
        StepRaised(st, lo, hi, maxRetry, replies, recoveryPrompt);
        result := result.(status := Failed);
        break;
      }
      if count < lo {
        StepExpand(st, lo, hi, maxRetry, replies, reply.text);
        result := result.(content := result.content + "\n\n" + reply.text);
        result := result.(history := result.history + [Entry(Expansion, count, |result.content|, retry)]);
      } else {
        StepSummarize(st, lo, hi, maxRetry, replies, reply.text);
        result := result.(content := reply.text);
        result := result.(history := result.history + [Entry(Summary, count, |result.content|, retry)]);
      }
    }
    assert LoopState(result.content, retry, result.status, result.history, prompts) == goal;
  }
}
