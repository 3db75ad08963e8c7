/** Token counting: the estimate a request is admitted with, its limits, and what a stream is charged. */
module TokenAccounting {
  import opened Wrappers
  import opened Numbers
  import opened Sums
  import opened Text

  /** `HeuristicTokenEstimator.count_text`: a quarter of the stripped length, rounded up, and at least one if any. */
  function CountText(text: string): nat {
    var stripped := Strip(text);
    if stripped == "" then 0 else Max(1, (|stripped| + 3) / 4)
  }

  /**
   * The count is the number of groups of four that the text takes without the space around it, the last one perhaps not
   * full; so it is 0 exactly for blank texts, and space around a text is not counted.
   */
  lemma CountIsInFours(left: string, text: string, right: string)
    requires AllSpace(left) && AllSpace(right) && IsStripped(text)
    ensures var count := CountText(left + text + right);
            4 * count - 4 < |text| <= 4 * count || (count == 0 && text == "")
    ensures CountText(left + text + right) == CountText(text)
    ensures CountText(text) == 0 <==> text == ""
  {
    StripIs(left, text, right);
    StripIs("", text, "");
    assert "" + text + "" == text;
  }

  lemma CountIgnoresSurroundings(left: string, text: string, right: string)
    requires AllSpace(left) && AllSpace(right)
    ensures CountText(left + text + right) == CountText(text)
    ensures CountText(text) == 0 <==> AllSpace(text)
  {
    var before, after := StripSplits(text);
    StripIs(left + before, Strip(text), after + right);
    assert left + text + right == (left + before) + Strip(text) + (after + right);
    if Strip(text) != "" {
      assert text[|before|] == Strip(text)[0];
    }
  }

  datatype Message = Message(role: string, content: string)

  /** A token estimator: the heuristic, or any other way to count the tokens of a text. */
  type Estimator = string -> int

  function EstimateMessages(messages: seq<Message>, count: Estimator): int {
    if messages == [] then 0
    else
      var last := messages[|messages| - 1];
      EstimateMessages(messages[..|messages| - 1], count) + 4 + count(last.role) + count(last.content)
  }

  function PromptTokens(messages: seq<Message>, count: Estimator): int {
    EstimateMessages(messages, count) + 2
  }

  method EstimatePromptTokens(messages: seq<Message>, count: Estimator) returns (total: int)
    ensures total == PromptTokens(messages, count)
  {
    total := 0;
    for i := 0 to |messages|
      invariant total == EstimateMessages(messages[..i], count)
    {
      assert messages[..i + 1][..i] == messages[..i];
      total := total + 4;
      total := total + count(messages[i].role);
      total := total + count(messages[i].content);
    }
    assert messages[..|messages|] == messages;
    total := total + 2;
  }

  lemma {:induction false} MessagesAddUp(a: seq<Message>, b: seq<Message>, count: Estimator)
    ensures EstimateMessages(a + b, count) == EstimateMessages(a, count) + EstimateMessages(b, count)
  {
    if b == [] {
      assert a + b == a;
    } else {
      assert (a + b)[..|a + b| - 1] == a + b[..|b| - 1];
      MessagesAddUp(a, b[..|b| - 1], count);
    }
  }

  /** The overhead of a prompt is counted once: two conversations together cost what they cost apart, less two. */
  lemma PromptsAddUp(a: seq<Message>, b: seq<Message>, count: Estimator)
    ensures PromptTokens(a + b, count) == PromptTokens(a, count) + PromptTokens(b, count) - 2
  {
    MessagesAddUp(a, b, count);
  }

  /** What each message costs: four tokens and what its role and content count. */
  lemma OneMessageCosts(message: Message, count: Estimator)
    ensures PromptTokens([message], count) == 6 + count(message.role) + count(message.content)
    ensures PromptTokens([], count) == 2
  {
    var messages := [message];
    assert messages[..|messages| - 1] == [] && EstimateMessages([], count) == 0;
    assert EstimateMessages(messages, count) == EstimateMessages([], count) + 4 + count(message.role) + count(message.content);
  }

  lemma {:induction false} PromptIsAtLeast(messages: seq<Message>, count: Estimator)
    requires forall text :: count(text) >= 0
    ensures PromptTokens(messages, count) >= 4 * |messages| + 2
  {
    if messages != [] {
      PromptIsAtLeast(messages[..|messages| - 1], count);
    }
  }

  datatype Caps = Caps(maxInput: int, maxOutput: int, maxTotal: int)

  datatype TokenPlan = TokenPlan(promptTokens: int, maxCompletionTokens: int, estimatedTotalTokens: int)

  /** Python's `requested or default`. */
  function RequestedOutput(maxTokens: Option<int>, caps: Caps): int {
    if maxTokens.Some? && maxTokens.value != 0 then maxTokens.value else caps.maxOutput
  }

  /** Plans a request that stays within all three limits, and names the first one that another exceeds. */
  method BuildTokenPlan(messages: seq<Message>, maxTokens: Option<int>, count: Estimator, caps: Caps)
    returns (plan: Outcome<TokenPlan>)
    ensures var prompt := PromptTokens(messages, count);
            var output := if maxTokens.Some? && maxTokens.value != 0 then maxTokens.value else caps.maxOutput;
            && (plan.Ok? <==> output <= caps.maxOutput && prompt <= caps.maxInput && prompt + output <= caps.maxTotal)
            && (plan.Ok? ==> plan.value == TokenPlan(prompt, output, prompt + output))
            && (plan.Raise? ==> plan.error.code == (if output > caps.maxOutput then "max_output_tokens_exceeded"
                                                    else if prompt > caps.maxInput then "max_input_tokens_exceeded"
                                                    else "max_total_tokens_exceeded"))
  {
    var promptTokens := EstimatePromptTokens(messages, count);
    var requestedOutput := RequestedOutput(maxTokens, caps);
    if requestedOutput > caps.maxOutput {
      return Raise(Error("max_output_tokens_exceeded", "Requested max_tokens exceeds the configured output token limit"));
    }
    if promptTokens > caps.maxInput {
      return Raise(Error("max_input_tokens_exceeded", "Prompt exceeds the configured input token limit"));
    }
    var estimatedTotal := promptTokens + requestedOutput;
    if estimatedTotal > caps.maxTotal {
      return Raise(Error("max_total_tokens_exceeded", "Request exceeds the configured total token limit"));
    }
    return Ok(TokenPlan(promptTokens, requestedOutput, estimatedTotal));
  }

  /** A plan that some request was accepted with. */
  ghost predicate Accepted(plan: TokenPlan, messages: seq<Message>, maxTokens: Option<int>, count: Estimator, caps: Caps) {
    var prompt := PromptTokens(messages, count); var output := RequestedOutput(maxTokens, caps);
    && output <= caps.maxOutput && prompt <= caps.maxInput && prompt + output <= caps.maxTotal
    && plan == TokenPlan(prompt, output, prompt + output)
  }

  /** An accepted request reserves something, as long as it asks for a positive number of tokens or none is negative. */
  lemma AcceptedReservesTokens(plan: TokenPlan, messages: seq<Message>, maxTokens: Option<int>, count: Estimator, caps: Caps)
    requires Accepted(plan, messages, maxTokens, count, caps) && (forall text :: count(text) >= 0)
    ensures (if maxTokens.Some? then maxTokens.value > 0 else caps.maxOutput >= 0) ==> plan.estimatedTotalTokens > 0
  {
    PromptIsAtLeast(messages, count);
  }

  datatype UsageRecord = UsageRecord(promptTokens: int, completionTokens: int, totalTokens: int, status: string)

  /**
   * The usage a response reports, and the contents of its choices' messages. A field that is left out is None, one that
   * is null or zero is 0.
   */
  datatype Response = Response(usage: Option<ReportedUsage>, contents: seq<string>)

  datatype ReportedUsage = ReportedUsage(prompt: Option<int>, completion: Option<int>, total: Option<int>)

  function Concatenated(texts: seq<string>): string {
    if texts == [] then "" else Concatenated(texts[..|texts| - 1]) + texts[|texts| - 1]
  }

  const LENGTH := (text: string) => |text|

  lemma {:induction false} ConcatenatedLength(texts: seq<string>)
    ensures |Concatenated(texts)| == Total(texts, LENGTH)
  {
    if texts != [] {
      ConcatenatedLength(texts[..|texts| - 1]);
    }
  }

  lemma {:induction false} ConcatenatedGrows(texts: seq<string>, i: nat)
    requires i <= |texts|
    ensures Concatenated(texts[..i]) <= Concatenated(texts)
  {
    if i == |texts| {
      assert texts[..i] == texts;
    } else {
      ConcatenatedGrows(texts[..|texts| - 1], i);
      assert texts[..|texts| - 1][..i] == texts[..i];
    }
  }

  /** Every text is there, whole and in its turn, and nothing else is. */
  lemma ConcatenatedInOrder(texts: seq<string>, i: nat)
    requires i < |texts|
    ensures |Concatenated(texts)| == Total(texts, LENGTH)
    ensures var start := Total(texts[..i], LENGTH);
            && 0 <= start && start + |texts[i]| <= |Concatenated(texts)|
            && Concatenated(texts)[start..start + |texts[i]|] == texts[i]
  {
    ConcatenatedLength(texts);
    ConcatenatedLength(texts[..i]);
    ConcatenatedGrows(texts, i + 1);
    assert texts[..i + 1][..i] == texts[..i];
    assert Concatenated(texts[..i + 1]) == Concatenated(texts[..i]) + texts[i];
  }

  function OrElse(reported: Option<int>, default: int): int {
    if reported.Some? then reported.value else default
  }

  /** What a response is charged: what it reports, the total as the sum of its parts if need be, or else an estimate. */
  function ResponseUsage(response: Response, plan: TokenPlan, count: Estimator): UsageRecord {
    match response.usage
    case Some(reported) =>
      var prompt, completion := OrElse(reported.prompt, plan.promptTokens), OrElse(reported.completion, 0);
      UsageRecord(prompt, completion, OrElse(reported.total, prompt + completion), "completed")
    case None => UsageFromStreamText(Concatenated(response.contents), plan, count, "completed")
  }

  method UsageFromResponse(response: Response, plan: TokenPlan, count: Estimator) returns (usage: UsageRecord)
    ensures usage == ResponseUsage(response, plan, count)
    ensures usage.status == "completed"
    ensures response.usage.Some? ==>
              var reported := response.usage.value;
              && usage.promptTokens == (if reported.prompt.Some? then reported.prompt.value else plan.promptTokens)
              && usage.completionTokens == (if reported.completion.Some? then reported.completion.value else 0)
              && usage.totalTokens == (if reported.total.Some? then reported.total.value
                                       else usage.promptTokens + usage.completionTokens)
    ensures response.usage.None? ==>
              && usage.promptTokens == plan.promptTokens
              && usage.completionTokens == count(Concatenated(response.contents))
              && usage.totalTokens == usage.promptTokens + usage.completionTokens
  {
    if response.usage.Some? {
      var prompt := OrElse(response.usage.value.prompt, plan.promptTokens);
      var completion := OrElse(response.usage.value.completion, 0);
      var total := OrElse(response.usage.value.total, prompt + completion);
      return UsageRecord(prompt, completion, total, "completed");
    }
    var completionText := "";
    for i := 0 to |response.contents|
      invariant completionText == Concatenated(response.contents[..i])
    {
      assert response.contents[..i + 1][..i] == response.contents[..i];
      completionText := completionText + response.contents[i];
    }
    assert response.contents[..|response.contents|] == response.contents;
    usage := UsageFromStreamText(completionText, plan, count, "completed");
  }

  function UsageFromStreamText(text: string, plan: TokenPlan, count: Estimator, status: string): UsageRecord {
    UsageRecord(plan.promptTokens, count(text), plan.promptTokens + count(text), status)
  }
}
