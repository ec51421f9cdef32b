/**
 * The context budget and compaction of `ContextManager`
 * (src/claude_clone/core/context.py): how much of the window a conversation
 * uses, when it should be summarised, and how older messages are replaced by a
 * summary the model writes.
 */
module Context {

  import opened Wrappers
  import opened Messages
  import opened Tokens
  import opened Provider
  import Text

  /** `ContextUsage` without its floating-point `percent`. */
  datatype ContextUsage = ContextUsage(used: nat, maxTokens: int, available: nat)

  /** The settings a `ContextManager` fixes at construction, and its token counter. */
  datatype ContextManager = ContextManager(maxTokens: int, reserveTokens: int, threshold: int, counter: Tokenizer)

  /** Python's `int(x)` on the rational `a / b`: division truncating toward zero. */
  function TruncDiv(a: int, b: nat): (q: int)
    requires b > 0
    ensures a >= 0 ==> q * b <= a < (q + 1) * b
    ensures a < 0 ==> (q - 1) * b < a <= q * b
  {
    if a >= 0 then a / b else -((-a) / b)
  }

  /**
   * `ContextManager.__init__`; the threshold fraction is given as the ratio
   * `num / den`, so `threshold == int(max_tokens * num / den)`.
   */
  function NewContextManager(counter: Tokenizer, maxTokens: int, reserveTokens: int, num: int, den: nat): (cm: ContextManager)
    requires den > 0
    ensures cm.maxTokens == maxTokens && cm.reserveTokens == reserveTokens && cm.counter == counter
    ensures maxTokens * num >= 0 ==> cm.threshold * den <= maxTokens * num < (cm.threshold + 1) * den
  {
    ContextManager(maxTokens, reserveTokens, TruncDiv(maxTokens * num, den), counter)
  }

  /** `get_usage`: the tokens used, the window, and what is left once the reserve is set aside, never negative. */
  function GetUsage(cm: ContextManager, messages: seq<Message>): (u: ContextUsage)
    ensures u.used == ListCost(cm.counter, messages) && u.maxTokens == cm.maxTokens
    ensures u.used + u.available + cm.reserveTokens >= cm.maxTokens
    ensures u.available > 0 ==> u.used + u.available + cm.reserveTokens == cm.maxTokens
  {
    var used := ListCost(cm.counter, messages);
    var available := cm.maxTokens - used - cm.reserveTokens;
    ContextUsage(used, cm.maxTokens, if available > 0 then available else 0)
  }

  /** `should_summarize`: summarising is due exactly when the usage report's count exceeds the threshold. */
  predicate ShouldSummarize(cm: ContextManager, messages: seq<Message>): (b: bool)
    ensures b <==> GetUsage(cm, messages).used > cm.threshold
  {
    ListCost(cm.counter, messages) > cm.threshold
  }

  /** `estimate_tokens_for_response`: exactly the available figure of the usage report. */
  function EstimateTokensForResponse(cm: ContextManager, messages: seq<Message>): (n: nat)
    ensures n == GetUsage(cm, messages).available
  {
    var left := cm.maxTokens - ListCost(cm.counter, messages) - cm.reserveTokens;
    if left > 0 then left else 0
  }

  /** Appending a message never makes the conversation fall back under the threshold. */
  lemma ShouldSummarizeStays(cm: ContextManager, messages: seq<Message>, m: Message)
    ensures ShouldSummarize(cm, messages) ==> ShouldSummarize(cm, messages + [m])
  {
    AppendCost(cm.counter, messages, m);
  }

  /** Appending a message uses at least 4 more tokens and never leaves more room for the response. */
  lemma AppendShrinksRoom(cm: ContextManager, messages: seq<Message>, m: Message)
    ensures GetUsage(cm, messages + [m]).used >= GetUsage(cm, messages).used + 4
    ensures GetUsage(cm, messages + [m]).available <= GetUsage(cm, messages).available
    ensures GetUsage(cm, messages + [m]).available > 0 ==>
      GetUsage(cm, messages + [m]).available + MessageCost(cm.counter, m) == GetUsage(cm, messages).available
  {
    AppendCost(cm.counter, messages, m);
  }

  // ---------------------------------------------------------------------
  // The transcript handed to the summariser
  // ---------------------------------------------------------------------

  /** A message's content as the transcript shows it: cut to 1000 characters, marked iff it was longer. */
  function Clip(content: string): (r: string)
    ensures |content| <= 1000 ==> r == content
    ensures |content| > 1000 ==> r == content[..1000] + "... [truncated]"
  {
    var head := Text.Take(content, 1000);
    if |content| > 1000 then head + "... [truncated]" else head
  }

  /** One line per tool call. */
  function CallLines(calls: seq<ToolCall>): (lines: seq<string>)
    ensures |lines| == |calls|
  {
    seq(|calls|, k requires 0 <= k < |calls| => "  [Called tool: " + calls[k].name + "]")
  }

  /** The transcript lines of one message: `ROLE: content`, then its tool calls. */
  function EntryLines(m: Message): seq<string> {
    [Text.Upper(m.role) + ": " + Clip(m.content)] + CallLines(CallsOf(m))
  }

  /** The concatenation of `f` over `xs`, in order. */
  function FlatMap<T, U>(xs: seq<T>, f: T -> seq<U>): seq<U>
    decreases |xs|
  {
    if xs == [] then [] else FlatMap(xs[..|xs| - 1], f) + f(xs[|xs| - 1])
  }

  lemma {:induction false} FlatMapConcat<T, U>(a: seq<T>, b: seq<T>, f: T -> seq<U>)
    ensures FlatMap(a + b, f) == FlatMap(a, f) + FlatMap(b, f)
    decreases |b|
  {
    if b == [] {
      assert a + b == a;
    } else {
      var ab := a + b;
      assert ab[..|ab| - 1] == a + b[..|b| - 1];
      assert ab[|ab| - 1] == b[|b| - 1];
      FlatMapConcat(a, b[..|b| - 1], f);
    }
  }

  /** The transcript lines of the messages, in order. */
  function TranscriptLines(ms: seq<Message>): seq<string> {
    FlatMap(ms, EntryLines)
  }

  /** `_format_messages_for_summary`'s result: the lines joined by blank lines. */
  function Transcript(ms: seq<Message>): string {
    Text.Join(TranscriptLines(ms), "\n\n")
  }

  /** The number of tool calls the messages carry. */
  function TotalCalls(ms: seq<Message>): nat
    decreases |ms|
  {
    if ms == [] then 0 else TotalCalls(ms[..|ms| - 1]) + |CallsOf(ms[|ms| - 1])|
  }

  /** The transcript of two message lists is the transcript of the first followed by that of the second. */
  lemma TranscriptConcat(a: seq<Message>, b: seq<Message>)
    ensures TranscriptLines(a + b) == TranscriptLines(a) + TranscriptLines(b)
  {
    FlatMapConcat(a, b, EntryLines);
  }

  /** One line per message plus one per tool call. */
  lemma {:induction false} TranscriptLineCount(ms: seq<Message>)
    ensures |TranscriptLines(ms)| == |ms| + TotalCalls(ms)
    decreases |ms|
  {
    if ms != [] {
      TranscriptLineCount(ms[..|ms| - 1]);
    }
  }

  /** One iteration of `_format_messages_for_summary`'s loop: the lines for `msg`. */
  method FormatEntry(msg: Message) returns (entry: seq<string>)
    ensures entry == EntryLines(msg)
  {
    var role := Text.Upper(msg.role);
    var content := Text.Take(msg.content, 1000);
    if |msg.content| > 1000 {
      content := content + "... [truncated]";
    }
    entry := [role + ": " + content];
    if HasToolCalls(msg) {
      var calls := msg.toolCalls.value;
      var j := 0;
      while j < |calls|
        invariant j <= |calls|
        invariant entry == [role + ": " + content] + CallLines(calls[..j])
      {
        assert CallLines(calls[..j + 1]) == CallLines(calls[..j]) + ["  [Called tool: " + calls[j].name + "]"];
        entry := entry + ["  [Called tool: " + calls[j].name + "]"];
        j := j + 1;
      }
      assert calls[..j] == calls;
    }
  }

  /** `_format_messages_for_summary`. */
  method FormatMessagesForSummary(ms: seq<Message>) returns (text: string)
    ensures text == Transcript(ms)
  {
    var lines: seq<string> := [];
    var k := 0;
    while k < |ms|
      invariant k <= |ms|
      invariant lines == FlatMap(ms[..k], EntryLines)
    {
      var entry := FormatEntry(ms[k]);
      assert ms[..k + 1][..k] == ms[..k];
      lines := lines + entry;
      k := k + 1;
    }
    assert ms[..k] == ms;
    text := Text.Join(lines, "\n\n");
  }

  // ---------------------------------------------------------------------
  // Compaction
  // ---------------------------------------------------------------------

  /** The instructions given to the summariser. */
  const SummarizerPrompt: string :=
    "You are a helpful assistant that creates concise conversation summaries. " +
    "Summarize the key points, decisions, and context from the conversation. " +
    "Focus on information needed to continue the conversation coherently. " +
    "Be concise but preserve important details."

  /** The two messages sent to the provider to summarise `transcript`. */
  function SummaryRequest(transcript: string): seq<Message> {
    [Plain("system", SummarizerPrompt),
     Plain("user", "Summarize this conversation:\n\n" + transcript +
       "\n\nProvide a brief summary capturing key points and context.")]
  }

  /** The message that takes the place of the summarised ones. */
  function SummaryMessage(summary: string): (m: Message)
    ensures m.role == "system" && m.toolCalls.None? && m.toolCallId.None?
    ensures var opening, closing := "[Previous conversation summary]\n", "\n[End of summary]";
      && |m.content| == |opening| + |summary| + |closing|
      && m.content[..|opening|] == opening
      && m.content[|opening|..|opening| + |summary|] == summary
      && m.content[|opening| + |summary|..] == closing
  {
    Plain("system", "[Previous conversation summary]\n" + summary + "\n[End of summary]")
  }

  /** Python's `messages[1:-n]`; for `n == 0` that is `messages[1:0]`, which is empty. */
  function Middle(messages: seq<Message>, n: nat): (r: seq<Message>)
    ensures r == if n == 0 || |messages| <= n + 1 then [] else messages[1..|messages| - n]
  {
    Text.Slice(messages, 1, -(n as int))
  }

  /** Python's `messages[-n:]`; for `n == 0` that is the whole list. */
  function Tail(messages: seq<Message>, n: nat): (r: seq<Message>)
    ensures |r| == if n == 0 || |messages| <= n then |messages| else n
    ensures r == messages[|messages| - |r|..]
  {
    Text.Slice(messages, -(n as int), |messages|)
  }

  /** For a positive count and a long enough list, the first message, the middle and the tail partition the list; for 0, the middle is empty. */
  lemma MiddleTailSplit(messages: seq<Message>, n: nat)
    ensures n == 0 ==> Middle(messages, n) == []
    ensures n > 0 && |messages| > n + 1 ==>
      [messages[0]] + Middle(messages, n) + Tail(messages, n) == messages
  {
    if n > 0 && |messages| > n + 1 {
      assert [messages[0]] + messages[1..|messages| - n] + messages[|messages| - n..] == messages;
    }
  }

  /**
   * `summarize_conversation` for `keep_recent` pairs. `reply` is what the
   * provider answers to the summary request; `request` is that request, or
   * `None` when the conversation is returned as it is.
   */
  method SummarizeConversation(cm: ContextManager, messages: seq<Message>, keepRecent: nat, reply: seq<ChatChunk>)
    returns (result: seq<Message>, request: Option<seq<Message>>)
    ensures |messages| <= 1 + 2 * keepRecent + 2 ==> result == messages && request == None
    ensures keepRecent == 0 ==> result == messages && request == None
    ensures |messages| > 1 + 2 * keepRecent + 2 && keepRecent > 0 ==>
      && request == Some(SummaryRequest(Transcript(messages[1..|messages| - 2 * keepRecent])))
      && result == [messages[0], SummaryMessage(ReplyText(reply))] + messages[|messages| - 2 * keepRecent..]
    ensures |result| <= |messages|
  {
    var minMessages := 1 + keepRecent * 2 + 2;
    if |messages| <= minMessages {
      return messages, None;
    }
    var systemMsg := messages[0];
    var recentCount := keepRecent * 2;
    var older := Middle(messages, recentCount);
    var recent := Tail(messages, recentCount);
    if |older| < 2 {
      return messages, None;
    }
    var conversationText := FormatMessagesForSummary(older);
    request := Some(SummaryRequest(conversationText));
    var summary, calls := CollectReply(reply);
    result := [systemMsg, SummaryMessage(summary)] + recent;
  }

  /** A compacted conversation keeps the system message and the last `2 * keep_recent` messages as they were. */
  lemma CompactionKeepsEnds(messages: seq<Message>, keepRecent: nat, reply: seq<ChatChunk>)
    requires keepRecent > 0 && |messages| > 1 + 2 * keepRecent + 2
    ensures var result := [messages[0], SummaryMessage(ReplyText(reply))] + Tail(messages, 2 * keepRecent);
      && |result| == 2 * keepRecent + 2
      && result[0] == messages[0]
      && result[1].role == "system"
      && result[2..] == messages[|messages| - 2 * keepRecent..]
      && [messages[0]] + Middle(messages, 2 * keepRecent) + result[2..] == messages
  {
    MiddleTailSplit(messages, 2 * keepRecent);
  }
}
