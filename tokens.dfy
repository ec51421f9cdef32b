/**
 * Token accounting of `TokenCounter` (src/claude_clone/core/tokens.py): a
 * fixed overhead per message list, per message and per tool call, on top of
 * the tokens of the texts involved.
 */
module Tokens {

  import opened Json
  import opened Messages

  /**
   * The foreign parts of the counter: `encode` is tiktoken's encoding and
   * `render` is Python's `str()` of an argument dictionary.
   */
  datatype Tokenizer = Tokenizer(encode: string -> seq<nat>, render: map<string, Json> -> string)

  /** `TokenCounter.count`: the empty text costs nothing, any other text its number of tokens. */
  function Count(t: Tokenizer, text: string): (n: nat)
    ensures text == "" ==> n == 0
  {
    if text == "" then 0 else |t.encode(text)|
  }

  /** What one tool call adds to its message: its name, its rendered arguments and 4 tokens of structure. */
  function CallCost(t: Tokenizer, tc: ToolCall): nat {
    Count(t, tc.name) + Count(t, t.render(tc.arguments)) + 4
  }

  /** The summed cost of `calls`. */
  function CallsCost(t: Tokenizer, calls: seq<ToolCall>): nat
    decreases |calls|
  {
    if calls == [] then 0 else CallsCost(t, calls[..|calls| - 1]) + CallCost(t, calls[|calls| - 1])
  }

  /** What a message costs: 4 tokens of structure, its content, and its tool calls. */
  function MessageCost(t: Tokenizer, m: Message): (n: nat)
    ensures n >= 4 + 4 * |CallsOf(m)|
  {
    CallsCostAtLeast(t, CallsOf(m));
    4 + Count(t, m.content) + CallsCost(t, CallsOf(m))
  }

  /** The summed cost of the messages. */
  function MessagesSum(t: Tokenizer, ms: seq<Message>): nat
    decreases |ms|
  {
    if ms == [] then 0 else MessagesSum(t, ms[..|ms| - 1]) + MessageCost(t, ms[|ms| - 1])
  }

  /** What a message list costs: 3 tokens of structure plus each message. */
  function ListCost(t: Tokenizer, ms: seq<Message>): (n: nat)
    ensures ms == [] ==> n == 3
    ensures n >= 3 + 4 * |ms|
  {
    MessagesSumAtLeast(t, ms);
    3 + MessagesSum(t, ms)
  }

  /** Every message adds at least its 4 tokens of structure to the sum. */
  lemma {:induction false} MessagesSumAtLeast(t: Tokenizer, ms: seq<Message>)
    ensures MessagesSum(t, ms) >= 4 * |ms|
    decreases |ms|
  {
    if ms != [] {
      MessagesSumAtLeast(t, ms[..|ms| - 1]);
    }
  }

  /** `TokenCounter.count_message`. */
  method CountMessage(t: Tokenizer, m: Message) returns (tokens: nat)
    ensures tokens == MessageCost(t, m)
  {
    tokens := 4;
    tokens := tokens + Count(t, m.content);
    if HasToolCalls(m) {
      var calls := m.toolCalls.value;
      var k := 0;
      while k < |calls|
        invariant k <= |calls|
        invariant tokens == 4 + Count(t, m.content) + CallsCost(t, calls[..k])
      {
        var tc := calls[k];
        tokens := tokens + Count(t, tc.name);
        tokens := tokens + Count(t, t.render(tc.arguments));
        tokens := tokens + 4;
        assert calls[..k + 1][..k] == calls[..k];
        k := k + 1;
      }
      assert calls[..k] == calls;
    }
  }

  /** `TokenCounter.count_messages`. */
  method CountMessages(t: Tokenizer, ms: seq<Message>) returns (total: nat)
    ensures total == ListCost(t, ms)
  {
    total := 3;
    var k := 0;
    while k < |ms|
      invariant k <= |ms|
      invariant total == 3 + MessagesSum(t, ms[..k])
    {
      var c := CountMessage(t, ms[k]);
      total := total + c;
      assert ms[..k + 1][..k] == ms[..k];
      k := k + 1;
    }
    assert ms[..k] == ms;
  }

  /** Every tool call costs at least its 4 tokens of structure. */
  lemma {:induction false} CallsCostAtLeast(t: Tokenizer, calls: seq<ToolCall>)
    ensures CallsCost(t, calls) >= 4 * |calls|
    decreases |calls|
  {
    if calls != [] {
      CallsCostAtLeast(t, calls[..|calls| - 1]);
    }
  }

  /** The cost of two message lists side by side is the sum of their costs, counting the overhead once. */
  lemma {:induction false} MessagesSumConcat(t: Tokenizer, a: seq<Message>, b: seq<Message>)
    ensures MessagesSum(t, a + b) == MessagesSum(t, a) + MessagesSum(t, b)
    decreases |b|
  {
    if b != [] {
      var ab, init, last := a + b, b[..|b| - 1], b[|b| - 1];
      assert ab[..|ab| - 1] == a + init && ab[|ab| - 1] == last;
      MessagesSumConcat(t, a, init);
      assert MessagesSum(t, ab) == MessagesSum(t, a + init) + MessageCost(t, last);
      assert MessagesSum(t, b) == MessagesSum(t, init) + MessageCost(t, last);
    } else {
      assert a + b == a;
    }
  }

  lemma ListCostConcat(t: Tokenizer, a: seq<Message>, b: seq<Message>)
    ensures ListCost(t, a + b) + 3 == ListCost(t, a) + ListCost(t, b)
  {
    MessagesSumConcat(t, a, b);
  }

  /** Appending a message raises the total by exactly its cost, so by at least 4 plus 4 per tool call. */
  lemma AppendCost(t: Tokenizer, ms: seq<Message>, m: Message)
    ensures ListCost(t, ms + [m]) == ListCost(t, ms) + MessageCost(t, m)
    ensures ListCost(t, ms + [m]) >= ListCost(t, ms) + 4 + 4 * |CallsOf(m)|
  {
    assert (ms + [m])[..|ms|] == ms;
  }
}
