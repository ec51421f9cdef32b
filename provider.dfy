/**
 * How `OllamaProvider` turns a reply from the Ollama client into a
 * `ChatChunk` (`_parse_chunk` for streamed chunks, `_parse_response` for a
 * whole response, src/claude_clone/llm/ollama_provider.py): the text
 * extractor runs only on a final reply that has content and no native tool
 * calls.
 */
module Provider {

  import opened Wrappers
  import opened Json
  import opened Messages
  import opened Extractor

  /** `ChatChunk`: some reply text, the tool calls, and whether the reply is complete. */
  datatype ChatChunk = ChatChunk(content: Option<string>, toolCalls: seq<ToolCall>, done: bool)

  /** The part of an Ollama message the parser reads: its text and its native tool calls. */
  datatype RawMessage = RawMessage(content: string, toolCalls: seq<ToolCall>)

  /** A reply object from the Ollama client; `message` is `None` when it has no message. */
  datatype RawReply = RawReply(message: Option<RawMessage>, done: bool)

  /** The reply's text as the parser first reads it: present only when non-empty. */
  function RawContent(raw: RawReply): (c: Option<string>)
    ensures c.Some? ==> c.value != ""
    ensures c.None? ==> raw.message.None? || raw.message.value.content == ""
  {
    if raw.message.Some? && raw.message.value.content != "" then Some(raw.message.value.content) else None
  }

  /** The reply's native tool calls. */
  function NativeCalls(raw: RawReply): seq<ToolCall> {
    if raw.message.Some? then raw.message.value.toolCalls else []
  }

  /** The fallback applies: the reply is final, has text, and carries no native call. */
  predicate Extracts(raw: RawReply, final: bool) {
    final && RawContent(raw).Some? && NativeCalls(raw) == []
  }

  /** The common body of `_parse_chunk` and `_parse_response`; `final` is the chunk's `done` flag. */
  method ParseReply(raw: RawReply, parse: string -> Option<Json>, final: bool) returns (chunk: ChatChunk)
    ensures chunk.done == final
    ensures !Extracts(raw, final) ==> chunk.content == RawContent(raw) && chunk.toolCalls == NativeCalls(raw)
    ensures Extracts(raw, final) ==>
      (chunk.content, chunk.toolCalls) == ExtractSpec(RawContent(raw).value, parse)
    ensures RawContent(raw).Some? && '{' !in RawContent(raw).value ==>
      chunk.content == RawContent(raw) && chunk.toolCalls == NativeCalls(raw)
  {
    var content: Option<string> := None;
    var toolCalls: seq<ToolCall> := [];
    if raw.message.Some? {
      var msg := raw.message.value;
      if msg.content != "" {
        content := Some(msg.content);
      }
      toolCalls := msg.toolCalls;
    }
    if final && content.Some? && toolCalls == [] {
      if '{' !in content.value {
        NoBraceNoCall(content.value, parse);
      }
      content, toolCalls := ExtractJsonToolCall(content.value, parse);
    }
    chunk := ChatChunk(content, toolCalls, final);
  }

  /** `_parse_chunk`: a chunk that is not the last one is never rewritten. */
  method ParseChunk(raw: RawReply, parse: string -> Option<Json>) returns (chunk: ChatChunk)
    ensures chunk.done == raw.done
    ensures !raw.done ==> chunk.content == RawContent(raw) && chunk.toolCalls == NativeCalls(raw)
    ensures Extracts(raw, raw.done) ==>
      (chunk.content, chunk.toolCalls) == ExtractSpec(RawContent(raw).value, parse)
    ensures NativeCalls(raw) != [] ==> chunk.content == RawContent(raw) && chunk.toolCalls == NativeCalls(raw)
  {
    chunk := ParseReply(raw, parse, raw.done);
  }

  /** `_parse_response`: a whole response is always final, so the fallback applies whenever it has text and no native call. */
  method ParseResponse(raw: RawReply, parse: string -> Option<Json>) returns (chunk: ChatChunk)
    ensures chunk.done
    ensures Extracts(raw, true) ==>
      (chunk.content, chunk.toolCalls) == ExtractSpec(RawContent(raw).value, parse)
    ensures NativeCalls(raw) != [] ==> chunk.content == RawContent(raw) && chunk.toolCalls == NativeCalls(raw)
  {
    chunk := ParseReply(raw, parse, true);
  }

  /** The non-empty contents of a reply's chunks, concatenated in order. */
  function ReplyText(reply: seq<ChatChunk>): string
    decreases |reply|
  {
    if reply == [] then ""
    else
      var last := reply[|reply| - 1];
      ReplyText(reply[..|reply| - 1]) + (if last.content.Some? then last.content.value else "")
  }

  /** The tool calls of a reply's chunks, concatenated in order. */
  function ReplyCalls(reply: seq<ChatChunk>): seq<ToolCall>
    decreases |reply|
  {
    if reply == [] then [] else ReplyCalls(reply[..|reply| - 1]) + reply[|reply| - 1].toolCalls
  }

  /** A reply's text is assembled chunk by chunk, whatever the split into chunks. */
  lemma {:induction false} ReplyTextConcat(a: seq<ChatChunk>, b: seq<ChatChunk>)
    ensures ReplyText(a + b) == ReplyText(a) + ReplyText(b)
    decreases |b|
  {
    if b == [] {
      assert a + b == a;
    } else {
      var ab := a + b;
      assert ab[..|ab| - 1] == a + b[..|b| - 1];
      assert ab[|ab| - 1] == b[|b| - 1];
      ReplyTextConcat(a, b[..|b| - 1]);
    }
  }

  /** So are its tool calls. */
  lemma {:induction false} ReplyCallsConcat(a: seq<ChatChunk>, b: seq<ChatChunk>)
    ensures ReplyCalls(a + b) == ReplyCalls(a) + ReplyCalls(b)
    decreases |b|
  {
    if b == [] {
      assert a + b == a;
    } else {
      var ab := a + b;
      assert ab[..|ab| - 1] == a + b[..|b| - 1];
      assert ab[|ab| - 1] == b[|b| - 1];
      ReplyCallsConcat(a, b[..|b| - 1]);
    }
  }

  /** The reply text and calls as the consumers' loops accumulate them. */
  method CollectReply(reply: seq<ChatChunk>) returns (text: string, calls: seq<ToolCall>)
    ensures text == ReplyText(reply) && calls == ReplyCalls(reply)
  {
    text := "";
    calls := [];
    var k := 0;
    while k < |reply|
      invariant k <= |reply|
      invariant text == ReplyText(reply[..k]) && calls == ReplyCalls(reply[..k])
    {
      if reply[k].content.Some? && reply[k].content.value != "" {
        text := text + reply[k].content.value;
      }
      if reply[k].toolCalls != [] {
        calls := calls + reply[k].toolCalls;
      }
      assert reply[..k + 1][..k] == reply[..k];
      k := k + 1;
    }
    assert reply[..k] == reply;
  }
}
