/**
 * Session persistence (src/claude_clone/core/session.py), without the files:
 * the message records a session stores, the title a saved session gets, and
 * the listing of saved sessions, newest first. A session file is given as
 * what `json.load` made of it, or `None` when it was not valid JSON.
 */
module Session {

  import opened Wrappers
  import opened Json
  import opened Messages
  import Text

  // ---------------------------------------------------------------------------
  // Messages as stored records
  // ---------------------------------------------------------------------------

  /** One stored tool call: `{"name": ..., "arguments": ...}`. */
  function CallDict(tc: ToolCall): Json {
    JDict(map["name" := JStr(tc.name), "arguments" := JDict(tc.arguments)])
  }

  /**
   * `_message_to_dict`: role and content always, and `tool_calls` only for a
   * message whose list is non-empty, one record per call in order.
   */
  function MessageToDict(m: Message): (d: map<string, Json>)
    ensures d.Keys == {"role", "content"} + (if HasToolCalls(m) then {"tool_calls"} else {})
    ensures d["role"] == JStr(m.role) && d["content"] == JStr(m.content)
    ensures HasToolCalls(m) ==> d["tool_calls"].JList? && |d["tool_calls"].items| == |CallsOf(m)|
    ensures HasToolCalls(m) ==>
      forall k :: 0 <= k < |CallsOf(m)| ==> d["tool_calls"].items[k] == CallDict(CallsOf(m)[k])
  {
    var base := map["role" := JStr(m.role), "content" := JStr(m.content)];
    if HasToolCalls(m) then
      var calls := m.toolCalls.value;
      base["tool_calls" := JList(seq(|calls|, k requires 0 <= k < |calls| => CallDict(calls[k])))]
    else base
  }

  /** Python's truthiness of a JSON value. */
  predicate Truthy(j: Json) {
    match j
    case JNull => false
    case JBool(b) => b
    case JInt(i) => i != 0
    case JStr(s) => s != []
    case JList(items) => items != []
    case JDict(fields) => fields != map[]
  }

  /** A stored tool call read back; `None` where a key is missing or a value has the wrong type. */
  function CallFromDict(j: Json): (r: Option<ToolCall>)
    ensures r.Some? ==> Get(j, "name") == Some(JStr(r.value.name))
    ensures r.Some? ==> Get(j, "arguments") == Some(JDict(r.value.arguments))
  {
    if j.JDict? && "name" in j.fields && "arguments" in j.fields
       && j.fields["name"].JStr? && j.fields["arguments"].JDict?
    then Some(ToolCall(j.fields["name"].s, j.fields["arguments"].fields))
    else None
  }

  /** The stored calls read back in order, failing if any one fails. */
  function CallsFromList(items: seq<Json>): (r: Option<seq<ToolCall>>)
    ensures r.Some? ==> |r.value| == |items|
    decreases |items|
  {
    if items == [] then Some([])
    else
      match CallsFromList(items[..|items| - 1])
      case None => None
      case Some(init) =>
        match CallFromDict(items[|items| - 1])
        case None => None
        case Some(tc) => Some(init + [tc])
  }

  /**
   * `_dict_to_message`: the `tool_calls` list is read only when present and
   * truthy, and an empty or missing list gives `None`; `tool_call_id` is never
   * read. A missing `role` or `content` is the `KeyError` that makes loading
   * the session fail, here `None`.
   */
  function DictToMessage(d: map<string, Json>): (r: Option<Message>)
    ensures "role" !in d || "content" !in d ==> r.None?
    ensures r.Some? ==> d["role"] == JStr(r.value.role) && d["content"] == JStr(r.value.content)
    ensures r.Some? ==> r.value.toolCallId.None?
    ensures r.Some? && r.value.toolCalls.Some? ==>
      "tool_calls" in d && d["tool_calls"].JList? && |r.value.toolCalls.value| == |d["tool_calls"].items| > 0
  {
    if "role" !in d || "content" !in d || !d["role"].JStr? || !d["content"].JStr? then None
    else if "tool_calls" in d && Truthy(d["tool_calls"]) then
      if !d["tool_calls"].JList? then None
      else
        match CallsFromList(d["tool_calls"].items)
        case None => None
        case Some(calls) => Some(Message(d["role"].s, d["content"].s, Some(calls), None))
    else Some(Message(d["role"].s, d["content"].s, None, None))
  }

  /** Reading back stored calls gives the calls. */
  lemma {:induction false} CallsRoundTrip(calls: seq<ToolCall>)
    ensures CallsFromList(seq(|calls|, k requires 0 <= k < |calls| => CallDict(calls[k]))) == Some(calls)
    decreases |calls|
  {
    var items := seq(|calls|, k requires 0 <= k < |calls| => CallDict(calls[k]));
    if calls != [] {
      var init := calls[..|calls| - 1];
      CallsRoundTrip(init);
      assert items[..|items| - 1] == seq(|init|, k requires 0 <= k < |init| => CallDict(init[k]));
      assert init + [calls[|calls| - 1]] == calls;
    }
  }

  /**
   * Storing and reading back a message keeps its role, content and non-empty
   * call list; an empty call list comes back as `None` and the tool call id is lost.
   */
  lemma MessageRoundTrip(m: Message)
    ensures DictToMessage(MessageToDict(m)) ==
      Some(Message(m.role, m.content, if HasToolCalls(m) then m.toolCalls else None, None))
  {
    if HasToolCalls(m) {
      CallsRoundTrip(m.toolCalls.value);
    }
  }

  /** A message without a tool call id and without an empty call list comes back exactly. */
  lemma MessageRoundTripExact(m: Message)
    requires m.toolCallId == None
    requires m.toolCalls == None || HasToolCalls(m)
    ensures DictToMessage(MessageToDict(m)) == Some(m)
  {
    MessageRoundTrip(m);
  }

  // ---------------------------------------------------------------------------
  // The title of a saved session
  // ---------------------------------------------------------------------------

  /** A user message's content as a title: its first 50 characters, and "..." when it had more. */
  function TitleFrom(content: string): (t: string)
    ensures |content| <= 50 ==> t == content
    ensures |content| > 50 ==> t == content[..50] + "..." && |t| == 53
  {
    Text.Take(content, 50) + (if |content| > 50 then "..." else "")
  }

  /** The position of the first user message from `i` on. */
  function FirstUser(messages: seq<Message>, i: nat): (r: Option<nat>)
    requires i <= |messages|
    ensures r.Some? ==> i <= r.value < |messages| && messages[r.value].role == "user"
    ensures r.Some? ==> forall j :: i <= j < r.value ==> messages[j].role != "user"
    ensures r.None? <==> forall j :: i <= j < |messages| ==> messages[j].role != "user"
    decreases |messages| - i
  {
    if i == |messages| then None
    else if messages[i].role == "user" then Some(i)
    else FirstUser(messages, i + 1)
  }

  /** The title `save_session` writes. */
  function Title(messages: seq<Message>): (r: string)
    ensures (forall i :: 0 <= i < |messages| ==> messages[i].role != "user") ==> r == "New conversation"
    ensures forall i :: (0 <= i < |messages| && messages[i].role == "user" &&
      forall j :: 0 <= j < i ==> messages[j].role != "user") ==> r == TitleFrom(messages[i].content)
  {
    match FirstUser(messages, 0)
    case None => "New conversation"
    case Some(i) => TitleFrom(messages[i].content)
  }

  /** The title search of `save_session`: the loop that stops at the first user message. */
  method SessionTitle(messages: seq<Message>) returns (title: string)
    ensures title == Title(messages)
    ensures (forall j :: 0 <= j < |messages| ==> messages[j].role != "user") ==> title == "New conversation"
    ensures forall j :: (0 <= j < |messages| && messages[j].role == "user" && |messages[j].content| <= 50
      && forall i :: 0 <= i < j ==> messages[i].role != "user") ==> title == messages[j].content
  {
    title := "New conversation";
    var k := 0;
    while k < |messages|
      invariant k <= |messages|
      invariant FirstUser(messages, k) == FirstUser(messages, 0)
      invariant title == "New conversation"
    {
      var msg := messages[k];
      if msg.role == "user" {
        title := Text.Take(msg.content, 50) + (if |msg.content| > 50 then "..." else "");
        break;
      }
      k := k + 1;
    }
    FirstUserUnique(messages);
  }

  /** Any user message with no user message before it is the one `FirstUser` finds. */
  lemma FirstUserUnique(messages: seq<Message>)
    ensures forall j :: (0 <= j < |messages| && messages[j].role == "user"
      && forall i :: 0 <= i < j ==> messages[i].role != "user") ==> FirstUser(messages, 0) == Some(j)
  {
  }

  // ---------------------------------------------------------------------------
  // Listing sessions
  // ---------------------------------------------------------------------------

  /** `SessionMetadata`. */
  datatype SessionMetadata = SessionMetadata(
    id: string, model: string, createdAt: string, updatedAt: string, messageCount: nat, title: string)

  /** `data.get(key, default)` for a value that is a string; another value also gives the default. */
  function StrOr(data: map<string, Json>, key: string, default: string): string {
    if key in data && data[key].JStr? then data[key].s else default
  }

  /** Python's `len` of a list, string or object; other values count as 0. */
  function JsonLen(j: Json): nat {
    match j
    case JList(items) => |items|
    case JStr(s) => |s|
    case JDict(fields) => |fields.Keys|
    case _ => 0
  }

  /** The metadata of one session file, or `None` when it is skipped (not JSON, or no string `id`). */
  function MetadataOf(file: Option<map<string, Json>>): (r: Option<SessionMetadata>)
    ensures r.Some? <==> file.Some? && "id" in file.value && file.value["id"].JStr?
  {
    match file
    case None => None
    case Some(data) =>
      if "id" !in data || !data["id"].JStr? then None
      else Some(SessionMetadata(
        data["id"].s,
        StrOr(data, "model", "unknown"),
        StrOr(data, "created_at", ""),
        StrOr(data, "updated_at", ""),
        if "messages" in data then JsonLen(data["messages"]) else 0,
        StrOr(data, "title", "Untitled")))
  }

  /** The metadata of the files that are not skipped, in file order. */
  function Collected(files: seq<Option<map<string, Json>>>): (r: seq<SessionMetadata>)
    ensures |r| <= |files|
    ensures (forall i :: 0 <= i < |files| ==> MetadataOf(files[i]).Some?) ==> |r| == |files|
    decreases |files|
  {
    if files == [] then []
    else
      var init := Collected(files[..|files| - 1]);
      match MetadataOf(files[|files| - 1])
      case None => init
      case Some(m) => init + [m]
  }

  /** Python's `a < b` on strings: lexicographic by code point, a proper prefix first. */
  predicate Less(a: string, b: string)
    decreases |a|
  {
    if a == [] then b != []
    else if b == [] then false
    else if a[0] != b[0] then a[0] < b[0]
    else Less(a[1..], b[1..])
  }

  /** `<` on strings is a strict order … */
  lemma {:induction false} LessTransitive(a: string, b: string, c: string)
    requires Less(a, b) && Less(b, c)
    ensures Less(a, c)
    decreases |a|
  {
    if a != [] && b != [] && c != [] && a[0] == b[0] && b[0] == c[0] {
      LessTransitive(a[1..], b[1..], c[1..]);
    }
  }

  /** … that is total. */
  lemma {:induction false} LessTotal(a: string, b: string)
    ensures a == b || Less(a, b) || Less(b, a)
    ensures !(Less(a, b) && Less(b, a))
    decreases |a|
  {
    if a != [] && b != [] && a[0] == b[0] {
      LessTotal(a[1..], b[1..]);
      if a[1..] == b[1..] {
        assert a == [a[0]] + a[1..] && b == [b[0]] + b[1..];
      }
    }
  }

  /** `a` is at least as new as `b`. */
  predicate NotOlder(a: SessionMetadata, b: SessionMetadata) {
    !Less(a.updatedAt, b.updatedAt)
  }

  /** Being at least as new is transitive. */
  lemma NotOlderTransitive(a: SessionMetadata, b: SessionMetadata, c: SessionMetadata)
    requires NotOlder(a, b) && NotOlder(b, c)
    ensures NotOlder(a, c)
  {
    LessTotal(a.updatedAt, b.updatedAt);
    if Less(b.updatedAt, a.updatedAt) && Less(a.updatedAt, c.updatedAt) {
      LessTransitive(b.updatedAt, a.updatedAt, c.updatedAt);
    }
  }

  /** Newest first. */
  predicate NewestFirst(ss: seq<SessionMetadata>) {
    forall i, j :: 0 <= i < j < |ss| ==> NotOlder(ss[i], ss[j])
  }

  /** `x` placed before the first session that is not newer than it. */
  function Insert(x: SessionMetadata, ss: seq<SessionMetadata>): (r: seq<SessionMetadata>)
    ensures |r| == |ss| + 1
    decreases |ss|
  {
    if ss == [] || NotOlder(x, ss[0]) then [x] + ss
    else [ss[0]] + Insert(x, ss[1..])
  }

  /**
   * Python's stable `sort(key=updated_at, reverse=True)`, written as an
   * insertion sort: each session goes before the later ones with the same key.
   */
  function SortNewestFirst(ss: seq<SessionMetadata>): (r: seq<SessionMetadata>)
    ensures |r| == |ss|
    decreases |ss|
  {
    if ss == [] then [] else Insert(ss[0], SortNewestFirst(ss[1..]))
  }

  /** A session not older than the first of a newest-first list can go in front of it. */
  lemma PrependNewest(x: SessionMetadata, ss: seq<SessionMetadata>)
    requires NewestFirst(ss) && (ss == [] || NotOlder(x, ss[0]))
    ensures NewestFirst([x] + ss)
  {
    var r := [x] + ss;
    forall i, j | 0 <= i < j < |r| ensures NotOlder(r[i], r[j]) {
      if i == 0 && j > 1 {
        NotOlderTransitive(x, ss[0], ss[j - 1]);
      }
    }
  }

  /** The rest of a newest-first list is newest first. */
  lemma RestNewest(ss: seq<SessionMetadata>)
    requires NewestFirst(ss) && ss != []
    ensures NewestFirst(ss[1..])
    ensures forall t :: t in ss[1..] ==> NotOlder(ss[0], t)
  {
    forall i, j | 0 <= i < j < |ss[1..]| ensures NotOlder(ss[1..][i], ss[1..][j]) {
      assert ss[1..][i] == ss[i + 1] && ss[1..][j] == ss[j + 1];
    }
    forall t | t in ss[1..] ensures NotOlder(ss[0], t) {
      var k :| 0 <= k < |ss[1..]| && ss[1..][k] == t;
      assert ss[k + 1] == t;
    }
  }

  /** Inserting keeps the order and adds exactly `x`. */
  lemma {:induction false} InsertSpec(x: SessionMetadata, ss: seq<SessionMetadata>)
    requires NewestFirst(ss)
    ensures NewestFirst(Insert(x, ss))
    ensures multiset(Insert(x, ss)) == multiset(ss) + multiset{x}
    decreases |ss|
  {
    if ss == [] || NotOlder(x, ss[0]) {
      PrependNewest(x, ss);
    } else {
      var rest := Insert(x, ss[1..]);
      RestNewest(ss);
      InsertSpec(x, ss[1..]);
      LessTotal(x.updatedAt, ss[0].updatedAt);
      assert NotOlder(ss[0], x);
      forall t | t in rest ensures NotOlder(ss[0], t) {
        assert t in multiset(ss[1..]) + multiset{x};
      }
      PrependNewest(ss[0], rest);
      assert ss == [ss[0]] + ss[1..];
    }
  }

  /** The sort gives the sessions newest first, and the same sessions. */
  lemma {:induction false} SortSpec(ss: seq<SessionMetadata>)
    ensures NewestFirst(SortNewestFirst(ss))
    ensures multiset(SortNewestFirst(ss)) == multiset(ss)
    decreases |ss|
  {
    if ss != [] {
      SortSpec(ss[1..]);
      InsertSpec(ss[0], SortNewestFirst(ss[1..]));
      assert ss == [ss[0]] + ss[1..];
    }
  }

  /** Python's `xs[:limit]` for any integer `limit`; a negative one drops that many from the end. */
  function Head<T>(xs: seq<T>, limit: int): (r: seq<T>)
    ensures limit >= 0 ==> |r| == if limit < |xs| then limit else |xs|
    ensures limit < 0 ==> |r| == if |xs| + limit > 0 then |xs| + limit else 0
    ensures r == xs[..|r|]
  {
    Text.Slice(xs, 0, limit)
  }

  /** `list_sessions`: the readable sessions, newest first, at most `limit` of them. */
  method ListSessions(files: seq<Option<map<string, Json>>>, limit: int) returns (r: seq<SessionMetadata>)
    ensures r == Head(SortNewestFirst(Collected(files)), limit)
  {
    var sessions: seq<SessionMetadata> := [];
    var k := 0;
    while k < |files|
      invariant k <= |files|
      invariant sessions == Collected(files[..k])
    {
      assert files[..k + 1][..k] == files[..k];
      var m := MetadataOf(files[k]);
      if m.Some? {
        sessions := sessions + [m.value];
      }
      k := k + 1;
    }
    assert files[..k] == files;
    var sorted := SortNewestFirst(sessions);
    r := Head(sorted, limit);
  }

  /** The listing is newest first, holds only readable sessions, and all of them when `limit` allows. */
  lemma ListingSpec(files: seq<Option<map<string, Json>>>, limit: int)
    ensures var r := Head(SortNewestFirst(Collected(files)), limit);
      && NewestFirst(r)
      && multiset(r) <= multiset(Collected(files))
      && (limit >= |Collected(files)| ==> multiset(r) == multiset(Collected(files)))
  {
    var sorted := SortNewestFirst(Collected(files));
    SortSpec(Collected(files));
    var r := Head(sorted, limit);
    assert sorted == r + sorted[|r|..];
  }

  /** No session in `ss` is newer than `s`. */
  predicate Newest(s: SessionMetadata, ss: seq<SessionMetadata>) {
    forall t :: t in ss ==> NotOlder(s, t)
  }

  /** `get_last_session_id`: the id of the first session `list_sessions(limit=1)` returns. */
  method GetLastSessionId(files: seq<Option<map<string, Json>>>) returns (id: Option<string>)
    ensures id.None? <==> Collected(files) == []
    ensures id.Some? ==> exists s :: s in Collected(files) && s.id == id.value && Newest(s, Collected(files))
  {
    var sessions := ListSessions(files, 1);
    ghost var all := Collected(files);
    ghost var sorted := SortNewestFirst(all);
    SortSpec(all);
    assert |sorted| == |all| by {
      assert |multiset(sorted)| == |multiset(all)|;
    }
    if sessions == [] {
      id := None;
    } else {
      id := Some(sessions[0].id);
      var s := sorted[0];
      assert s in multiset(all);
      forall t | t in all ensures NotOlder(s, t) {
        assert t in multiset(sorted);
        var k :| 0 <= k < |sorted| && sorted[k] == t;
        if k > 0 {
          assert NotOlder(sorted[0], sorted[k]);
        } else {
          LessTotal(s.updatedAt, s.updatedAt);
        }
      }
    }
    if all != [] {
      assert sorted != [];
    }
  }
}
