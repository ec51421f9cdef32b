/**
 * Recovery of tool calls written as text in a model reply
 * (`extract_json_tool_call` and its inner `find_balanced_json` in
 * src/claude_clone/llm/ollama_provider.py).
 *
 * `json.loads` is an oracle: `parse(s)` is `None` when it raises
 * `JSONDecodeError`, otherwise the decoded value.
 */
module Extractor {

  import opened Wrappers
  import opened Json
  import opened Text
  import opened Messages

  /** The tool names the call-style fallback looks for, in the order it tries them. */
  const KnownTools: seq<string> := [
    "read_file", "write_file", "edit_file", "grep", "glob",
    "bash", "git_status", "git_diff", "git_commit", "git_log", "git_branch",
    "web_search", "web_fetch", "create_plan", "todo_write"
  ]

  // ---------------------------------------------------------------------------
  // find_balanced_json
  // ---------------------------------------------------------------------------

  /** The scanner's state: brace depth, inside a double-quoted string, next character escaped. */
  datatype ScanState = ScanState(depth: int, inString: bool, escapeNext: bool)

  const Initial := ScanState(0, false, false)

  /** The scanner reading character `c` in state `st` (when `c` does not end the match). */
  function Step(st: ScanState, c: char): ScanState {
    if st.escapeNext then st.(escapeNext := false)
    else if c == '\\' && st.inString then st.(escapeNext := true)
    else if c == '"' then st.(inString := !st.inString)
    else if st.inString then st
    else if c == '{' then st.(depth := st.depth + 1)
    else if c == '}' then st.(depth := st.depth - 1)
    else st
  }

  /** Reading `c` in state `st` is the `}` that brings the depth back to 0. */
  predicate Closes(st: ScanState, c: char) {
    !st.escapeNext && !st.inString && c == '}' && st.depth == 1
  }

  /**
   * Scanning on from position `j` in state `st`: one past the `}` that brings
   * the depth back to 0, or `None` when the text ends first.
   */
  function Scan(text: string, j: nat, st: ScanState): (r: Option<nat>)
    requires j <= |text|
    ensures r.Some? ==> j < r.value <= |text| && text[r.value - 1] == '}'
    decreases |text| - j
  {
    if j == |text| then None
    else if Closes(st, text[j]) then Some(j + 1)
    else Scan(text, j + 1, Step(st, text[j]))
  }

  /**
   * Where `find_balanced_json(text, start)` ends its match: `None` unless
   * `text[start]` is `{` and some later `}` brings the depth back to 0.
   */
  function BalancedEnd(text: string, start: nat): (r: Option<nat>)
    ensures r.Some? ==> start < |text| && text[start] == '{'
    ensures r.Some? ==> start < r.value <= |text| && text[r.value - 1] == '}'
  {
    if start >= |text| || text[start] != '{' then None else Scan(text, start, Initial)
  }

  /** `find_balanced_json`: the imperative scanner, returning `(json_str, end_idx)` or `(None, -1)`. */
  method FindBalancedJson(text: string, startIdx: nat) returns (found: Option<string>, endIdx: int)
    ensures BalancedEnd(text, startIdx).None? ==> found == None && endIdx == -1
    ensures BalancedEnd(text, startIdx).Some? ==>
      endIdx == BalancedEnd(text, startIdx).value && found == Some(text[startIdx..endIdx])
  {
    if startIdx >= |text| || text[startIdx] != '{' {
      return None, -1;
    }
    var braceCount := 0;
    var bracketCount := 0;
    var inString := false;
    var escapeNext := false;
    var j := startIdx;
    while j < |text|
      invariant startIdx <= j <= |text|
      invariant Scan(text, j, ScanState(braceCount, inString, escapeNext)) == BalancedEnd(text, startIdx)
    {
      var c := text[j];
      if escapeNext {
        escapeNext := false;
        j := j + 1;
        continue;
      }
      if c == '\\' && inString {
        escapeNext := true;
        j := j + 1;
        continue;
      }
      if c == '"' && !escapeNext {
        inString := !inString;
      } else if !inString {
        if c == '{' {
          braceCount := braceCount + 1;
        } else if c == '}' {
          braceCount := braceCount - 1;
          if braceCount == 0 {
            return Some(text[startIdx..j + 1]), j + 1;
          }
        } else if c == '[' {
          bracketCount := bracketCount + 1;
        } else if c == ']' {
          bracketCount := bracketCount - 1;
        }
      }
      j := j + 1;
    }
    return None, -1;
  }

  /** The scanner's state after reading `text[start..j]`. */
  function Run(text: string, start: nat, j: nat): ScanState
    requires start <= j <= |text|
    decreases j - start
  {
    if j == start then Initial else Step(Run(text, start, j - 1), text[j - 1])
  }

  /** Scanning on from `j` in the state reached at `j` stops at the first later closing brace. */
  lemma {:induction false} ScanFindsFirstClose(text: string, start: nat, j: nat)
    requires start <= j <= |text|
    ensures var r := Scan(text, j, Run(text, start, j));
      && (r.Some? ==> Closes(Run(text, start, r.value - 1), text[r.value - 1]))
      && (r.Some? ==> forall k :: j <= k < r.value - 1 ==> !Closes(Run(text, start, k), text[k]))
      && (r.None? ==> forall k :: j <= k < |text| ==> !Closes(Run(text, start, k), text[k]))
    decreases |text| - j
  {
    if j < |text| && !Closes(Run(text, start, j), text[j]) {
      assert Run(text, start, j + 1) == Step(Run(text, start, j), text[j]);
      ScanFindsFirstClose(text, start, j + 1);
    }
  }

  /**
   * A successful match ends at the first `}` read outside a string at depth 1,
   * and the depth stays positive in between, so no earlier brace (in
   * particular none inside a string or after a backslash) ends it.
   */
  lemma {:induction false} BalancedEndFirstClose(text: string, start: nat)
    requires BalancedEnd(text, start).Some?
    ensures var e := BalancedEnd(text, start).value;
      && Run(text, start, e - 1) == ScanState(1, false, false)
      && (forall k :: start <= k < e - 1 ==> !Closes(Run(text, start, k), text[k]))
      && (forall k :: start < k < e ==> Run(text, start, k).depth >= 1)
  {
    var e := BalancedEnd(text, start).value;
    ScanFindsFirstClose(text, start, start);
    var k := start + 1;
    assert Run(text, start, k) == ScanState(1, false, false);
    while k < e - 1
      invariant start < k <= e - 1
      invariant forall i :: start < i <= k ==> Run(text, start, i).depth >= 1
    {
      assert !Closes(Run(text, start, k), text[k]);
      assert Run(text, start, k + 1) == Step(Run(text, start, k), text[k]);
      k := k + 1;
    }
  }

  /** An object that never closes before the end of the text gives no match, and conversely. */
  lemma UnterminatedNoMatch(text: string, start: nat)
    requires start < |text| && text[start] == '{'
    ensures BalancedEnd(text, start).None? <==>
      forall k :: start <= k < |text| ==> !Closes(Run(text, start, k), text[k])
  {
    ScanFindsFirstClose(text, start, start);
    var r := BalancedEnd(text, start);
    if r.Some? {
      var k := r.value - 1;
      assert start <= k < |text| && Closes(Run(text, start, k), text[k]);
    }
  }

  /** The scan only depends on the text up to where it stops. */
  lemma {:induction false} ScanWithin(text: string, s: nat, j: nat, st: ScanState, e: nat)
    requires s <= j <= e <= |text|
    requires Scan(text, j, st) == Some(e)
    ensures Scan(text[s..e], j - s, st) == Some(e - s)
    decreases e - j
  {
    var t := text[s..e];
    assert t[j - s] == text[j];
    if !Closes(st, text[j]) {
      ScanWithin(text, s, j + 1, Step(st, text[j]), e);
    }
  }

  /** The matched string is itself a balanced object: scanning it alone matches all of it. */
  lemma MatchIsBalanced(text: string, start: nat)
    requires BalancedEnd(text, start).Some?
    ensures var e := BalancedEnd(text, start).value;
      BalancedEnd(text[start..e], 0) == Some(e - start)
  {
    var e := BalancedEnd(text, start).value;
    ScanWithin(text, start, start, Initial, e);
  }

  /** `{"a":"}"}`: the brace inside the string does not end the match early. */
  lemma BraceInStringExample()
    ensures BalancedEnd("{\"a\":\"}\"}", 0) == Some(9)
  {
    var t := "{\"a\":\"}\"}";
    assert Scan(t, 8, ScanState(1, false, false)) == Some(9);
    assert Scan(t, 6, ScanState(1, true, false)) == Some(9);
    assert Scan(t, 4, ScanState(1, false, false)) == Some(9);
    assert Scan(t, 2, ScanState(1, true, false)) == Some(9);
  }

  /** `{"a":"\"}"}`: an escaped quote does not end the string, so its `}` is ignored too. */
  lemma EscapedQuoteExample()
    ensures BalancedEnd("{\"a\":\"\\\"}\"}", 0) == Some(11)
  {
    var t := "{\"a\":\"\\\"}\"}";
    assert Scan(t, 10, ScanState(1, false, false)) == Some(11);
    assert Scan(t, 8, ScanState(1, true, false)) == Some(11);
    assert Scan(t, 6, ScanState(1, true, false)) == Some(11);
    assert Scan(t, 4, ScanState(1, false, false)) == Some(11);
    assert Scan(t, 2, ScanState(1, true, false)) == Some(11);
  }

  /** `{"x":{}}` followed by more text: the nested object does not end the outer one. */
  lemma NestedObjectExample()
    ensures BalancedEnd("{\"x\":{}} tail}", 0) == Some(8)
  {
    var t := "{\"x\":{}} tail}";
    assert Scan(t, 7, ScanState(1, false, false)) == Some(8);
    assert Scan(t, 5, ScanState(1, false, false)) == Some(8);
    assert Scan(t, 3, ScanState(1, true, false)) == Some(8);
    assert Scan(t, 1, ScanState(1, false, false)) == Some(8);
  }

  /** `{"a":[1` never closes: no match. */
  lemma UnterminatedExample()
    ensures BalancedEnd("{\"a\":[1", 0) == None
  {
    var t := "{\"a\":[1";
    assert Scan(t, 5, ScanState(1, false, false)) == None;
    assert Scan(t, 3, ScanState(1, true, false)) == None;
    assert Scan(t, 1, ScanState(1, false, false)) == None;
  }

  // ---------------------------------------------------------------------------
  // First pass: objects of the form {"name": ..., "arguments": ...}
  // ---------------------------------------------------------------------------

  /** The stretch `content[lo..hi]` that a recognised call was written in. */
  datatype Span = Span(lo: nat, hi: nat)

  /** Calls found so far (`tool_calls`), each with the span it came from (`matches`). */
  datatype Found = Found(calls: seq<ToolCall>, spans: seq<Span>) {
    function Then(other: Found): Found {
      Found(calls + other.calls, spans + other.spans)
    }
  }

  const Nothing := Found([], [])

  /** A decoded value the first pass accepts: an object with a "name" (a string) and an "arguments" key. */
  predicate IsCallObject(v: Option<Json>) {
    v.Some? && v.value.JDict? && "name" in v.value.fields && "arguments" in v.value.fields
    && v.value.fields["name"].JStr?
  }

  /** The call an accepted object stands for; arguments that are not an object become `{}`. */
  function CallOf(v: Json): ToolCall
    requires IsCallObject(Some(v))
  {
    var args := v.fields["arguments"];
    ToolCall(v.fields["name"].s, if args.JDict? then args.fields else map[])
  }

  /** The first pass accepts the object starting at `i`. */
  predicate AcceptedAt(content: string, parse: string -> Option<Json>, i: nat) {
    BalancedEnd(content, i).Some? && IsCallObject(parse(content[i..BalancedEnd(content, i).value]))
  }

  /** The first pass from position `i`: after an accepted object it resumes at the object's end. */
  function FirstPass(content: string, parse: string -> Option<Json>, i: nat): Found
    requires i <= |content|
    decreases |content| - i
  {
    if i == |content| then Nothing
    else if AcceptedAt(content, parse, i) then
      var e := BalancedEnd(content, i).value;
      Found([CallOf(parse(content[i..e]).value)], [Span(i, e)]).Then(FirstPass(content, parse, e))
    else FirstPass(content, parse, i + 1)
  }

  /** Spans inside `[from, n)`, each non-empty and each ending before the next begins. */
  predicate InOrder(spans: seq<Span>, from: nat, n: nat) {
    && (forall k :: 0 <= k < |spans| ==> from <= spans[k].lo < spans[k].hi <= n)
    && (forall k :: 0 <= k < |spans| - 1 ==> spans[k].hi <= spans[k + 1].lo)
  }

  /** Dropping the first of ordered spans leaves the rest in order after it. */
  lemma InOrderTail(spans: seq<Span>, from: nat, n: nat)
    requires spans != [] && InOrder(spans, from, n)
    ensures InOrder(spans[1..], spans[0].hi, n)
  {
    var rest := spans[1..];
    assert forall k :: 0 <= k < |rest| ==> rest[k] == spans[k + 1];
    if |rest| > 0 {
      assert spans[0].hi <= spans[1].lo;
    }
    assert forall k :: 0 <= k < |rest| ==> spans[0].hi <= rest[k].lo by {
      forall k | 0 <= k < |rest| ensures spans[0].hi <= rest[k].lo {
        var j := 0;
        while j < k
          invariant j <= k && spans[0].hi <= rest[j].lo
        {
          j := j + 1;
        }
      }
    }
  }

  /** A span put in front of ordered spans that start after it gives ordered spans. */
  lemma InOrderCons(s: Span, rest: seq<Span>, from: nat, n: nat)
    requires from <= s.lo < s.hi <= n && InOrder(rest, s.hi, n)
    ensures InOrder([s] + rest, from, n)
  {
    var all := [s] + rest;
    assert forall k :: 1 <= k < |all| ==> all[k] == rest[k - 1];
  }

  /** Position `j` lies in one of the spans. */
  predicate Covered(spans: seq<Span>, j: nat) {
    exists k :: 0 <= k < |spans| && spans[k].lo <= j < spans[k].hi
  }

  /** Every span of `f` is an accepted object, matched to its call, one call per span. */
  predicate FirstPassCalls(content: string, parse: string -> Option<Json>, f: Found) {
    |f.calls| == |f.spans| && forall k :: 0 <= k < |f.spans| ==> ObjectCall(content, parse, f.calls[k], f.spans[k])
  }

  /** `c` is the call of the accepted object that spans `s`. */
  predicate ObjectCall(content: string, parse: string -> Option<Json>, c: ToolCall, s: Span) {
    && AcceptedAt(content, parse, s.lo)
    && s.hi == BalancedEnd(content, s.lo).value
    && c == CallOf(parse(content[s.lo..s.hi]).value)
  }

  /** Calls found one after the other keep the correspondence between calls and spans. */
  lemma CallsThen(content: string, parse: string -> Option<Json>, a: Found, b: Found)
    requires FirstPassCalls(content, parse, a) && FirstPassCalls(content, parse, b)
    ensures FirstPassCalls(content, parse, a.Then(b))
  {
    var f := a.Then(b);
    forall k | 0 <= k < |f.spans|
      ensures ObjectCall(content, parse, f.calls[k], f.spans[k])
    {
      if k < |a.spans| {
        assert f.calls[k] == a.calls[k] && f.spans[k] == a.spans[k];
      } else {
        assert f.calls[k] == b.calls[k - |a.calls|] && f.spans[k] == b.spans[k - |a.spans|];
      }
    }
  }

  /** The first pass reports accepted objects only, in text order, none inside another. */
  lemma {:induction false} FirstPassSound(content: string, parse: string -> Option<Json>, i: nat)
    requires i <= |content|
    ensures var f := FirstPass(content, parse, i);
      FirstPassCalls(content, parse, f) && InOrder(f.spans, i, |content|)
    decreases |content| - i
  {
    if i < |content| {
      if AcceptedAt(content, parse, i) {
        var e := BalancedEnd(content, i).value;
        FirstPassSound(content, parse, e);
        var rest := FirstPass(content, parse, e);
        var one := Found([CallOf(parse(content[i..e]).value)], [Span(i, e)]);
        assert ObjectCall(content, parse, one.calls[0], one.spans[0]);
        CallsThen(content, parse, one, rest);
        InOrderCons(Span(i, e), rest.spans, i, |content|);
      } else {
        FirstPassSound(content, parse, i + 1);
        var f := FirstPass(content, parse, i);
        assert InOrder(f.spans, i, |content|);
      }
    }
  }

  /** One step of the first pass: an accepted object is reported and skipped, anything else is passed over. */
  lemma FirstPassStep(content: string, parse: string -> Option<Json>, i: nat)
    requires i < |content|
    ensures AcceptedAt(content, parse, i) ==>
      var e := BalancedEnd(content, i).value;
      FirstPass(content, parse, i) ==
        Found([CallOf(parse(content[i..e]).value)], [Span(i, e)]).Then(FirstPass(content, parse, e))
    ensures !AcceptedAt(content, parse, i) ==>
      FirstPass(content, parse, i) == Nothing.Then(FirstPass(content, parse, i + 1))
  {
  }

  lemma ThenAssoc(a: Found, b: Found, c: Found)
    ensures a.Then(b).Then(c) == a.Then(b.Then(c))
  {
  }

  /** Every accepted object from `i` on is reported, or lies inside a reported one. */
  lemma {:induction false} FirstPassComplete(content: string, parse: string -> Option<Json>, i: nat, j: nat)
    requires i <= j < |content| && AcceptedAt(content, parse, j)
    ensures Covered(FirstPass(content, parse, i).spans, j)
    decreases |content| - i
  {
    var f := FirstPass(content, parse, i);
    if AcceptedAt(content, parse, i) {
      var e := BalancedEnd(content, i).value;
      if j < e {
        assert f.spans[0] == Span(i, e);
        assert 0 < |f.spans| && f.spans[0].lo <= j < f.spans[0].hi;
        assert Covered(f.spans, j);
      } else {
        FirstPassComplete(content, parse, e, j);
        var rest := FirstPass(content, parse, e);
        var k :| 0 <= k < |rest.spans| && rest.spans[k].lo <= j < rest.spans[k].hi;
        assert f.spans[k + 1] == rest.spans[k];
        assert Covered(f.spans, j);
      }
    } else {
      FirstPassComplete(content, parse, i + 1, j);
    }
  }

  /** With no accepted object from `i` on, the first pass finds nothing. */
  lemma {:induction false} FirstPassEmpty(content: string, parse: string -> Option<Json>, i: nat)
    requires i <= |content|
    requires forall j :: i <= j < |content| ==> !AcceptedAt(content, parse, j)
    ensures FirstPass(content, parse, i) == Nothing
    decreases |content| - i
  {
    if i < |content| {
      FirstPassEmpty(content, parse, i + 1);
    }
  }

  // ---------------------------------------------------------------------------
  // Fallback pass: `tool_name({...})` and `tool_name {...}`
  // ---------------------------------------------------------------------------

  /** Where the regex `\s*` stops when matched at `q`: past every whitespace character from `q` on. */
  function SkipSpaces(content: string, q: nat): (r: nat)
    requires q <= |content|
    ensures q <= r <= |content|
    decreases |content| - q
  {
    if q < |content| && IsSpace(content[q]) then SkipSpaces(content, q + 1) else q
  }

  /** `\s*` consumes exactly a maximal run of whitespace. */
  lemma {:induction false} SkipSpacesShape(content: string, q: nat)
    requires q <= |content|
    ensures forall k :: q <= k < SkipSpaces(content, q) ==> IsSpace(content[k])
    ensures SkipSpaces(content, q) < |content| ==> !IsSpace(content[SkipSpaces(content, q)])
    decreases |content| - q
  {
    if q < |content| && IsSpace(content[q]) {
      SkipSpacesShape(content, q + 1);
    }
  }

  /**
   * Where the pattern `name\s*\(\s*\{` (when `paren`) or `name\s*\{` matches
   * at `p`: one past the `{`; `None` where it does not match there.
   */
  function PatternEnd(content: string, name: string, paren: bool, p: nat): (r: Option<nat>)
    requires p <= |content|
    ensures r.Some? ==> p < r.value <= |content| && content[r.value - 1] == '{'
  {
    if !OccursAt(content, name, p) then None
    else
      var q := SkipSpaces(content, p + |name|);
      if !paren then
        if q < |content| && content[q] == '{' then Some(q + 1) else None
      else if q < |content| && content[q] == '(' then
        var q2 := SkipSpaces(content, q + 1);
        if q2 < |content| && content[q2] == '{' then Some(q2 + 1) else None
      else None
  }

  /**
   * A pattern match is the tool name, then only whitespace (and, in the
   * parenthesised form, one `(`), then `{`.
   */
  lemma PatternEndShape(content: string, name: string, paren: bool, p: nat)
    requires p <= |content| && PatternEnd(content, name, paren, p).Some?
    ensures OccursAt(content, name, p)
    ensures var r := PatternEnd(content, name, paren, p).value;
      && p + |name| < r
      && forall k :: p + |name| <= k < r - 1 ==> IsSpace(content[k]) || (paren && content[k] == '(')
  {
    var q := SkipSpaces(content, p + |name|);
    SkipSpacesShape(content, p + |name|);
    if paren {
      SkipSpacesShape(content, q + 1);
    }
  }

  /** `at` moves forward and stays within a text of length `n`: a match at `q` ends after `q`. */
  predicate Advances(n: nat, at: nat -> Option<nat>) {
    forall q :: 0 <= q < n && at(q).Some? ==> q < at(q).value <= n
  }

  /**
   * `re.finditer` from position `p` for a matcher `at` (`at(q)` is one past
   * the match that starts at `q`, if any): after a match the search resumes
   * at its end, otherwise one position further on.
   */
  function FinditerBy(n: nat, at: nat -> Option<nat>, p: nat): (ms: seq<Span>)
    requires p <= n && Advances(n, at)
    ensures forall k :: 0 <= k < |ms| ==> p <= ms[k].lo < ms[k].hi <= n
    decreases n - p
  {
    if p == n then []
    else match at(p)
      case Some(m) => [Span(p, m)] + FinditerBy(n, at, m)
      case None => FinditerBy(n, at, p + 1)
  }

  /** Every span of `ms` is a match of `at`. */
  predicate AreMatches(at: nat -> Option<nat>, ms: seq<Span>) {
    forall k :: 0 <= k < |ms| ==> at(ms[k].lo) == Some(ms[k].hi)
  }

  /** Each span of `ms` ends before the next one starts. */
  predicate Disjoint(ms: seq<Span>) {
    forall k :: 0 <= k < |ms| - 1 ==> ms[k].hi <= ms[k + 1].lo
  }

  /** Each reported match is a match, and no two overlap. */
  lemma {:induction false} FinditerByMatches(n: nat, at: nat -> Option<nat>, p: nat)
    requires p <= n && Advances(n, at)
    ensures AreMatches(at, FinditerBy(n, at, p)) && Disjoint(FinditerBy(n, at, p))
    decreases n - p
  {
    if p < n {
      var ms := FinditerBy(n, at, p);
      match at(p)
      case Some(m) =>
        FinditerByMatches(n, at, m);
        var rest := FinditerBy(n, at, m);
        assert ms == [Span(p, m)] + rest;
        assert forall k :: 1 <= k < |ms| ==> ms[k] == rest[k - 1];
        assert AreMatches(at, ms) && Disjoint(ms);
      case None =>
        FinditerByMatches(n, at, p + 1);
        assert ms == FinditerBy(n, at, p + 1);
    }
  }

  /** No match is skipped: every position where a match starts is inside some reported match. */
  lemma {:induction false} FinditerByComplete(n: nat, at: nat -> Option<nat>, p: nat, j: nat)
    requires p <= j < n && Advances(n, at) && at(j).Some?
    ensures Covered(FinditerBy(n, at, p), j)
    decreases n - p
  {
    var ms := FinditerBy(n, at, p);
    match at(p)
    case Some(m) =>
      if j < m {
        assert ms[0] == Span(p, m);
        assert Covered(ms, j);
      } else {
        FinditerByComplete(n, at, m, j);
        var rest := FinditerBy(n, at, m);
        var k :| 0 <= k < |rest| && rest[k].lo <= j < rest[k].hi;
        assert ms[k + 1] == rest[k];
        assert Covered(ms, j);
      }
    case None =>
      FinditerByComplete(n, at, p + 1, j);
  }

  /** The matcher of one of the two patterns for tool `name`. */
  function Matcher(content: string, name: string, paren: bool): nat -> Option<nat> {
    (q: nat) => if q <= |content| then PatternEnd(content, name, paren, q) else None
  }

  lemma MatcherAdvances(content: string, name: string, paren: bool)
    ensures Advances(|content|, Matcher(content, name, paren))
  {
  }

  /** `re.finditer(pattern, content)` for one of the two patterns of tool `name`. */
  function Finditer(content: string, name: string, paren: bool): (ms: seq<Span>)
    ensures forall k :: 0 <= k < |ms| ==> ms[k].lo < ms[k].hi <= |content|
  {
    MatcherAdvances(content, name, paren);
    FinditerBy(|content|, Matcher(content, name, paren), 0)
  }

  /** The reported matches are exactly where the pattern matches, left to right, none overlapping. */
  lemma FinditerMatches(content: string, name: string, paren: bool)
    ensures var ms := Finditer(content, name, paren);
      && (forall k :: 0 <= k < |ms| ==> PatternEnd(content, name, paren, ms[k].lo) == Some(ms[k].hi))
      && Disjoint(ms)
      && (forall j :: 0 <= j < |content| && PatternEnd(content, name, paren, j).Some? ==> Covered(ms, j))
  {
    var at := Matcher(content, name, paren);
    MatcherAdvances(content, name, paren);
    FinditerByMatches(|content|, at, 0);
    var ms := Finditer(content, name, paren);
    assert AreMatches(at, ms);
    forall k | 0 <= k < |ms|
      ensures PatternEnd(content, name, paren, ms[k].lo) == Some(ms[k].hi)
    {
      assert at(ms[k].lo) == Some(ms[k].hi);
    }
    forall j | 0 <= j < |content| && PatternEnd(content, name, paren, j).Some?
      ensures Covered(Finditer(content, name, paren), j)
    {
      assert at(j) == PatternEnd(content, name, paren, j);
      FinditerByComplete(|content|, at, 0, j);
    }
  }

  /** The call a pattern match stands for: the object after its `{` must decode to an object. */
  function MatchCall(content: string, parse: string -> Option<Json>, name: string, paren: bool, m: Span): Found
    requires 0 < m.hi <= |content|
  {
    var b := m.hi - 1;
    match BalancedEnd(content, b)
    case None => Nothing
    case Some(e) =>
      var args := parse(content[b..e]);
      if args.Some? && args.value.JDict? then
        var stop := if paren && e < |content| && content[e] == ')' then e + 1 else e;
        Found([ToolCall(name, args.value.fields)], [Span(m.lo, stop)])
      else Nothing
  }

  /** The calls of the matches `ms`, in order. */
  function MatchesPass(content: string, parse: string -> Option<Json>, name: string, paren: bool, ms: seq<Span>): Found
    requires forall k :: 0 <= k < |ms| ==> 0 < ms[k].hi <= |content|
    decreases |ms|
  {
    if ms == [] then Nothing
    else
      var prev := MatchesPass(content, parse, name, paren, ms[..|ms| - 1]);
      prev.Then(MatchCall(content, parse, name, paren, ms[|ms| - 1]))
  }

  lemma MatchesStep(content: string, parse: string -> Option<Json>, name: string, paren: bool, ms: seq<Span>)
    requires ms != [] && forall k :: 0 <= k < |ms| ==> 0 < ms[k].hi <= |content|
    ensures MatchesPass(content, parse, name, paren, ms) ==
      MatchesPass(content, parse, name, paren, ms[..|ms| - 1]).Then(MatchCall(content, parse, name, paren, ms[|ms| - 1]))
  {
  }

  /** The calls found for tool `name` with each of the `patterns` in turn. */
  function PatternsPass(content: string, parse: string -> Option<Json>, name: string, patterns: seq<bool>): Found
    decreases |patterns|
  {
    if patterns == [] then Nothing
    else
      var paren := patterns[|patterns| - 1];
      PatternsPass(content, parse, name, patterns[..|patterns| - 1])
        .Then(MatchesPass(content, parse, name, paren, Finditer(content, name, paren)))
  }

  /** The parenthesised pattern is tried before the bare one. */
  const Patterns: seq<bool> := [true, false]

  /** The fallback pass over `tools`, each tried with both patterns. */
  function CallStylePass(content: string, parse: string -> Option<Json>, tools: seq<string>): Found
    decreases |tools|
  {
    if tools == [] then Nothing
    else
      var prev := CallStylePass(content, parse, tools[..|tools| - 1]);
      prev.Then(PatternsPass(content, parse, tools[|tools| - 1], Patterns))
  }

  /** Every call the fallback reports is named after one of the tools it looked for, one span per call. */
  lemma {:induction false} CallStyleNames(content: string, parse: string -> Option<Json>, tools: seq<string>)
    ensures var f := CallStylePass(content, parse, tools);
      |f.calls| == |f.spans| && forall k :: 0 <= k < |f.calls| ==> f.calls[k].name in tools
    decreases |tools|
  {
    if tools != [] {
      var name := tools[|tools| - 1];
      CallStyleNames(content, parse, tools[..|tools| - 1]);
      PatternsNames(content, parse, name, Patterns);
    }
  }

  lemma {:induction false} PatternsNames(content: string, parse: string -> Option<Json>, name: string, patterns: seq<bool>)
    ensures var f := PatternsPass(content, parse, name, patterns);
      |f.calls| == |f.spans| && forall k :: 0 <= k < |f.calls| ==> f.calls[k].name == name
    decreases |patterns|
  {
    if patterns != [] {
      var paren := patterns[|patterns| - 1];
      PatternsNames(content, parse, name, patterns[..|patterns| - 1]);
      MatchesNames(content, parse, name, paren, Finditer(content, name, paren));
    }
  }

  lemma {:induction false} MatchesNames(content: string, parse: string -> Option<Json>, name: string, paren: bool, ms: seq<Span>)
    requires forall k :: 0 <= k < |ms| ==> 0 < ms[k].hi <= |content|
    ensures var f := MatchesPass(content, parse, name, paren, ms);
      |f.calls| == |f.spans| && forall k :: 0 <= k < |f.calls| ==> f.calls[k].name == name
    decreases |ms|
  {
    if ms != [] {
      MatchesNames(content, parse, name, paren, ms[..|ms| - 1]);
    }
  }

  /** A match of either pattern ends at an opening brace. */
  lemma MatchNeedsBrace(content: string, name: string, paren: bool)
    ensures Finditer(content, name, paren) != [] ==> '{' in content
  {
    var ms := Finditer(content, name, paren);
    if ms != [] {
      FinditerMatches(content, name, paren);
      var r := PatternEnd(content, name, paren, ms[0].lo);
      assert content[r.value - 1] == '{';
    }
  }

  /** Text without an opening brace matches neither pattern. */
  lemma NoBraceNoMatch(content: string, name: string, paren: bool)
    requires '{' !in content
    ensures Finditer(content, name, paren) == []
  {
    MatchNeedsBrace(content, name, paren);
  }

  lemma {:induction false} NoBraceNoCallStyle(content: string, parse: string -> Option<Json>, tools: seq<string>)
    requires '{' !in content
    ensures CallStylePass(content, parse, tools) == Nothing
    decreases |tools|
  {
    if tools != [] {
      var name := tools[|tools| - 1];
      NoBraceNoCallStyle(content, parse, tools[..|tools| - 1]);
      NoBraceNoMatch(content, name, true);
      NoBraceNoMatch(content, name, false);
      assert Patterns[..1][..0] == [];
      assert PatternsPass(content, parse, name, Patterns[..1]) == Nothing;
      assert Patterns[..1] == [true];
    }
  }

  // ---------------------------------------------------------------------------
  // Removing the recognised spans
  // ---------------------------------------------------------------------------

  /** Python's `r[:s.lo] + r[s.hi:]`, slices clamped to the string. */
  function Cut(r: string, s: Span): string {
    var a := if s.lo <= |r| then s.lo else |r|;
    var b := if s.hi <= |r| then s.hi else |r|;
    r[..a] + r[b..]
  }

  /** Cutting the spans `order` out of `content`, first to last. */
  function RemoveAll(content: string, order: seq<Span>): string
    decreases |order|
  {
    if order == [] then content else Cut(RemoveAll(content, order[..|order| - 1]), order[|order| - 1])
  }

  /** Python's tuple order on `(start, end)`. */
  predicate SpanLe(a: Span, b: Span) {
    a.lo < b.lo || (a.lo == b.lo && a.hi <= b.hi)
  }

  predicate Sorted(s: seq<Span>) {
    forall i, j :: 0 <= i < j < |s| ==> SpanLe(s[i], s[j])
  }

  /** One step of insertion sort: `x` placed before the first element it does not follow. */
  function Insert(x: Span, s: seq<Span>): (r: seq<Span>)
    ensures multiset(r) == multiset(s) + multiset{x}
  {
    if s == [] then [x]
    else if SpanLe(x, s[0]) then [x] + s
    else
      assert s == [s[0]] + s[1..];
      [s[0]] + Insert(x, s[1..])
  }

  /** Inserting into a sorted sequence keeps it sorted. */
  lemma {:induction false} InsertSorted(x: Span, s: seq<Span>)
    requires Sorted(s)
    ensures Sorted(Insert(x, s))
  {
    if s != [] && !SpanLe(x, s[0]) {
      InsertSorted(x, s[1..]);
      var r := Insert(x, s[1..]);
      assert s == [s[0]] + s[1..];
      forall k | 0 <= k < |r|
        ensures SpanLe(s[0], r[k])
      {
        assert r[k] in multiset(r);
        if r[k] != x {
          assert r[k] in s[1..];
        }
      }
      assert Insert(x, s) == [s[0]] + r;
    }
  }

  /** Python's `sorted(matches)`: a permutation of the input ... */
  function SortSpans(s: seq<Span>): (r: seq<Span>)
    ensures multiset(r) == multiset(s)
  {
    if s == [] then []
    else
      assert s == [s[0]] + s[1..];
      Insert(s[0], SortSpans(s[1..]))
  }

  /** ... in tuple order. */
  lemma {:induction false} SortSpansSorted(s: seq<Span>)
    ensures Sorted(SortSpans(s))
  {
    if s != [] {
      SortSpansSorted(s[1..]);
      InsertSorted(s[0], SortSpans(s[1..]));
    }
  }

  /** Python's `reversed(s)`. */
  function Reverse(s: seq<Span>): (r: seq<Span>)
    ensures |r| == |s| && forall k :: 0 <= k < |s| ==> r[k] == s[|s| - 1 - k]
  {
    seq(|s|, k requires 0 <= k < |s| => s[|s| - 1 - k])
  }

  /** What is left of `content` once the spans are cut out, last span first. */
  function Removed(content: string, spans: seq<Span>): string {
    RemoveAll(content, Reverse(SortSpans(spans)))
  }

  /** The text between the spans, read left to right from `from`. */
  function Gaps(content: string, spans: seq<Span>, from: nat): string
    requires from <= |content| && InOrder(spans, from, |content|)
    decreases |spans|
  {
    if spans == [] then content[from..]
    else
      InOrderTail(spans, from, |content|);
      content[from..spans[0].lo] + Gaps(content, spans[1..], spans[0].hi)
  }

  /** Spans already in order are left as they are by sorting. */
  lemma {:induction false} SortInOrder(spans: seq<Span>, from: nat, n: nat)
    requires InOrder(spans, from, n)
    ensures SortSpans(spans) == spans
    decreases |spans|
  {
    if spans != [] {
      InOrderTail(spans, from, n);
      SortInOrder(spans[1..], spans[0].hi, n);
    }
  }

  /** Cutting the spans out last to first, stated on the spans in their own order. */
  function CutBackwards(content: string, spans: seq<Span>): string
    decreases |spans|
  {
    if spans == [] then content else Cut(CutBackwards(content, spans[1..]), spans[0])
  }

  lemma {:induction false} RemoveAllReverse(content: string, spans: seq<Span>)
    ensures RemoveAll(content, Reverse(spans)) == CutBackwards(content, spans)
    decreases |spans|
  {
    if spans != [] {
      ReverseFront(spans);
      RemoveAllReverse(content, spans[1..]);
    }
  }

  /** Cutting ordered spans out from the last to the first leaves exactly the gaps between them. */
  lemma {:induction false} RemoveAllGaps(content: string, spans: seq<Span>, from: nat)
    requires from <= |content| && InOrder(spans, from, |content|)
    ensures CutBackwards(content, spans) == content[..from] + Gaps(content, spans, from)
    decreases |spans|
  {
    if spans != [] {
      var s0 := spans[0];
      InOrderTail(spans, from, |content|);
      RemoveAllGaps(content, spans[1..], s0.hi);
      var g := Gaps(content, spans[1..], s0.hi);
      CutAfterPrefix(content, s0, g);
      assert content[..from] + content[from..s0.lo] == content[..s0.lo];
    }
  }

  /** The reversal of `s` ends with `s[0]`, after the reversal of the rest. */
  lemma ReverseFront(s: seq<Span>)
    requires s != []
    ensures Reverse(s)[..|s| - 1] == Reverse(s[1..]) && Reverse(s)[|s| - 1] == s[0]
  {
    assert Reverse(s)[..|s| - 1] == Reverse(s[1..]);
  }

  /** Cutting a span out of a text that keeps `content` up to the span's end. */
  lemma CutAfterPrefix(content: string, s: Span, g: string)
    requires s.lo <= s.hi <= |content|
    ensures Cut(content[..s.hi] + g, s) == content[..s.lo] + g
  {
    var r := content[..s.hi] + g;
    assert r[..s.lo] == content[..s.lo];
    assert r[s.hi..] == g;
  }

  /** For spans in order, what remains is the text between them. */
  lemma RemovedIsGaps(content: string, spans: seq<Span>)
    requires InOrder(spans, 0, |content|)
    ensures Removed(content, spans) == Gaps(content, spans, 0)
  {
    SortInOrder(spans, 0, |content|);
    RemoveAllReverse(content, spans);
    RemoveAllGaps(content, spans, 0);
  }

  // ---------------------------------------------------------------------------
  // extract_json_tool_call
  // ---------------------------------------------------------------------------

  /**
   * The recovered calls and what is left of the text: the fallback runs only
   * when the first pass found nothing; with no call the text is returned
   * untouched; otherwise the spans are cut out and the rest is stripped, an
   * empty rest becoming `None`.
   */
  function ExtractSpec(content: string, parse: string -> Option<Json>): (Option<string>, seq<ToolCall>) {
    var first := FirstPass(content, parse, 0);
    var found := if first.calls != [] then first else CallStylePass(content, parse, KnownTools);
    if found.calls == [] then (Some(content), [])
    else
      var rest := Strip(Removed(content, found.spans));
      (if rest == "" then None else Some(rest), found.calls)
  }

  /** The first loop of `extract_json_tool_call`. */
  method FindCallObjects(content: string, parse: string -> Option<Json>) returns (found: Found)
    ensures found == FirstPass(content, parse, 0)
  {
    found := Nothing;
    var i := 0;
    while i < |content|
      invariant i <= |content|
      invariant found.Then(FirstPass(content, parse, i)) == FirstPass(content, parse, 0)
    {
      var piece := Nothing;
      var next := i + 1;
      if content[i] == '{' {
        var jsonStr, endIdx := FindBalancedJson(content, i);
        if jsonStr.Some? {
          var data := parse(jsonStr.value);
          if IsCallObject(data) {
            piece := Found([CallOf(data.value)], [Span(i, endIdx)]);
            next := endIdx;
          }
        }
      }
      FirstPassStep(content, parse, i);
      ThenAssoc(found, piece, FirstPass(content, parse, next));
      found := found.Then(piece);
      i := next;
    }
    assert FirstPass(content, parse, i) == Nothing;
  }

  /** The innermost loop of the fallback: the matches of one pattern for one tool. */
  method FindPatternCalls(content: string, parse: string -> Option<Json>, toolName: string, paren: bool)
    returns (found: Found)
    ensures found == MatchesPass(content, parse, toolName, paren, Finditer(content, toolName, paren))
  {
    var ms := Finditer(content, toolName, paren);
    found := FindMatchCalls(content, parse, toolName, paren, ms);
  }

  /** The calls of the matches `ms`, each object after its `{` decoded in turn. */
  method FindMatchCalls(content: string, parse: string -> Option<Json>, toolName: string, paren: bool, ms: seq<Span>)
    returns (found: Found)
    requires forall k :: 0 <= k < |ms| ==> 0 < ms[k].hi <= |content|
    ensures found == MatchesPass(content, parse, toolName, paren, ms)
  {
    found := Nothing;
    var k := 0;
    while k < |ms|
      invariant k <= |ms|
      invariant found == MatchesPass(content, parse, toolName, paren, ms[..k])
    {
      var m := ms[k];
      var braceStart := m.hi - 1;
      var jsonStr, endIdx := FindBalancedJson(content, braceStart);
      var piece := Nothing;
      if jsonStr.Some? {
        var args := parse(jsonStr.value);
        if args.Some? && args.value.JDict? {
          var matchEnd := endIdx;
          if paren && matchEnd < |content| && content[matchEnd] == ')' {
            matchEnd := matchEnd + 1;
          }
          piece := Found([ToolCall(toolName, args.value.fields)], [Span(m.lo, matchEnd)]);
        }
      }
      assert piece == MatchCall(content, parse, toolName, paren, m);
      assert ms[..k + 1][..k] == ms[..k];
      MatchesStep(content, parse, toolName, paren, ms[..k + 1]);
      found := found.Then(piece);
      k := k + 1;
    }
    assert ms[..k] == ms;
  }

  /** The calls of one tool, with both patterns. */
  method FindToolCalls(content: string, parse: string -> Option<Json>, toolName: string) returns (found: Found)
    ensures found == PatternsPass(content, parse, toolName, Patterns)
  {
    found := Nothing;
    var q := 0;
    while q < |Patterns|
      invariant q <= |Patterns|
      invariant found == PatternsPass(content, parse, toolName, Patterns[..q])
    {
      var more := FindPatternCalls(content, parse, toolName, Patterns[q]);
      assert Patterns[..q + 1][..q] == Patterns[..q];
      found := found.Then(more);
      q := q + 1;
    }
    assert Patterns[..q] == Patterns;
  }

  /** The fallback loops of `extract_json_tool_call`, over the tool names `tools`. */
  method FindCallStyle(content: string, parse: string -> Option<Json>, tools: seq<string>) returns (found: Found)
    ensures found == CallStylePass(content, parse, tools)
  {
    found := Nothing;
    var t := 0;
    while t < |tools|
      invariant t <= |tools|
      invariant found == CallStylePass(content, parse, tools[..t])
    {
      var more := FindToolCalls(content, parse, tools[t]);
      assert tools[..t + 1][..t] == tools[..t];
      found := found.Then(more);
      t := t + 1;
    }
    assert tools[..t] == tools;
  }

  /** The removal loop: the spans cut out last to first. */
  method CutSpans(content: string, spans: seq<Span>) returns (rest: string)
    ensures rest == Removed(content, spans)
  {
    var order := Reverse(SortSpans(spans));
    rest := content;
    var k := 0;
    while k < |order|
      invariant k <= |order|
      invariant rest == RemoveAll(content, order[..k])
    {
      rest := Cut(rest, order[k]);
      assert order[..k + 1][..k] == order[..k];
      k := k + 1;
    }
    assert order[..k] == order;
  }

  /** `extract_json_tool_call`. */
  method ExtractJsonToolCall(content: string, parse: string -> Option<Json>)
    returns (remaining: Option<string>, calls: seq<ToolCall>)
    ensures (remaining, calls) == ExtractSpec(content, parse)
  {
    var found := FindCallObjects(content, parse);
    if found.calls == [] {
      found := FindCallStyle(content, parse, KnownTools);
    }
    if found.calls != [] {
      var rest := CutSpans(content, found.spans);
      rest := Strip(rest);
      remaining := if rest == "" then None else Some(rest);
      calls := found.calls;
    } else {
      remaining := Some(content);
      calls := [];
    }
  }

  /** With no call found the text comes back untouched. */
  lemma NoCallsKeepsContent(content: string, parse: string -> Option<Json>)
    ensures ExtractSpec(content, parse).1 == [] ==> ExtractSpec(content, parse).0 == Some(content)
  {
  }

  /** Text without an opening brace holds no call. */
  lemma NoBraceNoCall(content: string, parse: string -> Option<Json>)
    requires '{' !in content
    ensures ExtractSpec(content, parse) == (Some(content), [])
  {
    FirstPassEmpty(content, parse, 0);
    NoBraceNoCallStyle(content, parse, KnownTools);
  }

  /**
   * When the first pass recognises an object, its calls are the result, the
   * fallback is not consulted, and the remaining text is what lies between
   * the objects, stripped.
   */
  lemma FirstPassResult(content: string, parse: string -> Option<Json>)
    requires FirstPass(content, parse, 0).calls != []
    ensures InOrder(FirstPass(content, parse, 0).spans, 0, |content|)
    ensures var f := FirstPass(content, parse, 0);
      var gaps := Strip(Gaps(content, f.spans, 0));
      ExtractSpec(content, parse) == (if gaps == "" then None else Some(gaps), f.calls)
  {
    FirstPassSound(content, parse, 0);
    RemovedIsGaps(content, FirstPass(content, parse, 0).spans);
  }

  /** When the first pass finds nothing, every reported call is named after a known tool. */
  lemma FallbackNames(content: string, parse: string -> Option<Json>)
    requires FirstPass(content, parse, 0).calls == []
    ensures forall k :: 0 <= k < |ExtractSpec(content, parse).1| ==> ExtractSpec(content, parse).1[k].name in KnownTools
  {
    CallStyleNames(content, parse, KnownTools);
  }
}
