/**
 * The text handling of the file tools (src/claude_clone/tools/file_ops.py):
 * the numbered window `read_file` shows, and the search-and-replace of
 * `edit_file` with its error reports. The file itself is given as what
 * reading it produced; the written content is returned instead of written.
 */
module FileOps {

  import opened Wrappers
  import opened Json
  import opened Base
  import opened Text

  /** What reading the file gave: it is missing, not a regular file, not UTF-8, or its text. */
  datatype FileRead = NotFound | NotAFile | Undecodable(size: nat) | Contents(text: string)

  // ---------------------------------------------------------------------------
  // read_file
  // ---------------------------------------------------------------------------

  /** A window from a non-negative offset is the lines from there on, at most `limit` of them. */
  lemma WindowFromOffset(lines: seq<string>, offset: int, limit: int)
    requires offset >= 0 && limit >= 0
    ensures var w := Slice(lines, offset, offset + limit);
      && |w| == (if offset >= |lines| then 0 else if offset + limit <= |lines| then limit else |lines| - offset)
      && forall k :: 0 <= k < |w| ==> w[k] == lines[offset + k]
  {
  }

  /** `f"{i:6}\t{line}"`. */
  function NumberedLine(i: int, line: string): string {
    PadLeft(IntToString(i), 6) + "\t" + line
  }

  /** The lines of `window` numbered consecutively from `first`. */
  function Numbered(window: seq<string>, first: int): (r: seq<string>)
    ensures |r| == |window|
  {
    NumberedBy(NumberedLine, window, first)
  }

  /** The lines of `window`, each rendered by `render` with its number counted from `first`. */
  function NumberedBy(render: (int, string) -> string, window: seq<string>, first: int): (r: seq<string>)
    ensures |r| == |window|
  {
    if window == [] then []
    else NumberedBy(render, window[..|window| - 1], first) + [render(first + |window| - 1, window[|window| - 1])]
  }

  /** Line `k` of the window is rendered with number `first + k`, whatever the rendering. */
  lemma {:induction false} NumberedBySpec(render: (int, string) -> string, window: seq<string>, first: int)
    ensures forall k :: 0 <= k < |window| ==> NumberedBy(render, window, first)[k] == render(first + k, window[k])
  {
    if window != [] {
      var init := window[..|window| - 1];
      NumberedBySpec(render, init, first);
      assert forall k :: 0 <= k < |init| ==> init[k] == window[k];
    }
  }

  /** Line `k` of the window is shown with number `first + k`. */
  lemma NumberedSpec(window: seq<string>, first: int)
    ensures forall k :: 0 <= k < |window| ==> Numbered(window, first)[k] == NumberedLine(first + k, window[k])
  {
    NumberedBySpec(NumberedLine, window, first);
  }

  /** The loop that numbers the selected lines, starting at `offset + 1`. */
  method FormatLines(selected: seq<string>, offset: int) returns (formatted: seq<string>)
    ensures formatted == Numbered(selected, offset + 1)
  {
    formatted := [];
    var k := 0;
    while k < |selected|
      invariant k <= |selected|
      invariant formatted == Numbered(selected[..k], offset + 1)
    {
      assert selected[..k + 1][..k] == selected[..k];
      formatted := formatted + [NumberedLine(offset + 1 + k, selected[k])];
      k := k + 1;
    }
    assert selected[..k] == selected;
  }

  /** The header is shown exactly when the window does not start at the top or stops before the end. */
  predicate ShowsHeader(offset: int, limit: int, total: nat) {
    offset > 0 || offset + limit < total
  }

  /** `[Showing lines a-b of n]`, with `b` the window's last line number, capped at the total. */
  function Header(offset: int, limit: int, total: nat): string {
    "[Showing lines " + IntToString(offset + 1) + "-" +
    IntToString(if offset + limit < total then offset + limit else total) +
    " of " + NatToString(total) + "]\n\n"
  }

  /** The text `read_file` shows for file text `content`. */
  function ReadOutput(content: string, offset: int, limit: int): string {
    var lines := SplitLines(content);
    var body := Join(Numbered(Slice(lines, offset, offset + limit), offset + 1), "\n");
    if ShowsHeader(offset, limit, |lines|) then Header(offset, limit, |lines|) + body else body
  }

  /** The result `read_file` gives for what reading the file produced. */
  function ReadResult(filePath: string, resolved: string, file: FileRead, offset: int, limit: int): (r: ToolResult)
    ensures r.success <==> file.Contents?
    ensures file.Contents? ==> "total_lines" in r.metadata && r.metadata["total_lines"] == JInt(|SplitLines(file.text)|)
    ensures file.Contents? ==> r.output == ReadOutput(file.text, offset, limit)
    ensures !file.Contents? ==> r.output == "" && r.error.Some?
  {
    match file
    case NotFound => Fail("File not found: " + filePath)
    case NotAFile => Fail("Not a file: " + filePath)
    case Undecodable(size) => Fail("Cannot read binary file: " + filePath + " (size: " + NatToString(size) + " bytes)")
    case Contents(text) =>
      Ok(ReadOutput(text, offset, limit),
         map["total_lines" := JInt(|SplitLines(text)|), "path" := JStr(resolved)])
  }

  /** `ReadFileTool.execute`. */
  method ReadFile(filePath: string, resolved: string, file: FileRead, offset: int, limit: int) returns (result: ToolResult)
    ensures result == ReadResult(filePath, resolved, file, offset, limit)
  {
    match file
    case NotFound => return Fail("File not found: " + filePath);
    case NotAFile => return Fail("Not a file: " + filePath);
    case Undecodable(size) =>
      return Fail("Cannot read binary file: " + filePath + " (size: " + NatToString(size) + " bytes)");
    case Contents(content) =>
      var lines := SplitLines(content);
      var total := |lines|;
      var selected := Slice(lines, offset, offset + limit);
      var formatted := FormatLines(selected, offset);
      var output := Join(formatted, "\n");
      if offset > 0 || offset + limit < total {
        output := Header(offset, limit, total) + output;
      }
      return Ok(output, map["total_lines" := JInt(total), "path" := JStr(resolved)]);
  }

  /** Reading a whole file from the top shows every line, numbered from 1, with no header. */
  lemma ReadWholeFile(content: string, limit: int)
    requires limit >= |SplitLines(content)|
    ensures ReadOutput(content, 0, limit) == Join(Numbered(SplitLines(content), 1), "\n")
  {
    var lines := SplitLines(content);
    assert Slice(lines, 0, limit) == lines;
  }

  // ---------------------------------------------------------------------------
  // edit_file
  // ---------------------------------------------------------------------------

  /** The 1-based numbers of the lines that contain `key`, in order. */
  function Matching(lines: seq<string>, key: string): seq<nat>
    decreases |lines|
  {
    if lines == [] then []
    else
      var init := Matching(lines[..|lines| - 1], key);
      if Contains(lines[|lines| - 1], key) then init + [|lines|] else init
  }

  /** The matching numbers are exactly the lines that contain the key, in increasing order. */
  lemma {:induction false} MatchingSpec(lines: seq<string>, key: string)
    ensures forall i :: i in Matching(lines, key) <==> 1 <= i <= |lines| && Contains(lines[i - 1], key)
    ensures forall a, b :: 0 <= a < b < |Matching(lines, key)| ==> Matching(lines, key)[a] < Matching(lines, key)[b]
    decreases |lines|
  {
    if lines != [] {
      var init := lines[..|lines| - 1];
      MatchingSpec(init, key);
      assert forall i :: 0 <= i < |init| ==> init[i] == lines[i];
      var m := Matching(init, key);
      assert forall a :: 0 <= a < |m| ==> m[a] in m;
    }
  }

  /** `"  Line {i}: {line[:80]}"`. */
  function SimilarLine(i: nat, line: string): string {
    "  Line " + NatToString(i) + ": " + Take(line, 80)
  }

  /** One entry per line that contains `key`, in order. */
  function SimilarIn(lines: seq<string>, key: string): seq<string>
    decreases |lines|
  {
    if lines == [] then []
    else
      var init := SimilarIn(lines[..|lines| - 1], key);
      if Contains(lines[|lines| - 1], key) then init + [SimilarLine(|lines|, lines[|lines| - 1])] else init
  }

  /** The entries are the matching lines, cut to 80 characters, each with its number. */
  lemma {:induction false} SimilarInSpec(lines: seq<string>, key: string)
    ensures var ms := Matching(lines, key);
      && |SimilarIn(lines, key)| == |ms|
      && forall k :: 0 <= k < |ms| ==> 1 <= ms[k] <= |lines| && SimilarIn(lines, key)[k] == SimilarLine(ms[k], lines[ms[k] - 1])
    decreases |lines|
  {
    if lines != [] {
      var n := |lines|;
      var init := lines[..n - 1];
      SimilarInSpec(init, key);
      var m0, s0 := Matching(init, key), SimilarIn(init, key);
      var ms, ss := Matching(lines, key), SimilarIn(lines, key);
      if Contains(lines[n - 1], key) {
        assert ms == m0 + [n] && ss == s0 + [SimilarLine(n, lines[n - 1])];
      } else {
        assert ms == m0 && ss == s0;
      }
      forall k | 0 <= k < |ms|
        ensures 1 <= ms[k] <= n && ss[k] == SimilarLine(ms[k], lines[ms[k] - 1])
      {
        if k < |m0| {
          assert ms[k] == m0[k] && ss[k] == s0[k];
          assert init[m0[k] - 1] == lines[m0[k] - 1];
        }
      }
    }
  }

  /** The similar-line entries: one per line containing the stripped first line of the old content. */
  function Similar(lines: seq<string>, firstLine: string): (r: seq<string>)
    ensures firstLine == "" ==> r == []
  {
    if firstLine == "" then [] else SimilarIn(lines, Strip(firstLine))
  }

  /** The loop that collects the similar lines. */
  method FindSimilar(lines: seq<string>, firstLine: string) returns (similar: seq<string>)
    ensures similar == Similar(lines, firstLine)
  {
    similar := [];
    var i := 0;
    while i < |lines|
      invariant i <= |lines|
      invariant similar == Similar(lines[..i], firstLine)
    {
      assert lines[..i + 1][..i] == lines[..i];
      if firstLine != "" && Contains(lines[i], Strip(firstLine)) {
        similar := similar + [SimilarLine(i + 1, lines[i])];
      }
      i := i + 1;
    }
    assert lines[..i] == lines;
  }

  /** The hint after "Content not found": at most the first three similar lines. */
  function Hint(similar: seq<string>): string {
    if similar == [] then ""
    else "\n\nSimilar lines found:\n" + Join(Take(similar, 3), "\n")
  }

  /** `old_content.splitlines()[0] if old_content else ""`. */
  function FirstLine(s: string): string {
    var ls := SplitLines(s);
    if s == [] then "" else ls[0]
  }

  /** The message for content that does not occur. */
  const NotFoundMessage: string :=
    "Content not found in file. Make sure old_content matches exactly, including whitespace and indentation."

  /** The message for content that occurs `count` times. */
  function ManyMessage(count: nat): string {
    "Found " + NatToString(count) + " occurrences of the content. " +
    "Please provide more context to make the match unique."
  }

  /** The report of a replacement. */
  function DiffInfo(oldContent: string, newContent: string): string {
    "Replaced " + NatToString(|SplitLines(oldContent)|) + " line(s) with " +
    NatToString(|SplitLines(newContent)|) + " line(s)"
  }

  /** What an edit of file text `content` reports, and the text it writes back, if any. */
  datatype Edit = Edit(result: ToolResult, written: Option<string>)

  /** `edit_file` on text `content`, as written: the uniqueness test is `str.count`. */
  function EditOutcome(filePath: string, resolved: string, content: string, oldContent: string, newContent: string): (e: Edit)
    ensures e.written.Some? <==> e.result.success
    ensures e.written.Some? ==> Contains(content, oldContent) && Count(content, oldContent) <= 1
    ensures e.written.Some? ==> e.written.value == ReplaceFirst(content, oldContent, newContent)
  {
    if !Contains(content, oldContent) then
      Edit(Fail(NotFoundMessage + Hint(Similar(SplitLines(content), FirstLine(oldContent)))), None)
    else if Count(content, oldContent) > 1 then
      Edit(Fail(ManyMessage(Count(content, oldContent))), None)
    else
      Edit(Ok("File edited: " + filePath + "\n" + DiffInfo(oldContent, newContent), map["path" := JStr(resolved)]),
           Some(ReplaceFirst(content, oldContent, newContent)))
  }

  /**
   * `EditFileTool.execute`, with the uniqueness test counting every position
   * where the old content occurs (see `EditOutcomeUnique`).
   */
  method EditFile(filePath: string, resolved: string, file: FileRead, oldContent: string, newContent: string)
    returns (result: ToolResult, written: Option<string>)
    ensures file.NotFound? ==> result == Fail("File not found: " + filePath) && written == None
    ensures file.NotAFile? ==> result == Fail("Not a file: " + filePath) && written == None
    ensures file.Undecodable? ==> result == Fail("Cannot edit binary file: " + filePath) && written == None
    ensures file.Contents? ==>
      Edit(result, written) == EditOutcomeUnique(filePath, resolved, file.text, oldContent, newContent)
  {
    written := None;
    match file
    case NotFound => return Fail("File not found: " + filePath), None;
    case NotAFile => return Fail("Not a file: " + filePath), None;
    case Undecodable(_) => return Fail("Cannot edit binary file: " + filePath), None;
    case Contents(content) =>
      if !Contains(content, oldContent) {
        var lines := SplitLines(content);
        var firstLine := if oldContent != "" then SplitLines(oldContent)[0] else "";
        var similar := FindSimilar(lines, firstLine);
        var hint := "";
        if similar != [] {
          hint := "\n\nSimilar lines found:\n" + Join(Take(similar, 3), "\n");
        }
        return Fail(NotFoundMessage + hint), None;
      }
      var count := PositionsFrom(content, oldContent, 0);
      if count > 1 {
        return Fail(ManyMessage(count)), None;
      }
      var updated := ReplaceFirst(content, oldContent, newContent);
      var info := DiffInfo(oldContent, newContent);
      return Ok("File edited: " + filePath + "\n" + info, map["path" := JStr(resolved)]), Some(updated);
  }

  /** Content that does not occur is reported with at most three similar lines, and nothing is written. */
  lemma EditNotFound(filePath: string, resolved: string, content: string, oldContent: string, newContent: string)
    requires !Contains(content, oldContent)
    ensures var e := EditOutcome(filePath, resolved, content, oldContent, newContent);
      && !e.result.success && e.written == None
      && e.result.error.value[..|NotFoundMessage|] == NotFoundMessage
  {
  }

  /** Content that occurs more than once is refused with its count, and nothing is written. */
  lemma EditAmbiguous(filePath: string, resolved: string, content: string, oldContent: string, newContent: string)
    requires Count(content, oldContent) > 1
    ensures EditOutcome(filePath, resolved, content, oldContent, newContent) ==
      Edit(Fail(ManyMessage(Count(content, oldContent))), None)
  {
    ContainsIffCounted(content, oldContent);
  }

  /**
   * An edit that writes replaces the first occurrence and nothing else: the
   * text before it and after it is kept, and `new_content` sits in between.
   */
  lemma EditReplacesFirst(filePath: string, resolved: string, content: string, oldContent: string, newContent: string)
    requires EditOutcome(filePath, resolved, content, oldContent, newContent).written.Some?
    ensures var i := FindFrom(content, oldContent, 0).value;
      && OccursAt(content, oldContent, i)
      && (forall k :: 0 <= k < i ==> !OccursAt(content, oldContent, k))
      && Count(content, oldContent) == 1
      && EditOutcome(filePath, resolved, content, oldContent, newContent).written.value ==
         content[..i] + newContent + content[i + |oldContent|..]
  {
    ContainsIffCounted(content, oldContent);
  }

  // ---------------------------------------------------------------------------
  // Overlapping occurrences
  // ---------------------------------------------------------------------------

  /** The number of positions from `i` on where `p` occurs, overlapping ones included. */
  function PositionsFrom(s: string, p: string, i: nat): nat
    requires i <= |s| + 1
    decreases |s| + 1 - i
  {
    if i > |s| then 0
    else (if OccursAt(s, p, i) then 1 else 0) + PositionsFrom(s, p, i + 1)
  }

  /** `count` ignores an overlapping second match: `"aa"` occurs twice in `"aaa"`, yet is counted once and replaced. */
  lemma OverlappingMatchAccepted()
    ensures OccursAt("aaa", "aa", 0) && OccursAt("aaa", "aa", 1)
    ensures Count("aaa", "aa") == 1
    ensures EditOutcome("f", "/f", "aaa", "aa", "b").written == Some("ba")
  {
    assert "aaa"[0..2] == "aa" && "aaa"[1..3] == "aa";
    assert FindFrom("aaa", "aa", 0) == Some(0);
    assert CountFrom("aaa", "aa", 2) == 0;
    assert CountFrom("aaa", "aa", 0) == 1;
    assert "aaa"[2..] == "a" && "aaa"[..0] == "";
    assert Contains("aaa", "aa") && Count("aaa", "aa") == 1;
    assert ReplaceFirst("aaa", "aa", "b") == "" + "b" + "a" == "ba";
  }

  /** `edit_file` with the uniqueness test counting every position: it writes only for a single match. */
  function EditOutcomeUnique(filePath: string, resolved: string, content: string, oldContent: string, newContent: string): Edit {
    var positions := PositionsFrom(content, oldContent, 0);
    if !Contains(content, oldContent) then
      Edit(Fail(NotFoundMessage + Hint(Similar(SplitLines(content), FirstLine(oldContent)))), None)
    else if positions > 1 then
      Edit(Fail(ManyMessage(positions)), None)
    else
      Edit(Ok("File edited: " + filePath + "\n" + DiffInfo(oldContent, newContent), map["path" := JStr(resolved)]),
           Some(ReplaceFirst(content, oldContent, newContent)))
  }

  /** A single counted position from `i` at `j` means no other position from `i` matches. */
  lemma {:induction false} OnePosition(s: string, p: string, i: nat, j: nat)
    requires i <= j <= |s| && OccursAt(s, p, j) && PositionsFrom(s, p, i) == 1
    ensures forall k :: i <= k <= |s| && k != j ==> !OccursAt(s, p, k)
    decreases |s| + 1 - i
  {
    if i < j {
      if OccursAt(s, p, i) {
        PositionsAtLeastOne(s, p, i + 1, j);
      } else {
        OnePosition(s, p, i + 1, j);
      }
    } else {
      NoPositions(s, p, i + 1);
    }
  }

  /** A match at `j` is counted from any `i` up to `j`. */
  lemma {:induction false} PositionsAtLeastOne(s: string, p: string, i: nat, j: nat)
    requires i <= j <= |s| && OccursAt(s, p, j)
    ensures PositionsFrom(s, p, i) >= 1
    decreases j - i
  {
    if i < j {
      PositionsAtLeastOne(s, p, i + 1, j);
    }
  }

  /** No counted position means no match. */
  lemma {:induction false} NoPositions(s: string, p: string, i: nat)
    requires i <= |s| + 1 && PositionsFrom(s, p, i) == 0
    ensures forall k :: i <= k <= |s| ==> !OccursAt(s, p, k)
    decreases |s| + 1 - i
  {
    if i <= |s| {
      NoPositions(s, p, i + 1);
    }
  }

  /** With every position counted, an edit writes only when the old content occurs at exactly one position. */
  lemma EditUniqueWritesSingleMatch(filePath: string, resolved: string, content: string, oldContent: string, newContent: string)
    requires EditOutcomeUnique(filePath, resolved, content, oldContent, newContent).written.Some?
    ensures var i := FindFrom(content, oldContent, 0).value;
      && OccursAt(content, oldContent, i)
      && (forall k :: 0 <= k <= |content| && k != i ==> !OccursAt(content, oldContent, k))
      && EditOutcomeUnique(filePath, resolved, content, oldContent, newContent).written.value ==
         content[..i] + newContent + content[i + |oldContent|..]
  {
    UniqueWritten(filePath, resolved, content, oldContent, newContent);
    SinglePosition(content, oldContent);
  }

  /** An edit that writes passed both tests and splices the new content in at the first occurrence. */
  lemma UniqueWritten(filePath: string, resolved: string, content: string, oldContent: string, newContent: string)
    requires EditOutcomeUnique(filePath, resolved, content, oldContent, newContent).written.Some?
    ensures Contains(content, oldContent) && PositionsFrom(content, oldContent, 0) <= 1
    ensures var i := FindFrom(content, oldContent, 0).value;
      EditOutcomeUnique(filePath, resolved, content, oldContent, newContent).written.value ==
      content[..i] + newContent + content[i + |oldContent|..]
  {
  }

  /** Found content with at most one counted position occurs only where `find` finds it. */
  lemma SinglePosition(s: string, p: string)
    requires Contains(s, p) && PositionsFrom(s, p, 0) <= 1
    ensures var i := FindFrom(s, p, 0).value;
      && OccursAt(s, p, i)
      && (forall k :: 0 <= k <= |s| && k != i ==> !OccursAt(s, p, k))
  {
    var i := FindFrom(s, p, 0).value;
    PositionsAtLeastOne(s, p, 0, i);
    OnePosition(s, p, 0, i);
  }

  /** Without a match no position is counted. */
  lemma {:induction false} NoMatchNoPositions(s: string, p: string, i: nat)
    requires i <= |s| + 1 && forall k :: i <= k <= |s| ==> !OccursAt(s, p, k)
    ensures PositionsFrom(s, p, i) == 0
    decreases |s| + 1 - i
  {
    if i <= |s| {
      NoMatchNoPositions(s, p, i + 1);
    }
  }

  /** Content found at more than one position is refused with that number of positions, and nothing is written. */
  lemma EditUniqueAmbiguous(filePath: string, resolved: string, content: string, oldContent: string, newContent: string)
    requires PositionsFrom(content, oldContent, 0) > 1
    ensures EditOutcomeUnique(filePath, resolved, content, oldContent, newContent) ==
      Edit(Fail(ManyMessage(PositionsFrom(content, oldContent, 0))), None)
  {
    if !Contains(content, oldContent) {
      NoMatchNoPositions(content, oldContent, 0);
    }
  }

  /** The corrected test refuses the overlapping example. */
  lemma OverlappingMatchRefused()
    ensures EditOutcomeUnique("f", "/f", "aaa", "aa", "b").written == None
  {
    assert "aaa"[0..2] == "aa" && "aaa"[1..3] == "aa";
    assert FindFrom("aaa", "aa", 0) == Some(0);
    assert OccursAt("aaa", "aa", 0) && OccursAt("aaa", "aa", 1);
    PositionsAtLeastOne("aaa", "aa", 1, 1);
    assert PositionsFrom("aaa", "aa", 0) >= 2;
  }
}
