/**
 * The session's todo list and the `todo_write` tool (src/claude_clone/tools/todo.py).
 * A status is kept as the string the tool was given, because the list stores
 * any status and only its display rejects an unknown one.
 */
module Todo {

  import opened Wrappers
  import opened Base
  import Text

  /** `TodoItem`. */
  datatype TodoItem = TodoItem(content: string, status: string, activeForm: string)

  /** A dictionary lookup that either gives a value or raises `KeyError` for `key`. */
  datatype Lookup<T> = Found(value: T) | KeyError(key: string)

  /** The display icon of a status, if it is one of the three the display knows. */
  function Icon(status: string): (r: Option<string>)
    ensures r.Some? <==> status in {"pending", "in_progress", "completed"}
  {
    if status == "pending" then Some("[ ]")
    else if status == "in_progress" then Some("[>]")
    else if status == "completed" then Some("[x]")
    else None
  }

  /** The display line of one item, or the `KeyError` its unknown status raises. */
  function ItemLine(t: TodoItem): Lookup<string> {
    match Icon(t.status)
    case None => KeyError(t.status)
    case Some(icon) => Found(icon + " " + t.content)
  }

  /** The display lines of `ts`, in order, or the error raised at the first unknown status. */
  function Lines(ts: seq<TodoItem>): Lookup<seq<string>>
    decreases |ts|
  {
    if ts == [] then Found([])
    else
      match Lines(ts[..|ts| - 1])
      case KeyError(k) => KeyError(k)
      case Found(ls) =>
        match ItemLine(ts[|ts| - 1])
        case KeyError(k) => KeyError(k)
        case Found(l) => Found(ls + [l])
  }

  /** Every status in `ts` has an icon. */
  predicate AllKnown(ts: seq<TodoItem>) {
    forall i :: 0 <= i < |ts| ==> Icon(ts[i].status).Some?
  }

  /**
   * The lines exist exactly when every status is known, and then line `i` is
   * item `i`'s icon and content; otherwise the error names the status of the
   * first item whose status is unknown.
   */
  lemma {:induction false} LinesSpec(ts: seq<TodoItem>)
    ensures Lines(ts).Found? <==> AllKnown(ts)
    ensures Lines(ts).Found? ==> |Lines(ts).value| == |ts|
    ensures Lines(ts).Found? ==>
      forall i :: 0 <= i < |ts| ==> Lines(ts).value[i] == Icon(ts[i].status).value + " " + ts[i].content
    ensures Lines(ts).KeyError? ==> exists j :: 0 <= j < |ts| && FirstUnknownAt(ts, j) && Lines(ts).key == ts[j].status
    decreases |ts|
  {
    if ts != [] {
      var init := ts[..|ts| - 1];
      LinesSpec(init);
      assert forall i :: 0 <= i < |init| ==> init[i] == ts[i];
      if Lines(init).KeyError? {
        var j :| 0 <= j < |init| && FirstUnknownAt(init, j) && Lines(init).key == init[j].status;
        assert FirstUnknownAt(ts, j);
      } else if Icon(ts[|ts| - 1].status).None? {
        assert FirstUnknownAt(ts, |ts| - 1);
      }
    }
  }

  /** Item `j` is the first whose status has no icon. */
  predicate FirstUnknownAt(ts: seq<TodoItem>, j: nat) {
    j < |ts| && Icon(ts[j].status).None? && forall i :: 0 <= i < j ==> Icon(ts[i].status).Some?
  }

  /** `format_display`: empty for an empty list, else the lines joined with newlines. */
  function Display(ts: seq<TodoItem>): (r: Lookup<string>)
    ensures ts == [] ==> r == Found("")
    ensures r.Found? <==> AllKnown(ts)
    ensures r.KeyError? ==> exists j :: 0 <= j < |ts| && FirstUnknownAt(ts, j) && r.key == ts[j].status
  {
    LinesSpec(ts);
    if ts == [] then Found("")
    else
      match Lines(ts)
      case KeyError(k) => KeyError(k)
      case Found(ls) => Found(Text.Join(ls, "\n"))
  }

  /** The number of items whose status is exactly `status`. */
  function CountStatus(ts: seq<TodoItem>, status: string): nat
    decreases |ts|
  {
    if ts == [] then 0
    else CountStatus(ts[..|ts| - 1], status) + (if ts[|ts| - 1].status == status then 1 else 0)
  }

  /** The counted items are the ones with that status; there are no more of them than items. */
  lemma {:induction false} CountStatusSpec(ts: seq<TodoItem>, status: string)
    ensures CountStatus(ts, status) <= |ts|
    ensures CountStatus(ts, status) == |set i | 0 <= i < |ts| && ts[i].status == status|
    decreases |ts|
  {
    var s := set i | 0 <= i < |ts| && ts[i].status == status;
    if ts != [] {
      var init := ts[..|ts| - 1];
      CountStatusSpec(init, status);
      var s0 := set i | 0 <= i < |init| && init[i].status == status;
      assert forall i :: 0 <= i < |init| ==> init[i] == ts[i];
      if ts[|ts| - 1].status == status {
        assert s == s0 + {|ts| - 1};
      } else {
        assert s == s0;
      }
    } else {
      assert s == {};
    }
  }

  /** A list never holds more pending and completed items together than items. */
  lemma {:induction false} PendingPlusCompleted(ts: seq<TodoItem>)
    ensures CountStatus(ts, "pending") + CountStatus(ts, "completed") <= |ts|
    decreases |ts|
  {
    if ts != [] {
      PendingPlusCompleted(ts[..|ts| - 1]);
    }
  }

  /** The position of the first in-progress item. */
  function ActiveIndex(ts: seq<TodoItem>, i: nat): (r: Option<nat>)
    requires i <= |ts|
    ensures r.Some? ==> i <= r.value < |ts| && ts[r.value].status == "in_progress"
    ensures r.Some? ==> forall j :: i <= j < r.value ==> ts[j].status != "in_progress"
    ensures r.None? <==> forall j :: i <= j < |ts| ==> ts[j].status != "in_progress"
    decreases |ts| - i
  {
    if i == |ts| then None
    else if ts[i].status == "in_progress" then Some(i)
    else ActiveIndex(ts, i + 1)
  }

  /** The first in-progress item, if any. */
  function Active(ts: seq<TodoItem>): Option<TodoItem> {
    match ActiveIndex(ts, 0)
    case None => None
    case Some(i) => Some(ts[i])
  }

  /** The summary after the display: the counts, then the active item's present-continuous form. */
  function Summary(ts: seq<TodoItem>): string {
    "\n\n" + Text.NatToString(CountStatus(ts, "completed")) + " completed, " +
    Text.NatToString(CountStatus(ts, "pending")) + " pending" +
    (match Active(ts) case None => "" case Some(a) => " | Currently: " + a.activeForm)
  }

  /**
   * The summary opens with a blank line and ends with the active item's
   * present-continuous form when an item is in progress, else with the
   * pending count.
   */
  lemma SummaryEnds(ts: seq<TodoItem>)
    ensures var r := Summary(ts); |r| >= 2 && r[..2] == "\n\n"
    ensures Active(ts).Some? ==> var r, tail := Summary(ts), " | Currently: " + Active(ts).value.activeForm;
      |tail| <= |r| && r[|r| - |tail|..] == tail
    ensures Active(ts).None? ==> var r := Summary(ts); |r| >= 8 && r[|r| - 8..] == " pending"
  {
  }

  /** `TodoManager`, as one explicit instance. */
  class TodoManager {
    var todos: seq<TodoItem>

    /** A new manager has an empty list. */
    constructor()
      ensures todos == []
    {
      todos := [];
    }

    /** `update`: the list is replaced as a whole. */
    method Update(items: seq<TodoItem>)
      modifies this
      ensures todos == items
    {
      todos := items;
    }

    /** `get_todos`: the stored list. */
    function GetTodos(): (r: seq<TodoItem>)
      reads this
      ensures r == todos
    {
      todos
    }

    /** `get_active`: the first item in progress, or none when no item is. */
    method GetActive() returns (r: Option<TodoItem>)
      ensures r.Some? ==> r.value.status == "in_progress" && r.value in todos
      ensures r.None? <==> forall j :: 0 <= j < |todos| ==> todos[j].status != "in_progress"
      ensures r == Active(todos)
    {
      var i := 0;
      while i < |todos|
        invariant i <= |todos|
        invariant ActiveIndex(todos, i) == ActiveIndex(todos, 0)
      {
        if todos[i].status == "in_progress" {
          return Some(todos[i]);
        }
        i := i + 1;
      }
      return None;
    }

    /** `get_pending_count`: the number of pending items. */
    function GetPendingCount(): (n: nat)
      reads this
      ensures n == |set i | 0 <= i < |todos| && todos[i].status == "pending"|
      ensures n <= |todos|
    {
      CountStatusSpec(todos, "pending");
      CountStatus(todos, "pending")
    }

    /** `get_completed_count`: the number of completed items. */
    function GetCompletedCount(): (n: nat)
      reads this
      ensures n == |set i | 0 <= i < |todos| && todos[i].status == "completed"|
      ensures n <= |todos|
    {
      CountStatusSpec(todos, "completed");
      CountStatus(todos, "completed")
    }

    /** `format_display`: the loop that builds the lines stops at the first unknown status. */
    method FormatDisplay() returns (r: Lookup<string>)
      ensures r == Display(todos)
    {
      if todos == [] {
        return Found("");
      }
      var lines: seq<string> := [];
      var k := 0;
      while k < |todos|
        invariant k <= |todos|
        invariant Lines(todos[..k]) == Found(lines)
      {
        assert todos[..k + 1][..k] == todos[..k];
        var line := ItemLine(todos[k]);
        if line.KeyError? {
          LinesAfterError(todos, k + 1);
          assert todos[..k + 1] + todos[k + 1..] == todos;
          return KeyError(line.key);
        }
        lines := lines + [line.value];
        k := k + 1;
      }
      assert todos[..k] == todos;
      return Found(Text.Join(lines, "\n"));
    }
  }

  /** Once an error was raised in a prefix, the whole list raises it. */
  lemma {:induction false} LinesAfterError(ts: seq<TodoItem>, k: nat)
    requires k <= |ts| && Lines(ts[..k]).KeyError?
    ensures Lines(ts) == Lines(ts[..k])
    decreases |ts| - k
  {
    if k < |ts| {
      assert ts[..k + 1][..k] == ts[..k];
      LinesAfterError(ts, k + 1);
    } else {
      assert ts[..k] == ts;
    }
  }

  /** One entry of the tool's `todos` argument; its values are taken to be strings. */
  type TodoInput = map<string, string>

  /** The three keys an entry must have, in the order the item constructor reads them. */
  function MissingKey(t: TodoInput): (r: Option<string>)
    ensures r.None? <==> "content" in t && "status" in t && "active_form" in t
  {
    if "content" !in t then Some("content")
    else if "status" !in t then Some("status")
    else if "active_form" !in t then Some("active_form")
    else None
  }

  /** The key whose lookup fails first when building the items, scanning the entries in order. */
  function FirstMissing(todos: seq<TodoInput>): (r: Option<string>)
    ensures r.None? <==> forall i :: 0 <= i < |todos| ==> MissingKey(todos[i]).None?
    ensures r.Some? ==>
      exists i :: 0 <= i < |todos| && MissingKey(todos[i]) == r && (forall j :: 0 <= j < i ==> MissingKey(todos[j]).None?)
    decreases |todos|
  {
    if todos == [] then None
    else if MissingKey(todos[0]).Some? then MissingKey(todos[0])
    else
      var r := FirstMissing(todos[1..]);
      assert forall i :: 0 <= i < |todos| - 1 ==> todos[1..][i] == todos[i + 1];
      r
  }

  /** The items built from entries that have all three keys. */
  function Items(todos: seq<TodoInput>): (items: seq<TodoItem>)
    requires FirstMissing(todos).None?
    ensures |items| == |todos|
    ensures forall i :: 0 <= i < |todos| ==>
      items[i] == TodoItem(todos[i]["content"], todos[i]["status"], todos[i]["active_form"])
  {
    seq(|todos|, i requires 0 <= i < |todos| =>
      assert MissingKey(todos[i]).None?;
      TodoItem(todos[i]["content"], todos[i]["status"], todos[i]["active_form"]))
  }

  /** The failure `execute` reports for a `KeyError` on `key`: Python shows the key quoted. */
  function MissingField(key: string): string {
    "Missing required field: '" + key + "'"
  }

  /**
   * `TodoWriteTool.execute`. A missing key fails before the list is touched.
   * An unknown status is stored first and only then fails, in the display,
   * with the same "Missing required field" message. Otherwise the output is
   * the display followed by the summary.
   */
  method Execute(manager: TodoManager, todos: seq<TodoInput>) returns (result: ToolResult)
    modifies manager
    ensures FirstMissing(todos).Some? ==>
      result == Fail(MissingField(FirstMissing(todos).value)) && manager.todos == old(manager.todos)
    ensures FirstMissing(todos).None? ==> manager.todos == Items(todos)
    ensures FirstMissing(todos).None? && Display(Items(todos)).KeyError? ==>
      result == Fail(MissingField(Display(Items(todos)).key))
    ensures FirstMissing(todos).None? && Display(Items(todos)).Found? ==>
      result == Ok(Display(Items(todos)).value + Summary(Items(todos)), map[])
  {
    var missing := FirstMissing(todos);
    if missing.Some? {
      return Fail(MissingField(missing.value));
    }
    manager.Update(Items(todos));
    var output := manager.FormatDisplay();
    if output.KeyError? {
      return Fail(MissingField(output.key));
    }
    var pending := manager.GetPendingCount();
    var completed := manager.GetCompletedCount();
    var active := manager.GetActive();
    assert pending == CountStatus(manager.todos, "pending") && completed == CountStatus(manager.todos, "completed");
    var summary := "\n\n" + Text.NatToString(completed) + " completed, " + Text.NatToString(pending) + " pending";
    if active.Some? {
      summary := summary + " | Currently: " + active.value.activeForm;
    }
    assert summary == Summary(manager.todos);
    result := Ok(output.value + summary, map[]);
  }

  /**
   * An entry set whose keys are all present but one of whose statuses is
   * unknown replaces the list and still fails, naming the first unknown status.
   */
  lemma UnknownStatusStoredThenFails(todos: seq<TodoInput>, j: nat)
    requires FirstMissing(todos).None?
    requires FirstUnknownAt(Items(todos), j)
    ensures Display(Items(todos)) == KeyError(todos[j]["status"])
  {
    var items := Items(todos);
    LinesSpec(items);
    assert !AllKnown(items);
    var j' :| 0 <= j' < |items| && FirstUnknownAt(items, j') && Lines(items).key == items[j'].status;
    assert j' == j;
  }
}
