/**
 * The tool registry (src/claude_clone/tools/registry.py): tools keyed by
 * name in a dictionary that remembers the order names were first added.
 * A tool is described by its `ToolInfo`; what its `execute` does is an
 * oracle that either returns a result or raises.
 */
module Registry {

  import opened Wrappers
  import opened Json
  import opened Base
  import Extractor

  /** What a tool's `execute` coroutine did: returned a result, or raised an exception with this message. */
  datatype Outcome = Returned(result: ToolResult) | Raised(message: string)

  /** The tools' behaviour: the outcome of running the tool `name` with `arguments`. */
  type Runner = (string, map<string, Json>) -> Outcome

  /** The names of the default tools, in the order `register_default_tools` registers them. */
  const DefaultToolNames: seq<string> := [
    "read_file", "write_file", "edit_file",
    "grep", "glob",
    "bash",
    "git_status", "git_diff", "git_commit", "git_log", "git_branch",
    "web_search", "web_fetch",
    "todo_write",
    "create_plan"]

  /** No name occurs twice in `names`. */
  predicate Distinct(names: seq<string>) {
    forall i, j :: 0 <= i < j < |names| ==> names[i] != names[j]
  }

  /** `ToolRegistry`. */
  class ToolRegistry {
    /** The `_tools` dictionary ... */
    var tools: map<string, ToolInfo>
    /** ... and its key order. */
    var order: seq<string>

    /** The key order lists every key once and nothing else, and each tool sits under its own name. */
    ghost predicate Valid()
      reads this
    {
      && Distinct(order)
      && (forall n :: n in tools <==> n in order)
      && (forall n :: n in tools ==> tools[n].name == n)
    }

    /** A new registry holds no tool. */
    constructor()
      ensures Valid() && tools == map[] && order == []
    {
      tools := map[];
      order := [];
    }

    /**
     * `register`: the tool is stored under its name. A name seen before keeps
     * its place and the new tool replaces the old one; a new name goes last.
     */
    method Register(tool: ToolInfo)
      requires Valid()
      modifies this
      ensures Valid()
      ensures tools == old(tools)[tool.name := tool]
      ensures order == if tool.name in old(tools) then old(order) else old(order) + [tool.name]
    {
      if tool.name !in tools {
        order := order + [tool.name];
      }
      tools := tools[tool.name := tool];
    }

    /** `get`. */
    function Get(name: string): (r: Option<ToolInfo>)
      reads this
      ensures r.Some? <==> name in tools
      ensures r.Some? ==> r.value == tools[name]
    {
      if name in tools then Some(tools[name]) else None
    }

    /** `get_all`: one tool per registered name, in first-registration order. */
    function GetAll(): (r: seq<ToolInfo>)
      requires Valid()
      reads this
      ensures |r| == |order|
      ensures forall i :: 0 <= i < |order| ==> r[i] == tools[order[i]] && r[i].name == order[i]
    {
      var names, table := order, tools;
      assert forall i :: 0 <= i < |names| ==> names[i] in table;
      seq(|names|, i requires 0 <= i < |names| => table[names[i]])
    }

    /** `get_schemas`: each registered tool's schema, in the same order. */
    function GetSchemas(): (r: seq<Json>)
      requires Valid()
      reads this
      ensures |r| == |order|
      ensures forall i :: 0 <= i < |order| ==> r[i] == ToSchema(GetAll()[i])
      ensures forall i :: 0 <= i < |order| ==> At(r[i], ["function", "name"]) == Some(JStr(order[i]))
    {
      var all := GetAll();
      seq(|all|, i requires 0 <= i < |all| => ToSchema(all[i]))
    }

    /**
     * `execute`: an unknown name fails without running anything; a tool that
     * raises becomes a failure; otherwise the tool's own result is returned.
     */
    method Execute(name: string, arguments: map<string, Json>, run: Runner) returns (result: ToolResult)
      ensures name !in tools ==> result == Fail("Unknown tool: " + name)
      ensures name in tools && run(name, arguments).Returned? ==> result == run(name, arguments).result
      ensures name in tools && run(name, arguments).Raised? ==>
        result == Fail("Tool execution failed: " + run(name, arguments).message)
    {
      var tool := Get(name);
      if tool.None? {
        return Fail("Unknown tool: " + name);
      }
      var outcome := run(name, arguments);
      match outcome
      case Returned(r) => result := r;
      case Raised(e) => result := Fail("Tool execution failed: " + e);
    }

    /** Registering `ts` one after the other, as the sequence of `register` calls it is. */
    method RegisterAll(ts: seq<ToolInfo>)
      requires Valid()
      modifies this
      ensures Valid()
      ensures tools == Stored(old(tools), ts)
      ensures order == Ordered(old(order), old(tools), ts)
    {
      var k := 0;
      while k < |ts|
        invariant k <= |ts| && Valid()
        invariant tools == Stored(old(tools), ts[..k])
        invariant order == Ordered(old(order), old(tools), ts[..k])
      {
        assert ts[..k + 1][..k] == ts[..k];
        Register(ts[k]);
        k := k + 1;
      }
      assert ts[..k] == ts;
    }

    /**
     * `register_default_tools`: its fifteen `register` calls, with the tools
     * in the same order; their descriptions and parameters are not part of
     * this model. Names registered before keep their place.
     */
    method RegisterDefaultTools(defaults: seq<ToolInfo>)
      requires Valid()
      requires NamesOf(defaults) == DefaultToolNames
      modifies this
      ensures Valid()
      ensures forall n :: n in tools <==> n in old(tools) || n in DefaultToolNames
      ensures forall i :: 0 <= i < |defaults| ==> tools[DefaultToolNames[i]] == defaults[i]
      ensures forall n :: n in old(tools) && n !in DefaultToolNames ==> tools[n] == old(tools)[n]
      ensures old(order) <= order
      ensures old(tools) == map[] ==> order == DefaultToolNames
    {
      assert order != [] ==> order[0] in tools;
      DefaultNamesDistinct();
      StoredSpec(tools, defaults);
      OrderedExtends(order, tools, defaults);
      if tools == map[] {
        OrderedFromEmpty(defaults);
      }
      RegisterAll(defaults);
    }
  }

  /** The names of `ts`, in order. */
  function NamesOf(ts: seq<ToolInfo>): (names: seq<string>)
    ensures |names| == |ts| && forall i :: 0 <= i < |ts| ==> names[i] == ts[i].name
  {
    seq(|ts|, i requires 0 <= i < |ts| => ts[i].name)
  }

  /** The tools after registering `ts` into `tools`: each is stored under its name, later ones replacing earlier. */
  function Stored(tools: map<string, ToolInfo>, ts: seq<ToolInfo>): map<string, ToolInfo>
  {
    if ts == [] then tools
    else Stored(tools, ts[..|ts| - 1])[ts[|ts| - 1].name := ts[|ts| - 1]]
  }

  /** The key order after registering `ts`: only names not stored yet are appended. */
  function Ordered(order: seq<string>, tools: map<string, ToolInfo>, ts: seq<ToolInfo>): seq<string>
  {
    if ts == [] then order
    else
      var init, last := ts[..|ts| - 1], ts[|ts| - 1];
      var before := Ordered(order, tools, init);
      if last.name in Stored(tools, init) then before else before + [last.name]
  }

  /**
   * Registering tools with distinct names adds exactly their names, stores
   * each under its own name and leaves every other name's tool alone.
   */
  lemma {:induction false} StoredSpec(tools: map<string, ToolInfo>, ts: seq<ToolInfo>)
    requires Distinct(NamesOf(ts))
    ensures forall n :: n in Stored(tools, ts) <==> n in tools || n in NamesOf(ts)
    ensures forall i :: 0 <= i < |ts| ==> Stored(tools, ts)[ts[i].name] == ts[i]
    ensures forall n :: n in tools && n !in NamesOf(ts) ==> Stored(tools, ts)[n] == tools[n]
  {
    if ts != [] {
      var init, last := ts[..|ts| - 1], ts[|ts| - 1];
      assert forall i :: 0 <= i < |init| ==> NamesOf(init)[i] == NamesOf(ts)[i];
      StoredSpec(tools, init);
      assert NamesOf(ts) == NamesOf(init) + [last.name];
      assert last.name !in NamesOf(init);
    }
  }

  /** Registering never moves or drops a name already in the order. */
  lemma {:induction false} OrderedExtends(order: seq<string>, tools: map<string, ToolInfo>, ts: seq<ToolInfo>)
    ensures order <= Ordered(order, tools, ts)
  {
    if ts != [] {
      OrderedExtends(order, tools, ts[..|ts| - 1]);
    }
  }

  /** Registering tools with distinct names into an empty registry orders them as given. */
  lemma {:induction false} OrderedFromEmpty(ts: seq<ToolInfo>)
    requires Distinct(NamesOf(ts))
    ensures Ordered([], map[], ts) == NamesOf(ts)
  {
    if ts != [] {
      var init, last := ts[..|ts| - 1], ts[|ts| - 1];
      assert forall i :: 0 <= i < |init| ==> NamesOf(init)[i] == NamesOf(ts)[i];
      OrderedFromEmpty(init);
      StoredSpec(map[], init);
      assert NamesOf(ts) == NamesOf(init) + [last.name];
      assert last.name !in NamesOf(init);
    }
  }

  /** No default tool name is registered twice. */
  lemma DefaultNamesDistinct()
    ensures Distinct(DefaultToolNames)
  {
  }

  /** The default tools are exactly the names the text tool-call extractor recognises. */
  lemma DefaultToolsAreKnown()
    ensures |DefaultToolNames| == |Extractor.KnownTools|
    ensures forall n :: n in DefaultToolNames <==> n in Extractor.KnownTools
  {
  }
}
