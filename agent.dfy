/**
 * The agent's turn loop (src/claude_clone/core/agent.py). The model's
 * replies, the user's answers to confirmation questions and the tools'
 * results come from `Oracles`, indexed by how many of each the turn has
 * consumed so far.
 */
module AgentLoop {

  import opened Wrappers
  import opened Json
  import opened Messages
  import opened Provider
  import opened Base
  import opened Config
  import Text

  // ---------------------------------------------------------------------
  // Confirmation policy
  // ---------------------------------------------------------------------

  /** Shell commands that run without confirmation. */
  const SafeCommands: seq<string> := [
    "ls", "cat", "head", "tail", "grep", "find", "pwd", "echo",
    "which", "type", "file", "wc", "du", "df", "date", "whoami",
    "uname", "env", "printenv", "test", "["]

  /** `arguments.get("command", "")`; a value that is not a string reads as `""`. */
  function CommandOf(arguments: map<string, Json>): (r: string)
    ensures "command" in arguments && arguments["command"].JStr? ==> r == arguments["command"].s
    ensures r != "" ==> "command" in arguments && arguments["command"] == JStr(r)
  {
    if "command" in arguments && arguments["command"].JStr? then arguments["command"].s else ""
  }

  /** `_requires_confirmation`. */
  function RequiresConfirmation(settings: Settings, toolName: string, arguments: map<string, Json>): (r: bool)
    ensures r ==> toolName in {"write_file", "edit_file", "git_commit", "bash"}
    ensures r && toolName == "bash" ==> settings.confirmCommands
    ensures r && toolName != "bash" ==> settings.confirmWrites
  {
    if (toolName == "write_file" || toolName == "edit_file") && settings.confirmWrites then true
    else if toolName == "bash" && settings.confirmCommands then
      Text.FirstWord(CommandOf(arguments)) !in SafeCommands
    else if toolName == "git_commit" && settings.confirmWrites then true
    else false
  }

  /**
   * Writes and commits follow `confirm_writes`; a shell command follows
   * `confirm_commands` unless its first word is a safe command, so an empty
   * command needs confirmation; no other tool ever asks.
   */
  lemma ConfirmationPolicy(settings: Settings, toolName: string, arguments: map<string, Json>)
    ensures toolName in {"write_file", "edit_file", "git_commit"} ==>
      RequiresConfirmation(settings, toolName, arguments) == settings.confirmWrites
    ensures toolName == "bash" ==> (RequiresConfirmation(settings, toolName, arguments) <==>
      settings.confirmCommands && Text.FirstWord(CommandOf(arguments)) !in SafeCommands)
    ensures toolName !in {"write_file", "edit_file", "git_commit", "bash"} ==>
      !RequiresConfirmation(settings, toolName, arguments)
    ensures toolName == "bash" && settings.confirmCommands && Text.FirstWord(CommandOf(arguments)) == "" ==>
      RequiresConfirmation(settings, toolName, arguments)
  {
    assert "" !in SafeCommands;
  }

  // ---------------------------------------------------------------------
  // The turn, as a specification
  // ---------------------------------------------------------------------

  /**
   * What the loop consults: `respond(r)` is the model's reply to the r-th
   * request of the turn, `confirm(c)` the user's answer to the c-th
   * confirmation question, `execute(e)` the registry's result for the e-th
   * tool executed.
   */
  datatype Oracles = Oracles(respond: nat -> seq<ChatChunk>, confirm: nat -> bool, execute: nat -> ToolResult)

  /**
   * The state of a turn: the conversation, the conversation as sent with each
   * model request, the tool calls executed, the confirmation questions asked,
   * and whether a final reply has arrived.
   */
  datatype Progress = Progress(
    messages: seq<Message>,
    requests: seq<seq<Message>>,
    executed: seq<ToolCall>,
    asked: nat,
    finished: bool)

  const MaxIterations: nat := 10

  const DeclinedText: string := "User declined to execute this tool."

  /** Python's `f"{error}"` of an optional error. */
  function ErrorText(error: Option<string>): string {
    if error.Some? then error.value else "None"
  }

  /** The content of the tool message for a result. */
  function ResultText(r: ToolResult): string {
    if r.success then r.output else "Error: " + ErrorText(r.error)
  }

  /** The call `tc` is refused: it needs confirmation and the user says no. */
  predicate Declines(settings: Settings, o: Oracles, p: Progress, tc: ToolCall) {
    RequiresConfirmation(settings, tc.name, tc.arguments) && !o.confirm(p.asked)
  }

  /**
   * One call of the inner loop: exactly one tool message is appended; a
   * declined call is never executed, any other call is executed and its result
   * reported.
   */
  function ToolStep(settings: Settings, o: Oracles, p: Progress, tc: ToolCall): (q: Progress)
    ensures |q.messages| == |p.messages| + 1 && q.messages[..|p.messages|] == p.messages
    ensures q.messages[|p.messages|].role == "tool"
    ensures Declines(settings, o, p, tc) ==> q.executed == p.executed && q.messages[|p.messages|].content == DeclinedText
    ensures !Declines(settings, o, p, tc) ==>
      q.executed == p.executed + [tc] && q.messages[|p.messages|].content == ResultText(o.execute(|p.executed|))
    ensures q.requests == p.requests && q.finished == p.finished
  {
    var asks := RequiresConfirmation(settings, tc.name, tc.arguments);
    var asked := if asks then p.asked + 1 else p.asked;
    if asks && !o.confirm(p.asked) then
      p.(messages := p.messages + [Plain("tool", DeclinedText)], asked := asked)
    else
      var result := o.execute(|p.executed|);
      p.(messages := p.messages + [Plain("tool", ResultText(result))], executed := p.executed + [tc], asked := asked)
  }

  /** The inner loop over `calls`, in order. */
  function ToolSteps(settings: Settings, o: Oracles, p: Progress, calls: seq<ToolCall>): (q: Progress)
    ensures q.requests == p.requests && q.finished == p.finished
    ensures p.asked <= q.asked <= p.asked + |calls|
    decreases |calls|
  {
    if calls == [] then p else ToolStep(settings, o, ToolSteps(settings, o, p, calls[..|calls| - 1]), calls[|calls| - 1])
  }

  /** The inner loop appends one tool message per call and nothing else, and executes at most every call. */
  lemma {:induction false} ToolStepsShape(settings: Settings, o: Oracles, p: Progress, calls: seq<ToolCall>)
    ensures var q := ToolSteps(settings, o, p, calls);
      && |q.messages| == |p.messages| + |calls| && q.messages[..|p.messages|] == p.messages
      && (forall k :: |p.messages| <= k < |q.messages| ==> q.messages[k].role == "tool")
      && |p.executed| <= |q.executed| <= |p.executed| + |calls|
      && q.requests == p.requests && q.finished == p.finished
    decreases |calls|
  {
    if calls != [] {
      var front := ToolSteps(settings, o, p, calls[..|calls| - 1]);
      ToolStepsShape(settings, o, p, calls[..|calls| - 1]);
      var q := ToolStep(settings, o, front, calls[|calls| - 1]);
      assert q.messages[..|front.messages|] == front.messages;
      assert q.messages[..|p.messages|] == front.messages[..|p.messages|];
    }
  }

  /** The assistant message that carries a reply's tool calls. */
  function CallingMessage(content: string, calls: seq<ToolCall>): Message {
    Message("assistant", content, Some(calls), None)
  }

  /** One iteration of the outer loop: a model request, then either the tool calls or the final reply. */
  function Iterate(settings: Settings, o: Oracles, p: Progress): Progress {
    var reply := o.respond(|p.requests|);
    var sent := p.(requests := p.requests + [p.messages]);
    var content := ReplyText(reply);
    var calls := ReplyCalls(reply);
    if calls != [] then
      ToolSteps(settings, o, sent.(messages := sent.messages + [CallingMessage(content, calls)]), calls)
    else
      sent.(messages := if content != "" then sent.messages + [Plain("assistant", content)] else sent.messages,
            finished := true)
  }

  /** One iteration makes exactly one request, with the conversation as it stood, and only appends. */
  lemma IterateGrowsAt(settings: Settings, o: Oracles, p: Progress)
    ensures Iterate(settings, o, p).requests == p.requests + [p.messages]
    ensures p.messages <= Iterate(settings, o, p).messages
  {
    var reply := o.respond(|p.requests|);
    var calls := ReplyCalls(reply);
    if calls != [] {
      var sent := p.(requests := p.requests + [p.messages]);
      var start := sent.(messages := sent.messages + [CallingMessage(ReplyText(reply), calls)]);
      ToolStepsShape(settings, o, start, calls);
      var q := ToolSteps(settings, o, start, calls);
      assert q.messages[..|p.messages|] == start.messages[..|p.messages|];
    }
  }

  /** A reply with calls adds the calling message and one tool message per call, and the turn goes on. */
  lemma IterateWithCalls(settings: Settings, o: Oracles, p: Progress)
    requires ReplyCalls(o.respond(|p.requests|)) != []
    ensures var reply := o.respond(|p.requests|);
      var q := Iterate(settings, o, p);
      && q.finished == p.finished
      && |q.messages| == |p.messages| + 1 + |ReplyCalls(reply)|
      && q.messages[|p.messages|] == CallingMessage(ReplyText(reply), ReplyCalls(reply))
      && forall k :: |p.messages| < k < |q.messages| ==> q.messages[k].role == "tool"
  {
    var reply := o.respond(|p.requests|);
    var calls := ReplyCalls(reply);
    var sent := p.(requests := p.requests + [p.messages]);
    var start := sent.(messages := sent.messages + [CallingMessage(ReplyText(reply), calls)]);
    ToolStepsShape(settings, o, start, calls);
    var q := ToolSteps(settings, o, start, calls);
    assert q.messages[|p.messages|] == start.messages[|p.messages|];
  }

  /** A reply without calls adds its text as an assistant message, if it has any, and ends the turn. */
  lemma IterateFinal(settings: Settings, o: Oracles, p: Progress)
    requires ReplyCalls(o.respond(|p.requests|)) == []
    ensures var text := ReplyText(o.respond(|p.requests|));
      var q := Iterate(settings, o, p);
      && q.finished
      && q.messages == p.messages + (if text != "" then [Plain("assistant", text)] else [])
  {
  }

  /** At most `n` applications of `step`, stopping at the first finished state. */
  function RunBy(step: Progress -> Progress, p: Progress, n: nat): Progress
    decreases n
  {
    if n == 0 then p
    else
      var q := RunBy(step, p, n - 1);
      if q.finished then q else step(q)
  }

  /** Once the turn is over, further iterations change nothing. */
  lemma {:induction false} RunByStops(step: Progress -> Progress, p: Progress, n: nat, m: nat)
    requires n <= m && RunBy(step, p, n).finished
    ensures RunBy(step, p, m) == RunBy(step, p, n)
    decreases m - n
  {
    if n < m {
      RunByStops(step, p, n, m - 1);
    }
  }

  /** Running `n` iterations and then `m` more is running `n + m`. */
  lemma {:induction false} RunByFrom(step: Progress -> Progress, p: Progress, n: nat, m: nat)
    ensures RunBy(step, RunBy(step, p, n), m) == RunBy(step, p, n + m)
    decreases m
  {
    if m > 0 {
      RunByFrom(step, p, n, m - 1);
    }
  }

  /** A step makes one request with the current conversation and only appends to it. */
  ghost predicate Grows(step: Progress -> Progress) {
    forall q: Progress :: !q.finished ==> step(q).requests == q.requests + [q.messages] && q.messages <= step(q).messages
  }

  /**
   * Iterations only append: the conversation and the request log grow, each
   * new request is a prefix of the conversation, and an unfinished run has
   * made exactly `n` more requests, a finished one at most `n`.
   */
  lemma {:induction false} RunByShape(step: Progress -> Progress, p: Progress, n: nat)
    requires Grows(step)
    ensures var q := RunBy(step, p, n);
      && p.messages <= q.messages
      && p.requests <= q.requests
      && |q.requests| <= |p.requests| + n
      && (!q.finished ==> |q.requests| == |p.requests| + n)
      && (forall r :: |p.requests| <= r < |q.requests| ==> q.requests[r] <= q.messages)
    decreases n
  {
    if n > 0 {
      var q := RunBy(step, p, n - 1);
      RunByShape(step, p, n - 1);
      if !q.finished {
        var q2 := step(q);
        assert q2.requests == q.requests + [q.messages] && q.messages <= q2.messages;
        forall r | |p.requests| <= r < |q2.requests|
          ensures q2.requests[r] <= q2.messages
        {
          if r < |q.requests| {
            assert q2.requests[r] == q.requests[r];
          }
        }
      }
    }
  }

  /** The outer loop's iteration as a step. */
  function Step(settings: Settings, o: Oracles): Progress -> Progress {
    (q: Progress) => Iterate(settings, o, q)
  }

  lemma StepGrows(settings: Settings, o: Oracles)
    ensures Grows(Step(settings, o))
  {
    forall q: Progress | !q.finished
      ensures Step(settings, o)(q).requests == q.requests + [q.messages] && q.messages <= Step(settings, o)(q).messages
    {
      IterateGrowsAt(settings, o, q);
    }
  }

  /** At most `n` iterations of the outer loop. */
  function Run(settings: Settings, o: Oracles, p: Progress, n: nat): Progress {
    RunBy(Step(settings, o), p, n)
  }

  /** An unfinished run goes on with one more iteration. */
  lemma RunNext(settings: Settings, o: Oracles, p: Progress, n: nat)
    requires !Run(settings, o, p, n).finished
    ensures Run(settings, o, p, n + 1) == Iterate(settings, o, Run(settings, o, p, n))
  {
  }

  /** The conversation when the user's message has been appended. */
  function Start(messages: seq<Message>, userInput: string): Progress {
    Progress(messages + [Plain("user", userInput)], [], [], 0, false)
  }

  /**
   * `process_message` for `userInput`, starting from `messages`. A turn keeps
   * every earlier message and the user's message in place, makes between 1
   * and 10 model requests, the first with the conversation just after the
   * user's message, each with a prefix of the final conversation, and fewer
   * than 10 only when a final reply ended it.
   */
  function Turn(settings: Settings, o: Oracles, messages: seq<Message>, userInput: string): (t: Progress)
    ensures messages + [Plain("user", userInput)] <= t.messages
    ensures 1 <= |t.requests| <= MaxIterations
    ensures t.requests[0] == messages + [Plain("user", userInput)]
    ensures forall r :: 0 <= r < |t.requests| ==> t.requests[r] <= t.messages
    ensures |t.requests| < MaxIterations ==> t.finished
  {
    StepGrows(settings, o);
    RunByFirst(Step(settings, o), Start(messages, userInput), MaxIterations);
    Run(settings, o, Start(messages, userInput), MaxIterations)
  }

  /** The shape of a turn, for any step that grows, from a fresh state with no request yet. */
  lemma RunByFirst(step: Progress -> Progress, p: Progress, n: nat)
    requires Grows(step) && !p.finished && p.requests == [] && n >= 1
    ensures var t := RunBy(step, p, n);
      && p.messages <= t.messages
      && 1 <= |t.requests| <= n
      && t.requests[0] == p.messages
      && (forall r :: 0 <= r < |t.requests| ==> t.requests[r] <= t.messages)
      && (|t.requests| < n ==> t.finished)
  {
    var first := RunBy(step, p, 1);
    assert first == step(p);
    assert first.requests == [p.messages] && p.messages <= first.messages;
    RunByShape(step, first, n - 1);
    if first.finished {
      RunByStops(step, p, 1, n);
    } else {
      RunByFrom(step, p, 1, n - 1);
    }
  }

  // ---------------------------------------------------------------------
  // The agent
  // ---------------------------------------------------------------------

  /** `Agent`: the provider, registry and console are the oracles of `ProcessMessage`. */
  class Agent {
    const systemPrompt: string
    const settings: Settings
    var messages: seq<Message>

    /** `__init__`: the conversation holds only the system prompt. */
    constructor(systemPrompt: string, settings: Settings)
      ensures this.systemPrompt == systemPrompt && this.settings == settings
      ensures messages == [Plain("system", systemPrompt)]
    {
      this.systemPrompt := systemPrompt;
      this.settings := settings;
      messages := [Plain("system", systemPrompt)];
    }

    /** `clear_history`. */
    method ClearHistory()
      modifies this
      ensures messages == [Plain("system", systemPrompt)]
    {
      messages := [Plain("system", systemPrompt)];
    }

    /** One call of the inner loop: ask if needed, then refuse or execute, and report. */
    method HandleToolCall(tc: ToolCall, o: Oracles, requests: seq<seq<Message>>, executed: seq<ToolCall>, asked: nat)
      returns (executedAfter: seq<ToolCall>, askedAfter: nat)
      modifies this
      ensures Progress(messages, requests, executedAfter, askedAfter, false) ==
        ToolStep(settings, o, Progress(old(messages), requests, executed, asked, false), tc)
    {
      askedAfter := asked;
      if RequiresConfirmation(settings, tc.name, tc.arguments) {
        var allowed := o.confirm(asked);
        askedAfter := asked + 1;
        if !allowed {
          messages := messages + [Plain("tool", DeclinedText)];
          return executed, askedAfter;
        }
      }
      var result := o.execute(|executed|);
      executedAfter := executed + [tc];
      messages := messages + [Plain("tool", ResultText(result))];
    }

    /** The inner loop over a reply's tool calls. */
    method HandleToolCalls(calls: seq<ToolCall>, o: Oracles, requests: seq<seq<Message>>, executed: seq<ToolCall>, asked: nat)
      returns (executedAfter: seq<ToolCall>, askedAfter: nat)
      modifies this
      ensures Progress(messages, requests, executedAfter, askedAfter, false) ==
        ToolSteps(settings, o, Progress(old(messages), requests, executed, asked, false), calls)
    {
      ghost var start := Progress(messages, requests, executed, asked, false);
      executedAfter, askedAfter := executed, asked;
      var k := 0;
      while k < |calls|
        invariant k <= |calls|
        invariant Progress(messages, requests, executedAfter, askedAfter, false) == ToolSteps(settings, o, start, calls[..k])
      {
        assert calls[..k + 1][..k] == calls[..k];
        executedAfter, askedAfter := HandleToolCall(calls[k], o, requests, executedAfter, askedAfter);
        k := k + 1;
      }
      assert calls[..k] == calls;
    }

    /** One iteration of `process_message`'s loop; `finished` says whether the reply was final. */
    method Iteration(o: Oracles, requests: seq<seq<Message>>, executed: seq<ToolCall>, asked: nat)
      returns (requestsAfter: seq<seq<Message>>, executedAfter: seq<ToolCall>, askedAfter: nat, finished: bool)
      modifies this
      ensures Progress(messages, requestsAfter, executedAfter, askedAfter, finished) ==
        Iterate(settings, o, Progress(old(messages), requests, executed, asked, false))
      ensures requestsAfter == requests + [old(messages)]
    {
      var reply := o.respond(|requests|);
      requestsAfter := requests + [messages];
      var content, calls := CollectReply(reply);
      if calls != [] {
        messages := messages + [CallingMessage(content, calls)];
        executedAfter, askedAfter := HandleToolCalls(calls, o, requestsAfter, executed, asked);
        finished := false;
      } else {
        if content != "" {
          messages := messages + [Plain("assistant", content)];
        }
        executedAfter, askedAfter, finished := executed, asked, true;
      }
    }

    /**
     * `process_message`: the requests made, the calls executed and whether
     * the max-iterations warning is shown, which happens exactly when the
     * 10th request was made, even if its reply was final.
     */
    method ProcessMessage(userInput: string, o: Oracles)
      returns (requests: seq<seq<Message>>, executed: seq<ToolCall>, warned: bool)
      modifies this
      ensures var t := Turn(settings, o, old(messages), userInput);
        messages == t.messages && requests == t.requests && executed == t.executed
      ensures warned <==> |requests| == MaxIterations
    {
      ghost var start := Start(messages, userInput);
      messages := messages + [Plain("user", userInput)];
      var asked: nat;
      var finished: bool;
      requests, executed, asked, finished := RunLoop(o, start);
      warned := |requests| >= MaxIterations;
    }

    /** The outer loop of `process_message`, from the conversation that ends with the user's message. */
    method RunLoop(o: Oracles, ghost start: Progress)
      returns (requests: seq<seq<Message>>, executed: seq<ToolCall>, asked: nat, finished: bool)
      modifies this
      requires start == Progress(messages, [], [], 0, false)
      ensures Progress(messages, requests, executed, asked, finished) == Run(settings, o, start, MaxIterations)
      ensures |requests| <= MaxIterations
    {
      requests, executed, asked, finished := [], [], 0, false;
      var iteration := 0;
      while iteration < MaxIterations && !finished
        invariant iteration <= MaxIterations && |requests| == iteration
        invariant Progress(messages, requests, executed, asked, finished) == Run(settings, o, start, iteration)
      {
        RunNext(settings, o, start, iteration);
        iteration := iteration + 1;
        requests, executed, asked, finished := Iteration(o, requests, executed, asked);
      }
      if finished {
        RunByStops(Step(settings, o), start, iteration, MaxIterations);
      }
    }
  }
}
