/**
 * The assistant's agent loop with its confirm gate (apps/server/src/assistant/assistant.service.ts).
 * What the model answers, what tools return, the clock and the random ids are inputs of a request.
 */
module AssistantLoop {
  import opened Wrappers
  import opened CallAssembly
  import opened PendingActions

  datatype Tool = Tool(name: string, isAction: bool, confirm: bool) {
    /** An action that needs the operator's approval. */
    predicate Gated() { isAction && confirm }
  }

  datatype Agent = Agent(id: string, maxRounds: int)

  /** One completion: its text and calls, or a failure of the provider. */
  datatype Reply = Completed(content: string, calls: seq<CapturedCall>) | Failed(error: string)

  /** The agent a request runs as, or why it cannot be set up. */
  datatype Setup = Unavailable(message: string) | Ready(agent: Agent)

  /** The outside world during one request. */
  datatype Env = Env(
    setup: Setup, system: string, byName: map<string, Tool>,
    complete: nat -> Reply, runText: nat -> string,
    now: int, pausedAt: int, freshId: string)

  datatype ChatMessage = FromUser(content: string) | FromAssistant(content: string)

  datatype Request =
    | Chat(user: string, history: seq<ChatMessage>, env: Env)
    | Resume(user: string, pendingId: string, approve: bool, env: Env)

  /** What a request does: model calls, tool executions, and what it reports to the operator. */
  datatype Event =
    | ModelCall(sent: seq<Msg>)
    | Executed(user: string, call: CapturedCall, tool: Tool, approval: Option<string>)
    | ConfirmRequired(pendingId: string, call: CapturedCall)
    | Finished
    | Error(message: string)

  const FINAL_PROMPT := "Please give your final answer now based on what you found."
  const DENIED := "Error: the operator DENIED this action. Do not retry it; acknowledge and continue."
  const EXPIRED := "This confirmation expired or was already handled."

  // ---------------------------------------------------------------- the loop as functions

  /** A turn in progress; `runs` counts the tools run so far in this request. */
  datatype Turn = Turn(messages: seq<Msg>, log: seq<Event>, store: Store, paused: bool, runs: nat)

  function ToolNamed(env: Env, name: string): Option<Tool> {
    if name in env.byName then Some(env.byName[name]) else None
  }

  /** Run one call, or report that the account lacks the tool, and append the result message. */
  function RunCall(
    user: string, call: CapturedCall, tool: Option<Tool>, approval: Option<string>, env: Env, t: Turn): Turn
  {
    if tool.None? then
      var text := "Error: tool \"" + call.name + "\" is not available to your account.";
      t.(messages := t.messages + [ToolResult(call.id, call.name, text)])
    else
      t.(messages := t.messages + [ToolResult(call.id, call.name, env.runText(t.runs))],
         log := t.log + [Executed(user, call, tool.value, approval)],
         runs := t.runs + 1)
  }

  /** Execute a batch in order from call `i`; a gated action suspends the turn. */
  function Process(user: string, agent: Agent, calls: seq<CapturedCall>, i: nat, env: Env, t: Turn): Turn
    requires i <= |calls|
    decreases |calls| - i
  {
    if i == |calls| then t.(paused := false)
    else
      var call := calls[i];
      var tool := ToolNamed(env, call.name);
      if tool.Some? && tool.value.Gated() then
        t.(store := Created(t.store, PendingRecord(env.freshId, user, agent.id, t.messages, calls, i, env.pausedAt)),
           log := t.log + [ConfirmRequired(env.freshId, call)],
           paused := true)
      else
        Process(user, agent, calls, i + 1, env, RunCall(user, call, tool, None, env, t))
  }

  function Content(text: string): Option<string> {
    if text == "" then None else Some(text)
  }

  /** Completions from the given round on, each followed by its calls; then one without tools. */
  function Rounds(user: string, agent: Agent, env: Env, round: nat, t: Turn): Turn
    decreases agent.maxRounds - round
  {
    if round >= agent.maxRounds then
      var asked := t.(log := t.log + [ModelCall(t.messages + [User(FINAL_PROMPT)])]);
      match env.complete(round)
      case Failed(error) => asked.(log := asked.log + [Error(error)])
      case Completed(_, _) => asked.(log := asked.log + [Finished])
    else
      var asked := t.(log := t.log + [ModelCall(t.messages)]);
      match env.complete(round)
      case Failed(error) => asked.(log := asked.log + [Error(error)])
      case Completed(content, calls) =>
        if calls == [] then asked.(log := asked.log + [Finished])
        else
          var answered := asked.(messages := t.messages + [Assistant(Content(content), calls)]);
          var r := Process(user, agent, calls, 0, env, answered);
          if r.paused then r else Rounds(user, agent, env, round + 1, r)
  }

  function OfHistory(history: seq<ChatMessage>): (msgs: seq<Msg>)
    ensures |msgs| == |history|
    ensures forall i :: 0 <= i < |msgs| ==> msgs[i].User? || (msgs[i].Assistant? && msgs[i].calls == [])
  {
    seq(|history|, i requires 0 <= i < |history| =>
      match history[i] case FromUser(c) => User(c) case FromAssistant(c) => Assistant(Some(c), []))
  }

  function Refused(store: Store, message: string): Turn {
    Turn([], [Error(message)], store, false, 0)
  }

  function ServeChat(store: Store, user: string, history: seq<ChatMessage>, env: Env): Turn {
    if env.setup.Unavailable? then Refused(store, env.setup.message)
    else Rounds(user, env.setup.agent, env, 0, Turn([System(env.system)] + OfHistory(history), [], store, false, 0))
  }

  /** The paused call, run if approved, its refusal recorded otherwise. */
  function Settle(user: string, p: PendingAction, approve: bool, env: Env, t: Turn): Turn {
    var call := p.calls[p.index];
    if approve then RunCall(user, call, ToolNamed(env, call.name), Some(p.id), env, t)
    else t.(messages := t.messages + [ToolResult(call.id, call.name, DENIED)])
  }

  function ServeResume(store: Store, user: string, pendingId: string, approve: bool, env: Env): Turn {
    var (left, taken) := Taken(store, pendingId, user, env.now);
    if taken.None? then Refused(left, EXPIRED)
    else if env.setup.Unavailable? then Refused(left, env.setup.message)
    else Continued(user, taken.value, approve, env, left)
  }

  function Continued(user: string, p: PendingAction, approve: bool, env: Env, left: Store): Turn
    requires env.setup.Ready?
  {
    var settled := Settle(user, p, approve, env, Turn(p.messages, [], left, false, 0));
    var r := Process(user, env.setup.agent, p.calls, p.index + 1, env, settled);
    if r.paused then r else Rounds(user, env.setup.agent, env, 0, r)
  }

  function Serve(store: Store, r: Request): Turn {
    match r
    case Chat(user, history, env) => ServeChat(store, user, history, env)
    case Resume(user, pendingId, approve, env) => ServeResume(store, user, pendingId, approve, env)
  }

  // ---------------------------------------------------------------- the service

  class AssistantService {
    const pending: PendingActionStore

    constructor (pending: PendingActionStore)
      ensures this.pending == pending
    {
      this.pending := pending;
    }

    /** Execute the calls of a turn from `fromIndex`; true when a confirmation suspended it. */
    method ProcessCalls(user: string, agent: Agent, calls: seq<CapturedCall>, fromIndex: nat, env: Env,
                        messages: seq<Msg>, log: seq<Event>, runs: nat)
      returns (messages': seq<Msg>, log': seq<Event>, paused: bool, runs': nat)
      requires fromIndex <= |calls|
      modifies pending
      ensures Turn(messages', log', pending.entries, paused, runs')
           == Process(user, agent, calls, fromIndex, env, Turn(messages, log, old(pending.entries), false, runs))
    {
      messages', log', paused, runs' := messages, log, false, runs;
      var i := fromIndex;
      while i < |calls|
        invariant fromIndex <= i <= |calls| && !paused && pending.entries == old(pending.entries)
        invariant Process(user, agent, calls, i, env, Turn(messages', log', pending.entries, false, runs'))
               == Process(user, agent, calls, fromIndex, env, Turn(messages, log, old(pending.entries), false, runs))
      {
        var call := calls[i];
        var tool := ToolNamed(env, call.name);
        if tool.Some? && tool.value.isAction && tool.value.confirm {
          pending.Create(user, agent.id, messages', calls, i, env.freshId, env.pausedAt);
          log' := log' + [ConfirmRequired(env.freshId, call)];
          paused := true;
          return;
        }
        var text;
        text, log', runs' := Run(user, tool, call, None, env, log', runs');
        messages' := messages' + [ToolResult(call.id, call.name, text)];
        i := i + 1;
      }
    }

    /** Run one resolved tool call. */
    method Run(user: string, tool: Option<Tool>, call: CapturedCall, approval: Option<string>, env: Env,
               log: seq<Event>, runs: nat)
      returns (text: string, log': seq<Event>, runs': nat)
      ensures forall t: Turn :: t.log == log && t.runs == runs ==>
                RunCall(user, call, tool, approval, env, t)
                == t.(messages := t.messages + [ToolResult(call.id, call.name, text)], log := log', runs := runs')
    {
      if tool.None? {
        return "Error: tool \"" + call.name + "\" is not available to your account.", log, runs;
      }
      text := env.runText(runs);
      log' := log + [Executed(user, call, tool.value, approval)];
      runs' := runs + 1;
    }

    /** Fresh completions and their calls, until an answer, a pause, a failure or the round limit. */
    method Drive(user: string, agent: Agent, env: Env, messages: seq<Msg>, log: seq<Event>, runs: nat)
      returns (messages': seq<Msg>, log': seq<Event>, paused: bool, runs': nat)
      modifies pending
      ensures Turn(messages', log', pending.entries, paused, runs')
           == Rounds(user, agent, env, 0, Turn(messages, log, old(pending.entries), false, runs))
    {
      messages', log', paused, runs' := messages, log, false, runs;
      var round: nat := 0;
      while round < agent.maxRounds
        invariant !paused
        invariant Rounds(user, agent, env, round, Turn(messages', log', pending.entries, false, runs'))
               == Rounds(user, agent, env, 0, Turn(messages, log, old(pending.entries), false, runs))
      {
        log' := log' + [ModelCall(messages')];
        var reply := env.complete(round);
        if reply.Failed? {
          log' := log' + [Error(reply.error)];
          return;
        }
        if reply.calls == [] {
          log' := log' + [Finished];
          return;
        }
        messages' := messages' + [Assistant(if reply.content == "" then None else Some(reply.content), reply.calls)];
        messages', log', paused, runs' := ProcessCalls(user, agent, reply.calls, 0, env, messages', log', runs');
        if paused {
          return;
        }
        round := round + 1;
      }
      log' := log' + [ModelCall(messages' + [User(FINAL_PROMPT)])];
      var reply := env.complete(round);
      log' := log' + [if reply.Failed? then Error(reply.error) else Finished];
    }

    /** A chat: the agent's prompt and the history, driven to an answer or a pause. */
    method ChatWith(user: string, history: seq<ChatMessage>, env: Env) returns (log: seq<Event>)
      modifies pending
      ensures log == ServeChat(old(pending.entries), user, history, env).log
      ensures pending.entries == ServeChat(old(pending.entries), user, history, env).store
    {
      if env.setup.Unavailable? {
        return [Error(env.setup.message)];
      }
      var messages, paused, runs;
      messages, log, paused, runs :=
        Drive(user, env.setup.agent, env, [System(env.system)] + OfHistory(history), [], 0);
    }

    /** The operator's decision on a parked turn: take it from the store and go on with it. */
    method ResumeTurn(user: string, pendingId: string, approve: bool, env: Env) returns (log: seq<Event>)
      modifies pending
      ensures log == ServeResume(old(pending.entries), user, pendingId, approve, env).log
      ensures pending.entries == ServeResume(old(pending.entries), user, pendingId, approve, env).store
    {
      log := [];
      var taken := pending.Take(pendingId, user, env.now);
      if taken.None? {
        return [Error(EXPIRED)];
      }
      if env.setup.Unavailable? {
        return [Error(env.setup.message)];
      }
      log := Continue(user, taken.value, approve, env);
    }

    /** Settle the paused call, finish the remaining calls of its turn, then go on with the loop. */
    method Continue(user: string, p: PendingAction, approve: bool, env: Env) returns (log: seq<Event>)
      requires env.setup.Ready?
      modifies pending
      ensures var t := Continued(user, p, approve, env, old(pending.entries));
              log == t.log && pending.entries == t.store
    {
      var call := p.calls[p.index];
      var messages, paused, runs: nat := p.messages, false, 0;
      log := [];
      if approve {
        var text;
        text, log, runs := Run(user, ToolNamed(env, call.name), call, Some(p.id), env, log, runs);
        messages := messages + [ToolResult(call.id, call.name, text)];
      } else {
        messages := messages + [ToolResult(call.id, call.name, DENIED)];
      }
      assert Turn(messages, log, pending.entries, false, runs)
          == Settle(user, p, approve, env, Turn(p.messages, [], old(pending.entries), false, 0));
      messages, log, paused, runs :=
        ProcessCalls(user, env.setup.agent, p.calls, p.index + 1, env, messages, log, runs);
      if !paused {
        messages, log, paused, runs := Drive(user, env.setup.agent, env, messages, log, runs);
      }
    }
  }
}
