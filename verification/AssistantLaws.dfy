/**
 * What every run of chats and resumes keeps: the conversation handed to the model is always well
 * formed, the number of completions is bounded, and no gated action runs unapproved.
 */
module AssistantLaws {
  import opened Wrappers
  import opened CallAssembly
  import opened PendingActions
  import opened AssistantLoop

  // ---------------------------------------------------------------- well-formed conversations

  ghost predicate Answers(m: Msg, call: CapturedCall) {
    m.ToolResult? && m.callId == call.id && m.name == call.name
  }

  /**
   * Every assistant message is followed at once by one result per call, same ids, same order, and
   * by no further result; and results occur nowhere else.
   */
  ghost predicate WellFormed(ms: seq<Msg>) {
    && (forall i :: 0 <= i < |ms| && ms[i].Assistant? ==> AnsweredAt(ms, i))
    && (forall i :: 0 <= i < |ms| && ms[i].ToolResult? ==> FollowsTurn(ms, i))
  }

  ghost predicate AnsweredAt(ms: seq<Msg>, i: nat)
    requires i < |ms| && ms[i].Assistant?
  {
    var n := |ms[i].calls|;
    && i + n < |ms|
    && (forall j :: 0 <= j < n ==> Answers(ms[i + 1 + j], ms[i].calls[j]))
    && (i + 1 + n < |ms| ==> !ms[i + 1 + n].ToolResult?)
  }

  ghost predicate FollowsTurn(ms: seq<Msg>, i: nat)
    requires i < |ms|
  {
    i > 0 && (ms[i - 1].ToolResult? || (ms[i - 1].Assistant? && ms[i - 1].calls != []))
  }

  /** A well-formed conversation, an assistant turn with `calls`, and results for the first k of them. */
  ghost predicate Answering(ms: seq<Msg>, calls: seq<CapturedCall>, k: nat) {
    && calls != [] && k <= |calls| && k < |ms|
    && var p := |ms| - k - 1;
    && ms[p].Assistant? && ms[p].calls == calls
    && WellFormed(ms[..p])
    && forall j :: 0 <= j < k ==> Answers(ms[p + 1 + j], calls[j])
  }

  lemma {:induction false} BeginAnswering(ms: seq<Msg>, text: Option<string>, calls: seq<CapturedCall>)
    requires WellFormed(ms) && calls != []
    ensures Answering(ms + [Assistant(text, calls)], calls, 0)
  {
    assert (ms + [Assistant(text, calls)])[..|ms|] == ms;
  }

  lemma {:induction false} AnswerNext(ms: seq<Msg>, calls: seq<CapturedCall>, k: nat, result: Msg)
    requires Answering(ms, calls, k) && k < |calls| && Answers(result, calls[k])
    ensures Answering(ms + [result], calls, k + 1)
  {
    var p := |ms| - k - 1;
    assert (ms + [result])[..p] == ms[..p];
  }

  lemma {:induction false} AllAnswered(ms: seq<Msg>, calls: seq<CapturedCall>)
    requires Answering(ms, calls, |calls|)
    ensures WellFormed(ms)
  {
    var p := |ms| - |calls| - 1;
    var before := ms[..p];
    forall i | 0 <= i < |ms| && ms[i].Assistant? ensures AnsweredAt(ms, i) {
      if i < p {
        assert before[i].Assistant? && AnsweredAt(before, i);
        forall j | 0 <= j < |ms[i].calls| ensures Answers(ms[i + 1 + j], ms[i].calls[j]) {
          assert Answers(before[i + 1 + j], before[i].calls[j]);
        }
      } else if i > p {
        ResultsComeLast(ms, calls, i);
      }
    }
    forall i | 0 <= i < |ms| && ms[i].ToolResult? ensures FollowsTurn(ms, i) {
      if i < p {
        assert before[i].ToolResult? && FollowsTurn(before, i);
      } else if i > p + 1 {
        assert Answers(ms[p + 1 + (i - p - 2)], calls[i - p - 2]);
      }
    }
  }

  lemma {:induction false} ResultsComeLast(ms: seq<Msg>, calls: seq<CapturedCall>, i: nat)
    requires Answering(ms, calls, |calls|) && |ms| - |calls| <= i < |ms|
    ensures ms[i].ToolResult?
  {
    var p := |ms| - |calls| - 1;
    assert Answers(ms[p + 1 + (i - p - 1)], calls[i - p - 1]);
  }

  lemma {:induction false} AppendUser(ms: seq<Msg>, content: string)
    requires WellFormed(ms)
    ensures WellFormed(ms + [User(content)])
  {
    var all := ms + [User(content)];
    forall i | 0 <= i < |all| && all[i].Assistant? ensures AnsweredAt(all, i) {
      assert ms[i].Assistant? && AnsweredAt(ms, i);
      forall j | 0 <= j < |all[i].calls| ensures Answers(all[i + 1 + j], all[i].calls[j]) {
        assert Answers(ms[i + 1 + j], ms[i].calls[j]);
      }
    }
    forall i | 0 <= i < |all| && all[i].ToolResult? ensures FollowsTurn(all, i) {
      assert ms[i].ToolResult? && FollowsTurn(ms, i);
    }
  }

  lemma {:induction false} HistoryIsWellFormed(system: string, history: seq<ChatMessage>)
    ensures WellFormed([System(system)] + OfHistory(history))
  {
  }

  ghost predicate SendsWellFormed(log: seq<Event>) {
    forall i :: 0 <= i < |log| && log[i].ModelCall? ==> WellFormed(log[i].sent)
  }

  /** Every paused turn has answered the calls before the one it waits on. */
  ghost predicate StoreAnswering(store: Store) {
    forall id :: id in store ==> Answering(store[id].messages, store[id].calls, store[id].index)
  }

  lemma {:induction false} RunCallAnswers(
    user: string, call: CapturedCall, tool: Option<Tool>, approval: Option<string>,
    env: Env, t: Turn, calls: seq<CapturedCall>, i: nat)
    requires i < |calls| && call == calls[i] && Answering(t.messages, calls, i) && SendsWellFormed(t.log)
    ensures var t' := RunCall(user, call, tool, approval, env, t);
            Answering(t'.messages, calls, i + 1) && SendsWellFormed(t'.log) && t'.store == t.store
  {
    AnswerNext(t.messages, calls, i, RunCall(user, call, tool, approval, env, t).messages[|t.messages|]);
  }

  lemma {:induction false} ProcessKeepsForm(
    user: string, agent: Agent, calls: seq<CapturedCall>, i: nat, env: Env, t: Turn)
    requires i <= |calls| && Answering(t.messages, calls, i) && SendsWellFormed(t.log) && StoreAnswering(t.store)
    ensures var r := Process(user, agent, calls, i, env, t);
            SendsWellFormed(r.log) && StoreAnswering(r.store) && (!r.paused ==> WellFormed(r.messages))
    decreases |calls| - i
  {
    if i == |calls| {
      AllAnswered(t.messages, calls);
    } else {
      var tool := ToolNamed(env, calls[i].name);
      if !(tool.Some? && tool.value.Gated()) {
        RunCallAnswers(user, calls[i], tool, None, env, t, calls, i);
        ProcessKeepsForm(user, agent, calls, i + 1, env, RunCall(user, calls[i], tool, None, env, t));
      }
    }
  }

  lemma {:induction false} RoundsKeepForm(user: string, agent: Agent, env: Env, round: nat, t: Turn)
    requires WellFormed(t.messages) && SendsWellFormed(t.log) && StoreAnswering(t.store)
    ensures var r := Rounds(user, agent, env, round, t);
            SendsWellFormed(r.log) && StoreAnswering(r.store)
    decreases agent.maxRounds - round
  {
    if round >= agent.maxRounds {
      AppendUser(t.messages, FINAL_PROMPT);
    } else if env.complete(round).Completed? && env.complete(round).calls != [] {
      var calls, text := env.complete(round).calls, Content(env.complete(round).content);
      var answered := t.(log := t.log + [ModelCall(t.messages)], messages := t.messages + [Assistant(text, calls)]);
      BeginAnswering(t.messages, text, calls);
      ProcessKeepsForm(user, agent, calls, 0, env, answered);
      var r := Process(user, agent, calls, 0, env, answered);
      if !r.paused { RoundsKeepForm(user, agent, env, round + 1, r); }
    }
  }

  lemma {:induction false} ServeKeepsForm(store: Store, r: Request)
    requires StoreAnswering(store)
    ensures SendsWellFormed(Serve(store, r).log) && StoreAnswering(Serve(store, r).store)
  {
    var env := r.env;
    if env.setup.Ready? {
      match r
      case Chat(user, history, _) =>
        HistoryIsWellFormed(env.system, history);
        RoundsKeepForm(user, env.setup.agent, env, 0,
          Turn([System(env.system)] + OfHistory(history), [], store, false, 0));
      case Resume(user, pendingId, approve, _) =>
        var (left, taken) := Taken(store, pendingId, user, env.now);
        if taken.Some? { ResumeKeepsForm(left, user, taken.value, approve, env); }
    }
  }

  lemma {:induction false} ResumeKeepsForm(left: Store, user: string, p: PendingAction, approve: bool, env: Env)
    requires StoreAnswering(left) && Answering(p.messages, p.calls, p.index) && env.setup.Ready?
    ensures var settled := Settle(user, p, approve, env, Turn(p.messages, [], left, false, 0));
            var r := Process(user, env.setup.agent, p.calls, p.index + 1, env, settled);
            && SendsWellFormed(r.log) && StoreAnswering(r.store)
            && (!r.paused ==> SendsWellFormed(Rounds(user, env.setup.agent, env, 0, r).log))
            && (!r.paused ==> StoreAnswering(Rounds(user, env.setup.agent, env, 0, r).store))
  {
    var t := Turn(p.messages, [], left, false, 0);
    var call := p.calls[p.index];
    if approve {
      RunCallAnswers(user, call, ToolNamed(env, call.name), Some(p.id), env, t, p.calls, p.index);
    } else {
      AnswerNext(p.messages, p.calls, p.index, ToolResult(call.id, call.name, DENIED));
    }
    var settled := Settle(user, p, approve, env, t);
    ProcessKeepsForm(user, env.setup.agent, p.calls, p.index + 1, env, settled);
    var r := Process(user, env.setup.agent, p.calls, p.index + 1, env, settled);
    if !r.paused { RoundsKeepForm(user, env.setup.agent, env, 0, r); }
  }

  // ---------------------------------------------------------------- runs of requests

  /** The store after a run of requests on a fresh service. */
  function StoreAfter(reqs: seq<Request>): Store {
    if reqs == [] then map[]
    else Serve(StoreAfter(reqs[..|reqs| - 1]), reqs[|reqs| - 1]).store
  }

  /** What the i-th request of the run did. */
  function LogAt(reqs: seq<Request>, i: nat): seq<Event>
    requires i < |reqs|
  {
    Serve(StoreAfter(reqs[..i]), reqs[i]).log
  }

  lemma {:induction false} StoreStaysAnswering(reqs: seq<Request>)
    ensures StoreAnswering(StoreAfter(reqs))
  {
    if reqs != [] {
      StoreStaysAnswering(reqs[..|reqs| - 1]);
      ServeKeepsForm(StoreAfter(reqs[..|reqs| - 1]), reqs[|reqs| - 1]);
    }
  }

  /** At every model call of every run, across any pauses and resumes, the conversation is well formed. */
  lemma {:induction false} EveryModelCallIsWellFormed(reqs: seq<Request>, i: nat)
    requires i < |reqs|
    ensures SendsWellFormed(LogAt(reqs, i))
  {
    StoreStaysAnswering(reqs[..i]);
    ServeKeepsForm(StoreAfter(reqs[..i]), reqs[i]);
  }

  // ---------------------------------------------------------------- the number of completions

  function ModelCalls(log: seq<Event>): nat {
    if log == [] then 0
    else ModelCalls(log[..|log| - 1]) + if log[|log| - 1].ModelCall? then 1 else 0
  }

  lemma {:induction false} ModelCallsSnoc(log: seq<Event>, e: Event)
    ensures ModelCalls(log + [e]) == ModelCalls(log) + if e.ModelCall? then 1 else 0
  {
    assert (log + [e])[..|log|] == log;
  }

  lemma {:induction false} ProcessAddsNoModelCall(
    user: string, agent: Agent, calls: seq<CapturedCall>, i: nat, env: Env, t: Turn)
    requires i <= |calls|
    ensures ModelCalls(Process(user, agent, calls, i, env, t).log) == ModelCalls(t.log)
    decreases |calls| - i
  {
    if i < |calls| {
      var call := calls[i];
      var tool := ToolNamed(env, call.name);
      if tool.Some? && tool.value.Gated() {
        ModelCallsSnoc(t.log, ConfirmRequired(env.freshId, call));
      } else {
        if tool.Some? { ModelCallsSnoc(t.log, Executed(user, call, tool.value, None)); }
        ProcessAddsNoModelCall(user, agent, calls, i + 1, env, RunCall(user, call, tool, None, env, t));
      }
    }
  }

  function AtLeastZero(n: int): nat { if n < 0 then 0 else n }

  lemma {:induction false} RoundsAreBounded(user: string, agent: Agent, env: Env, round: nat, t: Turn)
    ensures ModelCalls(Rounds(user, agent, env, round, t).log)
         <= ModelCalls(t.log) + AtLeastZero(agent.maxRounds - round) + 1
    decreases agent.maxRounds - round
  {
    if round >= agent.maxRounds {
      var sent := t.messages + [User(FINAL_PROMPT)];
      ModelCallsSnoc(t.log, ModelCall(sent));
      FinalEventIsNoModelCall(t.log + [ModelCall(sent)], env.complete(round));
    } else {
      var asked := t.log + [ModelCall(t.messages)];
      ModelCallsSnoc(t.log, ModelCall(t.messages));
      FinalEventIsNoModelCall(asked, env.complete(round));
      if env.complete(round).Completed? && env.complete(round).calls != [] {
        var calls, text := env.complete(round).calls, Content(env.complete(round).content);
        var answered := t.(log := asked, messages := t.messages + [Assistant(text, calls)]);
        ProcessAddsNoModelCall(user, agent, calls, 0, env, answered);
        var r := Process(user, agent, calls, 0, env, answered);
        if !r.paused { RoundsAreBounded(user, agent, env, round + 1, r); }
      }
    }
  }

  lemma {:induction false} FinalEventIsNoModelCall(log: seq<Event>, reply: Reply)
    ensures ModelCalls(log + [Finished]) == ModelCalls(log)
    ensures reply.Failed? ==> ModelCalls(log + [Error(reply.error)]) == ModelCalls(log)
  {
    ModelCallsSnoc(log, Finished);
    if reply.Failed? { ModelCallsSnoc(log, Error(reply.error)); }
  }

  /** Each chat or resume asks the model for at most maxRounds + 1 completions. */
  lemma {:induction false} CompletionsAreBounded(store: Store, r: Request)
    requires r.env.setup.Ready?
    ensures ModelCalls(Serve(store, r).log) <= AtLeastZero(r.env.setup.agent.maxRounds) + 1
  {
    var env, agent := r.env, r.env.setup.agent;
    assert ModelCalls([]) == 0;
    match r
    case Chat(user, history, _) =>
      RoundsAreBounded(user, agent, env, 0, Turn([System(env.system)] + OfHistory(history), [], store, false, 0));
    case Resume(user, pendingId, approve, _) =>
      var (left, taken) := Taken(store, pendingId, user, env.now);
      if taken.None? {
        ModelCallsSnoc([], Error(EXPIRED));
        assert [] + [Error(EXPIRED)] == [Error(EXPIRED)];
      } else {
        var p := taken.value;
        var t := Turn(p.messages, [], left, false, 0);
        var settled := Settle(user, p, approve, env, t);
        SettleAddsNoModelCall(user, p, approve, env, t);
        ProcessAddsNoModelCall(user, agent, p.calls, p.index + 1, env, settled);
        var r := Process(user, agent, p.calls, p.index + 1, env, settled);
        if !r.paused { RoundsAreBounded(user, agent, env, 0, r); }
      }
  }

  lemma {:induction false} SettleAddsNoModelCall(user: string, p: PendingAction, approve: bool, env: Env, t: Turn)
    ensures ModelCalls(Settle(user, p, approve, env, t).log) == ModelCalls(t.log)
  {
    var call := p.calls[p.index];
    var tool := ToolNamed(env, call.name);
    if approve && tool.Some? {
      ModelCallsSnoc(t.log, Executed(user, call, tool.value, Some(p.id)));
    }
  }

  // ---------------------------------------------------------------- the confirm gate

  /** Of the events from position `from` on, no execution is gated and none carries an approval. */
  ghost predicate UngatedFrom(log: seq<Event>, from: nat) {
    forall i :: from <= i < |log| && log[i].Executed? ==> !log[i].tool.Gated() && log[i].approval.None?
  }

  /** The store entry was parked by this request, which asked for confirmation of that very call. */
  ghost predicate ParkedBy(p: PendingAction, user: string, env: Env, log: seq<Event>) {
    && p.id == env.freshId && p.userId == user && p.createdAt == env.pausedAt
    && ConfirmRequired(p.id, p.calls[p.index]) in log
  }

  /** Every entry was there before, or was parked by this request. */
  ghost predicate StoreGrewBy(before: Store, after: Store, user: string, env: Env, log: seq<Event>) {
    forall id :: id in after ==>
      (id in before && after[id] == before[id]) || (id == env.freshId && ParkedBy(after[id], user, env, log))
  }

  lemma {:induction false} GrewTwice(
    a: Store, b: Store, c: Store, user: string, env: Env, log: seq<Event>, more: seq<Event>)
    requires StoreGrewBy(a, b, user, env, log) && StoreGrewBy(b, c, user, env, log + more)
    ensures StoreGrewBy(a, c, user, env, log + more)
  {
    forall id | id in c
      ensures (id in a && c[id] == a[id]) || (id == env.freshId && ParkedBy(c[id], user, env, log + more))
    {
    }
  }

  /** Running a batch executes only what needs no approval, and parks at most the call it stops at. */
  lemma {:induction false} ProcessRunsUngated(
    user: string, agent: Agent, calls: seq<CapturedCall>, i: nat, env: Env, t: Turn)
    requires i <= |calls|
    ensures var r := Process(user, agent, calls, i, env, t);
            t.log <= r.log && UngatedFrom(r.log, |t.log|) && StoreGrewBy(t.store, r.store, user, env, r.log)
    decreases |calls| - i
  {
    if i < |calls| {
      var call := calls[i];
      var tool := ToolNamed(env, call.name);
      if tool.Some? && tool.value.Gated() {
        var r := Process(user, agent, calls, i, env, t);
        assert r.log[|t.log|] == ConfirmRequired(env.freshId, call);
      } else {
        ProcessRunsUngated(user, agent, calls, i + 1, env, RunCall(user, call, tool, None, env, t));
      }
    }
  }

  lemma {:induction false} RoundsRunUngated(user: string, agent: Agent, env: Env, round: nat, t: Turn)
    ensures var r := Rounds(user, agent, env, round, t);
            t.log <= r.log && UngatedFrom(r.log, |t.log|) && StoreGrewBy(t.store, r.store, user, env, r.log)
    decreases agent.maxRounds - round
  {
    if round < agent.maxRounds && env.complete(round).Completed? && env.complete(round).calls != [] {
      var calls, text := env.complete(round).calls, Content(env.complete(round).content);
      var answered := t.(log := t.log + [ModelCall(t.messages)], messages := t.messages + [Assistant(text, calls)]);
      ProcessRunsUngated(user, agent, calls, 0, env, answered);
      var r := Process(user, agent, calls, 0, env, answered);
      if !r.paused {
        RoundsRunUngated(user, agent, env, round + 1, r);
        var end := Rounds(user, agent, env, round + 1, r);
        assert end.log == r.log + end.log[|r.log|..];
        GrewTwice(t.store, r.store, end.store, user, env, r.log, end.log[|r.log|..]);
      }
    }
  }

  /** Processing the rest of a batch and going on with fresh rounds, as both entry points do. */
  lemma {:induction false} ContinuationRunsUngated(
    user: string, agent: Agent, calls: seq<CapturedCall>, i: nat, env: Env, t: Turn)
    requires i <= |calls|
    ensures var r := Process(user, agent, calls, i, env, t);
            var end := if r.paused then r else Rounds(user, agent, env, 0, r);
            t.log <= end.log && UngatedFrom(end.log, |t.log|) && StoreGrewBy(t.store, end.store, user, env, end.log)
  {
    ProcessRunsUngated(user, agent, calls, i, env, t);
    var r := Process(user, agent, calls, i, env, t);
    if !r.paused {
      RoundsRunUngated(user, agent, env, 0, r);
      var end := Rounds(user, agent, env, 0, r);
      assert end.log == r.log + end.log[|r.log|..];
      GrewTwice(t.store, r.store, end.store, user, env, r.log, end.log[|r.log|..]);
    }
  }

  /** The execution at the head of a resume that approved the pending action found in the store. */
  ghost predicate ApprovedExecution(store: Store, r: Request, e: Event) {
    && e.Executed? && r.Resume? && r.approve && r.pendingId in store
    && var p := store[r.pendingId];
    && e.user == r.user == p.userId && e.call == p.calls[p.index] && e.approval == Some(p.id)
    && r.env.now - p.createdAt <= TTL_MS
  }

  /** One request: only its first event can be an approved execution; the id it used is spent. */
  lemma {:induction false} ServeGates(store: Store, r: Request)
    ensures var t := Serve(store, r);
            && UngatedFrom(t.log, 1)
            && (t.log != [] && t.log[0].Executed? && (t.log[0].tool.Gated() || t.log[0].approval.Some?)
                ==> ApprovedExecution(store, r, t.log[0]))
            && StoreGrewBy(if r.Resume? then store - {r.pendingId} else store, t.store, r.user, r.env, t.log)
  {
    var env := r.env;
    if env.setup.Ready? {
      match r
      case Chat(user, history, _) =>
        RoundsRunUngated(user, env.setup.agent, env, 0,
          Turn([System(env.system)] + OfHistory(history), [], store, false, 0));
      case Resume(user, pendingId, approve, _) =>
        var (left, taken) := Taken(store, pendingId, user, env.now);
        if taken.Some? {
          var p := taken.value;
          var t := Turn(p.messages, [], left, false, 0);
          ContinuationRunsUngated(user, env.setup.agent, p.calls, p.index + 1, env, Settle(user, p, approve, env, t));
        }
    }
  }

  /** The random ids of a run are distinct. */
  ghost predicate FreshIds(reqs: seq<Request>) {
    forall i, j :: 0 <= i < j < |reqs| ==> reqs[i].env.freshId != reqs[j].env.freshId
  }

  /** The entry under `id` was parked by request h of the run. */
  ghost predicate ParkedAt(reqs: seq<Request>, h: nat, p: PendingAction) {
    h < |reqs| && ParkedBy(p, reqs[h].user, reqs[h].env, LogAt(reqs, h))
  }

  lemma {:induction false} LogAtPrefix(reqs: seq<Request>, n: nat, h: nat)
    requires h < n <= |reqs|
    ensures LogAt(reqs[..n], h) == LogAt(reqs, h)
  {
    assert reqs[..n][..h] == reqs[..h];
  }

  /** Every entry of the store was parked by some earlier request, under its own key. */
  lemma {:induction false} EntryWasParked(reqs: seq<Request>, id: string) returns (h: nat)
    requires id in StoreAfter(reqs)
    ensures StoreAfter(reqs)[id].id == id && ParkedAt(reqs, h, StoreAfter(reqs)[id])
  {
    var n := |reqs| - 1;
    var before, r := StoreAfter(reqs[..n]), reqs[n];
    assert reqs[..|reqs| - 1] == reqs[..n];
    ServeGates(before, r);
    var p := StoreAfter(reqs)[id];
    if id in before && before[id] == p {
      h := EntryWasParked(reqs[..n], id);
      LogAtPrefix(reqs, n, h);
    } else {
      h := n;
    }
  }

  /**
   * In every run, a gated action executes only in a resume with approval, by the user whose turn was
   * paused, for the call that was put to the operator under that id, within the time to live.
   */
  lemma {:induction false} GatedActionsAreApproved(reqs: seq<Request>, i: nat, k: nat) returns (h: nat)
    requires i < |reqs| && k < |LogAt(reqs, i)|
    requires LogAt(reqs, i)[k].Executed? && LogAt(reqs, i)[k].tool.Gated()
    ensures var e, r := LogAt(reqs, i)[k], reqs[i];
            && r.Resume? && r.approve
            && h < i && ConfirmRequired(r.pendingId, e.call) in LogAt(reqs, h)
            && reqs[h].user == r.user == e.user
            && r.env.now - reqs[h].env.pausedAt <= TTL_MS
  {
    ServeGates(StoreAfter(reqs[..i]), reqs[i]);
    h := EntryWasParked(reqs[..i], reqs[i].pendingId);
    LogAtPrefix(reqs, i, h);
  }

  /** A request that did not mint the id does not bring it back, and a resume removes it. */
  lemma {:induction false} StaysGone(reqs: seq<Request>, id: string)
    requires reqs != [] && reqs[|reqs| - 1].env.freshId != id
    requires var r := reqs[|reqs| - 1];
             id !in StoreAfter(reqs[..|reqs| - 1]) || (r.Resume? && r.pendingId == id)
    ensures id !in StoreAfter(reqs)
  {
    OnlyParkingAdds(StoreAfter(reqs[..|reqs| - 1]), reqs[|reqs| - 1], id);
  }

  /** Once an id has been presented, it never names a store entry again. */
  lemma {:induction false} SpentIdsStayGone(reqs: seq<Request>, i: nat, id: string)
    requires FreshIds(reqs) && i < |reqs|
    requires reqs[i].Resume? && reqs[i].pendingId == id && id in StoreAfter(reqs[..i])
    ensures id !in StoreAfter(reqs)
  {
    var n := |reqs| - 1;
    MintedEarlier(reqs, i, id);
    if i < n {
      assert reqs[..n][..i] == reqs[..i];
      SpentIdsStayGone(reqs[..n], i, id);
    }
    StaysGone(reqs, id);
  }

  /** An id found in the store was minted before, so no later request mints it again. */
  lemma {:induction false} MintedEarlier(reqs: seq<Request>, i: nat, id: string)
    requires FreshIds(reqs) && i < |reqs| && id in StoreAfter(reqs[..i])
    ensures reqs[|reqs| - 1].env.freshId != id
  {
    var h := EntryWasParked(reqs[..i], id);
    assert reqs[..i][h].env.freshId == id;
    assert reqs[..i][h] == reqs[h];
  }

  lemma {:induction false} OnlyParkingAdds(store: Store, r: Request, id: string)
    requires r.env.freshId != id
    requires id !in store || (r.Resume? && r.pendingId == id)
    ensures id !in Serve(store, r).store
  {
    ServeGates(store, r);
  }

  /** Each pending id leads to at most one execution in a whole run. */
  lemma {:induction false} EachIdExecutesOnce(reqs: seq<Request>, i: nat, k: nat, j: nat, l: nat)
    requires FreshIds(reqs) && i < |reqs| && j < |reqs| && k < |LogAt(reqs, i)| && l < |LogAt(reqs, j)|
    requires LogAt(reqs, i)[k].Executed? && LogAt(reqs, j)[l].Executed?
    requires LogAt(reqs, i)[k].approval == LogAt(reqs, j)[l].approval != None
    ensures i == j && k == l
    decreases i
  {
    ServeGates(StoreAfter(reqs[..i]), reqs[i]);
    ServeGates(StoreAfter(reqs[..j]), reqs[j]);
    var a := EntryWasParked(reqs[..i], reqs[i].pendingId);
    var b := EntryWasParked(reqs[..j], reqs[j].pendingId);
    if i < j {
      assert reqs[..j][..i] == reqs[..i];
      SpentIdsStayGone(reqs[..j], i, reqs[i].pendingId);
    } else if j < i {
      assert reqs[..i][..j] == reqs[..j];
      SpentIdsStayGone(reqs[..i], j, reqs[j].pendingId);
    }
  }
}
