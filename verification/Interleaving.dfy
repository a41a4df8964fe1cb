/**
 * The assistant with requests that overlap (assistant.service.ts, pending-action.store.ts): a request
 * touches the store when a resume takes its pending action, and when a turn is parked, which ends it;
 * in between, other requests take and park.
 */
module AssistantInterleaving {
  import opened Wrappers
  import opened CallAssembly
  import opened PendingActions
  import opened AssistantLoop
  import opened AssistantLaws

  // ---------------------------------------------------------------- one request in two steps

  /** All a request sees of the store: the entry its resume takes, if it gets it. */
  function Seen(store: Store, r: Request): Store {
    if r.Resume? && Taken(store, r.pendingId, r.user, r.env.now).1.Some?
    then map[r.pendingId := store[r.pendingId]] else map[]
  }

  /** The store once a resume has taken its entry. */
  function Left(store: Store, r: Request): Store {
    if r.Resume? then Taken(store, r.pendingId, r.user, r.env.now).0 else store
  }

  /** The store once the request has parked its turn, if it does. */
  function Parked(store: Store, r: Request, own: Store): Store {
    if r.env.freshId in own then Created(store, own[r.env.freshId]) else store
  }

  /** The same turn on another store: the parked turn, if any, is created there. */
  ghost predicate SameElsewhere(t: Turn, u: Turn, store: Store, env: Env) {
    && t == u.(store := t.store)
    && (u.store == map[] || (env.freshId in u.store && u.store == map[env.freshId := u.store[env.freshId]]))
    && (u.paused <==> u.store != map[])
    && t.store == (if u.paused then Created(store, u.store[env.freshId]) else store)
    && (u.paused ==> u.store[env.freshId].id == env.freshId)
  }

  lemma {:induction false} ProcessElsewhere(
    user: string, agent: Agent, calls: seq<CapturedCall>, i: nat, env: Env, t: Turn)
    requires i <= |calls|
    ensures SameElsewhere(Process(user, agent, calls, i, env, t),
            Process(user, agent, calls, i, env, t.(store := map[])),
                          t.store, env)
    decreases |calls| - i
  {
    if i < |calls| {
      var call := calls[i];
      var tool := ToolNamed(env, call.name);
      if !(tool.Some? && tool.value.Gated()) {
        ProcessElsewhere(user, agent, calls, i + 1, env, RunCall(user, call, tool, None, env, t));
      }
    }
  }

  lemma {:induction false} RoundsElsewhere(user: string, agent: Agent, env: Env, round: nat, t: Turn)
    requires !t.paused
    ensures SameElsewhere(Rounds(user, agent, env, round, t), Rounds(user, agent, env, round, t.(store := map[])),
            t.store, env)
    decreases agent.maxRounds - round
  {
    if round < agent.maxRounds && env.complete(round).Completed? && env.complete(round).calls != [] {
      var calls, text := env.complete(round).calls, Content(env.complete(round).content);
      var answered := t.(log := t.log + [ModelCall(t.messages)], messages := t.messages + [Assistant(text, calls)]);
      ProcessElsewhere(user, agent, calls, 0, env, answered);
      var r := Process(user, agent, calls, 0, env, answered);
      if !r.paused { RoundsElsewhere(user, agent, env, round + 1, r); }
    }
  }

  lemma {:induction false} ContinuedElsewhere(user: string, p: PendingAction, approve: bool, env: Env, left: Store)
    requires env.setup.Ready?
    ensures SameElsewhere(Continued(user, p, approve, env, left), Continued(user, p, approve, env, map[]), left, env)
  {
    var settled := Settle(user, p, approve, env, Turn(p.messages, [], left, false, 0));
    ProcessElsewhere(user, env.setup.agent, p.calls, p.index + 1, env, settled);
    var r := Process(user, env.setup.agent, p.calls, p.index + 1, env, settled);
    if !r.paused { RoundsElsewhere(user, env.setup.agent, env, 0, r); }
  }

  /**
   * A request depends on the store only through the entry it takes, and touches it only by that and by
   * parking: served at once it is the two steps, one after the other.
   */
  lemma {:induction false} ServeIsTwoSteps(store: Store, r: Request)
    ensures Serve(store, r).log == Serve(Seen(store, r), r).log
    ensures Serve(store, r).store == Parked(Left(store, r), r, Serve(Seen(store, r), r).store)
  {
    var env := r.env;
    match r
    case Chat(user, history, _) =>
      if env.setup.Ready? {
        RoundsElsewhere(user, env.setup.agent, env, 0,
                        Turn([System(env.system)] + OfHistory(history), [], store, false, 0));
      }
    case Resume(user, pendingId, approve, _) =>
      var (left, taken) := Taken(store, pendingId, user, env.now);
      if taken.Some? {
        assert map[pendingId := taken.value] - {pendingId} == map[];
        if env.setup.Ready? { ContinuedElsewhere(user, taken.value, approve, env, left); }
      }
  }

  // ---------------------------------------------------------------- schedules

  /** A request that has begun: what it saw of the store, and whether it has ended. */
  datatype Flight = Flight(r: Request, seen: Store, done: bool)

  datatype Step = Begins(r: Request) | Ends(k: nat)

  datatype State = State(store: Store, flights: seq<Flight>)

  function LogOf(f: Flight): seq<Event> {
    Serve(f.seen, f.r).log
  }

  /** Ending twice, or before beginning, does nothing. */
  function Next(st: State, s: Step): State {
    match s
    case Begins(r) => State(Left(st.store, r), st.flights + [Flight(r, Seen(st.store, r), false)])
    case Ends(k) =>
      if k < |st.flights| && !st.flights[k].done then
        var f := st.flights[k];
        State(Parked(st.store, f.r, Serve(f.seen, f.r).store), st.flights[k := f.(done := true)])
      else st
  }

  function After(steps: seq<Step>): State {
    if steps == [] then State(map[], []) else Next(After(steps[..|steps| - 1]), steps[|steps| - 1])
  }

  /** The entry was parked by flight h, which has ended. */
  ghost predicate ParkedIn(flights: seq<Flight>, h: nat, p: PendingAction) {
    h < |flights| && flights[h].done && ParkedBy(p, flights[h].r.user, flights[h].r.env, LogOf(flights[h]))
  }

  ghost predicate EntryOk(flights: seq<Flight>, id: string, p: PendingAction) {
    p.id == id && Answering(p.messages, p.calls, p.index) && exists h: nat :: ParkedIn(flights, h, p)
  }

  /** Flight k saw nothing, or the one entry it resumes, parked by an earlier flight. */
  ghost predicate FlightOk(flights: seq<Flight>, k: nat)
    requires k < |flights|
  {
    var f := flights[k];
    f.seen == map[]
    || (f.r.Resume? && f.r.pendingId in f.seen
        && var p := f.seen[f.r.pendingId];
        && f.seen == map[f.r.pendingId := p] && p.id == f.r.pendingId && p.userId == f.r.user
        && f.r.env.now - p.createdAt <= TTL_MS && Answering(p.messages, p.calls, p.index)
        && exists h: nat :: h < k && ParkedIn(flights, h, p))
  }

  ghost predicate Inv(st: State) {
    && (forall id :: id in st.store ==> EntryOk(st.flights, id, st.store[id]))
    && (forall k :: 0 <= k < |st.flights| ==> FlightOk(st.flights, k))
  }

  /** Flights are added at the end, and ended. */
  ghost predicate Extends(a: seq<Flight>, b: seq<Flight>) {
    && |a| <= |b|
    && forall i :: 0 <= i < |a| ==> b[i].r == a[i].r && b[i].seen == a[i].seen && (a[i].done ==> b[i].done)
  }

  lemma {:induction false} EntryStaysOk(a: seq<Flight>, b: seq<Flight>, id: string, p: PendingAction)
    requires Extends(a, b) && EntryOk(a, id, p)
    ensures EntryOk(b, id, p)
  {
    var h: nat :| ParkedIn(a, h, p);
    assert ParkedIn(b, h, p);
  }

  lemma {:induction false} FlightStaysOk(a: seq<Flight>, b: seq<Flight>, k: nat)
    requires Extends(a, b) && k < |a| && FlightOk(a, k)
    ensures FlightOk(b, k)
  {
    if a[k].seen != map[] {
      var p := a[k].seen[a[k].r.pendingId];
      var h: nat :| h < k && ParkedIn(a, h, p);
      assert ParkedIn(b, h, p);
    }
  }

  lemma {:induction false} SeenIsAnswering(flights: seq<Flight>, k: nat)
    requires k < |flights| && FlightOk(flights, k)
    ensures StoreAnswering(flights[k].seen)
  {
  }

  lemma {:induction false} BeginKeeps(st: State, r: Request)
    requires Inv(st)
    ensures Inv(Next(st, Begins(r)))
  {
    var after := Next(st, Begins(r));
    forall id | id in after.store ensures EntryOk(after.flights, id, after.store[id]) {
      EntryStaysOk(st.flights, after.flights, id, st.store[id]);
    }
    forall k | 0 <= k < |after.flights| ensures FlightOk(after.flights, k) {
      if k < |st.flights| {
        FlightStaysOk(st.flights, after.flights, k);
      } else if after.flights[k].seen != map[] {
        EntryStaysOk(st.flights, after.flights, r.pendingId, st.store[r.pendingId]);
        var h: nat :| ParkedIn(st.flights, h, st.store[r.pendingId]);
        assert ParkedIn(after.flights, h, st.store[r.pendingId]);
      }
    }
  }

  /** What an ending flight leaves in the store is its own, under its fresh id. */
  lemma {:induction false} OwnEntry(flights: seq<Flight>, k: nat)
    requires k < |flights| && FlightOk(flights, k)
    ensures var f := flights[k];
            var own := Serve(f.seen, f.r).store;
            f.r.env.freshId in own ==>
              var p := own[f.r.env.freshId];
              ParkedBy(p, f.r.user, f.r.env, LogOf(f)) && Answering(p.messages, p.calls, p.index)
  {
    SeenIsAnswering(flights, k);
    ServeGates(flights[k].seen, flights[k].r);
    ServeKeepsForm(flights[k].seen, flights[k].r);
  }

  lemma {:induction false} EntriesStayOk(a: seq<Flight>, b: seq<Flight>, k: nat, store: Store, own: Store)
    requires Extends(a, b) && k < |b| && b[k].done
    requires forall id :: id in store ==> EntryOk(a, id, store[id])
    requires var minted := b[k].r.env.freshId;
             minted in own ==>
               var p := own[minted];
               && ParkedBy(p, b[k].r.user, b[k].r.env, LogOf(b[k])) && Answering(p.messages, p.calls, p.index)
    ensures var after := Parked(store, b[k].r, own);
            forall id :: id in after ==> EntryOk(b, id, after[id])
  {
    var after := Parked(store, b[k].r, own);
    forall id | id in after ensures EntryOk(b, id, after[id]) {
      if id in store && after[id] == store[id] {
        EntryStaysOk(a, b, id, store[id]);
      } else {
        assert ParkedIn(b, k, after[id]);
      }
    }
  }

  lemma {:induction false} EndKeeps(st: State, k: nat)
    requires Inv(st)
    ensures Inv(Next(st, Ends(k)))
  {
    if k < |st.flights| && !st.flights[k].done {
      var flights, f := Next(st, Ends(k)).flights, st.flights[k];
      OwnEntry(st.flights, k);
      assert Extends(st.flights, flights);
      EntriesStayOk(st.flights, flights, k, st.store, Serve(f.seen, f.r).store);
      forall j | 0 <= j < |flights| ensures FlightOk(flights, j) {
        FlightStaysOk(st.flights, flights, j);
      }
    }
  }

  /** Every schedule keeps the invariant. */
  lemma {:induction false} ScheduleKeepsInv(steps: seq<Step>)
    ensures Inv(After(steps))
  {
    if steps != [] {
      var before := After(steps[..|steps| - 1]);
      ScheduleKeepsInv(steps[..|steps| - 1]);
      match steps[|steps| - 1]
      case Begins(r) => BeginKeeps(before, r);
      case Ends(k) => EndKeeps(before, k);
    }
  }

  /** However requests overlap, the conversation is well formed at every model call. */
  lemma {:induction false} EveryOverlappingCallIsWellFormed(steps: seq<Step>, k: nat)
    requires k < |After(steps).flights|
    ensures SendsWellFormed(LogOf(After(steps).flights[k]))
  {
    ScheduleKeepsInv(steps);
    var flights := After(steps).flights;
    SeenIsAnswering(flights, k);
    ServeKeepsForm(flights[k].seen, flights[k].r);
  }

  /** A gated execution of a flight is the one it resumed with approval. */
  lemma {:induction false} GatedInFlight(f: Flight, n: nat)
    requires n < |LogOf(f)| && LogOf(f)[n].Executed? && LogOf(f)[n].tool.Gated()
    ensures ApprovedExecution(f.seen, f.r, LogOf(f)[n])
  {
    ServeGates(f.seen, f.r);
  }

  lemma {:induction false} SeenWasParked(flights: seq<Flight>, k: nat) returns (h: nat)
    requires k < |flights| && FlightOk(flights, k) && flights[k].seen != map[]
    ensures h < k && flights[k].r.Resume? && flights[k].r.pendingId in flights[k].seen
    ensures ParkedIn(flights, h, flights[k].seen[flights[k].r.pendingId])
    ensures flights[k].seen[flights[k].r.pendingId].id == flights[k].r.pendingId
  {
    var p := flights[k].seen[flights[k].r.pendingId];
    h :| h < k && ParkedIn(flights, h, p);
  }

  /**
   * However requests overlap, a gated action executes only in a resume with approval, by the user whose
   * turn an earlier request had parked, for the call put to the operator, within the time to live.
   */
  lemma {:induction false} OverlappingGatesHold(steps: seq<Step>, k: nat, n: nat) returns (h: nat)
    requires k < |After(steps).flights| && n < |LogOf(After(steps).flights[k])|
    requires LogOf(After(steps).flights[k])[n].Executed? && LogOf(After(steps).flights[k])[n].tool.Gated()
    ensures var flights := After(steps).flights;
            var e, r := LogOf(flights[k])[n], flights[k].r;
            && r.Resume? && r.approve && h < k && flights[h].done
            && ConfirmRequired(r.pendingId, e.call) in LogOf(flights[h])
            && flights[h].r.user == r.user == e.user
            && r.env.now - flights[h].r.env.pausedAt <= TTL_MS
  {
    ScheduleKeepsInv(steps);
    GatedInFlight(After(steps).flights[k], n);
    h := SeenWasParked(After(steps).flights, k);
  }

  // ---------------------------------------------------------------- each id once

  /** The random ids of the requests begun are distinct. */
  ghost predicate FreshFlights(flights: seq<Flight>) {
    forall i, j :: 0 <= i < j < |flights| ==> flights[i].r.env.freshId != flights[j].r.env.freshId
  }

  predicate TookEntry(f: Flight) {
    f.r.Resume? && f.seen != map[]
  }

  /** An entry that was taken is gone for good, and no two flights took the same. */
  ghost predicate TakenOnce(st: State) {
    && (forall k :: 0 <= k < |st.flights| && TookEntry(st.flights[k]) ==> st.flights[k].r.pendingId !in st.store)
    && (forall j, k :: 0 <= j < k < |st.flights| && TookEntry(st.flights[j]) && TookEntry(st.flights[k]) ==>
          st.flights[j].r.pendingId != st.flights[k].r.pendingId)
  }

  lemma {:induction false} BeginTakesOnce(st: State, r: Request)
    requires TakenOnce(st)
    ensures TakenOnce(Next(st, Begins(r)))
  {
  }

  /** A flight that has not ended cannot bring back an id that was taken: another flight minted that. */
  lemma {:induction false} TakenIdIsNotMintedAgain(st: State, j: nat, k: nat)
    requires Inv(st) && FreshFlights(st.flights) && j < |st.flights| && k < |st.flights|
    requires TookEntry(st.flights[j]) && !st.flights[k].done
    ensures st.flights[k].r.env.freshId != st.flights[j].r.pendingId
  {
    var h := SeenWasParked(st.flights, j);
    assert h != k;
  }

  lemma {:induction false} EndTakesOnce(st: State, k: nat)
    requires Inv(st) && FreshFlights(st.flights) && TakenOnce(st)
    ensures TakenOnce(Next(st, Ends(k)))
  {
    if k < |st.flights| && !st.flights[k].done {
      var after := Next(st, Ends(k));
      OwnEntry(st.flights, k);
      forall j | 0 <= j < |after.flights| && TookEntry(after.flights[j])
        ensures after.flights[j].r.pendingId !in after.store
      {
        TakenIdIsNotMintedAgain(st, j, k);
      }
    }
  }

  lemma {:induction false} FreshBefore(steps: seq<Step>)
    requires steps != [] && FreshFlights(After(steps).flights)
    ensures FreshFlights(After(steps[..|steps| - 1]).flights)
  {
    var before, after := After(steps[..|steps| - 1]).flights, After(steps).flights;
    assert forall i :: 0 <= i < |before| ==> after[i].r == before[i].r;
  }

  lemma {:induction false} ScheduleTakesOnce(steps: seq<Step>)
    requires FreshFlights(After(steps).flights)
    ensures TakenOnce(After(steps))
  {
    if steps != [] {
      var before := After(steps[..|steps| - 1]);
      FreshBefore(steps);
      ScheduleTakesOnce(steps[..|steps| - 1]);
      ScheduleKeepsInv(steps[..|steps| - 1]);
      match steps[|steps| - 1]
      case Begins(r) => BeginTakesOnce(before, r);
      case Ends(k) => EndTakesOnce(before, k);
    }
  }

  /** However requests overlap, a pending id that was taken never names an entry again. */
  lemma {:induction false} OverlappingIdsStayGone(steps: seq<Step>, k: nat)
    requires FreshFlights(After(steps).flights)
    requires k < |After(steps).flights| && TookEntry(After(steps).flights[k])
    ensures After(steps).flights[k].r.pendingId !in After(steps).store
  {
    ScheduleTakesOnce(steps);
  }

  /** However requests overlap, each pending id leads to at most one execution. */
  lemma {:induction false} OverlappingIdsExecuteOnce(steps: seq<Step>, i: nat, k: nat, j: nat, l: nat)
    requires FreshFlights(After(steps).flights)
    requires i < |After(steps).flights| && j < |After(steps).flights|
    requires k < |LogOf(After(steps).flights[i])| && l < |LogOf(After(steps).flights[j])|
    requires LogOf(After(steps).flights[i])[k].Executed? && LogOf(After(steps).flights[j])[l].Executed?
    requires LogOf(After(steps).flights[i])[k].approval == LogOf(After(steps).flights[j])[l].approval != None
    ensures i == j && k == l
  {
    ScheduleKeepsInv(steps);
    ScheduleTakesOnce(steps);
    var flights := After(steps).flights;
    ServeGates(flights[i].seen, flights[i].r);
    ServeGates(flights[j].seen, flights[j].r);
    assert FlightOk(flights, i) && FlightOk(flights, j);
  }

  // ---------------------------------------------------------------- one at a time

  /** Requests one after the other are the schedule that ends each before the next begins. */
  function InTurn(reqs: seq<Request>): seq<Step> {
    if reqs == [] then []
    else InTurn(reqs[..|reqs| - 1]) + [Begins(reqs[|reqs| - 1]), Ends(|reqs| - 1)]
  }

  lemma {:induction false} BeginAndEnd(st: State, r: Request)
    ensures Next(Next(st, Begins(r)), Ends(|st.flights|))
            == State(Serve(st.store, r).store, st.flights + [Flight(r, Seen(st.store, r), true)])
  {
    var begun := Next(st, Begins(r));
    var n := |st.flights|;
    ServeIsTwoSteps(st.store, r);
    assert begun.flights[n := begun.flights[n].(done := true)] == st.flights + [Flight(r, Seen(st.store, r), true)];
  }

  lemma {:induction false} AfterTwo(steps: seq<Step>, a: Step, b: Step)
    ensures After(steps + [a, b]) == Next(Next(After(steps), a), b)
  {
    assert (steps + [a, b])[..|steps| + 1] == steps + [a];
    assert (steps + [a])[..|steps|] == steps;
  }

  ghost predicate SameLogs(flights: seq<Flight>, reqs: seq<Request>) {
    |flights| == |reqs| && forall i :: 0 <= i < |reqs| ==> LogOf(flights[i]) == LogAt(reqs, i)
  }

  lemma {:induction false} OneMoreLog(flights: seq<Flight>, reqs: seq<Request>, seen: Store)
    requires reqs != [] && SameLogs(flights, reqs[..|reqs| - 1])
    requires Serve(seen, reqs[|reqs| - 1]).log == LogAt(reqs, |reqs| - 1)
    ensures SameLogs(flights + [Flight(reqs[|reqs| - 1], seen, true)], reqs)
  {
    var n := |reqs| - 1;
    var all := flights + [Flight(reqs[n], seen, true)];
    forall i | 0 <= i < |reqs| ensures LogOf(all[i]) == LogAt(reqs, i) {
      if i < n { LogAtPrefix(reqs, n, i); }
    }
  }

  /** Such a schedule has the store and the logs of the run of whole requests. */
  lemma {:induction false} InTurnIsARun(reqs: seq<Request>)
    ensures After(InTurn(reqs)).store == StoreAfter(reqs) && SameLogs(After(InTurn(reqs)).flights, reqs)
  {
    if reqs != [] {
      var n := |reqs| - 1;
      var st := After(InTurn(reqs[..n]));
      InTurnIsARun(reqs[..n]);
      AfterTwo(InTurn(reqs[..n]), Begins(reqs[n]), Ends(n));
      BeginAndEnd(st, reqs[n]);
      ServeIsTwoSteps(st.store, reqs[n]);
      OneMoreLog(st.flights, reqs, Seen(st.store, reqs[n]));
    }
  }
}
