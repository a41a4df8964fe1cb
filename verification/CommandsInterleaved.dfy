/**
 * Why the bound with interleaved commands is larger than with whole failures: a run in which two
 * requests have set the lock and are slow to drop the counter, which then takes the failures of the
 * next lock time from under the limit.
 */
module CommandsInterleaved {
  import opened Wrappers
  import opened Windows
  import opened LoginThrottling
  import opened RedisSteps
  import opened RedisBound

  const ID := "x"

  function Tickets(stages: seq<Stage>): (tickets: seq<Ticket>)
    ensures |tickets| == |stages| && forall i :: 0 <= i < |stages| ==> tickets[i] == Ticket(None, ID, stages[i])
  {
    seq(|stages|, i requires 0 <= i < |stages| => Ticket(None, ID, stages[i]))
  }

  function Busy(stages: seq<Stage>): nat {
    if stages == [] then 0
    else Busy(stages[..|stages| - 1]) + if stages[|stages| - 1] == Over then 0 else 1
  }

  lemma {:induction false} BusyAreInFlight(cfg: Config, stages: seq<Stage>)
    ensures InFlight(cfg, Tickets(stages), cfg.fold(ID)) == Busy(stages)
  {
    if stages != [] {
      var n := |stages| - 1;
      BusyAreInFlight(cfg, stages[..n]);
      assert Tickets(stages)[..n] == Tickets(stages[..n]);
    }
  }

  /** A run of at most three requests at a time, none succeeding, has come to this. */
  ghost predicate Reaches(
    cfg: Config, events: seq<Event>, store: Store, stages: seq<Stage>, times: seq<int>, now: int)
  {
    && After(cfg, events) == State(store, Tickets(stages))
    && FailureTimes(cfg, events, cfg.fold(ID)) == times
    && FewAndFailing(cfg, events, cfg.fold(ID), 3)
    && ClockNeverGoesBack(events, EventTime) && forall i :: 0 <= i < |events| ==> EventTime(events[i]) <= now
  }

  lemma {:induction false} OneMore(
    cfg: Config, events: seq<Event>, store: Store, stages: seq<Stage>, times: seq<int>, now: int, e: Event,
    store': Store, stages': seq<Stage>)
    requires Reaches(cfg, events, store, stages, times, now) && now <= e.now && !e.Succeeds?
    requires Handled(cfg, State(store, Tickets(stages)), e) == State(store', Tickets(stages')) && Busy(stages') <= 3
    ensures Reaches(cfg, events + [e], store', stages',
                    times + FailureNow(cfg, State(store, Tickets(stages)), e, cfg.fold(ID)), e.now)
  {
    assert (events + [e])[..|events|] == events;
    BusyAreInFlight(cfg, stages');
  }

  lemma {:induction false} MovedStage(cfg: Config, store: Store, stages: seq<Stage>, k: nat, stage: Stage)
    requires k < |stages|
    ensures Moved(State(store, Tickets(stages)), k, stage) == State(store, Tickets(stages[k := stage]))
  {
    assert Tickets(stages)[k := Ticket(None, ID, stage)] == Tickets(stages[k := stage]);
  }

  lemma {:induction false} BusyLast(stages: seq<Stage>, stage: Stage)
    ensures Busy(stages + [stage]) == Busy(stages) + if stage == Over then 0 else 1
  {
    assert (stages + [stage])[..|stages|] == stages;
  }

  lemma {:induction false} Asked(
    cfg: Config, events: seq<Event>, store: Store, stages: seq<Stage>, times: seq<int>, now: int, later: int)
    requires Reaches(cfg, events, store, stages, times, now) && now <= later && Busy(stages) <= 2
    requires !LockBites(cfg, store, cfg.fold(ID), later)
    ensures Reaches(cfg, events + [Asks(None, ID, later)], store, stages + [Looking], times, later)
  {
    BusyLast(stages, Looking);
    NoneMore(times);
    assert Tickets(stages) + [Ticket(None, ID, Looking)] == Tickets(stages + [Looking]);
    OneMore(cfg, events, store, stages, times, now, Asks(None, ID, later), store, stages + [Looking]);
  }

  lemma {:induction false} LastStage(stages: seq<Stage>, a: Stage, b: Stage)
    ensures (stages + [a])[|stages| := b] == stages + [b]
  {
  }

  lemma {:induction false} LookedAndFailed(
    cfg: Config, events: seq<Event>, store: Store, stages: seq<Stage>, times: seq<int>, now: int)
    requires Reaches(cfg, events, store, stages + [Looking], times, now) && Busy(stages) <= 2
    ensures Reaches(cfg, events + [Looks(|stages|, now)] + [Event.Fails(|stages|, now)], store, stages + [CountAccount],
                    times, now)
  {
    var k := |stages|;
    BusyLast(stages, Verifying);
    BusyLast(stages, CountAccount);
    NoneMore(times);
    MovedStage(cfg, store, stages + [Looking], k, Verifying);
    LastStage(stages, Looking, Verifying);
    OneMore(cfg, events, store, stages + [Looking], times, now, Looks(k, now), store, stages + [Verifying]);
    MovedStage(cfg, store, stages + [Verifying], k, CountAccount);
    LastStage(stages, Verifying, CountAccount);
    OneMore(cfg, events + [Looks(k, now)], store, stages + [Verifying], times, now, Event.Fails(k, now), store,
            stages + [CountAccount]);
  }

  /** One more request gets past the check and is about to count its failure. */
  lemma {:induction false} Fails(
    cfg: Config, events: seq<Event>, store: Store, stages: seq<Stage>, times: seq<int>, now: int, later: int)
    returns (longer: seq<Event>)
    requires Reaches(cfg, events, store, stages, times, now) && now <= later && Busy(stages) <= 2
    requires !LockBites(cfg, store, cfg.fold(ID), later)
    ensures Reaches(cfg, longer, store, stages + [CountAccount], times, later)
  {
    Asked(cfg, events, store, stages, times, now, later);
    LookedAndFailed(cfg, events + [Asks(None, ID, later)], store, stages, times, later);
    longer := events + [Asks(None, ID, later)] + [Looks(|stages|, later)] + [Event.Fails(|stages|, later)];
  }

  lemma {:induction false} NoneMore<T>(s: seq<T>)
    ensures s + [] == s
  {
  }

  /** The next command of request k. */
  lemma {:induction false} Commands(
    cfg: Config, events: seq<Event>, store: Store, stages: seq<Stage>, times: seq<int>, now: int, k: nat)
    requires Reaches(cfg, events, store, stages, times, now) && k < |stages|
    requires Busy(stages[k := Commanded(cfg, store, Ticket(None, ID, stages[k]), now).1]) <= 3
    ensures var (store', stage) := Commanded(cfg, store, Ticket(None, ID, stages[k]), now);
            Reaches(cfg, events + [Command(k, now)], store', stages[k := stage],
                    if stages[k] == CountAccount then times + [now] else times, now)
  {
    var (store', stage) := Commanded(cfg, store, Ticket(None, ID, stages[k]), now);
    MovedStage(cfg, store', stages, k, stage);
    NoneMore(times);
    OneMore(cfg, events, store, stages, times, now, Command(k, now), store', stages[k := stage]);
  }

  // ---------------------------------------------------------------- traces

  /** A run and what it has come to; `busy` requests are in flight. */
  datatype Trace = Trace(
    events: seq<Event>, store: Store, stages: seq<Stage>, times: seq<int>, now: int, busy: int)

  ghost predicate Ok(cfg: Config, tr: Trace) {
    Reaches(cfg, tr.events, tr.store, tr.stages, tr.times, tr.now) && Busy(tr.stages) == tr.busy <= 3
  }

  /** `ok` stands for Ok; this trigger keeps it folded until a trace is named. */
  predicate Seen(tr: Trace) {
    true
  }

  ghost predicate Means(ok: Trace -> bool, cfg: Config) {
    forall tr {:trigger Seen(tr)} :: Seen(tr) ==> ok(tr) == Ok(cfg, tr)
  }

  lemma {:induction false} BusyMoved(stages: seq<Stage>, k: nat, stage: Stage)
    requires k < |stages|
    ensures Busy(stages[k := stage])
            == Busy(stages) - (if stages[k] == Over then 0 else 1) + if stage == Over then 0 else 1
  {
    var n := |stages| - 1;
    if k < n {
      assert stages[k := stage][..n] == stages[..n][k := stage];
      BusyMoved(stages[..n], k, stage);
    } else {
      assert stages[k := stage][..n] == stages[..n];
    }
  }

  /** One more request, about to count its failure. */
  lemma {:induction false} Joins(ok: Trace -> bool, cfg: Config, tr: Trace, later: int) returns (tr': Trace)
    requires Means(ok, cfg) && ok(tr) && tr.busy <= 2 && tr.now <= later
    requires !LockBites(cfg, tr.store, cfg.fold(ID), later)
    ensures ok(tr')
    ensures tr' == tr.(events := tr'.events, stages := tr.stages + [CountAccount], now := later, busy := tr.busy + 1)
  {
    assert Seen(tr);
    var events := Fails(cfg, tr.events, tr.store, tr.stages, tr.times, tr.now, later);
    BusyLast(tr.stages, CountAccount);
    tr' := tr.(events := events, stages := tr.stages + [CountAccount], now := later, busy := tr.busy + 1);
    assert Seen(tr');
  }

  function Fail(cfg: Config): Key {
    FailKey(cfg.fold(ID))
  }

  function Lock(cfg: Config): Key {
    LockKey(cfg.fold(ID))
  }

  /** One command of a request that stays in flight. */
  lemma {:induction false} GoesOn(
    ok: Trace -> bool, cfg: Config, tr: Trace, k: nat, store: Store, stage: Stage)
    returns (tr': Trace)
    requires Means(ok, cfg) && ok(tr) && k < |tr.stages| && tr.stages[k] != Over && stage != Over
    requires Commanded(cfg, tr.store, Ticket(None, ID, tr.stages[k]), tr.now) == (store, stage)
    ensures ok(tr')
    ensures tr' == tr.(events := tr'.events, store := store, stages := tr.stages[k := stage],
                       times := if tr.stages[k] == CountAccount then tr.times + [tr.now] else tr.times)
  {
    assert Seen(tr);
    BusyMoved(tr.stages, k, stage);
    Commands(cfg, tr.events, tr.store, tr.stages, tr.times, tr.now, k);
    tr' := tr.(events := tr.events + [Command(k, tr.now)], store := store, stages := tr.stages[k := stage],
               times := if tr.stages[k] == CountAccount then tr.times + [tr.now] else tr.times);
    assert Seen(tr');
  }

  /** The last command of a request. */
  lemma {:induction false} Finishes(
    ok: Trace -> bool, cfg: Config, tr: Trace, k: nat, store: Store)
    returns (tr': Trace)
    requires Means(ok, cfg) && ok(tr) && k < |tr.stages| && tr.stages[k] != Over && tr.stages[k] != CountAccount
    requires Commanded(cfg, tr.store, Ticket(None, ID, tr.stages[k]), tr.now) == (store, Over)
    ensures ok(tr')
    ensures tr' == tr.(events := tr'.events, store := store, stages := tr.stages[k := Over], busy := tr.busy - 1)
  {
    assert Seen(tr);
    BusyMoved(tr.stages, k, Over);
    Commands(cfg, tr.events, tr.store, tr.stages, tr.times, tr.now, k);
    tr' := tr.(events := tr.events + [Command(k, tr.now)], store := store, stages := tr.stages[k := Over],
               busy := tr.busy - 1);
    assert Seen(tr');
  }

  /** Counting without a counter, and its expiry. */
  lemma {:induction false} CommandedFirst(cfg: Config, store: Store, now: int)
    requires !Live(store, Fail(cfg), now) && cfg.failMax >= 2
    ensures var counted := store[Fail(cfg) := Cell(1, None)];
            && Commanded(cfg, store, Ticket(None, ID, CountAccount), now) == (counted, ExpireAccount(1))
            && Commanded(cfg, counted, Ticket(None, ID, ExpireAccount(1)), now)
               == (store[Fail(cfg) := Cell(1, Some(now + cfg.lockMs))], Over)
  {
    var counted := store[Fail(cfg) := Cell(1, None)];
    assert counted[Fail(cfg) := Cell(1, Some(now + cfg.lockMs))] == store[Fail(cfg) := Cell(1, Some(now + cfg.lockMs))];
  }

  /** Counting with a counter that is one below the limit or above. */
  lemma {:induction false} CommandedUp(cfg: Config, store: Store, now: int)
    requires Live(store, Fail(cfg), now) && 1 <= store[Fail(cfg)].value && cfg.failMax <= store[Fail(cfg)].value + 1
    ensures Commanded(cfg, store, Ticket(None, ID, CountAccount), now)
            == (store[Fail(cfg) := store[Fail(cfg)].(value := store[Fail(cfg)].value + 1)], SetLock)
  {
  }

  /** A failure that finds no counter, with its expiry: below the limit it is done. */
  lemma {:induction false} CountsFirst(ok: Trace -> bool, cfg: Config, tr: Trace, k: nat) returns (tr': Trace)
    requires Means(ok, cfg) && ok(tr) && k < |tr.stages| && tr.stages[k] == CountAccount && cfg.failMax >= 2
    requires !Live(tr.store, Fail(cfg), tr.now)
    ensures ok(tr')
    ensures tr' == tr.(events := tr'.events, store := tr.store[Fail(cfg) := Cell(1, Some(tr.now + cfg.lockMs))],
                       stages := tr.stages[k := Over], times := tr.times + [tr.now], busy := tr.busy - 1)
  {
    CommandedFirst(cfg, tr.store, tr.now);
    tr' := GoesOn(ok, cfg, tr, k, tr.store[Fail(cfg) := Cell(1, None)], ExpireAccount(1));
    UpdatedTwice(tr.stages, k, ExpireAccount(1), Over);
    tr' := Finishes(ok, cfg, tr', k, tr.store[Fail(cfg) := Cell(1, Some(tr.now + cfg.lockMs))]);
  }

  lemma {:induction false} UpdatedTwice(stages: seq<Stage>, k: nat, a: Stage, b: Stage)
    requires k < |stages|
    ensures stages[k := a][k] == a && stages[k := a][k := b] == stages[k := b]
  {
  }

  /** A failure that finds the counter one below the limit or above: its request is going to lock. */
  lemma {:induction false} CountsUp(ok: Trace -> bool, cfg: Config, tr: Trace, k: nat) returns (tr': Trace)
    requires Means(ok, cfg) && ok(tr) && k < |tr.stages| && tr.stages[k] == CountAccount
    requires Live(tr.store, Fail(cfg), tr.now) && 1 <= tr.store[Fail(cfg)].value
    requires cfg.failMax <= tr.store[Fail(cfg)].value + 1
    ensures ok(tr')
    ensures tr' == tr.(events := tr'.events, times := tr.times + [tr.now], stages := tr.stages[k := SetLock],
                       store := tr.store[Fail(cfg) := tr.store[Fail(cfg)].(value := tr.store[Fail(cfg)].value + 1)])
  {
    CommandedUp(cfg, tr.store, tr.now);
    var cell := tr.store[Fail(cfg)];
    tr' := GoesOn(ok, cfg, tr, k, tr.store[Fail(cfg) := cell.(value := cell.value + 1)], SetLock);
  }

  lemma {:induction false} Locks(ok: Trace -> bool, cfg: Config, tr: Trace, k: nat) returns (tr': Trace)
    requires Means(ok, cfg) && ok(tr) && k < |tr.stages| && tr.stages[k] == SetLock
    ensures ok(tr')
    ensures tr' == tr.(events := tr'.events, stages := tr.stages[k := DropCounter],
                       store := tr.store[Lock(cfg) := Cell(1, Some(tr.now + cfg.lockMs))])
  {
    tr' := GoesOn(ok, cfg, tr, k, tr.store[Lock(cfg) := Cell(1, Some(tr.now + cfg.lockMs))], DropCounter);
  }

  lemma {:induction false} Drops(ok: Trace -> bool, cfg: Config, tr: Trace, k: nat) returns (tr': Trace)
    requires Means(ok, cfg) && ok(tr) && k < |tr.stages| && tr.stages[k] == DropCounter
    ensures ok(tr')
    ensures tr' == tr.(events := tr'.events, stages := tr.stages[k := Over], store := tr.store - {Fail(cfg)},
                       busy := tr.busy - 1)
  {
    tr' := Finishes(ok, cfg, tr, k, tr.store - {Fail(cfg)});
  }

  // ---------------------------------------------------------------- the run

  /** Two failures to a lock, the smallest limit that shows it. */
  predicate Small(cfg: Config) {
    cfg.Valid() && cfg.failMax == 2 && cfg.ttlSlackMs == 0
  }

  lemma {:induction false} NothingYet(ok: Trace -> bool, cfg: Config) returns (tr: Trace)
    requires Means(ok, cfg)
    ensures ok(tr) && tr == Trace([], map[], [], [], 0, 0)
  {
    tr := Trace([], map[], [], [], 0, 0);
    assert Seen(tr) && Tickets([]) == [];
  }

  /** Three requests join at time 0. */
  lemma {:induction false} ThreeJoin(ok: Trace -> bool, cfg: Config) returns (tr: Trace)
    requires Means(ok, cfg)
    ensures ok(tr) && tr.store == map[] && tr.now == 0 && tr.busy == 3
    ensures tr.stages == [CountAccount, CountAccount, CountAccount]
  {
    tr := NothingYet(ok, cfg);
    tr := Joins(ok, cfg, tr, 0);
    tr := Joins(ok, cfg, tr, 0);
    tr := Joins(ok, cfg, tr, 0);
  }

  /** The first of them has counted its failure. */
  lemma {:induction false} OneCounts(ok: Trace -> bool, cfg: Config) returns (tr: Trace)
    requires Small(cfg) && Means(ok, cfg)
    ensures ok(tr) && tr.store == map[Fail(cfg) := Cell(1, Some(cfg.lockMs))] && tr.now == 0 && tr.busy == 2
    ensures tr.stages == [Over, CountAccount, CountAccount]
  {
    tr := ThreeJoin(ok, cfg);
    tr := CountsFirst(ok, cfg, tr, 0);
  }

  /** The others reach the limit. */
  lemma {:induction false} TwoReachLimit(ok: Trace -> bool, cfg: Config) returns (tr: Trace)
    requires Small(cfg) && Means(ok, cfg)
    ensures ok(tr) && tr.store == map[Fail(cfg) := Cell(3, Some(cfg.lockMs))] && tr.now == 0 && tr.busy == 2
    ensures tr.stages == [Over, SetLock, SetLock]
  {
    var one := OneCounts(ok, cfg);
    var two := CountsUp(ok, cfg, one, 1);
    assert two.store == map[Fail(cfg) := Cell(2, Some(cfg.lockMs))];
    tr := CountsUp(ok, cfg, two, 2);
  }

  /** Three requests of which the last two have reached the limit and set the lock at time 0. */
  predicate TwoSlow(ok: Trace -> bool, cfg: Config, tr: Trace) {
    && ok(tr) && tr.now == 0 && tr.busy == 2 && tr.stages == [Over, DropCounter, DropCounter]
    && tr.store == map[Fail(cfg) := Cell(3, Some(cfg.lockMs)), Lock(cfg) := Cell(1, Some(cfg.lockMs))]
  }

  lemma {:induction false} OneLocks(ok: Trace -> bool, cfg: Config) returns (tr: Trace)
    requires Small(cfg) && Means(ok, cfg)
    ensures ok(tr) && tr.now == 0 && tr.busy == 2 && tr.stages == [Over, DropCounter, SetLock]
    ensures tr.store == map[Fail(cfg) := Cell(3, Some(cfg.lockMs)), Lock(cfg) := Cell(1, Some(cfg.lockMs))]
  {
    tr := TwoReachLimit(ok, cfg);
    tr := Locks(ok, cfg, tr, 1);
  }

  lemma {:induction false} ReachTwoSlow(ok: Trace -> bool, cfg: Config) returns (tr: Trace)
    requires Small(cfg) && Means(ok, cfg)
    ensures TwoSlow(ok, cfg, tr)
  {
    tr := OneLocks(ok, cfg);
    tr := Locks(ok, cfg, tr, 2);
  }

  /** Once the lock is over, one failure stays below the limit; then request k drops the counter. */
  lemma {:induction false} OneUnderTheLimit(ok: Trace -> bool, cfg: Config, tr: Trace, k: nat) returns (tr': Trace)
    requires Small(cfg) && Means(ok, cfg) && ok(tr) && tr.busy <= 2 && tr.now <= cfg.lockMs
    requires k < |tr.stages| && tr.stages[k] == DropCounter
    requires !Live(tr.store, Fail(cfg), cfg.lockMs)
    requires Lock(cfg) in tr.store && tr.store[Lock(cfg)] == Cell(1, Some(cfg.lockMs))
    ensures ok(tr') && tr'.now == cfg.lockMs && tr'.times == tr.times + [cfg.lockMs] && tr'.busy == tr.busy - 1
    ensures |tr'.stages| == |tr.stages| + 1
    ensures forall j :: 0 <= j < |tr.stages| && j != k ==> tr'.stages[j] == tr.stages[j]
    ensures Fail(cfg) !in tr'.store && Lock(cfg) in tr'.store && tr'.store[Lock(cfg)] == tr.store[Lock(cfg)]
  {
    tr' := Joins(ok, cfg, tr, cfg.lockMs);
    tr' := CountsFirst(ok, cfg, tr', |tr.stages|);
    tr' := Drops(ok, cfg, tr', k);
  }

  /** Each of the two slow requests drops a counter that has taken one failure of the next lock time. */
  lemma {:induction false} TwoUnderTheLimit(ok: Trace -> bool, cfg: Config) returns (tr: Trace)
    requires Small(cfg) && Means(ok, cfg)
    ensures ok(tr) && tr.busy == 0 && tr.now == cfg.lockMs && Fail(cfg) !in tr.store
    ensures Lock(cfg) in tr.store && tr.store[Lock(cfg)] == Cell(1, Some(cfg.lockMs))
    ensures CountIn(tr.times, cfg.lockMs, cfg.lockMs + cfg.lockMs) >= 2
  {
    var slow := ReachTwoSlow(ok, cfg);
    var once := OneUnderTheLimit(ok, cfg, slow, 1);
    OneMoreCounts(slow.times, cfg.lockMs, cfg.lockMs + cfg.lockMs);
    tr := OneUnderTheLimit(ok, cfg, once, 2);
    OneMoreCounts(once.times, cfg.lockMs, cfg.lockMs + cfg.lockMs);
  }

  /** With no counter and no lock: one failure below the limit, and three more that pass the check together. */
  lemma {:induction false} FourMore(ok: Trace -> bool, cfg: Config, tr: Trace) returns (tr': Trace)
    requires Small(cfg) && Means(ok, cfg) && ok(tr) && tr.busy == 0 && tr.now == cfg.lockMs && Fail(cfg) !in tr.store
    requires Lock(cfg) in tr.store && tr.store[Lock(cfg)] == Cell(1, Some(cfg.lockMs))
    ensures ok(tr') && tr'.now == cfg.lockMs
    ensures tr'.times == tr.times + [cfg.lockMs] + [cfg.lockMs] + [cfg.lockMs] + [cfg.lockMs]
  {
    var n := |tr.stages|;
    tr' := Joins(ok, cfg, tr, cfg.lockMs);
    tr' := CountsFirst(ok, cfg, tr', n);
    tr' := Joins(ok, cfg, tr', cfg.lockMs);
    tr' := Joins(ok, cfg, tr', cfg.lockMs);
    tr' := Joins(ok, cfg, tr', cfg.lockMs);
    tr' := CountsUp(ok, cfg, tr', n + 1);
    tr' := CountsUp(ok, cfg, tr', n + 2);
    tr' := CountsUp(ok, cfg, tr', n + 3);
  }

  lemma {:induction false} OneMoreCounts(times: seq<int>, t: int, hi: int)
    requires t < hi
    ensures CountIn(times + [t], t, hi) == CountIn(times, t, hi) + 1
  {
    CountInConcat(times, [t], t, hi);
    assert [t][1..] == [];
  }

  lemma {:induction false} FourMoreCount(times: seq<int>, t: int, hi: int)
    requires t < hi
    ensures CountIn(times + [t] + [t] + [t] + [t], t, hi) == CountIn(times, t, hi) + 4
  {
    OneMoreCounts(times, t, hi);
    OneMoreCounts(times + [t], t, hi);
    OneMoreCounts(times + [t] + [t], t, hi);
    OneMoreCounts(times + [t] + [t] + [t], t, hi);
  }

  lemma {:induction false} SixCounted(ok: Trace -> bool, cfg: Config) returns (tr: Trace)
    requires Small(cfg) && Means(ok, cfg)
    ensures ok(tr) && CountIn(tr.times, cfg.lockMs, cfg.lockMs + cfg.lockMs) >= 6
  {
    var two := TwoUnderTheLimit(ok, cfg);
    tr := FourMore(ok, cfg, two);
    FourMoreCount(two.times, cfg.lockMs, cfg.lockMs + cfg.lockMs);
  }

  lemma {:induction false} OkTrace(cfg: Config, tr: Trace)
    requires Ok(cfg, tr)
    ensures ClockNeverGoesBack(tr.events, EventTime) && FewAndFailing(cfg, tr.events, cfg.fold(ID), 3)
    ensures FailureTimes(cfg, tr.events, cfg.fold(ID)) == tr.times
  {
  }

  /**
   * With a limit of two and at most three requests in flight, six failures are recorded within one lock
   * time: one more than the 2·failMax - 2 + k that whole failures keep to.
   */
  lemma {:induction false} InterleavingExceeds(cfg: Config) returns (events: seq<Event>)
    requires Small(cfg)
    ensures ClockNeverGoesBack(events, EventTime) && FewAndFailing(cfg, events, cfg.fold(ID), 3)
    ensures CountIn(FailureTimes(cfg, events, cfg.fold(ID)), cfg.lockMs, cfg.lockMs + cfg.lockMs)
            > 2 * cfg.failMax - 2 + 3
  {
    var ok: Trace -> bool := tr => Ok(cfg, tr);
    var tr := SixCounted(ok, cfg);
    assert Seen(tr);
    OkTrace(cfg, tr);
    events := tr.events;
  }
}
