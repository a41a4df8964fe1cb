/**
 * The login throttle with attempts in flight: an attempt that has passed assertAllowed records its
 * failure later, and others are checked in between (login-throttle.service.ts).
 */
module InFlight {
  import opened Wrappers
  import opened Windows
  import opened LoginThrottling

  /** An attempt between its check and its end. */
  datatype Ticket = Ticket(ip: Option<string>, id: string)

  /** `k` is the position of the attempt among those in flight. */
  datatype Event =
    | Asks(ip: Option<string>, id: string, now: int)
    | Fails(k: nat, now: int)
    | Succeeds(k: nat, now: int)
    | Ends(k: nat, now: int)

  datatype State = State(store: Store, flying: seq<Ticket>)

  predicate Enabled(st: State, e: Event) {
    e.Asks? || e.k < |st.flying|
  }

  function Without(flying: seq<Ticket>, k: nat): seq<Ticket>
    requires k < |flying|
  {
    flying[..k] + flying[k + 1..]
  }

  function Handled(cfg: Config, st: State, e: Event): State
    requires Enabled(st, e)
  {
    match e
    case Asks(ip, id, now) =>
      if Check(cfg, st.store, ip, id, now).Allowed? then st.(flying := st.flying + [Ticket(ip, id)]) else st
    case Fails(k, now) =>
      State(AfterFailure(cfg, st.store, st.flying[k].ip, st.flying[k].id, now), Without(st.flying, k))
    case Succeeds(k, _) => State(AfterSuccess(cfg, st.store, st.flying[k].id), Without(st.flying, k))
    case Ends(k, _) => st.(flying := Without(st.flying, k))
  }

  ghost predicate IsRun(cfg: Config, events: seq<Event>)
    decreases |events|, 0
  {
    events == []
    || (IsRun(cfg, events[..|events| - 1]) && Enabled(After(cfg, events[..|events| - 1]), events[|events| - 1]))
  }

  ghost function After(cfg: Config, events: seq<Event>): State
    requires IsRun(cfg, events)
    decreases |events|, 1
  {
    if events == [] then State(map[], [])
    else Handled(cfg, After(cfg, events[..|events| - 1]), events[|events| - 1])
  }

  function FlyingFor(cfg: Config, flying: seq<Ticket>, account: string): nat {
    if flying == [] then 0
    else (if cfg.fold(flying[0].id) == account then 1 else 0) + FlyingFor(cfg, flying[1..], account)
  }

  /** At no time are more than `k` attempts of the account in flight, and none succeeds. */
  ghost predicate FewAndFailing(cfg: Config, events: seq<Event>, account: string, k: nat)
    requires IsRun(cfg, events)
    decreases |events|
  {
    && FlyingFor(cfg, After(cfg, events).flying, account) <= k
    && (events != [] ==>
          var n := |events| - 1;
          var st, e := After(cfg, events[..n]), events[n];
          && FewAndFailing(cfg, events[..n], account, k)
          && (e.Succeeds? ==> cfg.fold(st.flying[e.k].id) != account))
  }

  function EventTime(e: Event): int {
    e.now
  }

  /** The times of the failures recorded against the account. */
  ghost function FailureTimes(cfg: Config, events: seq<Event>, account: string): seq<int>
    requires IsRun(cfg, events)
    decreases |events|
  {
    if events == [] then []
    else
      var n := |events| - 1;
      FailureTimes(cfg, events[..n], account) + FailureNow(cfg, After(cfg, events[..n]), events[n], account)
  }

  function FailureNow(cfg: Config, st: State, e: Event, account: string): seq<int>
    requires Enabled(st, e)
  {
    if e.Fails? && cfg.fold(st.flying[e.k].id) == account then [e.now] else []
  }

  // ---------------------------------------------------------------- attempts in flight

  lemma {:induction false} FlyingConcat(cfg: Config, a: seq<Ticket>, b: seq<Ticket>, account: string)
    ensures FlyingFor(cfg, a + b, account) == FlyingFor(cfg, a, account) + FlyingFor(cfg, b, account)
  {
    if a == [] {
      assert a + b == b;
    } else {
      assert (a + b)[1..] == a[1..] + b;
      FlyingConcat(cfg, a[1..], b, account);
    }
  }

  lemma {:induction false} OneFlying(cfg: Config, t: Ticket, account: string)
    ensures FlyingFor(cfg, [t], account) == if cfg.fold(t.id) == account then 1 else 0
  {
    assert [t][1..] == [];
  }

  lemma {:induction false} FlyingWithout(cfg: Config, flying: seq<Ticket>, k: nat, account: string)
    requires k < |flying|
    ensures FlyingFor(cfg, flying, account)
            == FlyingFor(cfg, Without(flying, k), account) + if cfg.fold(flying[k].id) == account then 1 else 0
  {
    assert flying == flying[..k] + ([flying[k]] + flying[k + 1..]);
    FlyingConcat(cfg, flying[..k], [flying[k]] + flying[k + 1..], account);
    FlyingConcat(cfg, [flying[k]], flying[k + 1..], account);
    FlyingConcat(cfg, flying[..k], flying[k + 1..], account);
    OneFlying(cfg, flying[k], account);
  }

  // ---------------------------------------------------------------- the account, seen from one window

  function Gap(cfg: Config): int {
    cfg.lockMs - cfg.ttlSlackMs
  }

  /** The account's counter stays below the limit and runs out one lock time after it began. */
  ghost predicate CounterOk(cfg: Config, store: Store, account: string, now: int) {
    var key := FailKey(account);
    key in store ==>
      && store[key].expiresAt.Some? && 1 <= store[key].value < cfg.failMax
      && store[key].expiresAt.value - cfg.lockMs <= now
  }

  /** The lock bites until the end of the window: only what is in flight can still fail. */
  ghost predicate LockedOut(cfg: Config, store: Store, account: string, n: int, flying: int, k: int, lo: int) {
    var key := LockKey(account);
    && key in store && store[key].expiresAt.Some? && store[key].expiresAt.value >= lo + cfg.lockMs
    && n + flying <= 2 * cfg.failMax - 2 + k
  }

  /** What the window holds so far is in the live counter, or in one before it that never reached the limit. */
  ghost predicate StillCounting(cfg: Config, store: Store, account: string, n: int, now: int, lo: int) {
    var key := FailKey(account);
    if Live(store, key, now) && store[key].expiresAt.Some?
    then n <= store[key].value + if store[key].expiresAt.value - cfg.lockMs >= lo then cfg.failMax - 1 else 0
    else n <= cfg.failMax - 1
  }

  /** The `n` failures recorded from `lo` on, when `flying` attempts of at most `k` are in flight. */
  ghost predicate Accounted(
    cfg: Config, store: Store, account: string, n: int, flying: int, k: int, now: int, lo: int)
  {
    && CounterOk(cfg, store, account, now)
    && (now < lo ==> n == 0)
    && (lo <= now < lo + Gap(cfg) ==>
          LockedOut(cfg, store, account, n, flying, k, lo) || StillCounting(cfg, store, account, n, now, lo))
    && (lo + Gap(cfg) <= now ==> n <= 2 * cfg.failMax - 2 + k)
  }

  lemma {:induction false} TimePasses(cfg: Config, store: Store, account: string, n: int, flying: nat, k: nat,
                                      now: int, later: int, lo: int)
    requires cfg.Valid() && cfg.ttlSlackMs <= cfg.lockMs && now <= later
    requires Accounted(cfg, store, account, n, flying, k, now, lo)
    ensures Accounted(cfg, store, account, n, flying, k, later, lo)
  {
  }

  /** A check lets an attempt fly only while the account is not locked. */
  lemma {:induction false} AskAccounted(cfg: Config, st: State, e: Event, account: string, n: int, k: nat, lo: int)
    requires cfg.Valid() && cfg.ttlSlackMs <= cfg.lockMs && e.Asks?
    requires Accounted(cfg, st.store, account, n, FlyingFor(cfg, st.flying, account), k, e.now, lo)
    ensures var after := Handled(cfg, st, e);
            Accounted(cfg, after.store, account, n, FlyingFor(cfg, after.flying, account), k, e.now, lo)
  {
    FlyingConcat(cfg, st.flying, [Ticket(e.ip, e.id)], account);
    OneFlying(cfg, Ticket(e.ip, e.id), account);
  }

  /** A failure of the account: it takes one from those in flight and adds one to the window. */
  lemma {:induction false} FailureAccounted(cfg: Config, store: Store, ip: Option<string>, id: string, n: int,
                                            flying: int, k: int, now: int, lo: int)
    requires cfg.Valid() && cfg.ttlSlackMs <= cfg.lockMs && 1 <= flying <= k
    requires Accounted(cfg, store, cfg.fold(id), n, flying, k, now, lo)
    ensures Accounted(cfg, AfterFailure(cfg, store, ip, id, now), cfg.fold(id),
                      n + if lo <= now < lo + Gap(cfg) then 1 else 0, flying - 1, k, now, lo)
  {
    FailureKeys(cfg, store, ip, id, now);
    if LockedOut(cfg, store, cfg.fold(id), n, flying, k, lo) { LockKept(cfg, store, ip, id, now); }
  }

  /** A failure leaves the account's lock, or sets a new one. */
  lemma {:induction false} LockKept(cfg: Config, store: Store, ip: Option<string>, id: string, now: int)
    ensures var key, after := LockKey(cfg.fold(id)), AfterFailure(cfg, store, ip, id, now);
            key in store ==> key in after && (after[key] == store[key] || after[key] == Cell(1, Some(now + cfg.lockMs)))
  {
  }

  /** The end of an attempt, or a failure or success under another name, changes nothing for the account. */
  lemma {:induction false} ElsewhereAccounted(
    cfg: Config, st: State, e: Event, account: string, n: int, k: nat, lo: int)
    requires cfg.Valid() && cfg.ttlSlackMs <= cfg.lockMs && !e.Asks? && e.k < |st.flying|
    requires e.Ends? || cfg.fold(st.flying[e.k].id) != account
    requires Accounted(cfg, st.store, account, n, FlyingFor(cfg, st.flying, account), k, e.now, lo)
    ensures var after := Handled(cfg, st, e);
            Accounted(cfg, after.store, account, n, FlyingFor(cfg, after.flying, account), k, e.now, lo)
  {
    FlyingWithout(cfg, st.flying, e.k, account);
    if e.Fails? {
      var id := st.flying[e.k].id;
      FailureElsewhere(cfg, st.store, st.flying[e.k].ip, id, e.now, FailKey(account));
      FailureElsewhere(cfg, st.store, st.flying[e.k].ip, id, e.now, LockKey(account));
    }
  }

  lemma {:induction false} FailureElsewhere(
    cfg: Config, store: Store, ip: Option<string>, id: string, now: int, key: Key)
    requires (key.FailKey? || key.LockKey?) && key.account != cfg.fold(id)
    ensures var after := AfterFailure(cfg, store, ip, id, now);
            (key in after <==> key in store) && (key in store ==> after[key] == store[key])
  {
  }

  lemma {:induction false} EventAccounted(
    cfg: Config, st: State, e: Event, account: string, times: seq<int>, k: nat, lo: int)
    requires cfg.Valid() && cfg.ttlSlackMs <= cfg.lockMs && Enabled(st, e)
    requires FlyingFor(cfg, st.flying, account) <= k
    requires e.Succeeds? ==> cfg.fold(st.flying[e.k].id) != account
    requires Accounted(cfg, st.store, account, CountIn(times, lo, lo + Gap(cfg)), FlyingFor(cfg, st.flying, account),
             k, e.now, lo)
    ensures var after := Handled(cfg, st, e);
            Accounted(cfg, after.store, account, CountIn(times + FailureNow(cfg, st, e, account), lo, lo + Gap(cfg)),
                      FlyingFor(cfg, after.flying, account), k, e.now, lo)
  {
    var n := CountIn(times, lo, lo + Gap(cfg));
    CountInConcat(times, FailureNow(cfg, st, e, account), lo, lo + Gap(cfg));
    if e.Asks? {
      AskAccounted(cfg, st, e, account, n, k, lo);
    } else if e.Fails? && cfg.fold(st.flying[e.k].id) == account {
      FlyingWithout(cfg, st.flying, e.k, account);
      FailureAccounted(cfg, st.store, st.flying[e.k].ip, st.flying[e.k].id, n, FlyingFor(cfg, st.flying, account), k,
        e.now, lo);
    } else {
      ElsewhereAccounted(cfg, st, e, account, n, k, lo);
    }
  }

  lemma {:induction false} RunAccounted(cfg: Config, events: seq<Event>, account: string, k: nat, lo: int)
    requires cfg.Valid() && cfg.ttlSlackMs <= cfg.lockMs && events != []
    requires IsRun(cfg, events) && ClockNeverGoesBack(events, EventTime) && FewAndFailing(cfg, events, account, k)
    ensures Accounted(cfg, After(cfg, events).store, account,
            CountIn(FailureTimes(cfg, events, account), lo, lo + Gap(cfg)),
                      FlyingFor(cfg, After(cfg, events).flying, account), k, events[|events| - 1].now, lo)
  {
    var n := |events| - 1;
    var before, e := events[..n], events[n];
    if n > 0 {
      RunAccounted(cfg, before, account, k, lo);
      assert events[n - 1].now <= e.now;
      TimePasses(cfg, After(cfg, before).store, account, CountIn(FailureTimes(cfg, before, account), lo, lo + Gap(cfg)),
                 FlyingFor(cfg, After(cfg, before).flying, account), k, before[n - 1].now, e.now, lo);
    } else {
      assert before == [];
    }
    EventAccounted(cfg, After(cfg, before), e, account, FailureTimes(cfg, before, account), k, lo);
  }

  /**
   * With at most `k` attempts of an account in flight at any time and none succeeding, any half-open
   * interval as long as the effective lock holds at most 2·failMax - 2 + k of its failures; one at a
   * time that is fewer than 2·failMax.
   */
  lemma {:induction false} InFlightBound(cfg: Config, events: seq<Event>, account: string, k: nat, lo: int)
    requires cfg.Valid() && cfg.ttlSlackMs <= cfg.lockMs && k >= 1
    requires IsRun(cfg, events) && ClockNeverGoesBack(events, EventTime) && FewAndFailing(cfg, events, account, k)
    ensures CountIn(FailureTimes(cfg, events, account), lo, lo + cfg.lockMs - cfg.ttlSlackMs) <= 2 * cfg.failMax - 2 + k
  {
    if events != [] {
      RunAccounted(cfg, events, account, k, lo);
    }
  }
}
