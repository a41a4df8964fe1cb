/**
 * How many failures of one account the throttle lets through when its Redis commands interleave:
 * with at most k requests between check and last command at any time, fewer than (k + 1)·failMax in
 * any effective lock time.
 */
module RedisBound {
  import opened Wrappers
  import opened Windows
  import opened LoginThrottling
  import opened RedisSteps

  // ---------------------------------------------------------------- the requests of one account

  /**
   * A request of the account that has yet to count its failure, one that is going to lock, one that
   * has locked and is going to drop the counter, and one that has only the expiry left.
   */
  datatype Class = Gone | Coming | Locking | Dropping | Expiring

  function ClassOf(cfg: Config, t: Ticket, account: string): Class {
    if cfg.fold(t.id) != account then Gone
    else match t.stage
      case Over => Gone
      case SetLock => Locking
      case DropCounter => Dropping
      case ExpireAccount(fails) => if fails >= cfg.failMax then Locking else Expiring
      case _ => Coming
  }

  function Tally(cfg: Config, tickets: seq<Ticket>, account: string, c: Class): nat {
    if tickets == [] then 0
    else
      var n := |tickets| - 1;
      Tally(cfg, tickets[..n], account, c) + if ClassOf(cfg, tickets[n], account) == c then 1 else 0
  }

  function InFlight(cfg: Config, tickets: seq<Ticket>, account: string): nat {
    Tally(cfg, tickets, account, Coming) + Tally(cfg, tickets, account, Locking)
    + Tally(cfg, tickets, account, Dropping) + Tally(cfg, tickets, account, Expiring)
  }

  function One(c: Class, d: Class): int {
    if c == d then 1 else 0
  }

  lemma {:induction false} TallyMoved(cfg: Config, tickets: seq<Ticket>, k: nat, t: Ticket, account: string, c: Class)
    requires k < |tickets|
    ensures Tally(cfg, tickets[k := t], account, c)
            == Tally(cfg, tickets, account, c) - One(ClassOf(cfg, tickets[k], account), c)
              + One(ClassOf(cfg, t, account), c)
  {
    var n := |tickets| - 1;
    if k < n {
      assert tickets[k := t][..n] == tickets[..n][k := t];
      TallyMoved(cfg, tickets[..n], k, t, account, c);
    } else {
      assert tickets[k := t][..n] == tickets[..n];
    }
  }

  /** How many of each class. */
  datatype Crowd = Crowd(coming: int, locking: int, dropping: int, expiring: int) {
    predicate Valid(k: nat) {
      coming >= 0 && locking >= 0 && dropping >= 0 && expiring >= 0 && coming + locking + dropping + expiring <= k
    }

    /** One request of class `c` less and one of class `d` more. */
    function Shifted(c: Class, d: Class): Crowd {
      Crowd(coming - One(c, Coming) + One(d, Coming), locking - One(c, Locking) + One(d, Locking),
            dropping - One(c, Dropping) + One(d, Dropping), expiring - One(c, Expiring) + One(d, Expiring))
    }
  }

  function CrowdOf(cfg: Config, tickets: seq<Ticket>, account: string): Crowd {
    Crowd(Tally(cfg, tickets, account, Coming), Tally(cfg, tickets, account, Locking),
          Tally(cfg, tickets, account, Dropping), Tally(cfg, tickets, account, Expiring))
  }

  lemma {:induction false} CrowdMoved(cfg: Config, tickets: seq<Ticket>, k: nat, t: Ticket, account: string)
    requires k < |tickets|
    ensures CrowdOf(cfg, tickets[k := t], account)
            == CrowdOf(cfg, tickets, account).Shifted(ClassOf(cfg, tickets[k], account), ClassOf(cfg, t, account))
  {
    TallyMoved(cfg, tickets, k, t, account, Coming);
    TallyMoved(cfg, tickets, k, t, account, Locking);
    TallyMoved(cfg, tickets, k, t, account, Dropping);
    TallyMoved(cfg, tickets, k, t, account, Expiring);
  }

  lemma {:induction false} CrowdSnoc(cfg: Config, tickets: seq<Ticket>, account: string)
    requires tickets != []
    ensures var n := |tickets| - 1;
            CrowdOf(cfg, tickets, account)
            == CrowdOf(cfg, tickets[..n], account).Shifted(Gone, ClassOf(cfg, tickets[n], account))
  {
  }

  lemma {:induction false} CrowdJoined(cfg: Config, tickets: seq<Ticket>, t: Ticket, account: string)
    ensures CrowdOf(cfg, tickets + [t], account)
            == CrowdOf(cfg, tickets, account).Shifted(Gone, ClassOf(cfg, t, account))
  {
    CrowdSnoc(cfg, tickets + [t], account);
    assert (tickets + [t])[..|tickets|] == tickets;
  }

  lemma {:induction false} SomeoneThere(cfg: Config, tickets: seq<Ticket>, k: nat, account: string, c: Class)
    requires k < |tickets| && ClassOf(cfg, tickets[k], account) == c
    ensures Tally(cfg, tickets, account, c) >= 1
  {
    if k < |tickets| - 1 {
      SomeoneThere(cfg, tickets[..|tickets| - 1], k, account, c);
    }
  }

  // ---------------------------------------------------------------- what is still possible in the window

  /** Failures below the limit that one counter can take. */
  function Below(cfg: Config): int {
    cfg.failMax - 1
  }

  function Reached(cfg: Config, store: Store, account: string, now: int): int {
    var n := Get(store, FailKey(account), now);
    if n < 0 then 0 else if n > Below(cfg) then Below(cfg) else n
  }

  /** The live counter may run out before the lock time that starts at `lo` is over. */
  predicate MayExpire(cfg: Config, store: Store, account: string, now: int, lo: int) {
    var key := FailKey(account);
    Live(store, key, now) && store[key].expiresAt.Some? && store[key].expiresAt.value < lo + cfg.lockMs
  }

  /** What the present counter can still take, and a new one if this one may expire. */
  function Present(cfg: Config, store: Store, account: string, now: int, lo: int): int {
    Below(cfg) - Reached(cfg, store, account, now) + if MayExpire(cfg, store, account, now, lo) then Below(cfg) else 0
  }

  /** Each request that is going to drop a counter makes room for another; k of them leave no one to use this one. */
  function Room(cfg: Config, k: int, dropping: int, present: int): int {
    if dropping >= k then k * Below(cfg) else present + dropping * Below(cfg)
  }

  predicate LockHeld(cfg: Config, store: Store, account: string, lo: int) {
    var key := LockKey(account);
    key in store && store[key].expiresAt.Some? && store[key].expiresAt.value >= lo + cfg.lockMs
  }

  function Most(cfg: Config, k: int): int {
    (k + 1) * Below(cfg) + k
  }

  /** Within the window: either the lock is set, or there is room for what has not failed yet. */
  ghost predicate InWindow(
    cfg: Config, store: Store, account: string, crowd: Crowd, n: int, k: int, now: int, lo: int)
  {
    || (LockHeld(cfg, store, account, lo) && n + crowd.coming <= Most(cfg, k))
    || n + Room(cfg, k, crowd.dropping, Present(cfg, store, account, now, lo)) <= (k + 1) * Below(cfg) + crowd.locking
  }

  /** `n` failures counted in the window so far. */
  ghost predicate Accounted(
    cfg: Config, store: Store, account: string, crowd: Crowd, n: int, k: int, now: int, lo: int)
  {
    && (now < lo ==> n == 0)
    && (lo <= now < lo + cfg.lockMs - cfg.ttlSlackMs ==> InWindow(cfg, store, account, crowd, n, k, now, lo))
    && n <= Most(cfg, k)
  }

  /** A counter that exists has counted something. */
  predicate Counting(store: Store, account: string) {
    FailKey(account) in store ==> store[FailKey(account)].value >= 1
  }

  lemma {:induction false} Products(k: int, m: int)
    ensures (k + 1) * m == k * m + m && (k - 1) * m == k * m - m
  {
  }

  lemma {:induction false} MoreIsMore(a: int, b: int, m: int)
    requires a <= b && 0 <= m
    ensures a * m <= b * m
  {
  }

  lemma {:induction false} PresentBounds(cfg: Config, store: Store, account: string, now: int, lo: int)
    requires cfg.Valid()
    ensures 0 <= Present(cfg, store, account, now, lo) <= 2 * Below(cfg)
  {
  }

  lemma {:induction false} RoomBounds(cfg: Config, k: int, dropping: int, present: int)
    requires cfg.Valid() && 0 <= dropping <= k && 0 <= present <= 2 * Below(cfg)
    ensures 0 <= Room(cfg, k, dropping, present) <= (k + 1) * Below(cfg)
  {
    var m := Below(cfg);
    Products(k, m);
    MoreIsMore(0, dropping, m);
    if dropping < k { MoreIsMore(dropping, k - 1, m); }
    MoreIsMore(0, k, m);
  }

  lemma {:induction false} InWindowAtMost(
    cfg: Config, store: Store, account: string, crowd: Crowd, n: int, k: nat, now: int, lo: int)
    requires cfg.Valid() && crowd.Valid(k) && InWindow(cfg, store, account, crowd, n, k, now, lo)
    ensures n <= Most(cfg, k)
  {
    PresentBounds(cfg, store, account, now, lo);
    RoomBounds(cfg, k, crowd.dropping, Present(cfg, store, account, now, lo));
  }

  lemma {:induction false} PresentShrinks(cfg: Config, store: Store, account: string, now: int, later: int, lo: int)
    requires cfg.Valid() && now <= later < lo + cfg.lockMs && Counting(store, account)
    ensures Present(cfg, store, account, later, lo) <= Present(cfg, store, account, now, lo)
  {
  }

  lemma {:induction false} RoomGrows(cfg: Config, k: int, dropping: int, a: int, b: int)
    requires a <= b
    ensures Room(cfg, k, dropping, a) <= Room(cfg, k, dropping, b)
  {
  }

  /** Nothing happens, but time passes. */
  lemma {:induction false} TimePasses(
    cfg: Config, store: Store, account: string, crowd: Crowd, n: int, k: nat, now: int, later: int, lo: int)
    requires cfg.Valid() && crowd.Valid(k) && Counting(store, account) && now <= later
    requires Accounted(cfg, store, account, crowd, n, k, now, lo)
    ensures Accounted(cfg, store, account, crowd, n, k, later, lo)
  {
    if lo <= later < lo + cfg.lockMs - cfg.ttlSlackMs {
      PresentBounds(cfg, store, account, later, lo);
      RoomBounds(cfg, k, crowd.dropping, Present(cfg, store, account, later, lo));
      if lo <= now {
        PresentShrinks(cfg, store, account, now, later, lo);
        RoomGrows(cfg, k, crowd.dropping, Present(cfg, store, account, later, lo),
          Present(cfg, store, account, now, lo));
      }
    }
  }

  // ---------------------------------------------------------------- one event

  predicate Within(cfg: Config, now: int, lo: int) {
    lo <= now < lo + cfg.lockMs - cfg.ttlSlackMs
  }

  predicate SameAccount(a: Store, b: Store, account: string) {
    var fail, lock := FailKey(account), LockKey(account);
    && (fail in a <==> fail in b) && (fail in a ==> a[fail] == b[fail])
    && (lock in a <==> lock in b) && (lock in a ==> a[lock] == b[lock])
  }

  /** The crowd loses a request of the account, or one moves on without having failed yet. */
  predicate Quieter(before: Crowd, after: Crowd) {
    after.coming <= before.coming && after.locking == before.locking && after.dropping == before.dropping
  }

  lemma {:induction false} QuietStep(
    cfg: Config, a: Store, b: Store, account: string, before: Crowd, after: Crowd, n: int, k: nat, now: int, lo: int)
    requires SameAccount(a, b, account) && Quieter(before, after)
    requires Accounted(cfg, a, account, before, n, k, now, lo) && Counting(a, account)
    ensures Accounted(cfg, b, account, after, n, k, now, lo) && Counting(b, account)
  {
  }

  /** One more request gets past the lock check: within the window only if no lock is held. */
  lemma {:induction false} AskStep(
    cfg: Config, store: Store, account: string, before: Crowd, after: Crowd, n: int, k: nat, now: int, lo: int)
    requires Accounted(cfg, store, account, before, n, k, now, lo)
    requires !LockBites(cfg, store, account, now) && after == before.(coming := before.coming + 1)
    ensures Accounted(cfg, store, account, after, n, k, now, lo)
  {
  }

  lemma {:induction false} CountedPresent(cfg: Config, store: Store, account: string, now: int, lo: int)
    requires cfg.Valid() && Counting(store, account)
    ensures var after := Incr(store, FailKey(account), now);
            && Counting(after, account)
            && Present(cfg, after, account, now, lo)
               <= Present(cfg, store, account, now, lo)
                  - if Get(after, FailKey(account), now) < cfg.failMax then 1 else 0
  {
  }

  /** The failure is counted: below the limit it takes from the counter's room, else its request will lock. */
  lemma {:induction false} CountStep(
    cfg: Config, store: Store, account: string, before: Crowd, after: Crowd, n: int, k: nat, now: int, lo: int)
    requires cfg.Valid() && before.Valid(k) && after.Valid(k) && before.coming >= 1 && Counting(store, account)
    requires Accounted(cfg, store, account, before, n, k, now, lo)
    requires after.coming == before.coming - 1 && after.dropping == before.dropping
    requires after.locking == before.locking
      + if Get(Incr(store, FailKey(account), now), FailKey(account), now) >= cfg.failMax then 1 else 0
    ensures var counted := Incr(store, FailKey(account), now);
            && Counting(counted, account)
            && Accounted(cfg, counted, account, after, n + if Within(cfg, now, lo) then 1 else 0, k, now, lo)
  {
    CountedPresent(cfg, store, account, now, lo);
    var counted := Incr(store, FailKey(account), now);
    if Within(cfg, now, lo) {
      assert InWindow(cfg, counted, account, after, n + 1, k, now, lo);
      InWindowAtMost(cfg, counted, account, after, n + 1, k, now, lo);
    }
  }

  lemma {:induction false} ExpirePresent(cfg: Config, store: Store, account: string, now: int, lo: int)
    requires cfg.Valid() && lo <= now
    ensures Present(cfg, Expire(store, FailKey(account), now, cfg.lockMs), account, now, lo)
         <= Present(cfg, store, account, now, lo)
  {
  }

  /** An expiry set within the window outlasts it. */
  lemma {:induction false} ExpireStep(
    cfg: Config, store: Store, account: string, before: Crowd, after: Crowd, n: int, k: nat, now: int, lo: int)
    requires cfg.Valid() && Quieter(before, after) && Counting(store, account)
    requires Accounted(cfg, store, account, before, n, k, now, lo)
    ensures var expired := Expire(store, FailKey(account), now, cfg.lockMs);
            Counting(expired, account) && Accounted(cfg, expired, account, after, n, k, now, lo)
  {
    if Within(cfg, now, lo) {
      ExpirePresent(cfg, store, account, now, lo);
      RoomGrows(cfg, k, before.dropping,
                Present(cfg, Expire(store, FailKey(account), now, cfg.lockMs), account, now, lo),
                Present(cfg, store, account, now, lo));
    }
  }

  /** The lock is set: from here on only those already past the check can fail in the window. */
  lemma {:induction false} LockStep(
    cfg: Config, store: Store, account: string, before: Crowd, after: Crowd, n: int, k: nat, now: int, lo: int)
    requires cfg.Valid() && before.Valid(k) && after.Valid(k) && Counting(store, account)
    requires Accounted(cfg, store, account, before, n, k, now, lo)
    requires after == before.(locking := before.locking - 1, dropping := before.dropping + 1)
    ensures var locked := store[LockKey(account) := Cell(1, Some(now + cfg.lockMs))];
            Counting(locked, account) && Accounted(cfg, locked, account, after, n, k, now, lo)
  {
    if Within(cfg, now, lo) {
      PresentBounds(cfg, store, account, now, lo);
      RoomBounds(cfg, k, before.dropping, Present(cfg, store, account, now, lo));
    }
  }

  /** The counter is dropped: its request no longer makes room for another, this is that one. */
  lemma {:induction false} DropStep(
    cfg: Config, store: Store, account: string, before: Crowd, after: Crowd, n: int, k: nat, now: int, lo: int)
    requires cfg.Valid() && before.Valid(k) && after.Valid(k) && before.dropping >= 1
    requires Accounted(cfg, store, account, before, n, k, now, lo)
    requires after == before.(dropping := before.dropping - 1)
    ensures var dropped := store - {FailKey(account)};
            Counting(dropped, account) && Accounted(cfg, dropped, account, after, n, k, now, lo)
  {
    var dropped := store - {FailKey(account)};
    assert Present(cfg, dropped, account, now, lo) == Below(cfg);
    PresentBounds(cfg, store, account, now, lo);
    Products(before.dropping, Below(cfg));
  }

  // ---------------------------------------------------------------- every event

  /** The event records a failure of the account: its counter is incremented. */
  predicate Records(cfg: Config, st: State, e: Event, account: string) {
    e.Command? && At(st, e.k, CountAccount) && cfg.fold(st.tickets[e.k].id) == account
  }

  /** The event completes a sign-in of the account. */
  predicate Clears(cfg: Config, st: State, e: Event, account: string) {
    e.Succeeds? && At(st, e.k, Verifying) && cfg.fold(st.tickets[e.k].id) == account
  }

  function FailureNow(cfg: Config, st: State, e: Event, account: string): seq<int> {
    if Records(cfg, st, e, account) then [e.now] else []
  }

  function FailureTimes(cfg: Config, events: seq<Event>, account: string): seq<int> {
    if events == [] then []
    else
      var n := |events| - 1;
      FailureTimes(cfg, events[..n], account) + FailureNow(cfg, After(cfg, events[..n]), events[n], account)
  }

  /** At no time are more than `k` requests of the account in flight, and none of them succeeds. */
  ghost predicate FewAndFailing(cfg: Config, events: seq<Event>, account: string, k: nat) {
    && InFlight(cfg, After(cfg, events).tickets, account) <= k
    && (events != [] ==>
          var n := |events| - 1;
          && FewAndFailing(cfg, events[..n], account, k)
          && !Clears(cfg, After(cfg, events[..n]), events[n], account))
  }

  function EventTime(e: Event): int {
    e.now
  }

  /** The account's part of a state, with `n` failures counted in the window so far. */
  ghost predicate Holds(cfg: Config, st: State, account: string, n: int, k: int, now: int, lo: int) {
    && Counting(st.store, account)
    && Accounted(cfg, st.store, account, CrowdOf(cfg, st.tickets, account), n, k, now, lo)
  }

  ghost predicate Fits(cfg: Config, st: State, account: string, k: nat) {
    InFlight(cfg, st.tickets, account) <= k
  }

  /** Commands of requests for other accounts leave the account's keys alone. */
  lemma {:induction false} OtherCommand(cfg: Config, store: Store, t: Ticket, now: int, account: string)
    requires cfg.fold(t.id) != account || t.stage == CountIp || t.stage == ExpireIp
    ensures SameAccount(store, Commanded(cfg, store, t, now).0, account)
  {
  }

  /** An event for a request that is not of the account, or that has yet to count its failure. */
  lemma {:induction false} QuietEvent(
    cfg: Config, st: State, e: Event, account: string, n: int, k: nat, lo: int, t: Ticket, at: nat)
    requires at < |st.tickets| && Handled(cfg, st, e).tickets == st.tickets[at := t]
    requires SameAccount(st.store, Handled(cfg, st, e).store, account)
    requires var (c, d) := (ClassOf(cfg, st.tickets[at], account), ClassOf(cfg, t, account));
             c == d || (c == Coming && d == Gone)
    requires Holds(cfg, st, account, n, k, e.now, lo)
    ensures Holds(cfg, Handled(cfg, st, e), account, n, k, e.now, lo)
  {
    CrowdMoved(cfg, st.tickets, at, t, account);
    QuietStep(cfg, st.store, Handled(cfg, st, e).store, account, CrowdOf(cfg, st.tickets, account),
              CrowdOf(cfg, Handled(cfg, st, e).tickets, account), n, k, e.now, lo);
  }

  /** A request joins: of the account, or of another one. */
  lemma {:induction false} Joining(
    cfg: Config, store: Store, account: string, before: Crowd, t: Ticket, n: int, k: nat, now: int, lo: int)
    requires t.stage == Looking && (cfg.fold(t.id) == account ==> !LockBites(cfg, store, account, now))
    requires Accounted(cfg, store, account, before, n, k, now, lo)
    ensures Accounted(cfg, store, account, before.Shifted(Gone, ClassOf(cfg, t, account)), n, k, now, lo)
  {
    if cfg.fold(t.id) == account {
      AskStep(cfg, store, account, before, before.Shifted(Gone, Coming), n, k, now, lo);
    }
  }

  lemma {:induction false} AskEvent(cfg: Config, st: State, e: Event, account: string, n: int, k: nat, lo: int)
    requires e.Asks? && Holds(cfg, st, account, n, k, e.now, lo)
    ensures Holds(cfg, Handled(cfg, st, e), account, n, k, e.now, lo)
  {
    if !LockBites(cfg, st.store, cfg.fold(e.id), e.now) {
      var t := Ticket(e.ip, e.id, Looking);
      Joining(cfg, st.store, account, CrowdOf(cfg, st.tickets, account), t, n, k, e.now, lo);
      CrowdJoined(cfg, st.tickets, t, account);
    }
  }

  /** A command of the account's own request, from counting on. */
  lemma {:induction false} OwnCommand(cfg: Config, st: State, e: Event, account: string, n: int, k: nat, lo: int)
    requires cfg.Valid() && e.Command? && e.k < |st.tickets| && cfg.fold(st.tickets[e.k].id) == account
    requires var stage := st.tickets[e.k].stage;
             stage == CountAccount || stage.ExpireAccount? || stage == SetLock || stage == DropCounter
    requires Fits(cfg, st, account, k) && Fits(cfg, Handled(cfg, st, e), account, k)
    requires Holds(cfg, st, account, n, k, e.now, lo)
    ensures Holds(cfg, Handled(cfg, st, e), account,
                  n + if Records(cfg, st, e, account) && Within(cfg, e.now, lo) then 1 else 0, k, e.now, lo)
  {
    var t := st.tickets[e.k];
    var after := t.(stage := Commanded(cfg, st.store, t, e.now).1);
    var before, crowd := CrowdOf(cfg, st.tickets, account), CrowdOf(cfg, Handled(cfg, st, e).tickets, account);
    CrowdMoved(cfg, st.tickets, e.k, after, account);
    SomeoneThere(cfg, st.tickets, e.k, account, ClassOf(cfg, t, account));
    match t.stage
    case CountAccount => CountStep(cfg, st.store, account, before, crowd, n, k, e.now, lo);
    case ExpireAccount(_) => ExpireStep(cfg, st.store, account, before, crowd, n, k, e.now, lo);
    case SetLock => LockStep(cfg, st.store, account, before, crowd, n, k, e.now, lo);
    case DropCounter => DropStep(cfg, st.store, account, before, crowd, n, k, e.now, lo);
  }

  lemma {:induction false} OtherEvent(cfg: Config, st: State, e: Event, account: string, n: int, k: nat, lo: int)
    requires !e.Asks? && e.k < |st.tickets| && !Clears(cfg, st, e, account)
    requires e.Command? ==> cfg.fold(st.tickets[e.k].id) != account || Rank(st.tickets[e.k].stage) == 0
                            || st.tickets[e.k].stage == CountIp || st.tickets[e.k].stage == ExpireIp
    requires Holds(cfg, st, account, n, k, e.now, lo)
    ensures Holds(cfg, Handled(cfg, st, e), account, n, k, e.now, lo)
  {
    var t := st.tickets[e.k];
    if e.Command? && Rank(t.stage) > 0 { OtherCommand(cfg, st.store, t, e.now, account); }
    QuietEvent(cfg, st, e, account, n, k, lo, Handled(cfg, st, e).tickets[e.k], e.k);
  }

  lemma {:induction false} EventAccounted(cfg: Config, st: State, e: Event, account: string, n: int, k: nat, lo: int)
    requires cfg.Valid() && !Clears(cfg, st, e, account)
    requires Fits(cfg, st, account, k) && Fits(cfg, Handled(cfg, st, e), account, k)
    requires Holds(cfg, st, account, n, k, e.now, lo)
    ensures Holds(cfg, Handled(cfg, st, e), account,
                  n + if Records(cfg, st, e, account) && Within(cfg, e.now, lo) then 1 else 0, k, e.now, lo)
  {
    if e.Asks? {
      AskEvent(cfg, st, e, account, n, k, lo);
    } else if e.k < |st.tickets| {
      var t := st.tickets[e.k];
      if e.Command? && cfg.fold(t.id) == account && 1 <= Rank(t.stage) <= 4 {
        OwnCommand(cfg, st, e, account, n, k, lo);
      } else {
        OtherEvent(cfg, st, e, account, n, k, lo);
      }
    }
  }

  // ---------------------------------------------------------------- every run

  lemma {:induction false} NowCounted(cfg: Config, st: State, e: Event, account: string, lo: int)
    ensures CountIn(FailureNow(cfg, st, e, account), lo, lo + cfg.lockMs - cfg.ttlSlackMs)
            == if Records(cfg, st, e, account) && Within(cfg, e.now, lo) then 1 else 0
  {
    assert [e.now][1..] == [];
  }

  lemma {:induction false} RunHolds(cfg: Config, events: seq<Event>, account: string, k: nat, lo: int)
    requires cfg.Valid() && events != []
    requires ClockNeverGoesBack(events, EventTime) && FewAndFailing(cfg, events, account, k)
    ensures Holds(cfg, After(cfg, events), account,
                  CountIn(FailureTimes(cfg, events, account), lo, lo + cfg.lockMs - cfg.ttlSlackMs),
                  k, events[|events| - 1].now, lo)
  {
    var n := |events| - 1;
    var before, e := events[..n], events[n];
    var st, hi := After(cfg, before), lo + cfg.lockMs - cfg.ttlSlackMs;
    var times := FailureTimes(cfg, before, account);
    if n > 0 {
      RunHolds(cfg, before, account, k, lo);
      assert EventTime(events[n - 1]) <= EventTime(e);
      TimePasses(cfg, st.store, account, CrowdOf(cfg, st.tickets, account), CountIn(times, lo, hi), k,
                 before[n - 1].now, e.now, lo);
    } else {
      NothingYet(cfg, account, k, e.now, lo);
    }
    EventAccounted(cfg, st, e, account, CountIn(times, lo, hi), k, lo);
    CountInConcat(times, FailureNow(cfg, st, e, account), lo, hi);
    NowCounted(cfg, st, e, account, lo);
  }

  lemma {:induction false} MostIs(k: nat, m: int)
    requires m >= 1
    ensures (k + 1) * (m - 1) + k == (k + 1) * m - 1 && (k + 1) * m >= 1
  {
    MoreIsMore(1, k + 1, m);
  }

  lemma {:induction false} NothingYet(cfg: Config, account: string, k: nat, now: int, lo: int)
    requires cfg.Valid()
    ensures Holds(cfg, State(map[], []), account, 0, k, now, lo)
  {
    PresentBounds(cfg, map[], account, now, lo);
    RoomBounds(cfg, k, 0, Present(cfg, map[], account, now, lo));
    MoreIsMore(0, k + 1, Below(cfg));
  }

  /**
   * However the Redis commands of overlapping requests interleave: with at most `k` requests of an
   * account in flight at any time and none succeeding, any half-open interval as long as the effective
   * lock holds fewer than (k + 1)·failMax of its failures. One at a time that is fewer than 2·failMax.
   */
  lemma {:induction false} CommandBound(cfg: Config, events: seq<Event>, account: string, k: nat, lo: int)
    requires cfg.Valid()
    requires ClockNeverGoesBack(events, EventTime) && FewAndFailing(cfg, events, account, k)
    ensures CountIn(FailureTimes(cfg, events, account), lo, lo + cfg.lockMs - cfg.ttlSlackMs) < (k + 1) * cfg.failMax
  {
    MostIs(k, cfg.failMax);
    if events != [] { RunHolds(cfg, events, account, k, lo); }
  }
}
