/**
 * The login throttle command by command (login-throttle.service.ts): assertAllowed and recordFailure
 * await their Redis commands one at a time, and those of other requests come in between.
 */
module RedisSteps {
  import opened Wrappers
  import opened Windows
  import opened LoginThrottling

  /** Where a request stands: what it does next. */
  datatype Stage =
    | Looking
    | Verifying
    | CountIp
    | ExpireIp
    | CountAccount
    | ExpireAccount(fails: int)
    | SetLock
    | DropCounter
    | Over

  datatype Ticket = Ticket(ip: Option<string>, id: string, stage: Stage)

  /** `k` is the position of the request among those that have found the account unlocked. */
  datatype Event =
    | Asks(ip: Option<string>, id: string, now: int)
    | Looks(k: nat, now: int)
    | Fails(k: nat, now: int)
    | Succeeds(k: nat, now: int)
    | Ends(k: nat, now: int)
    | Command(k: nat, now: int)

  datatype State = State(store: Store, tickets: seq<Ticket>)

  /** Lock the account if the count has reached the limit, else be done. */
  function AfterCount(cfg: Config, fails: int): Stage {
    if fails >= cfg.failMax then SetLock else Over
  }

  /** One command of recordFailure. */
  function Commanded(cfg: Config, store: Store, t: Ticket, now: int): (Store, Stage) {
    var fail := FailKey(cfg.fold(t.id));
    match t.stage
    case CountIp =>
      if t.ip.None? then (store, CountAccount)
      else
        var after := Incr(store, IpKey(t.ip.value), now);
        (after, if Get(after, IpKey(t.ip.value), now) == 1 then ExpireIp else CountAccount)
    case ExpireIp =>
      (if t.ip.None? then store else Expire(store, IpKey(t.ip.value), now, cfg.ipWindowMs), CountAccount)
    case CountAccount =>
      var after := Incr(store, fail, now);
      var fails := Get(after, fail, now);
      (after, if fails == 1 then ExpireAccount(fails) else AfterCount(cfg, fails))
    case ExpireAccount(fails) => (Expire(store, fail, now, cfg.lockMs), AfterCount(cfg, fails))
    case SetLock => (store[LockKey(cfg.fold(t.id)) := Cell(1, Some(now + cfg.lockMs))], DropCounter)
    case DropCounter => (store - {fail}, Over)
    case _ => (store, t.stage)
  }

  /** The first command of recordFailure. */
  function FirstStage(ip: Option<string>): Stage {
    if Counts(ip) then CountIp else CountAccount
  }

  function LookedUp(cfg: Config, store: Store, t: Ticket, now: int): Stage {
    if Counts(t.ip) && Get(store, IpKey(t.ip.value), now) >= cfg.ipMax then Over else Verifying
  }

  predicate At(st: State, k: nat, stage: Stage) {
    k < |st.tickets| && st.tickets[k].stage == stage
  }

  function Moved(st: State, k: nat, stage: Stage): State
    requires k < |st.tickets|
  {
    st.(tickets := st.tickets[k := st.tickets[k].(stage := stage)])
  }

  /** An event for a request that does not stand there does nothing. */
  function Handled(cfg: Config, st: State, e: Event): State {
    match e
    case Asks(ip, id, now) =>
      if LockBites(cfg, st.store, cfg.fold(id), now) then st
      else st.(tickets := st.tickets + [Ticket(ip, id, Looking)])
    case Looks(k, now) =>
      if At(st, k, Looking) then Moved(st, k, LookedUp(cfg, st.store, st.tickets[k], now)) else st
    case Fails(k, _) =>
      if At(st, k, Verifying) then Moved(st, k, FirstStage(st.tickets[k].ip)) else st
    case Succeeds(k, _) =>
      if At(st, k, Verifying) then Moved(st.(store := AfterSuccess(cfg, st.store, st.tickets[k].id)), k, Over) else st
    case Ends(k, _) => if At(st, k, Verifying) then Moved(st, k, Over) else st
    case Command(k, now) =>
      if k < |st.tickets| then
        var (store, stage) := Commanded(cfg, st.store, st.tickets[k], now);
        Moved(st.(store := store), k, stage)
      else st
  }

  function After(cfg: Config, events: seq<Event>): State {
    if events == [] then State(map[], [])
    else Handled(cfg, After(cfg, events[..|events| - 1]), events[|events| - 1])
  }

  // ---------------------------------------------------------------- without anything in between

  function Rank(stage: Stage): nat {
    match stage
    case CountIp => 6
    case ExpireIp => 5
    case CountAccount => 4
    case ExpireAccount(_) => 3
    case SetLock => 2
    case DropCounter => 1
    case _ => 0
  }

  /** The remaining commands of a request, one right after the other. */
  function Finished(cfg: Config, store: Store, t: Ticket, now: int): Store
    decreases Rank(t.stage)
  {
    if Rank(t.stage) == 0 then store
    else
      var (after, stage) := Commanded(cfg, store, t, now);
      Finished(cfg, after, t.(stage := stage), now)
  }

  lemma {:induction false} AccountFinished(cfg: Config, store: Store, ip: Option<string>, id: string, now: int)
    ensures var (bumped, fails) := Bump(store, FailKey(cfg.fold(id)), now, cfg.lockMs);
            Finished(cfg, store, Ticket(ip, id, CountAccount), now)
            == if fails >= cfg.failMax
               then bumped[LockKey(cfg.fold(id)) := Cell(1, Some(now + cfg.lockMs))] - {FailKey(cfg.fold(id))}
               else bumped
  {
    var t := Ticket(ip, id, CountAccount);
    var (counted, stage) := Commanded(cfg, store, t, now);
    if stage.ExpireAccount? {
      var (expired, next) := Commanded(cfg, counted, t.(stage := stage), now);
      LockFinished(cfg, expired, t, next, now);
    } else {
      LockFinished(cfg, counted, t, stage, now);
    }
  }

  lemma {:induction false} LockFinished(cfg: Config, store: Store, t: Ticket, stage: Stage, now: int)
    requires stage == SetLock || stage == Over
    ensures var account := cfg.fold(t.id);
            Finished(cfg, store, t.(stage := stage), now)
            == if stage == SetLock
               then store[LockKey(account) := Cell(1, Some(now + cfg.lockMs))] - {FailKey(account)} else store
  {
    if stage == SetLock {
      var locked := store[LockKey(cfg.fold(t.id)) := Cell(1, Some(now + cfg.lockMs))];
      assert Commanded(cfg, store, t.(stage := SetLock), now) == (locked, DropCounter);
      assert Finished(cfg, locked, t.(stage := DropCounter), now) == locked - {FailKey(cfg.fold(t.id))};
    }
  }

  /** All commands of a failure in a row are the failure that the throttle's own runs record. */
  lemma {:induction false} CommandsMakeAFailure(cfg: Config, store: Store, ip: Option<string>, id: string, now: int)
    ensures Finished(cfg, store, Ticket(ip, id, FirstStage(ip)), now) == AfterFailure(cfg, store, ip, id, now)
  {
    if Counts(ip) {
      var t := Ticket(ip, id, CountIp);
      var (counted, stage) := Commanded(cfg, store, t, now);
      if stage == ExpireIp {
        AccountFinished(cfg, Expire(counted, IpKey(ip.value), now, cfg.ipWindowMs), ip, id, now);
      } else {
        AccountFinished(cfg, counted, ip, id, now);
      }
    } else {
      AccountFinished(cfg, store, ip, id, now);
    }
  }
}
