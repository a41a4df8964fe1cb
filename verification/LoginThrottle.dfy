/**
 * The login throttle (apps/server/src/auth/login-throttle.service.ts) over a store of expiring
 * keys. Times are in milliseconds. The store answers TTL in whole seconds; `ttlSlackMs` is the
 * remaining lifetime that such an answer may already report as zero (0 if it rounds up).
 */
module LoginThrottling {
  import opened Wrappers
  import opened Windows

  // ---------------------------------------------------------------- the expiring key store

  datatype Key = IpKey(ip: string) | FailKey(account: string) | LockKey(account: string)

  datatype Cell = Cell(value: int, expiresAt: Option<int>)

  type Store = map<Key, Cell>

  predicate Live(store: Store, key: Key, now: int) {
    key in store && (store[key].expiresAt.Some? ==> now < store[key].expiresAt.value)
  }

  function Get(store: Store, key: Key, now: int): int {
    if Live(store, key, now) then store[key].value else 0
  }

  function Incr(store: Store, key: Key, now: int): Store {
    if Live(store, key, now) then store[key := store[key].(value := store[key].value + 1)]
    else store[key := Cell(1, None)]
  }

  function Expire(store: Store, key: Key, now: int, ms: int): Store {
    if Live(store, key, now) then store[key := store[key].(expiresAt := Some(now + ms))] else store
  }

  /** INCR, and EXPIRE when the counter has just been created; also the reply of INCR. */
  function Bump(store: Store, key: Key, now: int, ms: int): (Store, int) {
    var store' := Incr(store, key, now);
    var n := Get(store', key, now);
    (if n == 1 then Expire(store', key, now, ms) else store', n)
  }

  // ---------------------------------------------------------------- the service

  datatype Config = Config(
    ipMax: int, ipWindowMs: int, failMax: int, lockMs: int,
    ttlSlackMs: nat, fold: string -> string)
  {
    /** What the environment parsing is meant to leave: positive limits. */
    predicate Valid() {
      ipMax >= 1 && ipWindowMs >= 1 && failMax >= 1 && lockMs >= 1
    }
  }

  datatype Verdict = Allowed | AccountLocked | NetworkBusy

  predicate Counts(ip: Option<string>) {
    ip.Some? && ip.value != ""
  }

  /** The TTL answer for the account's lock is positive. */
  predicate LockBites(cfg: Config, store: Store, account: string, now: int) {
    var key := LockKey(account);
    Live(store, key, now) && store[key].expiresAt.Some? && store[key].expiresAt.value - now > cfg.ttlSlackMs
  }

  function Check(cfg: Config, store: Store, ip: Option<string>, id: string, now: int): Verdict {
    if LockBites(cfg, store, cfg.fold(id), now) then AccountLocked
    else if Counts(ip) && Get(store, IpKey(ip.value), now) >= cfg.ipMax then NetworkBusy
    else Allowed
  }

  function AfterFailure(cfg: Config, store: Store, ip: Option<string>, id: string, now: int): Store {
    var account := cfg.fold(id);
    var s1 := if Counts(ip) then Bump(store, IpKey(ip.value), now, cfg.ipWindowMs).0 else store;
    var (s2, fails) := Bump(s1, FailKey(account), now, cfg.lockMs);
    if fails >= cfg.failMax
    then s2[LockKey(account) := Cell(1, Some(now + cfg.lockMs))] - {FailKey(account)}
    else s2
  }

  function AfterSuccess(cfg: Config, store: Store, id: string): Store {
    store - {FailKey(cfg.fold(id)), LockKey(cfg.fold(id))}
  }

  class LoginThrottle {
    const cfg: Config
    var store: Store

    constructor (cfg: Config)
      ensures this.cfg == cfg && store == map[]
    {
      this.cfg := cfg;
      store := map[];
    }

    /** Refuse when the account is locked or the address is over its cap; changes nothing. */
    method AssertAllowed(ip: Option<string>, id: string, now: int) returns (verdict: Verdict)
      ensures verdict == Check(cfg, store, ip, id, now)
    {
      if LockBites(cfg, store, cfg.fold(id), now) {
        return AccountLocked;
      }
      if Counts(ip) {
        var seen := Get(store, IpKey(ip.value), now);
        if seen >= cfg.ipMax {
          return NetworkBusy;
        }
      }
      return Allowed;
    }

    /** One more failure for the address and the account; the one that reaches the limit locks the account. */
    method RecordFailure(ip: Option<string>, id: string, now: int)
      modifies this
      ensures store == AfterFailure(cfg, old(store), ip, id, now)
    {
      if Counts(ip) {
        store := Incr(store, IpKey(ip.value), now);
        var n := Get(store, IpKey(ip.value), now);
        if n == 1 {
          store := Expire(store, IpKey(ip.value), now, cfg.ipWindowMs);
        }
      }
      var key := FailKey(cfg.fold(id));
      store := Incr(store, key, now);
      var fails := Get(store, key, now);
      if fails == 1 {
        store := Expire(store, key, now, cfg.lockMs);
      }
      if fails >= cfg.failMax {
        store := store[LockKey(cfg.fold(id)) := Cell(1, Some(now + cfg.lockMs))];
        store := store - {key};
      }
    }

    /** Clear the account's failure and lock state after a completed sign-in. */
    method RecordSuccess(id: string)
      modifies this
      ensures store == AfterSuccess(cfg, old(store), id)
    {
      store := store - {FailKey(cfg.fold(id)), LockKey(cfg.fold(id))};
    }
  }

  // ---------------------------------------------------------------- runs of attempts

  /** How an attempt that got past the throttle ended. `Half`: right password, code still due. */
  datatype Proof = Wrong | Half | Right

  datatype Attempt = Attempt(ip: Option<string>, id: string, now: int, proof: Proof)

  datatype Outcome = Refused | Failed | Challenged | SignedIn

  function Step(cfg: Config, store: Store, a: Attempt): (Store, Outcome) {
    if !Check(cfg, store, a.ip, a.id, a.now).Allowed? then (store, Refused)
    else match a.proof
      case Wrong => (AfterFailure(cfg, store, a.ip, a.id, a.now), Failed)
      case Half => (store, Challenged)
      case Right => (AfterSuccess(cfg, store, a.id), SignedIn)
  }

  function Run(cfg: Config, store: Store, attempts: seq<Attempt>): (r: (Store, seq<Outcome>))
    ensures |r.1| == |attempts|
  {
    if attempts == [] then (store, [])
    else
      var n := |attempts| - 1;
      var (s, outcomes) := Run(cfg, store, attempts[..n]);
      var (s', outcome) := Step(cfg, s, attempts[n]);
      (s', outcomes + [outcome])
  }

  function TimeOf(a: Attempt): int {
    a.now
  }

  /** The attempts are made one at a time, on a clock that starts at `start` and never goes back. */
  ghost predicate OneAtATime(attempts: seq<Attempt>, start: int) {
    && (forall i :: 0 <= i < |attempts| ==> start <= attempts[i].now)
    && ClockNeverGoesBack(attempts, TimeOf)
  }

  function LastTime(attempts: seq<Attempt>, start: int): int {
    if attempts == [] then start else attempts[|attempts| - 1].now
  }

  /** The times of the failures recorded against one account. */
  function AccountFailures(cfg: Config, attempts: seq<Attempt>, outcomes: seq<Outcome>, account: string): seq<int>
    requires |attempts| == |outcomes|
  {
    if attempts == [] then []
    else
      var n := |attempts| - 1;
      AccountFailures(cfg, attempts[..n], outcomes[..n], account)
        + if outcomes[n].Failed? && cfg.fold(attempts[n].id) == account then [attempts[n].now] else []
  }

  /** The times of the failures recorded against one network address. */
  function AddressFailures(attempts: seq<Attempt>, outcomes: seq<Outcome>, ip: string): seq<int>
    requires |attempts| == |outcomes|
  {
    if attempts == [] then []
    else
      var n := |attempts| - 1;
      AddressFailures(attempts[..n], outcomes[..n], ip)
        + if outcomes[n].Failed? && Counts(attempts[n].ip) && attempts[n].ip.value == ip then [attempts[n].now] else []
  }

  ghost predicate NoSuccessFor(cfg: Config, attempts: seq<Attempt>, outcomes: seq<Outcome>, account: string)
    requires |attempts| == |outcomes|
  {
    forall i :: 0 <= i < |attempts| ==> !(outcomes[i].SignedIn? && cfg.fold(attempts[i].id) == account)
  }

  /** A run unfolded at its last attempt. */
  lemma RunSnoc(cfg: Config, store: Store, attempts: seq<Attempt>)
    requires attempts != []
    ensures var n := |attempts| - 1;
            var (s, outcomes) := Run(cfg, store, attempts[..n]);
            var (s', outcome) := Step(cfg, s, attempts[n]);
            && Run(cfg, store, attempts) == (s', outcomes + [outcome])
            && (outcomes + [outcome])[..n] == outcomes
  {
  }

  lemma NoSuccessBefore(cfg: Config, store: Store, attempts: seq<Attempt>, account: string)
    requires attempts != [] && NoSuccessFor(cfg, attempts, Run(cfg, store, attempts).1, account)
    ensures var n := |attempts| - 1;
            && NoSuccessFor(cfg, attempts[..n], Run(cfg, store, attempts[..n]).1, account)
            && !(Run(cfg, store, attempts).1[n].SignedIn? && cfg.fold(attempts[n].id) == account)
  {
    RunSnoc(cfg, store, attempts);
    var n := |attempts| - 1;
    var before, outcomes := attempts[..n], Run(cfg, store, attempts[..n]).1;
    forall i | 0 <= i < n ensures !(outcomes[i].SignedIn? && cfg.fold(before[i].id) == account) {
      assert Run(cfg, store, attempts).1[i] == outcomes[i] && attempts[i] == before[i];
    }
  }

  // ---------------------------------------------------------------- the account lock

  /** No live failure counter: a fresh account, or one whose counter ran out or was cleared. */
  predicate CleanAccount(store: Store, account: string, now: int) {
    !Live(store, FailKey(account), now)
  }

  /** How the store reflects the failures recorded so far, grouped by the counter they fell under. */
  ghost predicate Reflects(cfg: Config, store: Store, account: string, groups: seq<seq<int>>, now: int) {
    if groups == [] then CleanAccount(store, account, now)
    else
      var last := groups[|groups| - 1];
      && last != []
      && last[|last| - 1] <= now
      && if FailKey(account) in store
         then |last| < cfg.failMax && store[FailKey(account)] == Cell(|last|, Some(last[0] + cfg.lockMs))
         else LockKey(account) in store && store[LockKey(account)] == Cell(1, Some(last[|last| - 1] + cfg.lockMs))
  }

  /** What one recorded failure does to the two keys of its own account. */
  lemma FailureKeys(cfg: Config, store: Store, ip: Option<string>, id: string, now: int)
    requires cfg.Valid()
    ensures var account := cfg.fold(id);
            var store' := AfterFailure(cfg, store, ip, id, now);
            var live := Live(store, FailKey(account), now);
            var n := if live then store[FailKey(account)].value + 1 else 1;
            var expiry := if live && n != 1 then store[FailKey(account)].expiresAt else Some(now + cfg.lockMs);
            if n >= cfg.failMax
            then FailKey(account) !in store' && LockKey(account) in store'
                 && store'[LockKey(account)] == Cell(1, Some(now + cfg.lockMs))
            else FailKey(account) in store' && store'[FailKey(account)] == Cell(n, expiry)
  {
  }

  /** Nothing an attempt does touches the keys of another account. */
  lemma OtherAccountKeys(cfg: Config, store: Store, a: Attempt, key: Key)
    requires key.FailKey? || key.LockKey?
    requires key.account != cfg.fold(a.id)
    ensures var store' := Step(cfg, store, a).0;
            (key in store' <==> key in store) && (key in store ==> store'[key] == store[key])
  {
  }

  lemma {:induction false} FailureGroups(cfg: Config, store: Store, attempts: seq<Attempt>, start: int, account: string)
    returns (groups: seq<seq<int>>)
    requires cfg.Valid() && cfg.ttlSlackMs <= cfg.lockMs
    requires OneAtATime(attempts, start) && CleanAccount(store, account, start)
    requires NoSuccessFor(cfg, attempts, Run(cfg, store, attempts).1, account)
    ensures var (s, outcomes) := Run(cfg, store, attempts);
            && Grouped(groups, cfg.lockMs - cfg.ttlSlackMs, cfg.failMax)
            && Flatten(groups) == AccountFailures(cfg, attempts, outcomes, account)
            && Reflects(cfg, s, account, groups, LastTime(attempts, start))
    ensures forall i :: 0 <= i < |groups| ==> groups[i] != [] && start <= groups[i][0]
  {
    if attempts == [] { return []; }
    var n := |attempts| - 1;
    var a, before := attempts[n], attempts[..n];
    NoSuccessBefore(cfg, store, attempts, account);
    RunSnoc(cfg, store, attempts);
    groups := FailureGroups(cfg, store, before, start, account);
    var s := Run(cfg, store, before).0;
    groups := StepGroups(cfg, s, a, groups, LastTime(before, start), start, account);
  }

  lemma StepGroups(cfg: Config, s: Store, a: Attempt, groups: seq<seq<int>>, before: int, start: int, account: string)
    returns (groups': seq<seq<int>>)
    requires cfg.Valid() && cfg.ttlSlackMs <= cfg.lockMs
    requires Grouped(groups, cfg.lockMs - cfg.ttlSlackMs, cfg.failMax)
    requires start <= before <= a.now && Reflects(cfg, s, account, groups, before)
    requires forall i :: 0 <= i < |groups| ==> groups[i] != [] && start <= groups[i][0]
    requires !(Step(cfg, s, a).1.SignedIn? && cfg.fold(a.id) == account)
    ensures Grouped(groups', cfg.lockMs - cfg.ttlSlackMs, cfg.failMax)
    ensures Flatten(groups') == Flatten(groups)
      + if Step(cfg, s, a).1.Failed? && cfg.fold(a.id) == account then [a.now] else []
    ensures Reflects(cfg, Step(cfg, s, a).0, account, groups', a.now)
    ensures forall i :: 0 <= i < |groups'| ==> groups'[i] != [] && start <= groups'[i][0]
  {
    groups' := groups;
    if cfg.fold(a.id) != account {
      OtherAccountKeys(cfg, s, a, FailKey(account));
      OtherAccountKeys(cfg, s, a, LockKey(account));
    } else if Step(cfg, s, a).1.Failed? {
      groups' := RecordInGroups(cfg, s, a, groups, before, start);
    }
  }

  /** A failure either joins the live counter's group or opens a new one a gap after the last began. */
  lemma RecordInGroups(cfg: Config, s: Store, a: Attempt, groups: seq<seq<int>>, before: int, start: int)
    returns (groups': seq<seq<int>>)
    requires cfg.Valid() && cfg.ttlSlackMs <= cfg.lockMs
    requires Grouped(groups, cfg.lockMs - cfg.ttlSlackMs, cfg.failMax)
    requires start <= before <= a.now && Reflects(cfg, s, cfg.fold(a.id), groups, before)
    requires forall i :: 0 <= i < |groups| ==> groups[i] != [] && start <= groups[i][0]
    requires Step(cfg, s, a).1.Failed?
    ensures Grouped(groups', cfg.lockMs - cfg.ttlSlackMs, cfg.failMax)
    ensures Flatten(groups') == Flatten(groups) + [a.now]
    ensures Reflects(cfg, Step(cfg, s, a).0, cfg.fold(a.id), groups', a.now)
    ensures forall i :: 0 <= i < |groups'| ==> groups'[i] != [] && start <= groups'[i][0]
  {
    var gap := cfg.lockMs - cfg.ttlSlackMs;
    var account := cfg.fold(a.id);
    FailureKeys(cfg, s, a.ip, a.id, a.now);
    if groups != [] {
      assert GroupOk(groups[|groups| - 1], cfg.failMax);
    }
    if Live(s, FailKey(account), a.now) {
      var last := groups[|groups| - 1];
      ExtendGroup(groups, gap, cfg.failMax, a.now);
      groups' := groups[..|groups| - 1] + [last + [a.now]];
    } else {
      OpenGroup(groups, gap, cfg.failMax, a.now);
      groups' := groups + [[a.now]];
    }
  }

  /**
   * With attempts made one at a time and no success in between, any half-open interval as long as
   * the effective lock holds fewer than 2·failMax recorded failures for one account.
   */
  lemma AccountFailureBound(cfg: Config, store: Store, attempts: seq<Attempt>, start: int, account: string, lo: int)
    requires cfg.Valid() && cfg.ttlSlackMs <= cfg.lockMs
    requires OneAtATime(attempts, start) && CleanAccount(store, account, start)
    requires NoSuccessFor(cfg, attempts, Run(cfg, store, attempts).1, account)
    ensures CountIn(AccountFailures(cfg, attempts, Run(cfg, store, attempts).1, account),
                    lo, lo + cfg.lockMs - cfg.ttlSlackMs) < 2 * cfg.failMax
  {
    var groups := FailureGroups(cfg, store, attempts, start, account);
    SlidingBound(groups, cfg.lockMs - cfg.ttlSlackMs, cfg.failMax, lo);
  }

  /** A run of the given length from a clean account holds at most failMax failures per started lock. */
  lemma AccountRunBound(cfg: Config, store: Store, attempts: seq<Attempt>, start: int, account: string, length: nat)
    requires cfg.Valid() && cfg.ttlSlackMs < cfg.lockMs
    requires OneAtATime(attempts, start) && CleanAccount(store, account, start)
    requires NoSuccessFor(cfg, attempts, Run(cfg, store, attempts).1, account)
    ensures CountIn(AccountFailures(cfg, attempts, Run(cfg, store, attempts).1, account), start, start + length)
         <= cfg.failMax * CeilDiv(length, cfg.lockMs - cfg.ttlSlackMs)
  {
    var groups := FailureGroups(cfg, store, attempts, start, account);
    RunBound(groups, cfg.lockMs - cfg.ttlSlackMs, cfg.failMax, start, length);
  }

  // ---------------------------------------------------------------- a limit of zero

  ghost predicate NoCounter(store: Store) {
    forall account :: FailKey(account) !in store
  }

  /** With a limit of at most one, a failure finds no counter, locks at once and leaves none. */
  lemma {:induction false} ZeroLimitStep(cfg: Config, store: Store, a: Attempt)
    requires NoCounter(store)
    ensures Step(cfg.(failMax := 0), store, a) == Step(cfg.(failMax := 1), store, a)
    ensures NoCounter(Step(cfg.(failMax := 0), store, a).0)
  {
    assert FailKey(cfg.fold(a.id)) !in store;
  }

  /** A failure limit of 0, which a setting below one is rounded down to, acts on every run as 1. */
  lemma {:induction false} ZeroLimitActsAsOne(cfg: Config, attempts: seq<Attempt>)
    ensures Run(cfg.(failMax := 0), map[], attempts) == Run(cfg.(failMax := 1), map[], attempts)
    ensures NoCounter(Run(cfg.(failMax := 0), map[], attempts).0)
  {
    if attempts != [] {
      var n := |attempts| - 1;
      ZeroLimitActsAsOne(cfg, attempts[..n]);
      ZeroLimitStep(cfg, Run(cfg.(failMax := 0), map[], attempts[..n]).0, attempts[n]);
    }
  }

  // ---------------------------------------------------------------- exactly when the full lock is kept

  /** The bound over intervals of the full lock time, for every account and every run. */
  ghost predicate FullLockBound(cfg: Config) {
    forall attempts: seq<Attempt>, start: int, account: string, lo: int ::
      OneAtATime(attempts, start) && NoSuccessFor(cfg, attempts, Run(cfg, map[], attempts).1, account)
      ==> FailuresWithin(cfg, attempts, account, lo, cfg.lockMs) < 2 * cfg.failMax
  }

  /** Failures recorded for an account, in a run from an empty store, within `length` of `lo`. */
  function FailuresWithin(cfg: Config, attempts: seq<Attempt>, account: string, lo: int, length: int): nat {
    CountIn(AccountFailures(cfg, attempts, Run(cfg, map[], attempts).1, account), lo, lo + length)
  }

  /** `n` wrong attempts on account "x" at one instant, from an unknown address. */
  function Burst(n: nat, now: int): (b: seq<Attempt>)
    ensures |b| == n && forall i :: 0 <= i < n ==> b[i] == Attempt(None, "x", now, Wrong)
  {
    if n == 0 then [] else Burst(n - 1, now) + [Attempt(None, "x", now, Wrong)]
  }

  lemma FailuresSnoc(
    cfg: Config, attempts: seq<Attempt>, outcomes: seq<Outcome>, a: Attempt, o: Outcome, account: string)
    requires |attempts| == |outcomes|
    ensures AccountFailures(cfg, attempts + [a], outcomes + [o], account)
         == AccountFailures(cfg, attempts, outcomes, account)
            + if o.Failed? && cfg.fold(a.id) == account then [a.now] else []
  {
    assert (attempts + [a])[..|attempts|] == attempts && (outcomes + [o])[..|attempts|] == outcomes;
  }

  lemma {:induction false} RunConcat(cfg: Config, store: Store, a: seq<Attempt>, b: seq<Attempt>)
    ensures var (s, first) := Run(cfg, store, a);
            var (s', second) := Run(cfg, s, b);
            Run(cfg, store, a + b) == (s', first + second)
  {
    if b == [] {
      assert a + b == a && Run(cfg, store, a).1 + [] == Run(cfg, store, a).1;
    } else {
      var n := |b| - 1;
      assert (a + b)[..|a + b| - 1] == a + b[..n];
      RunConcat(cfg, store, a, b[..n]);
      RunSnoc(cfg, store, a + b);
      var (s, first) := Run(cfg, store, a);
      RunSnoc(cfg, s, b);
      var last := Run(cfg, s, b).1[n];
      assert first + (Run(cfg, s, b[..n]).1 + [last]) == (first + Run(cfg, s, b[..n]).1) + [last];
    }
  }

  lemma {:induction false} FailuresConcat(
    cfg: Config, a: seq<Attempt>, oa: seq<Outcome>, b: seq<Attempt>, ob: seq<Outcome>, account: string)
    requires |a| == |oa| && |b| == |ob|
    ensures AccountFailures(cfg, a + b, oa + ob, account)
         == AccountFailures(cfg, a, oa, account) + AccountFailures(cfg, b, ob, account)
  {
    if b == [] {
      assert a + b == a && oa + ob == oa;
    } else {
      var n := |b| - 1;
      assert (a + b)[..|a + b| - 1] == a + b[..n] && (oa + ob)[..|oa + ob| - 1] == oa + ob[..n];
      FailuresConcat(cfg, a, oa, b[..n], ob[..n], account);
    }
  }

  /** A burst of up to failMax wrong attempts on a clean account, its lock not biting, all get through. */
  lemma {:induction false} BurstFails(cfg: Config, store: Store, n: nat, now: int)
    requires cfg.Valid() && n <= cfg.failMax
    requires !Live(store, FailKey(cfg.fold("x")), now) && !LockBites(cfg, store, cfg.fold("x"), now)
    ensures BurstWent(cfg, store, n, now)
  {
    if n > 0 {
      BurstFails(cfg, store, n - 1, now);
      OneMore(cfg, store, Burst(n - 1, now), n, now);
    }
  }

  ghost predicate BurstWent(cfg: Config, store: Store, n: nat, now: int) {
    Went(cfg, store, Burst(n, now), n, now)
  }

  ghost predicate Went(cfg: Config, store: Store, attempts: seq<Attempt>, n: nat, now: int) {
    var (s, outcomes) := Run(cfg, store, attempts);
    && |attempts| == n
    && (forall i :: 0 <= i < n ==> outcomes[i] == Failed)
    && Repeats(AccountFailures(cfg, attempts, outcomes, cfg.fold("x")), n, now)
    && BurstLeaves(cfg, store, s, n, now)
  }

  lemma OneMore(cfg: Config, store: Store, before: seq<Attempt>, n: nat, now: int)
    requires cfg.Valid() && 0 < n <= cfg.failMax
    requires !Live(store, FailKey(cfg.fold("x")), now) && !LockBites(cfg, store, cfg.fold("x"), now)
    requires Went(cfg, store, before, n - 1, now)
    ensures Went(cfg, store, before + [Attempt(None, "x", now, Wrong)], n, now)
  {
    var a := Attempt(None, "x", now, Wrong);
    var all := before + [a];
    assert all[..n - 1] == before && all[n - 1] == a;
    var (s, outcomes) := Run(cfg, store, before);
    NextOfBurst(cfg, store, s, n, now);
    RunSnoc(cfg, store, all);
    FailuresSnoc(cfg, before, outcomes, a, Failed, cfg.fold("x"));
  }

  ghost predicate Repeats(times: seq<int>, n: nat, t: int) {
    |times| == n && forall i :: 0 <= i < n ==> times[i] == t
  }

  /** The keys of account "x" after a burst of `n` failures from `store`. */
  ghost predicate BurstLeaves(cfg: Config, store: Store, s: Store, n: nat, now: int) {
    var fail, lock := FailKey(cfg.fold("x")), LockKey(cfg.fold("x"));
    if n == 0 then s == store
    else if n < cfg.failMax
    then fail in s && s[fail] == Cell(n, Some(now + cfg.lockMs)) && !LockBites(cfg, s, cfg.fold("x"), now)
    else fail !in s && lock in s && s[lock] == Cell(1, Some(now + cfg.lockMs))
  }

  lemma NextOfBurst(cfg: Config, store: Store, s: Store, n: nat, now: int)
    requires cfg.Valid() && 0 < n <= cfg.failMax
    requires !Live(store, FailKey(cfg.fold("x")), now) && !LockBites(cfg, store, cfg.fold("x"), now)
    requires BurstLeaves(cfg, store, s, n - 1, now)
    ensures Step(cfg, s, Attempt(None, "x", now, Wrong)).1 == Failed
    ensures BurstLeaves(cfg, store, Step(cfg, s, Attempt(None, "x", now, Wrong)).0, n, now)
  {
    FailureKeys(cfg, s, None, "x", now);
  }

  lemma {:induction false} RepeatsCount(times: seq<int>, n: nat, t: int, lo: int, hi: int)
    requires Repeats(times, n, t) && lo <= t < hi
    ensures CountIn(times, lo, hi) == n
  {
    if n > 0 { RepeatsCount(times[1..], n - 1, t, lo, hi); }
  }

  /** The full lock time is honoured on every run exactly when the TTL answer never rounds down. */
  lemma FullLockExactly(cfg: Config)
    requires cfg.Valid()
    ensures FullLockBound(cfg) <==> cfg.ttlSlackMs == 0
  {
    if cfg.ttlSlackMs == 0 {
      forall attempts, start, account, lo
        | OneAtATime(attempts, start) && NoSuccessFor(cfg, attempts, Run(cfg, map[], attempts).1, account)
        ensures FailuresWithin(cfg, attempts, account, lo, cfg.lockMs) < 2 * cfg.failMax
      {
        AccountFailureBound(cfg, map[], attempts, start, account, lo);
      }
    } else {
      EarlyRelease(cfg);
    }
  }

  /** If the lock is reported gone while it still has time to run, two full bursts fit in one lock time. */
  lemma {:induction false} EarlyRelease(cfg: Config)
    requires cfg.Valid() && cfg.ttlSlackMs > 0
    ensures !FullLockBound(cfg)
  {
    var again := if cfg.lockMs > cfg.ttlSlackMs then cfg.lockMs - cfg.ttlSlackMs else 0;
    var a, b := Burst(cfg.failMax, 0), Burst(cfg.failMax, again);
    BurstFails(cfg, map[], cfg.failMax, 0);
    var s := Run(cfg, map[], a).0;
    BurstFails(cfg, s, cfg.failMax, again);
    TwoBursts(cfg, s, a, b, again);
    assert OneAtATime(a + b, 0);
    assert FailuresWithin(cfg, a + b, cfg.fold("x"), 0, cfg.lockMs) == 2 * cfg.failMax;
  }

  lemma {:induction false} TwoBursts(cfg: Config, s: Store, a: seq<Attempt>, b: seq<Attempt>, again: int)
    requires cfg.Valid() && 0 <= again < cfg.lockMs && s == Run(cfg, map[], a).0
    requires Went(cfg, map[], a, cfg.failMax, 0) && Went(cfg, s, b, cfg.failMax, again)
    ensures NoSuccessFor(cfg, a + b, Run(cfg, map[], a + b).1, cfg.fold("x"))
    ensures FailuresWithin(cfg, a + b, cfg.fold("x"), 0, cfg.lockMs) == 2 * cfg.failMax
  {
    var account := cfg.fold("x");
    var first, second := Run(cfg, map[], a).1, Run(cfg, s, b).1;
    RunConcat(cfg, map[], a, b);
    FailuresConcat(cfg, a, first, b, second, account);
    var ta, tb := AccountFailures(cfg, a, first, account), AccountFailures(cfg, b, second, account);
    CountInConcat(ta, tb, 0, cfg.lockMs);
    RepeatsCount(ta, cfg.failMax, 0, 0, cfg.lockMs);
    RepeatsCount(tb, cfg.failMax, again, 0, cfg.lockMs);
  }

  // ---------------------------------------------------------------- the per-address brake

  ghost predicate AddressReflects(cfg: Config, store: Store, ip: string, groups: seq<seq<int>>, now: int) {
    if groups == [] then !Live(store, IpKey(ip), now)
    else
      var last := groups[|groups| - 1];
      && last != []
      && last[|last| - 1] <= now
      && IpKey(ip) in store && store[IpKey(ip)] == Cell(|last|, Some(last[0] + cfg.ipWindowMs))
  }

  lemma AddressKey(cfg: Config, store: Store, a: Attempt, ip: string)
    requires cfg.Valid() && ip != ""
    ensures var (store', outcome) := Step(cfg, store, a);
            var key := IpKey(ip);
            if outcome.Failed? && a.ip == Some(ip)
            then
              && Get(store, key, a.now) < cfg.ipMax
              && key in store'
              && store'[key] == (if Live(store, key, a.now) && store[key].value != 0
                                 then store[key].(value := store[key].value + 1)
                                 else Cell(1, Some(a.now + cfg.ipWindowMs)))
            else (key in store' <==> key in store) && (key in store ==> store'[key] == store[key])
  {
  }

  lemma {:induction false} AddressGroups(cfg: Config, store: Store, attempts: seq<Attempt>, start: int, ip: string)
    returns (groups: seq<seq<int>>)
    requires cfg.Valid() && ip != ""
    requires OneAtATime(attempts, start) && !Live(store, IpKey(ip), start)
    ensures var (s, outcomes) := Run(cfg, store, attempts);
            && Grouped(groups, cfg.ipWindowMs, cfg.ipMax)
            && Flatten(groups) == AddressFailures(attempts, outcomes, ip)
            && AddressReflects(cfg, s, ip, groups, LastTime(attempts, start))
  {
    if attempts == [] { return []; }
    var n := |attempts| - 1;
    var before := attempts[..n];
    RunSnoc(cfg, store, attempts);
    groups := AddressGroups(cfg, store, before, start, ip);
    groups := AddressStep(cfg, Run(cfg, store, before).0, attempts[n], groups, LastTime(before, start), ip);
  }

  /** A recorded failure of the address joins its live window or opens the next one. */
  lemma AddressRecorded(cfg: Config, s: Store, a: Attempt, groups: seq<seq<int>>, before: int, ip: string)
    returns (groups': seq<seq<int>>)
    requires cfg.Valid() && ip != "" && before <= a.now
    requires Grouped(groups, cfg.ipWindowMs, cfg.ipMax) && AddressReflects(cfg, s, ip, groups, before)
    requires Step(cfg, s, a).1.Failed? && a.ip == Some(ip)
    ensures Grouped(groups', cfg.ipWindowMs, cfg.ipMax)
    ensures Flatten(groups') == Flatten(groups) + [a.now]
    ensures AddressReflects(cfg, Step(cfg, s, a).0, ip, groups', a.now)
  {
    AddressKey(cfg, s, a, ip);
    if groups != [] && Live(s, IpKey(ip), a.now) {
      ExtendGroup(groups, cfg.ipWindowMs, cfg.ipMax, a.now);
      groups' := groups[..|groups| - 1] + [groups[|groups| - 1] + [a.now]];
    } else {
      OpenGroup(groups, cfg.ipWindowMs, cfg.ipMax, a.now);
      groups' := groups + [[a.now]];
    }
  }

  lemma AddressStep(cfg: Config, s: Store, a: Attempt, groups: seq<seq<int>>, before: int, ip: string)
    returns (groups': seq<seq<int>>)
    requires cfg.Valid() && ip != "" && before <= a.now
    requires Grouped(groups, cfg.ipWindowMs, cfg.ipMax) && AddressReflects(cfg, s, ip, groups, before)
    ensures Grouped(groups', cfg.ipWindowMs, cfg.ipMax)
    ensures Flatten(groups') == Flatten(groups)
      + if Step(cfg, s, a).1.Failed? && Counts(a.ip) && a.ip.value == ip then [a.now] else []
    ensures AddressReflects(cfg, Step(cfg, s, a).0, ip, groups', a.now)
  {
    if Step(cfg, s, a).1.Failed? && a.ip == Some(ip) {
      groups' := AddressRecorded(cfg, s, a, groups, before, ip);
    } else {
      groups' := groups;
      AddressKey(cfg, s, a, ip);
    }
  }

  /** Whatever succeeds in between, one address records fewer than 2·ipMax failures per window. */
  lemma AddressFailureBound(cfg: Config, attempts: seq<Attempt>, start: int, ip: string, lo: int)
    requires cfg.Valid() && ip != "" && OneAtATime(attempts, start)
    ensures CountIn(AddressFailures(attempts, Run(cfg, map[], attempts).1, ip), lo, lo + cfg.ipWindowMs) < 2 * cfg.ipMax
  {
    var groups := AddressGroups(cfg, map[], attempts, start, ip);
    SlidingBound(groups, cfg.ipWindowMs, cfg.ipMax, lo);
  }
}
