/**
 * Password failures are counted under the e-mail that was typed, wrong codes under the user's id
 * (auth.controller.ts). What that means for the failures of one person: the promise that both count
 * against the same account (login-throttle.service.ts) holds exactly when the two names coincide.
 */
module SplitAccounts {
  import opened Wrappers
  import opened Windows
  import T = LoginThrottling
  import opened AuthSessions

  // ---------------------------------------------------------------- both kinds of failure

  function BadPasswordNow(cfg: T.Config, st: State, r: Request, email: string): seq<int> {
    if r.Login? && Handle(cfg, st, r).1.BadCredentials? && cfg.fold(r.email) == cfg.fold(email) then [r.now] else []
  }

  /** The times at which wrong passwords for the e-mail were posted. */
  function BadPasswordTimes(cfg: T.Config, reqs: seq<Request>, email: string): seq<int> {
    if reqs == [] then []
    else
      var n := |reqs| - 1;
      BadPasswordTimes(cfg, reqs[..n], email) + BadPasswordNow(cfg, Run(cfg, reqs[..n]), reqs[n], email)
  }

  /** Wrong passwords for the e-mail and wrong codes for the user, together, from `lo` to `hi`. */
  function FailuresBetween(cfg: T.Config, reqs: seq<Request>, email: string, user: string, lo: int, hi: int): nat {
    CountIn(BadPasswordTimes(cfg, reqs, email), lo, hi) + CountIn(WrongCodeTimes(cfg, reqs, user), lo, hi)
  }

  /** The same within one effective lock time. */
  function FailuresInLock(cfg: T.Config, reqs: seq<Request>, email: string, user: string, lo: int): nat {
    FailuresBetween(cfg, reqs, email, user, lo, lo + cfg.lockMs - cfg.ttlSlackMs)
  }

  ghost predicate NoSuccess(cfg: T.Config, reqs: seq<Request>, account: string) {
    T.NoSuccessFor(cfg, Attempts(cfg, reqs), T.Run(cfg, map[], Attempts(cfg, reqs)).1, account)
  }

  /** The failures that the throttle has recorded for an account in the run of these requests. */
  function Recorded(cfg: T.Config, reqs: seq<Request>, account: string): seq<int> {
    T.AccountFailures(cfg, Attempts(cfg, reqs), T.Run(cfg, map[], Attempts(cfg, reqs)).1, account)
  }

  function RecordedNow(cfg: T.Config, st: State, r: Request, account: string): seq<int> {
    match AttemptOf(st, r)
    case None => []
    case Some(a) => if T.Step(cfg, st.store, a).1.Failed? && cfg.fold(a.id) == account then [a.now] else []
  }

  lemma {:induction false} RecordedSnoc(cfg: T.Config, reqs: seq<Request>, account: string)
    requires reqs != []
    ensures var n := |reqs| - 1;
            Recorded(cfg, reqs, account)
            == Recorded(cfg, reqs[..n], account) + RecordedNow(cfg, Run(cfg, reqs[..n]), reqs[n], account)
  {
    var n := |reqs| - 1;
    var st, before := Run(cfg, reqs[..n]), Attempts(cfg, reqs[..n]);
    StoreIsThrottleRun(cfg, reqs[..n]);
    if AttemptOf(st, reqs[n]).Some? {
      OneMoreAttempt(cfg, before, AttemptOf(st, reqs[n]).value, account);
    } else {
      NothingMore(before);
      NothingMore(Recorded(cfg, reqs[..n], account));
    }
  }

  lemma {:induction false} NothingMore<X>(s: seq<X>)
    ensures s + [] == s
  {
  }

  lemma {:induction false} OneMoreAttempt(cfg: T.Config, before: seq<T.Attempt>, a: T.Attempt, account: string)
    ensures var (s, outcomes) := T.Run(cfg, map[], before);
            T.AccountFailures(cfg, before + [a], T.Run(cfg, map[], before + [a]).1, account)
            == T.AccountFailures(cfg, before, outcomes, account)
               + if T.Step(cfg, s, a).1.Failed? && cfg.fold(a.id) == account then [a.now] else []
  {
    var (s, outcomes) := T.Run(cfg, map[], before);
    assert (before + [a])[..|before|] == before;
    T.RunSnoc(cfg, map[], before + [a]);
    T.FailuresSnoc(cfg, before, outcomes, a, T.Step(cfg, s, a).1, account);
  }

  /** A request fails at most one way, and what it adds is recorded under the name it was checked under. */
  lemma {:induction false} FailsOneWay(cfg: T.Config, st: State, r: Request, email: string, user: string)
    ensures var bad, wrong := BadPasswordNow(cfg, st, r, email), WrongCodeNow(cfg, st, r, user);
            && (bad == [] || wrong == [])
            && (bad != [] ==> bad == RecordedNow(cfg, st, r, cfg.fold(email)))
            && (wrong != [] ==> wrong == RecordedNow(cfg, st, r, cfg.fold(Uid(user))))
  {
    HandleIsAttempt(cfg, st, r);
  }

  lemma {:induction false} BadPasswordsAreRecorded(cfg: T.Config, reqs: seq<Request>, email: string, lo: int, hi: int)
    ensures CountIn(BadPasswordTimes(cfg, reqs, email), lo, hi) <= CountIn(Recorded(cfg, reqs, cfg.fold(email)), lo, hi)
  {
    if reqs != [] {
      var n := |reqs| - 1;
      var st := Run(cfg, reqs[..n]);
      BadPasswordsAreRecorded(cfg, reqs[..n], email, lo, hi);
      RecordedSnoc(cfg, reqs, cfg.fold(email));
      FailsOneWay(cfg, st, reqs[n], email, "");
      CountInConcat(BadPasswordTimes(cfg, reqs[..n], email), BadPasswordNow(cfg, st, reqs[n], email), lo, hi);
      CountInConcat(Recorded(cfg, reqs[..n], cfg.fold(email)), RecordedNow(cfg, st, reqs[n], cfg.fold(email)), lo, hi);
    }
  }

  /** With one name for both, the two kinds together are no more than what is recorded under it. */
  lemma {:induction false} BothAreRecorded(
    cfg: T.Config, reqs: seq<Request>, email: string, user: string, lo: int, hi: int)
    requires cfg.fold(email) == cfg.fold(Uid(user))
    ensures FailuresBetween(cfg, reqs, email, user, lo, hi) <= CountIn(Recorded(cfg, reqs, cfg.fold(email)), lo, hi)
  {
    if reqs != [] {
      var n := |reqs| - 1;
      var st := Run(cfg, reqs[..n]);
      BothAreRecorded(cfg, reqs[..n], email, user, lo, hi);
      RecordedSnoc(cfg, reqs, cfg.fold(email));
      FailsOneWay(cfg, st, reqs[n], email, user);
      CountInConcat(BadPasswordTimes(cfg, reqs[..n], email), BadPasswordNow(cfg, st, reqs[n], email), lo, hi);
      CountInConcat(WrongCodeTimes(cfg, reqs[..n], user), WrongCodeNow(cfg, st, reqs[n], user), lo, hi);
      CountInConcat(Recorded(cfg, reqs[..n], cfg.fold(email)), RecordedNow(cfg, st, reqs[n], cfg.fold(email)), lo, hi);
    }
  }

  // ---------------------------------------------------------------- what always holds

  /** The requests are served one at a time, from `start` on, and none completes a sign-in under either name. */
  ghost predicate QuietRun(cfg: T.Config, reqs: seq<Request>, email: string, user: string, start: int) {
    && ClockNeverGoesBack(reqs, TimeOf) && (forall i :: 0 <= i < |reqs| ==> start <= reqs[i].now)
    && NoSuccess(cfg, reqs, cfg.fold(email)) && NoSuccess(cfg, reqs, cfg.fold(Uid(user)))
  }

  lemma {:induction false} RecordedBound(cfg: T.Config, reqs: seq<Request>, account: string, start: int, lo: int)
    requires cfg.Valid() && cfg.ttlSlackMs <= cfg.lockMs && NoSuccess(cfg, reqs, account)
    requires ClockNeverGoesBack(reqs, TimeOf) && forall i :: 0 <= i < |reqs| ==> start <= reqs[i].now
    ensures CountIn(Recorded(cfg, reqs, account), lo, lo + cfg.lockMs - cfg.ttlSlackMs) < 2 * cfg.failMax
  {
    AttemptsInOrder(cfg, reqs, start);
    T.AccountFailureBound(cfg, map[], Attempts(cfg, reqs), start, account, lo);
  }

  lemma {:induction false} BadPasswordBound(cfg: T.Config, reqs: seq<Request>, email: string, start: int, lo: int)
    requires cfg.Valid() && cfg.ttlSlackMs <= cfg.lockMs && NoSuccess(cfg, reqs, cfg.fold(email))
    requires ClockNeverGoesBack(reqs, TimeOf) && forall i :: 0 <= i < |reqs| ==> start <= reqs[i].now
    ensures CountIn(BadPasswordTimes(cfg, reqs, email), lo, lo + cfg.lockMs - cfg.ttlSlackMs) < 2 * cfg.failMax
  {
    BadPasswordsAreRecorded(cfg, reqs, email, lo, lo + cfg.lockMs - cfg.ttlSlackMs);
    RecordedBound(cfg, reqs, cfg.fold(email), start, lo);
  }

  /** Whatever the names, the two kinds together stay within twice the bound of one account. */
  lemma {:induction false} BothKindsBound(
    cfg: T.Config, reqs: seq<Request>, email: string, user: string, start: int, lo: int)
    requires cfg.Valid() && cfg.ttlSlackMs <= cfg.lockMs && QuietRun(cfg, reqs, email, user, start)
    ensures FailuresInLock(cfg, reqs, email, user, lo) <= 4 * cfg.failMax - 2
  {
    BadPasswordBound(cfg, reqs, email, start, lo);
    FreshChallengesDoNotHelp(cfg, reqs, user, start, lo);
  }

  // ---------------------------------------------------------------- the run that exceeds one account's bound

  function Cookie(n: nat): string {
    if n == 0 then "" else "x" + Cookie(n - 1)
  }

  /** The right password, which begins a fresh challenge. */
  function FreshChallenge(sid: string, email: string, user: string): Request {
    Login(0, "", sid, None, email, true, Some(user), true)
  }

  function WrongCodeFor(sid: string): Request {
    LoginTotp(0, sid, "", None, true, false)
  }

  function CodeRounds(n: nat, email: string, user: string): seq<Request> {
    if n == 0 then []
    else CodeRounds(n - 1, email, user) + [FreshChallenge(Cookie(n), email, user)] + [WrongCodeFor(Cookie(n))]
  }

  /** After the rounds of codes, `n` wrong passwords. */
  function BothRounds(codes: nat, n: nat, email: string, user: string): seq<Request> {
    if n == 0 then CodeRounds(codes, email, user)
    else BothRounds(codes, n - 1, email, user) + [WrongPasswordFor(email)]
  }

  /** The two keys of an account after `n` failures at time 0, none before. */
  ghost predicate CountedTo(cfg: T.Config, store: T.Store, account: string, n: nat) {
    var fail, lock := T.FailKey(account), T.LockKey(account);
    if n == 0 then fail !in store && lock !in store
    else if n < cfg.failMax then fail in store && store[fail] == T.Cell(n, Some(cfg.lockMs)) && lock !in store
    else fail !in store && lock in store && store[lock] == T.Cell(1, Some(cfg.lockMs))
  }

  /** The state of the run: `codes` wrong codes and `passwords` wrong passwords, all at time 0, all counted. */
  ghost predicate Reached(cfg: T.Config, reqs: seq<Request>, email: string, user: string, codes: nat, passwords: nat) {
    && CountedTo(cfg, Run(cfg, reqs).store, cfg.fold(Uid(user)), codes)
    && CountedTo(cfg, Run(cfg, reqs).store, cfg.fold(email), passwords)
    && T.Repeats(WrongCodeTimes(cfg, reqs, user), codes, 0)
       && T.Repeats(BadPasswordTimes(cfg, reqs, email), passwords, 0)
    && NoSuccess(cfg, reqs, cfg.fold(Uid(user))) && NoSuccess(cfg, reqs, cfg.fold(email))
    && AllAtZero(reqs)
  }

  ghost predicate AllAtZero(reqs: seq<Request>) {
    forall i :: 0 <= i < |reqs| ==> reqs[i].now == 0
  }

  lemma {:induction false} FailureCounted(cfg: T.Config, store: T.Store, id: string, n: nat)
    requires cfg.Valid() && n < cfg.failMax && CountedTo(cfg, store, cfg.fold(id), n)
    ensures CountedTo(cfg, T.AfterFailure(cfg, store, None, id, 0), cfg.fold(id), n + 1)
    ensures T.Check(cfg, store, None, id, 0).Allowed?
  {
    T.FailureKeys(cfg, store, None, id, 0);
  }

  lemma {:induction false} OtherCountKept(cfg: T.Config, store: T.Store, id: string, other: string, n: nat)
    requires cfg.fold(id) != other && CountedTo(cfg, store, other, n)
    ensures CountedTo(cfg, T.AfterFailure(cfg, store, None, id, 0), other, n)
  {
  }

  /** The request's attempt, if it makes one, does not complete a sign-in under the account. */
  ghost predicate StaysOut(cfg: T.Config, st: State, r: Request, account: string) {
    match AttemptOf(st, r)
    case None => true
    case Some(a) => !(T.Step(cfg, st.store, a).1.SignedIn? && cfg.fold(a.id) == account)
  }

  lemma {:induction false} NoSuccessSnoc(cfg: T.Config, reqs: seq<Request>, account: string)
    requires reqs != [] && NoSuccess(cfg, reqs[..|reqs| - 1], account)
    requires StaysOut(cfg, Run(cfg, reqs[..|reqs| - 1]), reqs[|reqs| - 1], account)
    ensures NoSuccess(cfg, reqs, account)
  {
    var n := |reqs| - 1;
    var st := Run(cfg, reqs[..n]);
    StoreIsThrottleRun(cfg, reqs[..n]);
    if AttemptOf(st, reqs[n]).Some? {
      NoSuccessWith(cfg, Attempts(cfg, reqs[..n]), AttemptOf(st, reqs[n]).value, account);
    } else {
      NothingMore(Attempts(cfg, reqs[..n]));
    }
  }

  lemma {:induction false} NoSuccessWith(cfg: T.Config, before: seq<T.Attempt>, a: T.Attempt, account: string)
    requires T.NoSuccessFor(cfg, before, T.Run(cfg, map[], before).1, account)
    requires !(T.Step(cfg, T.Run(cfg, map[], before).0, a).1.SignedIn? && cfg.fold(a.id) == account)
    ensures T.NoSuccessFor(cfg, before + [a], T.Run(cfg, map[], before + [a]).1, account)
  {
    assert (before + [a])[..|before|] == before;
    T.RunSnoc(cfg, map[], before + [a]);
  }

  function Appended(times: seq<int>, more: seq<int>): seq<int> {
    if more == [] then times else times + more
  }

  lemma {:induction false} RunAdded(cfg: T.Config, before: seq<Request>, r: Request)
    ensures Run(cfg, before + [r]) == Handle(cfg, Run(cfg, before), r).0
  {
    assert (before + [r])[..|before|] == before;
  }

  lemma {:induction false} WrongCodesAdded(cfg: T.Config, before: seq<Request>, r: Request, user: string)
    ensures WrongCodeTimes(cfg, before + [r], user)
            == Appended(WrongCodeTimes(cfg, before, user), WrongCodeNow(cfg, Run(cfg, before), r, user))
  {
    assert (before + [r])[..|before|] == before;
    NothingMore(WrongCodeTimes(cfg, before, user));
  }

  lemma {:induction false} BadPasswordsAdded(cfg: T.Config, before: seq<Request>, r: Request, email: string)
    ensures BadPasswordTimes(cfg, before + [r], email)
            == Appended(BadPasswordTimes(cfg, before, email), BadPasswordNow(cfg, Run(cfg, before), r, email))
  {
    assert (before + [r])[..|before|] == before;
    NothingMore(BadPasswordTimes(cfg, before, email));
  }

  lemma {:induction false} NoSuccessAdded(cfg: T.Config, before: seq<Request>, r: Request, account: string)
    requires NoSuccess(cfg, before, account) && !Handle(cfg, Run(cfg, before), r).1.Done?
    ensures NoSuccess(cfg, before + [r], account)
  {
    assert (before + [r])[..|before|] == before;
    assert StaysOut(cfg, Run(cfg, before), r, account);
    NoSuccessSnoc(cfg, before + [r], account);
  }

  lemma {:induction false} RepeatsMore(times: seq<int>, more: seq<int>, n: nat, m: nat)
    requires T.Repeats(times, n, 0) && T.Repeats(more, m, 0)
    ensures T.Repeats(Appended(times, more), n + m, 0)
  {
  }

  /** A request at time 0 that completes no sign-in and adds these failures to the two counts. */
  lemma {:induction false} RequestAdded(cfg: T.Config, before: seq<Request>, r: Request, email: string, user: string,
                                        codes: nat, passwords: nat, moreCodes: nat, morePasswords: nat)
    requires Reached(cfg, before, email, user, codes, passwords) && r.now == 0
    requires !Handle(cfg, Run(cfg, before), r).1.Done?
    requires T.Repeats(WrongCodeNow(cfg, Run(cfg, before), r, user), moreCodes, 0)
    requires T.Repeats(BadPasswordNow(cfg, Run(cfg, before), r, email), morePasswords, 0)
    requires CountedTo(cfg, Handle(cfg, Run(cfg, before), r).0.store, cfg.fold(Uid(user)), codes + moreCodes)
    requires CountedTo(cfg, Handle(cfg, Run(cfg, before), r).0.store, cfg.fold(email), passwords + morePasswords)
    ensures Reached(cfg, before + [r], email, user, codes + moreCodes, passwords + morePasswords)
  {
    var st := Run(cfg, before);
    RunAdded(cfg, before, r);
    WrongCodesAdded(cfg, before, r, user);
    RepeatsMore(WrongCodeTimes(cfg, before, user), WrongCodeNow(cfg, st, r, user), codes, moreCodes);
    BadPasswordsAdded(cfg, before, r, email);
    RepeatsMore(BadPasswordTimes(cfg, before, email), BadPasswordNow(cfg, st, r, email), passwords, morePasswords);
    NoSuccessAdded(cfg, before, r, cfg.fold(email));
    NoSuccessAdded(cfg, before, r, cfg.fold(Uid(user)));
  }

  lemma {:induction false} ChallengeGiven(cfg: T.Config, st: State, sid: string, email: string, user: string)
    requires cfg.Valid() && CountedTo(cfg, st.store, cfg.fold(email), 0)
    ensures var r := FreshChallenge(sid, email, user);
            && Handle(cfg, st, r).1 == MfaRequired && Handle(cfg, st, r).0.store == st.store
            && SessionOf(Handle(cfg, st, r).0.sessions, sid)
               == Session(None, Some(Pending(user, MFA_CHALLENGE_TTL_MS, 0)))
            && BadPasswordNow(cfg, st, r, email) == [] && WrongCodeNow(cfg, st, r, user) == []
  {
    FailureCounted(cfg, st.store, email, 0);
  }

  lemma {:induction false} ChallengeAdded(
    cfg: T.Config, before: seq<Request>, sid: string, n: nat, email: string, user: string)
    requires cfg.Valid() && Reached(cfg, before, email, user, n, 0)
    ensures var reqs := before + [FreshChallenge(sid, email, user)];
            && Reached(cfg, reqs, email, user, n, 0)
            && SessionOf(Run(cfg, reqs).sessions, sid) == Session(None, Some(Pending(user, MFA_CHALLENGE_TTL_MS, 0)))
  {
    ChallengeGiven(cfg, Run(cfg, before), sid, email, user);
    RunAdded(cfg, before, FreshChallenge(sid, email, user));
    RequestAdded(cfg, before, FreshChallenge(sid, email, user), email, user, n, 0, 0, 0);
  }

  lemma {:induction false} CodeRefused(cfg: T.Config, st: State, sid: string, n: nat, email: string, user: string)
    requires cfg.Valid() && cfg.fold(email) != cfg.fold(Uid(user)) && n < cfg.failMax
    requires CountedTo(cfg, st.store, cfg.fold(Uid(user)), n) && CountedTo(cfg, st.store, cfg.fold(email), 0)
    requires SessionOf(st.sessions, sid) == Session(None, Some(Pending(user, MFA_CHALLENGE_TTL_MS, 0)))
    ensures var r := WrongCodeFor(sid);
            && Handle(cfg, st, r).1 == WrongCode
            && BadPasswordNow(cfg, st, r, email) == [] && WrongCodeNow(cfg, st, r, user) == [0]
            && CountedTo(cfg, Handle(cfg, st, r).0.store, cfg.fold(Uid(user)), n + 1)
            && CountedTo(cfg, Handle(cfg, st, r).0.store, cfg.fold(email), 0)
  {
    FailureCounted(cfg, st.store, Uid(user), n);
    OtherCountKept(cfg, st.store, Uid(user), cfg.fold(email), 0);
  }

  lemma {:induction false} CodeAdded(
    cfg: T.Config, before: seq<Request>, sid: string, n: nat, email: string, user: string)
    requires cfg.Valid() && cfg.fold(email) != cfg.fold(Uid(user)) && n < cfg.failMax
    requires Reached(cfg, before, email, user, n, 0)
    requires SessionOf(Run(cfg, before).sessions, sid) == Session(None, Some(Pending(user, MFA_CHALLENGE_TTL_MS, 0)))
    ensures Reached(cfg, before + [WrongCodeFor(sid)], email, user, n + 1, 0)
  {
    CodeRefused(cfg, Run(cfg, before), sid, n, email, user);
    RequestAdded(cfg, before, WrongCodeFor(sid), email, user, n, 0, 1, 0);
  }

  function WrongPasswordFor(email: string): Request {
    Login(0, "", "", None, email, true, None, true)
  }

  lemma {:induction false} PasswordRefused(cfg: T.Config, st: State, codes: nat, n: nat, email: string, user: string)
    requires cfg.Valid() && cfg.fold(email) != cfg.fold(Uid(user)) && n < cfg.failMax
    requires CountedTo(cfg, st.store, cfg.fold(Uid(user)), codes) && CountedTo(cfg, st.store, cfg.fold(email), n)
    ensures var r := WrongPasswordFor(email);
            && Handle(cfg, st, r).1 == BadCredentials
            && BadPasswordNow(cfg, st, r, email) == [0] && WrongCodeNow(cfg, st, r, user) == []
            && CountedTo(cfg, Handle(cfg, st, r).0.store, cfg.fold(Uid(user)), codes)
            && CountedTo(cfg, Handle(cfg, st, r).0.store, cfg.fold(email), n + 1)
  {
    FailureCounted(cfg, st.store, email, n);
    OtherCountKept(cfg, st.store, email, cfg.fold(Uid(user)), codes);
  }

  lemma {:induction false} PasswordAdded(
    cfg: T.Config, before: seq<Request>, codes: nat, n: nat, email: string, user: string)
    requires cfg.Valid() && cfg.fold(email) != cfg.fold(Uid(user)) && n < cfg.failMax
    requires Reached(cfg, before, email, user, codes, n)
    ensures Reached(cfg, before + [WrongPasswordFor(email)], email, user, codes, n + 1)
  {
    PasswordRefused(cfg, Run(cfg, before), codes, n, email, user);
    RequestAdded(cfg, before, WrongPasswordFor(email), email, user, codes, n, 0, 1);
  }

  lemma {:induction false} CodesReach(cfg: T.Config, codes: nat, email: string, user: string)
    requires cfg.Valid() && cfg.fold(email) != cfg.fold(Uid(user)) && codes <= cfg.failMax
    ensures Reached(cfg, CodeRounds(codes, email, user), email, user, codes, 0)
  {
    if codes > 0 {
      CodesReach(cfg, codes - 1, email, user);
      var before, sid := CodeRounds(codes - 1, email, user), Cookie(codes);
      ChallengeAdded(cfg, before, sid, codes - 1, email, user);
      CodeAdded(cfg, before + [FreshChallenge(sid, email, user)], sid, codes - 1, email, user);
    }
  }

  lemma {:induction false} RoundsReach(cfg: T.Config, codes: nat, n: nat, email: string, user: string)
    requires cfg.Valid() && cfg.fold(email) != cfg.fold(Uid(user)) && codes <= cfg.failMax && n <= cfg.failMax
    ensures Reached(cfg, BothRounds(codes, n, email, user), email, user, codes, n)
  {
    if n == 0 {
      CodesReach(cfg, codes, email, user);
    } else {
      RoundsReach(cfg, codes, n - 1, email, user);
      PasswordAdded(cfg, BothRounds(codes, n - 1, email, user), codes, n - 1, email, user);
    }
  }

  lemma {:induction false} ReachedIsQuiet(
    cfg: T.Config, reqs: seq<Request>, email: string, user: string, codes: nat, n: nat)
    requires Reached(cfg, reqs, email, user, codes, n)
    ensures QuietRun(cfg, reqs, email, user, 0)
  {
  }

  lemma {:induction false} ReachedCounts(
    cfg: T.Config, reqs: seq<Request>, email: string, user: string, codes: nat, n: nat)
    requires Reached(cfg, reqs, email, user, codes, n) && cfg.ttlSlackMs < cfg.lockMs
    ensures FailuresInLock(cfg, reqs, email, user, 0) == codes + n
  {
    T.RepeatsCount(WrongCodeTimes(cfg, reqs, user), codes, 0, 0, cfg.lockMs - cfg.ttlSlackMs);
    T.RepeatsCount(BadPasswordTimes(cfg, reqs, email), n, 0, 0, cfg.lockMs - cfg.ttlSlackMs);
  }

  /**
   * failMax wrong codes in as many fresh challenges and then failMax wrong passwords, all of one
   * person and at one instant: 2·failMax failures get through, whatever failMax is.
   */
  lemma {:induction false} TwoCountersDouble(cfg: T.Config, email: string, user: string)
    requires cfg.Valid() && cfg.fold(email) != cfg.fold(Uid(user)) && cfg.ttlSlackMs < cfg.lockMs
    ensures var reqs := BothRounds(cfg.failMax, cfg.failMax, email, user);
            QuietRun(cfg, reqs, email, user, 0) && FailuresInLock(cfg, reqs, email, user, 0) == 2 * cfg.failMax
  {
    var reqs := BothRounds(cfg.failMax, cfg.failMax, email, user);
    RoundsReach(cfg, cfg.failMax, cfg.failMax, email, user);
    ReachedIsQuiet(cfg, reqs, email, user, cfg.failMax, cfg.failMax);
    ReachedCounts(cfg, reqs, email, user, cfg.failMax, cfg.failMax);
  }

  // ---------------------------------------------------------------- exactly when it is one account

  /** On every quiet run both kinds together keep to the bound that one account has. */
  ghost predicate OneAccountBound(cfg: T.Config, email: string, user: string) {
    forall reqs: seq<Request>, start: int, lo: int ::
      QuietRun(cfg, reqs, email, user, start) ==> FailuresInLock(cfg, reqs, email, user, lo) < 2 * cfg.failMax
  }

  lemma {:induction false} OneNameBound(
    cfg: T.Config, reqs: seq<Request>, email: string, user: string, start: int, lo: int)
    requires cfg.Valid() && cfg.ttlSlackMs <= cfg.lockMs && QuietRun(cfg, reqs, email, user, start)
    requires cfg.fold(email) == cfg.fold(Uid(user))
    ensures FailuresInLock(cfg, reqs, email, user, lo) < 2 * cfg.failMax
  {
    BothAreRecorded(cfg, reqs, email, user, lo, lo + cfg.lockMs - cfg.ttlSlackMs);
    RecordedBound(cfg, reqs, cfg.fold(email), start, lo);
  }

  /** A lock that is never seen to bite spans no time. */
  lemma {:induction false} NothingInNoTime(cfg: T.Config, reqs: seq<Request>, email: string, user: string, lo: int)
    requires cfg.lockMs <= cfg.ttlSlackMs
    ensures FailuresInLock(cfg, reqs, email, user, lo) == 0
  {
    var hi := lo + cfg.lockMs - cfg.ttlSlackMs;
    CountInAtMostLength(BadPasswordTimes(cfg, reqs, email), lo, hi);
    CountInAtMostLength(WrongCodeTimes(cfg, reqs, user), lo, hi);
  }

  /**
   * The wrong passwords under an e-mail and the wrong codes of a user share one account's bound if
   * and only if the e-mail and the prefixed user id fold to one name, or the lock never bites at all.
   */
  lemma {:induction false} OneAccountExactly(cfg: T.Config, email: string, user: string)
    requires cfg.Valid()
    ensures OneAccountBound(cfg, email, user)
            <==> cfg.fold(email) == cfg.fold(Uid(user)) || cfg.lockMs <= cfg.ttlSlackMs
  {
    if cfg.lockMs <= cfg.ttlSlackMs {
      forall reqs: seq<Request>, start: int, lo: int | QuietRun(cfg, reqs, email, user, start)
        ensures FailuresInLock(cfg, reqs, email, user, lo) < 2 * cfg.failMax
      {
        NothingInNoTime(cfg, reqs, email, user, lo);
      }
    } else if cfg.fold(email) == cfg.fold(Uid(user)) {
      forall reqs: seq<Request>, start: int, lo: int | QuietRun(cfg, reqs, email, user, start)
        ensures FailuresInLock(cfg, reqs, email, user, lo) < 2 * cfg.failMax
      {
        OneNameBound(cfg, reqs, email, user, start, lo);
      }
    } else {
      TwoCountersDouble(cfg, email, user);
    }
  }

  // ---------------------------------------------------------------- what a completed sign-in clears

  /** A sign-in completed by a code leaves the e-mail's counter and lock as they were. */
  lemma {:induction false} CodeSignInKeepsEmail(cfg: T.Config, st: State, r: Request, email: string, key: T.Key)
    requires r.LoginTotp? && Handle(cfg, st, r).1.Done?
    requires cfg.fold(email) != cfg.fold(Uid(SessionOf(st.sessions, r.sid).pendingMfa.value.userId))
    requires key == T.FailKey(cfg.fold(email)) || key == T.LockKey(cfg.fold(email))
    ensures var after := Handle(cfg, st, r).0;
            (key in after.store <==> key in st.store) && (key in st.store ==> after.store[key] == st.store[key])
  {
  }

  /** The e-mail only ever signs in with TOTP, and no user's id folds to its name. */
  ghost predicate AlwaysSecondFactor(cfg: T.Config, reqs: seq<Request>, email: string) {
    && (forall i :: 0 <= i < |reqs| && reqs[i].Login? && cfg.fold(reqs[i].email) == cfg.fold(email)
          ==> reqs[i].valid.None? || reqs[i].totpEnabled)
    && forall user: string :: cfg.fold(Uid(user)) != cfg.fold(email)
  }

  /** Then no request of the run ever clears the e-mail's failures, completed sign-ins or not. */
  lemma {:induction false} EmailNeverCleared(cfg: T.Config, reqs: seq<Request>, email: string)
    requires AlwaysSecondFactor(cfg, reqs, email)
    ensures NoSuccess(cfg, reqs, cfg.fold(email))
  {
    if reqs != [] {
      var n := |reqs| - 1;
      assert forall i :: 0 <= i < n ==> reqs[..n][i] == reqs[i];
      EmailNeverCleared(cfg, reqs[..n], email);
      assert StaysOut(cfg, Run(cfg, reqs[..n]), reqs[n], cfg.fold(email));
      NoSuccessSnoc(cfg, reqs, cfg.fold(email));
    }
  }
}
