/**
 * Local sign-in with an optional second factor (apps/server/src/auth/auth.controller.ts) as a state
 * machine over browser sessions. The password check, the TOTP check, the network policy, the clock
 * and the fresh session ids are inputs of each request; the throttle is the one in LoginThrottling.
 */
module AuthSessions {
  import opened Wrappers
  import opened Windows
  import T = LoginThrottling

  const MFA_CHALLENGE_TTL_MS: int := 5 * 60 * 1000
  const MFA_MAX_ATTEMPTS: int := 5

  datatype Pending = Pending(userId: string, expiresAt: int, attempts: int)

  datatype Session = Session(userId: Option<string>, pendingMfa: Option<Pending>)

  type Sessions = map<string, Session>

  datatype Request =
    | Setup(now: int, sid: string, newSid: string, created: Option<string>)
    | Login(now: int, sid: string, newSid: string, ip: Option<string>, email: string,
            policyOk: bool, valid: Option<string>, totpEnabled: bool)
    | LoginTotp(now: int, sid: string, newSid: string, ip: Option<string>, policyOk: bool, codeOk: bool)
    | Logout(now: int, sid: string)

  datatype Reply =
    | Done | MfaRequired | BadCredentials | NoChallenge | ChallengeExpired | TooManyCodes | WrongCode
    | PolicyRefused | Throttled | SetupRefused

  datatype State = State(sessions: Sessions, store: T.Store)

  /** The throttle account under which second-factor failures are counted. */
  function Uid(userId: string): string {
    "uid:" + userId
  }

  /** The session a cookie names; an unknown cookie gets an empty one. */
  function SessionOf(sessions: Sessions, sid: string): Session {
    if sid in sessions then sessions[sid] else Session(None, None)
  }

  /** Drop the old id and store `session` under the freshly minted one. */
  function Regenerated(sessions: Sessions, sid: string, newSid: string, session: Session): Sessions {
    (sessions - {sid})[newSid := session]
  }

  // ---------------------------------------------------------------- the handlers as functions

  function Handle(cfg: T.Config, st: State, r: Request): (State, Reply) {
    match r
    case Setup(_, sid, newSid, created) =>
      if created.None? then (st, SetupRefused)
      else (st.(sessions := Regenerated(st.sessions, sid, newSid, Session(created, None))), Done)
    case Login(_, _, _, _, _, _, _, _) => HandleLogin(cfg, st, r)
    case LoginTotp(_, _, _, _, _, _) => HandleTotp(cfg, st, r)
    case Logout(_, sid) => (st.(sessions := st.sessions - {sid}), Done)
  }

  function HandleLogin(cfg: T.Config, st: State, r: Request): (State, Reply)
    requires r.Login?
  {
    if !r.policyOk then (st, PolicyRefused)
    else if !T.Check(cfg, st.store, r.ip, r.email, r.now).Allowed? then (st, Throttled)
    else if r.valid.None? then
      (st.(store := T.AfterFailure(cfg, st.store, r.ip, r.email, r.now)), BadCredentials)
    else if r.totpEnabled then
      var challenge := Pending(r.valid.value, r.now + MFA_CHALLENGE_TTL_MS, 0);
      (st.(sessions := Regenerated(st.sessions, r.sid, r.newSid, Session(None, Some(challenge)))), MfaRequired)
    else
      (State(Regenerated(st.sessions, r.sid, r.newSid, Session(r.valid, None)),
             T.AfterSuccess(cfg, st.store, r.email)), Done)
  }

  function HandleTotp(cfg: T.Config, st: State, r: Request): (State, Reply)
    requires r.LoginTotp?
  {
    var session := SessionOf(st.sessions, r.sid);
    if session.pendingMfa.None? then (st, NoChallenge)
    else
      var p := session.pendingMfa.value;
      var cleared := st.(sessions := st.sessions[r.sid := session.(pendingMfa := None)]);
      if r.now > p.expiresAt then (cleared, ChallengeExpired)
      else if p.attempts >= MFA_MAX_ATTEMPTS then (cleared, TooManyCodes)
      else if !r.policyOk then (st, PolicyRefused)
      else if !T.Check(cfg, st.store, r.ip, Uid(p.userId), r.now).Allowed? then (st, Throttled)
      else if !r.codeOk then
        (State(st.sessions[r.sid := session.(pendingMfa := Some(p.(attempts := p.attempts + 1)))],
               T.AfterFailure(cfg, st.store, r.ip, Uid(p.userId), r.now)), WrongCode)
      else
        (State(Regenerated(st.sessions, r.sid, r.newSid, Session(Some(p.userId), None)),
               T.AfterSuccess(cfg, st.store, Uid(p.userId))), Done)
  }

  // ---------------------------------------------------------------- the controller

  class AuthController {
    const throttle: T.LoginThrottle
    var sessions: Sessions

    constructor (throttle: T.LoginThrottle)
      ensures this.throttle == throttle && sessions == map[]
    {
      this.throttle := throttle;
      sessions := map[];
    }

    function Now(): State
      reads this, throttle
    {
      State(sessions, throttle.store)
    }

    /** Move to a fresh session id that holds the user alone. */
    method LoginSession(sid: string, newSid: string, userId: string)
      modifies this
      ensures sessions == Regenerated(old(sessions), sid, newSid, Session(Some(userId), None))
    {
      sessions := sessions - {sid};
      sessions := sessions[newSid := Session(Some(userId), None)];
    }

    /** Start a half-authenticated challenge in a regenerated session. */
    method BeginMfaChallenge(sid: string, newSid: string, userId: string, now: int)
      modifies this
      ensures sessions == Regenerated(old(sessions), sid, newSid,
                                      Session(None, Some(Pending(userId, now + MFA_CHALLENGE_TTL_MS, 0))))
    {
      sessions := sessions - {sid};
      sessions := sessions[newSid := Session(None, Some(Pending(userId, now + MFA_CHALLENGE_TTL_MS, 0)))];
    }

    method ClearPendingMfa(sid: string)
      modifies this
      ensures sessions == old(sessions)[sid := SessionOf(old(sessions), sid).(pendingMfa := None)]
    {
      sessions := sessions[sid := SessionOf(sessions, sid).(pendingMfa := None)];
    }

    method Login(r: Request) returns (reply: Reply)
      requires r.Login?
      modifies this, throttle
      ensures (Now(), reply) == Handle(throttle.cfg, old(Now()), r)
    {
      if !r.policyOk {
        return PolicyRefused;
      }
      var verdict := throttle.AssertAllowed(r.ip, r.email, r.now);
      if !verdict.Allowed? {
        return Throttled;
      }
      if r.valid.None? {
        throttle.RecordFailure(r.ip, r.email, r.now);
        return BadCredentials;
      }
      if r.totpEnabled {
        BeginMfaChallenge(r.sid, r.newSid, r.valid.value, r.now);
        return MfaRequired;
      }
      throttle.RecordSuccess(r.email);
      LoginSession(r.sid, r.newSid, r.valid.value);
      return Done;
    }

    method LoginTotp(r: Request) returns (reply: Reply)
      requires r.LoginTotp?
      modifies this, throttle
      ensures (Now(), reply) == Handle(throttle.cfg, old(Now()), r)
    {
      var session := SessionOf(sessions, r.sid);
      if session.pendingMfa.None? {
        return NoChallenge;
      }
      var pending := session.pendingMfa.value;
      if r.now > pending.expiresAt {
        ClearPendingMfa(r.sid);
        return ChallengeExpired;
      }
      if pending.attempts >= MFA_MAX_ATTEMPTS {
        ClearPendingMfa(r.sid);
        return TooManyCodes;
      }
      if !r.policyOk {
        return PolicyRefused;
      }
      var account := Uid(pending.userId);
      var verdict := throttle.AssertAllowed(r.ip, account, r.now);
      if !verdict.Allowed? {
        return Throttled;
      }
      if !r.codeOk {
        pending := pending.(attempts := pending.attempts + 1);
        sessions := sessions[r.sid := session.(pendingMfa := Some(pending))];
        throttle.RecordFailure(r.ip, account, r.now);
        return WrongCode;
      }
      throttle.RecordSuccess(account);
      LoginSession(r.sid, r.newSid, pending.userId);
      return Done;
    }
  }

  // ---------------------------------------------------------------- runs

  function Run(cfg: T.Config, reqs: seq<Request>): State {
    if reqs == [] then State(map[], map[])
    else Handle(cfg, Run(cfg, reqs[..|reqs| - 1]), reqs[|reqs| - 1]).0
  }

  function ReplyAt(cfg: T.Config, reqs: seq<Request>, i: nat): Reply
    requires i < |reqs|
  {
    Handle(cfg, Run(cfg, reqs[..i]), reqs[i]).1
  }

  /** How the next request changes what a later run sees: earlier positions stay as they were. */
  lemma {:induction false} PrefixStable(reqs: seq<Request>, i: nat)
    requires i < |reqs|
    ensures reqs[..|reqs| - 1][..i] == reqs[..i]
  {
  }

  // ---------------------------------------------------------------- never both

  ghost predicate SessionOk(s: Session) {
    && !(s.userId.Some? && s.pendingMfa.Some?)
    && (s.pendingMfa.Some? ==> 0 <= s.pendingMfa.value.attempts <= MFA_MAX_ATTEMPTS)
  }

  /** In every reachable state no session is both signed in and half signed in. */
  lemma {:induction false} NeverBoth(cfg: T.Config, reqs: seq<Request>)
    ensures forall sid :: sid in Run(cfg, reqs).sessions ==> SessionOk(Run(cfg, reqs).sessions[sid])
  {
    if reqs != [] {
      NeverBoth(cfg, reqs[..|reqs| - 1]);
    }
  }

  // ---------------------------------------------------------------- who may be signed in

  /** The request, met in this state, entitles its fresh session to sign in as `user`. */
  ghost predicate Entitles(cfg: T.Config, st: State, r: Request, user: string) {
    match r
    case Setup(_, _, _, created) => created == Some(user)
    case Login(now, _, _, ip, email, policyOk, valid, totpEnabled) =>
      policyOk && T.Check(cfg, st.store, ip, email, now).Allowed? && valid == Some(user) && !totpEnabled
    case LoginTotp(now, sid, _, ip, policyOk, codeOk) =>
      && policyOk && codeOk
      && sid in st.sessions && st.sessions[sid].pendingMfa.Some?
      && var p := st.sessions[sid].pendingMfa.value;
      && p.userId == user && now <= p.expiresAt && p.attempts < MFA_MAX_ATTEMPTS
      && T.Check(cfg, st.store, ip, Uid(user), now).Allowed?
    case Logout(_, _) => false
  }

  ghost predicate EntitledAt(cfg: T.Config, reqs: seq<Request>, i: nat, sid: string, user: string) {
    i < |reqs| && !reqs[i].Logout? && reqs[i].newSid == sid && Entitles(cfg, Run(cfg, reqs[..i]), reqs[i], user)
  }

  /** A signed-in session was minted by a request that entitled it, under the id minted for it. */
  lemma {:induction false} SignedInWasEntitled(cfg: T.Config, reqs: seq<Request>, sid: string) returns (i: nat)
    requires sid in Run(cfg, reqs).sessions && Run(cfg, reqs).sessions[sid].userId.Some?
    ensures EntitledAt(cfg, reqs, i, sid, Run(cfg, reqs).sessions[sid].userId.value)
  {
    var n := |reqs| - 1;
    var before := Run(cfg, reqs[..n]);
    var user := Run(cfg, reqs).sessions[sid].userId.value;
    if sid in before.sessions && before.sessions[sid].userId == Some(user) && !EntitledAt(cfg, reqs, n, sid, user) {
      i := SignedInWasEntitled(cfg, reqs[..n], sid);
      PrefixStable(reqs, i);
    } else {
      i := n;
    }
  }

  /** How many wrong codes were posted under `sid` from position `from` on. */
  function WrongCodes(cfg: T.Config, reqs: seq<Request>, sid: string, from: nat): nat {
    if |reqs| <= from then 0
    else
      var n := |reqs| - 1;
      WrongCodes(cfg, reqs[..n], sid, from)
        + if reqs[n].sid == sid && ReplyAt(cfg, reqs, n).WrongCode? then 1 else 0
  }

  /** A password for `user` was accepted at position `i` and began the challenge `p` under `sid`. */
  ghost predicate ChallengedAt(cfg: T.Config, reqs: seq<Request>, i: nat, sid: string, p: Pending) {
    && i < |reqs| && reqs[i].Login? && reqs[i].newSid == sid
    && reqs[i].policyOk && reqs[i].totpEnabled && reqs[i].valid == Some(p.userId)
    && T.Check(cfg, Run(cfg, reqs[..i]).store, reqs[i].ip, reqs[i].email, reqs[i].now).Allowed?
    && p.expiresAt == reqs[i].now + MFA_CHALLENGE_TTL_MS
    && p.attempts == WrongCodes(cfg, reqs, sid, i + 1)
  }

  /**
   * A pending challenge was begun by a correct password for its user, five minutes before it
   * expires, and its counter is the number of wrong codes posted against it since.
   */
  lemma {:induction false} ChallengeWasEarned(cfg: T.Config, reqs: seq<Request>, sid: string) returns (i: nat)
    requires sid in Run(cfg, reqs).sessions && Run(cfg, reqs).sessions[sid].pendingMfa.Some?
    ensures ChallengedAt(cfg, reqs, i, sid, Run(cfg, reqs).sessions[sid].pendingMfa.value)
  {
    var n := |reqs| - 1;
    var r := reqs[n];
    var before := Run(cfg, reqs[..n]);
    var reply := ReplyAt(cfg, reqs, n);
    if r.Login? && r.newSid == sid && reply.MfaRequired? {
      i := n;
    } else {
      i := ChallengeWasEarned(cfg, reqs[..n], sid);
      PrefixStable(reqs, i);
    }
  }

  // ---------------------------------------------------------------- wrong codes across challenges

  /** The throttle attempt a request amounts to, if it gets as far as the throttle. */
  function AttemptOf(st: State, r: Request): Option<T.Attempt> {
    if r.Login? && r.policyOk then
      Some(T.Attempt(r.ip, r.email, r.now,
                     if r.valid.None? then T.Wrong else if r.totpEnabled then T.Half else T.Right))
    else if r.LoginTotp? then
      var pending := SessionOf(st.sessions, r.sid).pendingMfa;
      if pending.Some? && r.now <= pending.value.expiresAt && pending.value.attempts < MFA_MAX_ATTEMPTS && r.policyOk
      then Some(T.Attempt(r.ip, Uid(pending.value.userId), r.now, if r.codeOk then T.Right else T.Wrong))
      else None
    else None
  }

  function AttemptSeq(st: State, r: Request): seq<T.Attempt> {
    if AttemptOf(st, r).Some? then [AttemptOf(st, r).value] else []
  }

  function Attempts(cfg: T.Config, reqs: seq<Request>): seq<T.Attempt> {
    if reqs == [] then []
    else
      var n := |reqs| - 1;
      Attempts(cfg, reqs[..n]) + AttemptSeq(Run(cfg, reqs[..n]), reqs[n])
  }

  lemma {:induction false} HandleIsAttempt(cfg: T.Config, st: State, r: Request)
    ensures var (st', reply) := Handle(cfg, st, r);
            match AttemptOf(st, r)
            case None => st'.store == st.store && !reply.WrongCode?
            case Some(a) =>
              && st'.store == T.Step(cfg, st.store, a).0
              && (reply.WrongCode? ==>
                 T.Step(cfg, st.store, a).1.Failed?
                 && a.id == Uid(SessionOf(st.sessions, r.sid).pendingMfa.value.userId))
  {
  }

  /** The store the handlers leave is the one the throttle's own run of those attempts leaves. */
  lemma {:induction false} StoreIsThrottleRun(cfg: T.Config, reqs: seq<Request>)
    ensures Run(cfg, reqs).store == T.Run(cfg, map[], Attempts(cfg, reqs)).0
  {
    if reqs != [] {
      var n := |reqs| - 1;
      var st := Run(cfg, reqs[..n]);
      StoreIsThrottleRun(cfg, reqs[..n]);
      HandleIsAttempt(cfg, st, reqs[n]);
      var before := Attempts(cfg, reqs[..n]);
      if AttemptOf(st, reqs[n]).Some? {
        var all := before + [AttemptOf(st, reqs[n]).value];
        assert all[..|before|] == before;
        T.RunSnoc(cfg, map[], all);
      } else {
        assert before + [] == before;
      }
    }
  }

  /** The times at which wrong codes for `user` were posted, in whatever session and challenge. */
  function WrongCodeTimes(cfg: T.Config, reqs: seq<Request>, user: string): seq<int> {
    if reqs == [] then []
    else
      var n := |reqs| - 1;
      var st := Run(cfg, reqs[..n]);
      WrongCodeTimes(cfg, reqs[..n], user) + WrongCodeNow(cfg, st, reqs[n], user)
  }

  function WrongCodeNow(cfg: T.Config, st: State, r: Request, user: string): seq<int> {
    var pending := SessionOf(st.sessions, r.sid).pendingMfa;
    if Handle(cfg, st, r).1.WrongCode? && pending.Some? && pending.value.userId == user then [r.now] else []
  }

  /** Every wrong code is one of the failures recorded under the user's own throttle account. */
  lemma {:induction false} WrongCodesAreFailures(cfg: T.Config, reqs: seq<Request>, user: string, lo: int, hi: int)
    ensures var attempts := Attempts(cfg, reqs);
            CountIn(WrongCodeTimes(cfg, reqs, user), lo, hi)
            <= CountIn(T.AccountFailures(cfg, attempts, T.Run(cfg, map[], attempts).1, cfg.fold(Uid(user))), lo, hi)
  {
    if reqs != [] {
      var n := |reqs| - 1;
      WrongCodesAreFailures(cfg, reqs[..n], user, lo, hi);
      StoreIsThrottleRun(cfg, reqs[..n]);
      WrongCodeStep(cfg, Run(cfg, reqs[..n]), reqs[n], user, Attempts(cfg, reqs[..n]),
        WrongCodeTimes(cfg, reqs[..n], user), lo, hi);
    }
  }

  lemma {:induction false} WrongCodeStep(cfg: T.Config, st: State, r: Request, user: string,
                                         before: seq<T.Attempt>, times: seq<int>, lo: int, hi: int)
    requires st.store == T.Run(cfg, map[], before).0
    requires CountIn(times, lo, hi)
             <= CountIn(T.AccountFailures(cfg, before, T.Run(cfg, map[], before).1, cfg.fold(Uid(user))), lo, hi)
    ensures var all := before + AttemptSeq(st, r);
            CountIn(times + WrongCodeNow(cfg, st, r, user), lo, hi)
            <= CountIn(T.AccountFailures(cfg, all, T.Run(cfg, map[], all).1, cfg.fold(Uid(user))), lo, hi)
  {
    HandleIsAttempt(cfg, st, r);
    CountInConcat(times, WrongCodeNow(cfg, st, r, user), lo, hi);
    if AttemptOf(st, r).None? {
      assert before + [] == before;
    } else {
      var a := AttemptOf(st, r).value;
      var all := before + [a];
      assert all[..|before|] == before;
      T.RunSnoc(cfg, map[], all);
      var outcomes := T.Run(cfg, map[], before).1;
      var outcome := T.Step(cfg, st.store, a).1;
      T.FailuresSnoc(cfg, before, outcomes, a, outcome, cfg.fold(Uid(user)));
      CountInConcat(T.AccountFailures(cfg, before, outcomes, cfg.fold(Uid(user))),
                    if outcome.Failed? && cfg.fold(a.id) == cfg.fold(Uid(user)) then [a.now] else [], lo, hi);
    }
  }

  function TimeOf(req: Request): int {
    req.now
  }

  lemma {:induction false} AttemptsInOrder(cfg: T.Config, reqs: seq<Request>, start: int)
    requires ClockNeverGoesBack(reqs, TimeOf) && forall i :: 0 <= i < |reqs| ==> start <= reqs[i].now
    ensures T.OneAtATime(Attempts(cfg, reqs), start)
    ensures forall i :: 0 <= i < |Attempts(cfg, reqs)| ==>
            reqs != [] && Attempts(cfg, reqs)[i].now <= reqs[|reqs| - 1].now
  {
    if reqs != [] {
      AttemptsInOrder(cfg, reqs[..|reqs| - 1], start);
    }
  }

  lemma {:induction false} BoundCarriesOver(
    cfg: T.Config, attempts: seq<T.Attempt>, times: seq<int>, start: int, account: string, lo: int)
    requires cfg.Valid() && cfg.ttlSlackMs <= cfg.lockMs && T.OneAtATime(attempts, start)
    requires T.NoSuccessFor(cfg, attempts, T.Run(cfg, map[], attempts).1, account)
    requires CountIn(times, lo, lo + cfg.lockMs - cfg.ttlSlackMs)
             <= CountIn(T.AccountFailures(cfg, attempts, T.Run(cfg, map[], attempts).1, account), lo,
               lo + cfg.lockMs - cfg.ttlSlackMs)
    ensures CountIn(times, lo, lo + cfg.lockMs - cfg.ttlSlackMs) < 2 * cfg.failMax
  {
    T.AccountFailureBound(cfg, map[], attempts, start, account, lo);
  }

  /**
   * However many fresh challenges are minted, in however many sessions, fewer than 2·failMax wrong
   * codes for a user are accepted for checking in any span as long as the account lock, as long as
   * the user's second factor is not passed in between.
   */
  lemma {:induction false} FreshChallengesDoNotHelp(
    cfg: T.Config, reqs: seq<Request>, user: string, start: int, lo: int)
    requires cfg.Valid() && cfg.ttlSlackMs <= cfg.lockMs
    requires ClockNeverGoesBack(reqs, TimeOf) && forall i :: 0 <= i < |reqs| ==> start <= reqs[i].now
    requires T.NoSuccessFor(cfg, Attempts(cfg, reqs), T.Run(cfg, map[], Attempts(cfg, reqs)).1, cfg.fold(Uid(user)))
    ensures CountIn(WrongCodeTimes(cfg, reqs, user), lo, lo + cfg.lockMs - cfg.ttlSlackMs) < 2 * cfg.failMax
  {
    AttemptsInOrder(cfg, reqs, start);
    WrongCodesAreFailures(cfg, reqs, user, lo, lo + cfg.lockMs - cfg.ttlSlackMs);
    BoundCarriesOver(cfg, Attempts(cfg, reqs), WrongCodeTimes(cfg, reqs, user), start, cfg.fold(Uid(user)), lo);
  }
}
