/**
 * The sign-in handlers of auth.controller.ts with requests that overlap: each works on the session as
 * it was when the request came in, and awaits the throttle's Redis commands, the password or code check
 * and the session store while others run.
 */
module OverlappingSignIns {
  import opened Wrappers
  import opened Windows
  import T = LoginThrottling
  import A = AuthSessions
  import S = RedisSteps
  import B = RedisBound

  /** A request past its first checks, with its copy of the session and its place among the throttle's. */
  datatype Handler = Handler(r: A.Request, mine: A.Session, ticket: nat)

  datatype State = State(sessions: A.Sessions, redis: S.State, handlers: seq<Handler>)

  datatype Step =
    | Starts(r: A.Request)
    | Redis(h: nat, now: int)
    | Verdict(h: nat, now: int)

  function TimeOf(step: Step): int {
    if step.Starts? then step.r.now else step.now
  }

  /** The name under which the throttle counts a request. */
  function IdOf(r: A.Request, mine: A.Session): string {
    if r.Login? then r.email
    else if r.LoginTotp? && mine.pendingMfa.Some? then A.Uid(mine.pendingMfa.value.userId)
    else ""
  }

  /** The address a sign-in request comes from. */
  function IpOf(r: A.Request): Option<string> {
    if r.Login? || r.LoginTotp? then r.ip else None
  }

  /** A challenge that may still be answered. */
  predicate Open(p: A.Pending, now: int) {
    now <= p.expiresAt && p.attempts < A.MFA_MAX_ATTEMPTS
  }

  /** The request gets as far as the throttle. */
  predicate Arrives(r: A.Request, mine: A.Session) {
    match r
    case Login(_, _, _, _, _, policyOk, _, _) => policyOk
    case LoginTotp(now, _, _, _, policyOk, _) =>
      mine.pendingMfa.Some? && Open(mine.pendingMfa.value, now) && policyOk
    case _ => false
  }

  /** What a request does to the sessions before the throttle, or instead of it. */
  function Begun(cfg: T.Config, sessions: A.Sessions, r: A.Request): A.Sessions {
    var mine := A.SessionOf(sessions, SidOf(r));
    if r.LoginTotp? then
      if mine.pendingMfa.Some? && !Open(mine.pendingMfa.value, r.now)
      then sessions[r.sid := mine.(pendingMfa := None)] else sessions
    else if r.Login? then sessions
    else A.Handle(cfg, A.State(sessions, map[]), r).0.sessions
  }

  function SidOf(r: A.Request): string {
    r.sid
  }

  predicate Verifying(st: State, h: nat) {
    h < |st.handlers| && S.At(st.redis, st.handlers[h].ticket, S.Stage.Verifying)
  }

  /** The password or the code was right. */
  predicate Right(r: A.Request) {
    (r.Login? && r.valid.Some?) || (r.LoginTotp? && r.codeOk)
  }

  /** The session store once the check is done: a challenge, a user, or one more wrong code. */
  function Written(sessions: A.Sessions, handler: Handler, now: int): A.Sessions {
    var r, mine := handler.r, handler.mine;
    match r
    case Login(_, sid, newSid, _, _, _, valid, totpEnabled) =>
      if valid.None? then sessions
      else if totpEnabled then
        var challenge := A.Pending(valid.value, now + A.MFA_CHALLENGE_TTL_MS, 0);
        A.Regenerated(sessions, sid, newSid, A.Session(None, Some(challenge)))
      else A.Regenerated(sessions, sid, newSid, A.Session(valid, None))
    case LoginTotp(_, sid, newSid, _, _, codeOk) =>
      if mine.pendingMfa.None? then sessions
      else
        var p := mine.pendingMfa.value;
        if codeOk then A.Regenerated(sessions, sid, newSid, A.Session(Some(p.userId), None))
        else sessions[sid := mine.(pendingMfa := Some(p.(attempts := p.attempts + 1)))]
    case _ => sessions
  }

  /** The throttle's part in a step. */
  function RedisEvent(st: State, step: Step): Option<S.Event> {
    match step
    case Starts(r) =>
      var mine := A.SessionOf(st.sessions, SidOf(r));
      if Arrives(r, mine) then Some(S.Asks(IpOf(r), IdOf(r, mine), r.now)) else None
    case Redis(h, now) =>
      if h >= |st.handlers| then None
      else if S.At(st.redis, st.handlers[h].ticket, S.Looking) then Some(S.Looks(st.handlers[h].ticket, now))
      else Some(S.Command(st.handlers[h].ticket, now))
    case Verdict(h, now) =>
      if !Verifying(st, h) then None
      else
        var r, ticket := st.handlers[h].r, st.handlers[h].ticket;
        if !Right(r) then Some(S.Fails(ticket, now))
        else if r.Login? && r.totpEnabled then Some(S.Ends(ticket, now))
        else Some(S.Succeeds(ticket, now))
  }

  function Next(cfg: T.Config, st: State, step: Step): State {
    var event := RedisEvent(st, step);
    var redis := if event.Some? then S.Handled(cfg, st.redis, event.value) else st.redis;
    match step
    case Starts(r) =>
      var mine := A.SessionOf(st.sessions, SidOf(r));
      State(Begun(cfg, st.sessions, r), redis,
            if |redis.tickets| > |st.redis.tickets|
            then st.handlers + [Handler(r, mine, |st.redis.tickets|)] else st.handlers)
    case Redis(_, _) => st.(redis := redis)
    case Verdict(h, now) =>
      if Verifying(st, h) then State(Written(st.sessions, st.handlers[h], now), redis, st.handlers) else st
  }

  function After(cfg: T.Config, steps: seq<Step>): State {
    if steps == [] then State(map[], S.State(map[], []), [])
    else Next(cfg, After(cfg, steps[..|steps| - 1]), steps[|steps| - 1])
  }

  // ---------------------------------------------------------------- the throttle's side

  /** What the throttle sees of a run. */
  function Events(cfg: T.Config, steps: seq<Step>): seq<S.Event> {
    if steps == [] then []
    else
      var n := |steps| - 1;
      var event := RedisEvent(After(cfg, steps[..n]), steps[n]);
      Events(cfg, steps[..n]) + if event.Some? then [event.value] else []
  }

  lemma {:induction false} EventsAreARun(cfg: T.Config, steps: seq<Step>)
    ensures After(cfg, steps).redis == S.After(cfg, Events(cfg, steps))
  {
    if steps != [] {
      var n := |steps| - 1;
      var before := Events(cfg, steps[..n]);
      var event := RedisEvent(After(cfg, steps[..n]), steps[n]);
      EventsAreARun(cfg, steps[..n]);
      if event.Some? {
        assert (before + [event.value])[..|before|] == before;
      } else {
        assert before + [] == before;
      }
    }
  }

  lemma {:induction false} EventsInOrder(cfg: T.Config, steps: seq<Step>)
    requires ClockNeverGoesBack(steps, TimeOf)
    ensures ClockNeverGoesBack(Events(cfg, steps), B.EventTime)
    ensures forall i :: 0 <= i < |Events(cfg, steps)| ==>
              steps != [] && B.EventTime(Events(cfg, steps)[i]) <= TimeOf(steps[|steps| - 1])
  {
    if steps != [] {
      var n := |steps| - 1;
      EventsInOrder(cfg, steps[..n]);
      if n > 0 { assert TimeOf(steps[n - 1]) <= TimeOf(steps[n]); }
    }
  }

  /** A handler's ticket is counted under its own name. */
  ghost predicate TicketsOk(st: State) {
    forall h :: 0 <= h < |st.handlers| ==> TicketOk(st, st.handlers[h])
  }

  predicate TicketOk(st: State, handler: Handler) {
    handler.ticket < |st.redis.tickets| && st.redis.tickets[handler.ticket].id == IdOf(handler.r, handler.mine)
  }

  lemma {:induction false} HandledKeepsIds(cfg: T.Config, st: S.State, e: S.Event)
    ensures |st.tickets| <= |S.Handled(cfg, st, e).tickets|
    ensures forall k :: 0 <= k < |st.tickets| ==> S.Handled(cfg, st, e).tickets[k].id == st.tickets[k].id
    ensures |S.Handled(cfg, st, e).tickets| > |st.tickets| ==>
              e.Asks? && S.Handled(cfg, st, e).tickets[|st.tickets|].id == e.id
  {
  }

  lemma {:induction false} NextKeepsTickets(cfg: T.Config, st: State, step: Step)
    requires TicketsOk(st)
    ensures TicketsOk(Next(cfg, st, step))
  {
    var event, after := RedisEvent(st, step), Next(cfg, st, step);
    if event.Some? { HandledKeepsIds(cfg, st.redis, event.value); }
    forall h | 0 <= h < |after.handlers| ensures TicketOk(after, after.handlers[h]) {
      if h < |st.handlers| { assert TicketOk(st, st.handlers[h]); }
    }
  }

  lemma {:induction false} RunKeepsTickets(cfg: T.Config, steps: seq<Step>)
    ensures TicketsOk(After(cfg, steps))
  {
    if steps != [] {
      RunKeepsTickets(cfg, steps[..|steps| - 1]);
      NextKeepsTickets(cfg, After(cfg, steps[..|steps| - 1]), steps[|steps| - 1]);
    }
  }

  // ---------------------------------------------------------------- the bound

  /** The step records a failure of a request whose name folds to the account. */
  predicate RecordsFor(cfg: T.Config, st: State, step: Step, account: string) {
    && step.Redis? && step.h < |st.handlers|
    && cfg.fold(IdOf(st.handlers[step.h].r, st.handlers[step.h].mine)) == account
    && S.At(st.redis, st.handlers[step.h].ticket, S.CountAccount)
  }

  /** The times at which failures of the account's sign-ins, passwords or codes, are recorded. */
  function RecordedTimes(cfg: T.Config, steps: seq<Step>, account: string): seq<int> {
    if steps == [] then []
    else
      var n := |steps| - 1;
      RecordedTimes(cfg, steps[..n], account)
      + if RecordsFor(cfg, After(cfg, steps[..n]), steps[n], account) then [TimeOf(steps[n])] else []
  }

  lemma {:induction false} FailureTimesSnoc(cfg: T.Config, events: seq<S.Event>, e: S.Event, account: string)
    ensures B.FailureTimes(cfg, events + [e], account)
            == B.FailureTimes(cfg, events, account) + B.FailureNow(cfg, S.After(cfg, events), e, account)
  {
    assert (events + [e])[..|events|] == events;
  }

  lemma {:induction false} SameRecord(cfg: T.Config, st: State, step: Step, account: string)
    requires TicketsOk(st)
    ensures (if RecordsFor(cfg, st, step, account) then [TimeOf(step)] else [])
            == if RedisEvent(st, step).Some? then B.FailureNow(cfg, st.redis, RedisEvent(st, step).value, account)
              else []
  {
    if step.Redis? && step.h < |st.handlers| {
      assert TicketOk(st, st.handlers[step.h]);
    }
  }

  /** They are the failures that the throttle has recorded. */
  lemma {:induction false} SameTimes(cfg: T.Config, steps: seq<Step>, account: string)
    ensures RecordedTimes(cfg, steps, account) == B.FailureTimes(cfg, Events(cfg, steps), account)
  {
    if steps != [] {
      var n := |steps| - 1;
      var st, before := After(cfg, steps[..n]), Events(cfg, steps[..n]);
      SameTimes(cfg, steps[..n], account);
      EventsAreARun(cfg, steps[..n]);
      RunKeepsTickets(cfg, steps[..n]);
      SameRecord(cfg, st, steps[n], account);
      var event := RedisEvent(st, steps[n]);
      if event.Some? {
        FailureTimesSnoc(cfg, before, event.value, account);
      } else {
        assert before + [] == before;
      }
    }
  }

  /**
   * However sign-in requests overlap, whatever they do to each other's sessions: with at most `k` of an
   * account's in flight at any time and none completing a sign-in, any half-open interval as long as the
   * effective lock holds fewer than (k + 1)·failMax of its recorded wrong passwords and wrong codes.
   */
  lemma {:induction false} OverlappingBound(cfg: T.Config, steps: seq<Step>, account: string, k: nat, lo: int)
    requires cfg.Valid() && ClockNeverGoesBack(steps, TimeOf)
    requires B.FewAndFailing(cfg, Events(cfg, steps), account, k)
    ensures CountIn(RecordedTimes(cfg, steps, account), lo, lo + cfg.lockMs - cfg.ttlSlackMs) < (k + 1) * cfg.failMax
  {
    EventsInOrder(cfg, steps);
    SameTimes(cfg, steps, account);
    B.CommandBound(cfg, Events(cfg, steps), account, k, lo);
  }

  // ---------------------------------------------------------------- one request by itself

  /** The request's remaining Redis commands, with nothing in between. */
  function Drained(cfg: T.Config, st: State, h: nat, now: int): State
    requires h < |st.handlers| && st.handlers[h].ticket < |st.redis.tickets|
    decreases S.Rank(st.redis.tickets[st.handlers[h].ticket].stage)
  {
    if S.Rank(st.redis.tickets[st.handlers[h].ticket].stage) == 0 then st
    else Drained(cfg, Next(cfg, st, Redis(h, now)), h, now)
  }

  lemma {:induction false} DrainedIsFinished(cfg: T.Config, st: State, h: nat, now: int)
    requires h < |st.handlers| && st.handlers[h].ticket < |st.redis.tickets|
    ensures var after := Drained(cfg, st, h, now);
            && after.sessions == st.sessions
            && after.redis.store
               == S.Finished(cfg, st.redis.store, st.redis.tickets[st.handlers[h].ticket], now)
    decreases S.Rank(st.redis.tickets[st.handlers[h].ticket].stage)
  {
    if S.Rank(st.redis.tickets[st.handlers[h].ticket].stage) > 0 {
      DrainedIsFinished(cfg, Next(cfg, st, Redis(h, now)), h, now);
    }
  }

  /** Begin, look, decide, and finish. */
  function InARow(cfg: T.Config, st: State, r: A.Request): State {
    var h := |st.handlers|;
    var decided := Next(cfg, Next(cfg, Next(cfg, st, Starts(r)), Redis(h, r.now)), Verdict(h, r.now));
    if h < |decided.handlers| && decided.handlers[h].ticket < |decided.redis.tickets|
    then Drained(cfg, decided, h, r.now) else decided
  }

  function Plain(st: State): A.State {
    A.State(st.sessions, st.redis.store)
  }

  /** Where the request stands once the throttle has been asked: refused, or with a ticket of its own. */
  lemma {:induction false} Asked(cfg: T.Config, st: State, r: A.Request)
    requires Arrives(r, A.SessionOf(st.sessions, SidOf(r)))
    ensures var mine, h := A.SessionOf(st.sessions, SidOf(r)), |st.handlers|;
            var after := Next(cfg, Next(cfg, st, Starts(r)), Redis(h, r.now));
            var t := S.Ticket(IpOf(r), IdOf(r, mine), S.Looking);
            if T.LockBites(cfg, st.redis.store, cfg.fold(IdOf(r, mine)), r.now)
            then after == st
            else
              && Plain(after) == Plain(st) && after.handlers == st.handlers + [Handler(r, mine, |st.redis.tickets|)]
              && after.redis.tickets
                 == st.redis.tickets + [t.(stage := S.LookedUp(cfg, st.redis.store, t, r.now))]
  {
    var mine, h := A.SessionOf(st.sessions, SidOf(r)), |st.handlers|;
    if !T.LockBites(cfg, st.redis.store, cfg.fold(IdOf(r, mine)), r.now) {
      var t := S.Ticket(IpOf(r), IdOf(r, mine), S.Looking);
      var tickets := st.redis.tickets + [t];
      var seen := t.(stage := S.LookedUp(cfg, st.redis.store, t, r.now));
      assert tickets[|st.redis.tickets| := seen] == st.redis.tickets + [seen];
    }
  }

  /** A wrong answer: the session is written, and the commands record the failure. */
  lemma {:induction false} WrongInARow(cfg: T.Config, st: State, h: nat, now: int)
    requires Verifying(st, h) && !Right(st.handlers[h].r)
    ensures var after, t := Next(cfg, st, Verdict(h, now)), st.redis.tickets[st.handlers[h].ticket];
            && h < |after.handlers| && after.handlers[h].ticket < |after.redis.tickets|
            && Plain(Drained(cfg, after, h, now))
               == A.State(Written(st.sessions, st.handlers[h], now),
                          T.AfterFailure(cfg, st.redis.store, t.ip, t.id, now))
  {
    var after, t := Next(cfg, st, Verdict(h, now)), st.redis.tickets[st.handlers[h].ticket];
    DrainedIsFinished(cfg, after, h, now);
    S.CommandsMakeAFailure(cfg, st.redis.store, t.ip, t.id, now);
  }

  lemma {:induction false} RightInARow(cfg: T.Config, st: State, h: nat, now: int)
    requires Verifying(st, h) && Right(st.handlers[h].r)
    ensures var after, t := Next(cfg, st, Verdict(h, now)), st.redis.tickets[st.handlers[h].ticket];
            var r := st.handlers[h].r;
            && h < |after.handlers| && after.handlers[h].ticket < |after.redis.tickets|
            && Plain(Drained(cfg, after, h, now))
               == A.State(Written(st.sessions, st.handlers[h], now),
                          if r.Login? && r.totpEnabled then st.redis.store
                          else T.AfterSuccess(cfg, st.redis.store, t.id))
  {
    DrainedIsFinished(cfg, Next(cfg, st, Verdict(h, now)), h, now);
  }

  /** A request that does not get as far as the throttle. */
  lemma {:induction false} StoppedShort(cfg: T.Config, st: State, r: A.Request)
    requires (r.Login? || r.LoginTotp?) && !Arrives(r, A.SessionOf(st.sessions, SidOf(r)))
    ensures Plain(InARow(cfg, st, r)) == A.Handle(cfg, Plain(st), r).0
  {
  }

  lemma {:induction false} AnsweredInARow(cfg: T.Config, st: State, r: A.Request)
    requires (r.Login? || r.LoginTotp?) && Arrives(r, A.SessionOf(st.sessions, SidOf(r)))
    ensures Plain(InARow(cfg, st, r)) == A.Handle(cfg, Plain(st), r).0
  {
    var mine, h := A.SessionOf(st.sessions, SidOf(r)), |st.handlers|;
    var looked := Next(cfg, Next(cfg, st, Starts(r)), Redis(h, r.now));
    Asked(cfg, st, r);
    if !T.LockBites(cfg, st.redis.store, cfg.fold(IdOf(r, mine)), r.now) && Verifying(looked, h) {
      if Right(r) { RightInARow(cfg, looked, h, r.now); } else { WrongInARow(cfg, looked, h, r.now); }
    }
  }

  /** A sign-in request that nothing interrupts does what the handler does at one go. */
  lemma {:induction false} InARowIsHandled(cfg: T.Config, st: State, r: A.Request)
    requires r.Login? || r.LoginTotp?
    ensures Plain(InARow(cfg, st, r)) == A.Handle(cfg, Plain(st), r).0
  {
    if Arrives(r, A.SessionOf(st.sessions, SidOf(r))) { AnsweredInARow(cfg, st, r); } else { StoppedShort(cfg, st, r); }
  }
}
