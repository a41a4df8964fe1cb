# Cerebro, verified

Dafny models of the parts of Cerebro whose correctness is hard to see from reading them, with proofs
of what they keep over every run or every input. Each model does what the code does, branch by branch;
where the code does not keep a promise of its own documentation, a lemma says exactly when it does.

| area | files | main results |
|---|---|---|
| Fabric tunnel agent: many TCP streams over one WebSocket | Session, Tunnel, TunnelLaws, TunnelClosing | bytes conserved and in order in both directions, one close notice per stream, tables in step, exactly which sockets stay open, for every interleaving |
| Remote-desktop table and idle watchdog | Desks, DesksOverTunnel | one justified teardown per desk, none left after quit; idleness stays at home exactly for proper ids; the same over the tunnel's own streams |
| Assistant loop with its confirm gate | LlmStream, CallAssembly, PendingActions, Assistant, AssistantLaws, Interleaving | well-formed conversations at every model call, gated actions only with approval and at most once, requests overlapping or not |
| Backup schedules | Calendar, BackupSchedule | the fast next-run computation against the due predicate, exactly |
| WebSocket frame codec of the autofill helper | Bytes, FrameCodec | round trip, shortest form, indifference to chunking |
| Sign-in throttle and second factor | Windows, LoginThrottle, InFlight, RedisSteps, RedisBound, CommandsInterleaved, AuthController, SplitAccounts, OverlappingSignIns | failure bounds over every run, requests overlapping command by command included, session invariants, exact effect of TTL rounding and of the two account names |
| Rate limiter, automation debounce and cooldown | RateLimiter, Automations | admission bounds, pruning invisible, exact answers |
| App Replicator text pipeline | JsText, StableSort, Dotenv, EnvMap, Dollars, Compose, ComposeLaws, TokenLedger, PortForms, ComposeWrapper, LostTokens, TaskDef | `.env` round trip, dollar escaping, introspection of every compose text and exactly which tokens it records, the two port forms compared, generated compose file read back |
| App Replicator schema and ports | Replicator, SchemaMerge, EnvFileVars, RefreshSchema, Ports | env files folded in without their secrets, refresh reaches a fixed point exactly when the fresh schema is well formed and does for every app, suggested ports pass the preflight |

Code that changes state step by step is modelled by classes and loops whose contracts tie them to
functions on values; the laws over runs are lemmas about those functions. The concurrent tunnel is a
state machine whose steps are the critical sections, queue operations and socket reads and writes of
the goroutines; the critical sections are also methods of a class, proved equal to the functions the
steps use.

What the code cannot see is a parameter: the clock, random ids, oracle answers of Redis, the password
and code checks, the model's replies, tool results, JSON parsing, Number() on strings, which names
look like a credential, toLowerCase, localeCompare, ParseCIDR, ParseIP and which network contains which
address, and what Compose makes of a dollar sign that is not doubled.
Times are milliseconds on a clock that never goes back where a lemma says so.

Findings, each with the lemmas that give the exact condition and what happens outside it:

- A monthly schedule asked about the years 0 to 99 is sent to the twentieth century by Date's two-digit
  years (BackupSchedule.NextRunExactly).
- The lock-time bound needs a TTL answer that does not round a live lock down to zero
  (LoginThrottling.FullLockExactly, LoginThrottling.EarlyRelease).
- Second-factor failures are counted under `uid:` and the user id, password failures under the e-mail,
  although login-throttle.service.ts:14-17 and auth.controller.ts:68-69 speak of the same account. So one
  person's failures of both kinds reach 2·failMax at one instant (SplitAccounts.TwoCountersDouble) and
  stay within 4·failMax - 2 in any lock time (SplitAccounts.BothKindsBound); they keep to one account's
  bound exactly if the two names fold to one or the lock never bites (SplitAccounts.OneAccountExactly). A
  sign-in completed by a code never clears the e-mail's failures (SplitAccounts.CodeSignInKeepsEmail,
  SplitAccounts.EmailNeverCleared).
- A failure is recorded by several Redis commands, so k overlapping requests can exceed the
  2·failMax - 2 + k that failures recorded at one go keep to (CommandsInterleaved.InterleavingExceeds,
  InFlight.InFlightBound); fewer than (k + 1)·failMax is what holds (RedisBound.CommandBound).
- A desk id that is empty or a star makes one desk's idleness take all desks down, in use or not; with any
  other id idleness stays at home (Desks.IdleStaysHomeExactly, Desks.DeskInUseTornDown).
- A `.env` value containing U+2028 or U+2029 comes back changed, or not at all
  (Dotenv.SurvivesExactly, Dotenv.SeparatorIsLost).
- ECS interpolation resolves a token whose dollar was doubled (Dollars.EcsReadsBackExactly,
  Dollars.DoubledTokenIsResolved).
- A fresh schema with a plain variable marked secret need not settle (SchemaMerge.FixedPointExactly);
  introspection never produces one (ComposeLaws.IntrospectionIsWellFormed).
- The header of compose-introspect.ts promises a variable for every token; those of a container segment,
  of a port of one segment and of a long port's target count for nothing (TokenLedger.TokensRecordedExactly,
  LostTokens.ContainerPortIsLost).
- A stream that is being dialled while closeAll runs is registered afterwards and stays open
  (TunnelClosing.LeftAfterCloseAll, TunnelClosing.DialOutlivesCloseAll).
- The short form of a port falls back on the host segment for a container port it cannot read, the long
  form does not; that is the only difference between the two (PortForms.PortFormsAgreeExactly).
- A token in a build context is harmless to the generated compose file exactly when it names one of the
  file's own three variables and gives it no other default (ComposeWrapper.WrapperReadsBack).

## Model

| member | source | states |
|---|---|---|
| TunnelSession.Session.Stop | agent/main.go:513 | Closing quit leaves everything else of the session alone. |
| TunnelSession.Session.SetAllow | agent/main.go:518-537 | The new list holds the keys of exactly the entries with a host and a port from 1 to 65535, the new ranges are the texts that parse, and nothing of the old ones is left. |
| TunnelSession.Session.Allowed | agent/main.go:542-557 | A host and port may be dialled exactly if that very pair was listed or the host is an address inside an egress range, though the list holds only formatted keys. |
| TunnelSession.KeyIsInjective | agent/main.go:543 | No two pairs of host and port are formatted alike, colons in hosts included. |
| TunnelSession.Session.AllowDesktopPort | agent/main.go:562-570 | Adds one loopback port and nothing else. |
| TunnelSession.Session.AnyStreamOnPort | agent/main.go:574-583 | True exactly if some open stream's recorded port is the given one. |
| TunnelSession.Session.Enqueue | agent/main.go:627-632 | A send that finds room appends one frame at the end. |
| TunnelSession.Session.RegisterStream | agent/main.go:806-809 | Both tables gain the stream; the allow list and the queue stay. |
| TunnelSession.Session.RemoveStream | agent/main.go:833-838 | Both tables lose the stream; its socket, still open, is the answer. |
| TunnelSession.Session.CloseSocket | agent/main.go:839-842 | Closes one socket and touches no table; other steps may run in between. |
| TunnelSession.Session.CloseAll | agent/main.go:848-857 | Quit is closed, every listed stream's socket is closed and gone from both tables, whatever the iteration order. |
| Tunnel.DataFrameNames | agent/main.go:819-822 | A data frame names its own stream and no other, and carries exactly the bytes read. |
| TunnelLaws.UpstreamIsConserved | agent/main.go:497-511 | For every interleaving, until quit: what is on the WebSocket for a stream, then what is queued, then what its pump holds, is exactly what was read from its connection; so the WebSocket carries a prefix. |
| TunnelLaws.DownstreamIsInOrder | agent/main.go:779-793 | For every interleaving the bytes written to a connection are the payloads received for its stream since its registration, in order, up to its drop or a failed write; all of them unless one is in hand or a write failed. |
| TunnelLaws.ClosedAtMostOnce | agent/main.go:831-846 | For every interleaving, quit or not, at most one close-stream frame is ever queued per stream, though pump, reader and broker may all close it. |
| TunnelLaws.NoSocketNoNotice | agent/main.go:833-845 | No close-stream frame is queued for a stream that was never dialled. |
| TunnelLaws.TablesAgree | agent/main.go:572-583 | In every reachable state the two tables have the same keys, the queue is within its capacity, and the idle check finds a port exactly if an undropped socket was dialled to it. |
| TunnelLaws.RunKeepsInv | agent/main.go:795-857 | Every interleaving keeps the joint invariant: tables, distinct ids, queue history, reader, and each socket's upstream, downstream and close account. |
| TunnelClosing.UndroppedExactly | agent/main.go:831-846 | In every interleaving a dialled socket is undropped exactly if no step since its registration closed its stream. |
| TunnelClosing.LeftAfterCloseAll | agent/main.go:848-857 | The sockets that a closeAll leaves undropped are exactly those whose dial came through after it and whose stream no later step closed. |
| TunnelClosing.DialOutlivesCloseAll | agent/main.go:795-809 | The run that shows one: a stream being dialled when everything is closed is registered afterwards, its port counted as in use. |
| Desks.DeskTable.RegisterDesk | agent/desktop_linux.go:69-73 | The table gains or replaces one desk. |
| Desks.DeskTable.StopDesktop | agent/desktop_linux.go:103-117 | Takes exactly the matching desks out, all of them for an empty id or a star, and returns them, whatever the iteration order. |
| Desks.WatchDesktopIdle | agent/main.go:601-623 | The loop ends at the first wake-up that finds quit closed, or the port unused past the deadline, and not before. |
| Desks.DeadlineBounds | agent/main.go:602-620 | The deadline is passed exactly when the time is three minutes after every busy wake-up and, if there was none, six minutes after the start. |
| Desks.TornDownAtMostOnce | agent/desktop_linux.go:103-117 | In every run of registrations, watchdogs, stop requests and quit, a desk is torn down at most once, exactly when it has left the table. |
| Desks.NoneLeftAfterQuit | agent/main.go:607-610 | Once every watchdog has ended no desk is left. |
| Desks.QuitCanFinish | agent/main.go:607-610 | After quit a running watchdog can always take its last step, which clears its desk. |
| Desks.IdleTeardownIsJustified | agent/main.go:611-620 | An idle teardown by a watchdog with a proper id hits its own desk, at a wake-up with no stream on its port, three minutes after every busy wake-up and six after the start if there was none. |
| Desks.IdleStaysHomeExactly | agent/main.go:601-623 | In every run an idle teardown hits the watchdog's own desk, at a wake-up that finds its port unused, if and only if the watchdog's id is neither empty nor a star. |
| Desks.DeskInUseTornDown | agent/main.go:616-619 | The failing run for both wildcards: six steps after which the idleness of one desk tears down another whose port is in use. |
| Desks.WildcardDeskIdTakesOthersDown | agent/main.go:616-619 | From any reachable table, an idle watchdog with a wildcard id clears it, desks in use included. |
| DesksOverTunnel.BusyExactly | agent/main.go:572-583 | With tunnel and desks running together, a watchdog sees a port in use exactly if an undropped socket of the tunnel was dialled to it. |
| DesksOverTunnel.IdleTeardownFindsNoSocket | agent/main.go:601-623 | With tunnel and desks running together, an idle teardown by a watchdog with a proper id hits its own desk, and no undropped socket of the tunnel is dialled to that desk's port. |
| LlmStream.StreamChatCompletions | apps/server/src/assistant/llm-http.ts:47-82 | For every chunking, the deltas yielded are those of the complete lines of the whole text up to the end marker. |
| LlmStream.LinesPartitionText | apps/server/src/assistant/llm-http.ts:54-56 | A text is its complete lines, each with its line feed, and the remainder. |
| LlmStream.LinesOfConcat | apps/server/src/assistant/llm-http.ts:51-56 | Text that arrives later leaves the earlier complete lines alone and continues the last one. |
| CallAssembly.StreamCompletion | apps/server/src/assistant/assistant.service.ts:308-332 | However the indexes interleave, content is the content pieces in order and each call's arguments are its own index's fragments in order; calls come by ascending index. |
| CallAssembly.SortKeys | apps/server/src/assistant/assistant.service.ts:328-330 | The keys come out sorted, each exactly once. |
| PendingActions.PendingActionStore.Create | apps/server/src/assistant/pending-action.store.ts:40-45 | Stores one entry under its id after sweeping out exactly the expired ones. |
| PendingActions.PendingActionStore.Take | apps/server/src/assistant/pending-action.store.ts:48-55 | Returns an entry exactly if it is there, the owner's and unexpired, and removes it in any case. |
| PendingActions.PendingActionStore.Sweep | apps/server/src/assistant/pending-action.store.ts:57-62 | Removes exactly the expired entries. |
| AssistantLoop.AssistantService.ProcessCalls | apps/server/src/assistant/assistant.service.ts:339-368 | Runs the calls in order from an index and stops at the first gated one, parking the turn there. |
| AssistantLoop.AssistantService.Drive | apps/server/src/assistant/assistant.service.ts:262-305 | Rounds of completion and calls until an answer, a pause, a failure or the round limit, then one completion without tools. |
| AssistantLoop.AssistantService.ChatWith | apps/server/src/assistant/assistant.service.ts:94-120 | A fresh conversation driven from its first completion. |
| AssistantLoop.AssistantService.ResumeTurn | apps/server/src/assistant/assistant.service.ts:123-160 | Takes the pending turn once, settles the paused call by the verdict, finishes its batch and goes on. |
| AssistantLaws.EveryModelCallIsWellFormed | apps/server/src/assistant/assistant.service.ts:276-289 | At every model call of every run of chats and resumes, each assistant message is followed at once by one result per call, same ids, same order. |
| AssistantLaws.CompletionsAreBounded | apps/server/src/assistant/assistant.service.ts:276-298 | Each chat or resume asks for at most maxRounds + 1 completions. |
| AssistantLaws.GatedActionsAreApproved | apps/server/src/assistant/assistant.service.ts:351-360 | Over all runs a gated action executes only in a resume with approval, by the user whose turn was paused, within the time to live, for the very call that was put to the operator under that id. |
| AssistantLaws.SpentIdsStayGone | apps/server/src/assistant/pending-action.store.ts:48-51 | An id once presented never names a store entry again. |
| AssistantLaws.EachIdExecutesOnce | apps/server/src/assistant/pending-action.store.ts:47-55 | Each pending id leads to at most one execution in a whole run. |
| AssistantInterleaving.ServeIsTwoSteps | apps/server/src/assistant/assistant.service.ts:123-160 | A request depends on the store only through the entry it takes and touches it only by taking and by parking. |
| AssistantInterleaving.EveryOverlappingCallIsWellFormed | apps/server/src/assistant/assistant.service.ts:276-289 | However chats and resumes overlap, the conversation is well formed at every model call. |
| AssistantInterleaving.OverlappingGatesHold | apps/server/src/assistant/assistant.service.ts:351-360 | However chats and resumes overlap, a gated action executes only in a resume with approval, by the user whose turn an earlier request parked, for the call put to the operator, within the time to live. |
| AssistantInterleaving.OverlappingIdsStayGone | apps/server/src/assistant/pending-action.store.ts:48-51 | However requests overlap, an id that was taken never names a store entry again. |
| AssistantInterleaving.OverlappingIdsExecuteOnce | apps/server/src/assistant/pending-action.store.ts:47-55 | However requests overlap, each pending id leads to at most one execution. |
| AssistantInterleaving.InTurnIsARun | apps/server/src/assistant/assistant.service.ts:94-160 | Requests one after the other are the schedule that ends each before the next begins, with the same store and logs. |
| Calendar.YearIsContainingYear | apps/server/src/common/backup-schedule.ts:67-69 | The year computed for a time is the unique one whose days contain it (proleptic Gregorian calendar). |
| Calendar.MonthLength | apps/server/src/common/backup-schedule.ts:67-69 | Months have 28 to 31 days. |
| BackupSchedule.NextRunExactly | apps/server/src/common/backup-schedule.ts:26-82 | For every schedule that is on and in range, the next run is due, no due minute lies strictly between, and it is at most one interval ahead, if and only if the schedule is not a monthly one asked about a year from 0 to 99. |
| BackupSchedule.TwoDigitYearFails | apps/server/src/common/backup-schedule.ts:67-69 | In those years the result is not the next due minute: the two-digit-year rule of Date sends it to the twentieth century. |
| BackupSchedule.MonthlyCandidates | apps/server/src/common/backup-schedule.ts:66-70 | Outside them the result is this month's slot if still ahead, else next month's, across year ends. |
| BackupSchedule.WeeklySearch | apps/server/src/common/backup-schedule.ts:58-64 | The eight-day search returns the first matching day that is still ahead. |
| BackupSchedule.EveryDueMinuteIsReached | apps/server/src/common/backup-schedule.ts:45-70 | Iterating the next run meets every due minute after the start. |
| BackupSchedule.IteratesAreDue | apps/server/src/common/backup-schedule.ts:45-70 | And nothing but due minutes, in ascending order. |
| Bytes.XorInvolutive | docker/remote-browser/autofill-helper.js:224 | Masking twice with the same byte restores it. |
| Bytes.ValueOfConcat | docker/remote-browser/autofill-helper.js:220-221 | The two 32-bit halves written one after the other denote the 64-bit length. |
| FrameCodec.ApplyMask | docker/remote-browser/autofill-helper.js:223-224 | The new buffer is the payload with each byte masked by the mask byte of its position. |
| FrameCodec.Encode | docker/remote-browser/autofill-helper.js:207-226 | Writes the text opcode, the mask bit, the length in the form its size calls for, the mask and the masked payload. |
| FrameCodec.Decode | docker/remote-browser/autofill-helper.js:229-254 | Decodes the first frame of a buffer, or none while it is incomplete. |
| FrameCodec.DecodeOfEncode | docker/remote-browser/autofill-helper.js:207-254 | For every payload, mask and tail, decoding the encoding gives opcode 1, the payload and the tail (sections 5.2 and 5.3 of RFC 6455). |
| FrameCodec.EncodingIsShortest | docker/remote-browser/autofill-helper.js:212-222 | No masked frame with as long a payload that decodes is shorter. |
| FrameCodec.DecodeIsStable | docker/remote-browser/autofill-helper.js:229-254 | A complete frame decodes the same whatever arrives after it. |
| FrameCodec.ProperPrefixIsIncomplete | docker/remote-browser/autofill-helper.js:230-245 | No proper prefix of any frame decodes. |
| FrameCodec.EncodedPrefixIsIncomplete | docker/remote-browser/autofill-helper.js:230-245 | The receiver waits for every byte of an encoded frame. |
| FrameCodec.CdpSocket.OnData | docker/remote-browser/autofill-helper.js:168-202 | One data event over the buffer and the upgrade flag: the handshake, then every complete frame until one decides. |
| FrameCodec.CdpSocket.ParseFrames | docker/remote-browser/autofill-helper.js:187-201 | The loop consumes exactly the complete frames up to the deciding one. |
| FrameCodec.ChunkingIsInvisible | docker/remote-browser/autofill-helper.js:168-202 | For every way of cutting the same bytes into chunks the receive loop delivers the same frames and outcome. |
| LoginThrottling.LoginThrottle.AssertAllowed | apps/server/src/auth/login-throttle.service.ts:57-73 | Refuses exactly when the lock's TTL is positive or the address is at its cap; changes nothing. |
| LoginThrottling.LoginThrottle.RecordFailure | apps/server/src/auth/login-throttle.service.ts:76-91 | Counts against address and account, starting their expiry with the first count; at the threshold sets the lock and clears the counter. |
| LoginThrottling.LoginThrottle.RecordSuccess | apps/server/src/auth/login-throttle.service.ts:94-100 | Clears the account's counter and lock. |
| LoginThrottling.AccountFailureBound | apps/server/src/auth/login-throttle.service.ts:57-91 | On every run made one at a time without a success, any half-open interval as long as the effective lock holds fewer than 2·failMax failures for an account. |
| InFlight.InFlightBound | apps/server/src/auth/login-throttle.service.ts:57-91 | With each failure recorded at one go and at most k attempts of an account between check and record at any time, none succeeding, an interval as long as the effective lock holds at most 2·failMax - 2 + k of its failures. |
| RedisSteps.CommandsMakeAFailure | apps/server/src/auth/login-throttle.service.ts:76-91 | The commands of recordFailure in a row are the failure that the runs of the throttle record at one go. |
| RedisBound.CommandBound | apps/server/src/auth/login-throttle.service.ts:57-91 | However the Redis commands of overlapping requests interleave, with at most k requests of an account in flight at any time and none succeeding, an interval as long as the effective lock holds fewer than (k + 1)·failMax of its failures. |
| CommandsInterleaved.InterleavingExceeds | apps/server/src/auth/login-throttle.service.ts:82-88 | Interleaved commands do exceed 2·failMax - 2 + k: with a limit of two and three requests in flight, six failures in one lock time. |
| LoginThrottling.ZeroLimitActsAsOne | apps/server/src/auth/login-throttle.service.ts:4-7 | A failure limit of 0, which the environment parsing makes of a setting below one, acts on every run as 1. |
| LoginThrottling.AccountRunBound | apps/server/src/auth/login-throttle.service.ts:76-91 | A run of length T from a clean account holds at most failMax·ceil(T / effective lock). |
| LoginThrottling.FullLockExactly | apps/server/src/auth/login-throttle.service.ts:60-65 | The bound holds over the full lock time, for every account and run, if and only if the TTL answer never rounds a live lock down to zero. |
| LoginThrottling.EarlyRelease | apps/server/src/auth/login-throttle.service.ts:60-65 | The counterexample: with rounding, two full bursts fit into one lock time. |
| LoginThrottling.AddressFailureBound | apps/server/src/auth/login-throttle.service.ts:78-81 | Whatever succeeds in between, one address records fewer than 2·ipMax failures per window. |
| LoginThrottling.OtherAccountKeys | apps/server/src/auth/login-throttle.service.ts:49-54 | An attempt never touches another account's keys. |
| AuthSessions.AuthController.Login | apps/server/src/auth/auth.controller.ts:48-80 | One password request over the session store and the throttle. |
| AuthSessions.AuthController.LoginTotp | apps/server/src/auth/auth.controller.ts:82-118 | One second-factor request: expired or exhausted challenges are dropped, a wrong code is counted, a right one signs in. |
| AuthSessions.AuthController.LoginSession | apps/server/src/auth/auth.controller.ts:134-142 | The old session id is gone and a fresh one holds the user alone. |
| AuthSessions.AuthController.BeginMfaChallenge | apps/server/src/auth/auth.controller.ts:149-157 | The old session id is gone and a fresh one holds a challenge with no attempts, five minutes long. |
| AuthSessions.AuthController.ClearPendingMfa | apps/server/src/auth/auth.controller.ts:159-162 | The challenge is dropped, the rest of the session stays. |
| AuthSessions.NeverBoth | apps/server/src/auth/auth.controller.ts:134-162 | In every reachable state no session is both signed in and half signed in. |
| AuthSessions.SignedInWasEntitled | apps/server/src/auth/auth.controller.ts:40-118 | A session signed in as u was minted by setup creating u, by a correct password with TOTP off, or by a correct code against an unexpired challenge for u with fewer than five wrong tries. |
| AuthSessions.ChallengeWasEarned | apps/server/src/auth/auth.controller.ts:70-74 | A pending challenge was begun by a correct password for its user five minutes before it expires, and counts the wrong codes posted since. |
| AuthSessions.StoreIsThrottleRun | apps/server/src/auth/auth.controller.ts:54-115 | What the handlers leave in the throttle's store is what the throttle's own run of those attempts leaves. |
| AuthSessions.FreshChallengesDoNotHelp | apps/server/src/auth/auth.controller.ts:99-109 | However many challenges and sessions are minted, fewer than 2·failMax wrong codes for a user get through in any effective lock time. |
| SplitAccounts.BothKindsBound | apps/server/src/auth/login-throttle.service.ts:14-17 | Wrong passwords under an e-mail and wrong codes of a user together stay within 4·failMax - 2 in any effective lock time, on every run without a success for either account. |
| SplitAccounts.TwoCountersDouble | apps/server/src/auth/auth.controller.ts:66-76 | The failing run, for every failMax: failMax wrong codes in fresh challenges and failMax wrong passwords at one instant, 2·failMax failures of one person inside one lock. |
| SplitAccounts.OneAccountExactly | apps/server/src/auth/login-throttle.service.ts:14-17 | Both kinds together keep to one account's bound, on every run, if and only if the e-mail and the prefixed user id fold to the same name, or the lock never bites. |
| SplitAccounts.CodeSignInKeepsEmail | apps/server/src/auth/auth.controller.ts:107-115 | A sign-in completed by a code leaves the e-mail's counter and lock as they were. |
| SplitAccounts.EmailNeverCleared | apps/server/src/auth/auth.controller.ts:66-76 | For an e-mail that only signs in with a second factor no run ever clears its failures. |
| OverlappingSignIns.InARowIsHandled | apps/server/src/auth/auth.controller.ts:48-118 | A sign-in request that nothing interrupts leaves sessions and throttle as the handler taken at one go does. |
| OverlappingSignIns.OverlappingBound | apps/server/src/auth/auth.controller.ts:48-118 | However sign-in requests overlap, whatever they do to each other's sessions, with at most k of an account's in flight and none completing, fewer than (k + 1)·failMax wrong passwords and codes are recorded for it in any effective lock time. |
| RateLimiting.RateLimiter.Hit | apps/server/src/common/rate-limiter.ts:15-25 | Admits and counts, or refuses with the wait, exactly as the fixed window says; prunes when a window opens. |
| RateLimiting.RateLimiter.Prune | apps/server/src/common/rate-limiter.ts:28-31 | Below a thousand keys nothing changes, from there on exactly the expired windows go. |
| RateLimiting.PruningIsInvisible | apps/server/src/common/rate-limiter.ts:28-31 | On every run whose clock never goes back, pruning changes no answer. |
| RateLimiting.AdmissionBound | apps/server/src/common/rate-limiter.ts:15-25 | Any interval of windowMs admits at most 2·limit - 1 hits per key. |
| RateLimiting.WaitIsLeastSufficient | apps/server/src/common/rate-limiter.ts:22 | The wait is the least whole number of seconds, at least one, after which the refusing window has ended, and then a hit is admitted. |
| AutomationBrakes.AutomationsService.OccurrencesReached | apps/server/src/automations/automations.service.ts:182-192 | Filters, appends and resets the stored times and answers whether the count is reached; always true without a real qualifier. |
| AutomationBrakes.AutomationsService.Fire | apps/server/src/automations/automations.service.ts:195-200 | Skips an unforced firing within the cooldown, else notes a second reading of the clock. |
| AutomationBrakes.ReachedExactly | apps/server/src/automations/automations.service.ts:182-192 | A match gets through exactly when the matches since the last true answer that lie in its window number at least count. |
| AutomationBrakes.TruesArePaidFor | apps/server/src/automations/automations.service.ts:182-192 | True answers times count never exceed the matches made, and the stored list stays shorter than count. |
| AutomationBrakes.CooldownExactly | apps/server/src/automations/automations.service.ts:195-200 | On every run an unforced firing goes ahead exactly when the stamp of the rule's previous run, forced or not, is at least the cooldown back. |
| Dotenv.ParseDotenv | apps/server/src/app-replicator/compose-introspect.ts:423-445 | The line loop with its seen set and comment block yields what the fold over the lines specifies. |
| Dotenv.ReadEntries | apps/server/src/app-replicator/compose-introspect.ts:427-443 | The same, for any classification of lines. |
| Dotenv.SurvivesExactly | apps/server/src/app-replicator/deploy-target.ts:101-103 | A written value reads back as itself or as its escaped form if and only if it has no outer white space, no U+2028 or U+2029, no wrapping quotes and no hash after white space; then it is the escaped form. Interior line breaks are fine, they are flattened. |
| Dotenv.SeparatorIsLost | apps/server/src/app-replicator/compose-introspect.ts:436-437 | The counterexample: a trimmed value with U+2028 or U+2029 inside is not read back at all. |
| Dotenv.StripsExactly | apps/server/src/app-replicator/compose-introspect.ts:411-412 | On one line the comment rule cuts something exactly when white space stands before a hash sign. |
| Dotenv.LineClassified | apps/server/src/app-replicator/compose-introspect.ts:436-441 | A written line is read as an assignment of its own name, also when the name is export, or dropped when a separator splits it. |
| Dotenv.EntriesKeepOrder | apps/server/src/app-replicator/compose-introspect.ts:423-445 | A file of such values parses to the same names in the same order with the escaped values and no comments. |
| Dotenv.ParsedOfWritten | apps/server/src/app-replicator/deploy-target.ts:106-108 | For every env map with identifier names the parse is exactly the entries that read back, in order. |
| Dotenv.NoDriftExactly | apps/server/src/app-replicator/deployment.service.ts:555-585 | The file just written is reported missing exactly for the empty map, and to match if and only if the map is not empty and every value can be carried. |
| EnvMaps.BuildEnvMap | apps/server/src/app-replicator/deploy-target.ts:32-65 | The loops over variables and extras fill the ordered map as specified, name by name. |
| EnvMaps.EnvMapHolds | apps/server/src/app-replicator/deploy-target.ts:43-60 | Each schema variable is in the map with its effective value, or absent when it has none. |
| EnvMaps.DefaultIsNeverWritten | apps/server/src/app-replicator/deploy-target.ts:45-54 | Changing the default of a secret, or of a compose variable, never changes the map. |
| EnvMaps.DeployShowsNoDriftExactly | apps/server/src/app-replicator/deployment.service.ts:555-585 | Right after a deploy the host's file is reported missing exactly if nothing was written, and to match if and only if something was and every effective value can be carried. |
| EnvMaps.SlugIsAccepted | apps/server/src/app-replicator/deploy-target.ts:15-17 | A slug is non-empty, at most 40 characters, of the allowed characters, does not start with a dash or dot, and slugging again changes nothing. |
| Dollars.EnvValueReadsBack | apps/server/src/app-replicator/deploy-target.ts:93-103 | Under every environment a left-to-right Compose reader reads the escaped value as the value with line breaks flattened; as the value itself if and only if it has none. |
| Dollars.PassesAreOne | apps/server/src/app-replicator/compose-override.ts:108-111 | The three replacements treat each character on its own: no pass touches what another has written. |
| Dollars.ScalarReadsBack | apps/server/src/app-replicator/compose-override.ts:108-111 | For every value without line breaks the quoted form ends at its own closing quote whatever follows (YAML 1.2.2, section 7.3.1), and Compose reads its content as the value under every environment. |
| Dollars.EcsReadsBackExactly | apps/server/src/app-replicator/compose-to-taskdef.ts:18-35 | ECS interpolation reads an escaped value back under every environment if and only if it has no line break and no ${NAME} token: a doubled dollar does not protect a token. |
| Dollars.DoubledTokenIsResolved | apps/server/src/app-replicator/compose-to-taskdef.ts:18-35 | The counterexample: the value ${NAME} arrives as a dollar followed by what NAME is set to. |
| Dollars.TokenShape | apps/server/src/app-replicator/compose-to-taskdef.ts:19 | The token pattern matches exactly ${, a name, and then a brace or an operator with a later brace. |
| Dollars.DoubledTokens | apps/server/src/app-replicator/compose-to-taskdef.ts:18-35 | Doubling dollars neither makes nor hides tokens. |
| ComposeIntrospect.IntrospectCompose | apps/server/src/app-replicator/compose-introspect.ts:243-345 | The line loop with its indent stack, half-built long port and tables, and the final sort, yield what the fold over the lines specifies. |
| ComposeIntrospect.TokensOf | apps/server/src/app-replicator/compose-introspect.ts:62-75 | The exec loop finds the tokens from left to right without overlap. |
| ComposeIntrospect.PortSegmentsOf | apps/server/src/app-replicator/compose-introspect.ts:94-107 | The character loop splits at the colons outside braces. |
| ComposeIntrospect.IndentOf | apps/server/src/app-replicator/compose-introspect.ts:78-86 | Counts leading blanks, a tab as two. |
| ComposeLaws.IntrospectionIsWellFormed | apps/server/src/app-replicator/compose-introspect.ts:243-345 | For every text: distinct identifier names; required exactly without a default; secret exactly by role and only for names that look like it; positive ports, no two fixed ports alike; the no-port warning exactly when nothing is reachable. |
| ComposeLaws.SchemaIsInOrder | apps/server/src/app-replicator/compose-introspect.ts:392-395 | The variables stand by rank of their role and then by name, whenever the comparison of names is an order. |
| ComposeLaws.AddVarsKeeps | apps/server/src/app-replicator/compose-introspect.ts:213-240 | Folding in tokens keeps names in place, never lowers a role, keeps what is known, records every token, and gives each name its earlier default or else the first that the tokens give it. |
| ComposeLaws.PublishedTokensAreManaged | apps/server/src/app-replicator/compose-introspect.ts:157-162 | Each token in a published host port becomes a variable of managed role that knows the container port, and adds no fixed port. |
| TokenLedger.TokensRecordedExactly | apps/server/src/app-replicator/compose-introspect.ts:252-310 | For every text the variables are exactly the names in its ledger, each with the first default the ledger gives it: the tokens anywhere outside a ports block, in the bind address or host segment of a short port of at least two segments, or in the published port of a long item, which count where the item ends. |
| TokenLedger.NoTokenOverlooked | apps/server/src/app-replicator/compose-introspect.ts:297-305 | Each token on a line that is no comment and in no ports block becomes a variable. |
| LostTokens.ContainerTokensAreLost | apps/server/src/app-replicator/compose-introspect.ts:141-163 | A file that publishes host:target has the variables of the host's tokens and no other, whatever tokens the target has. |
| LostTokens.ContainerPortIsLost | apps/server/src/app-replicator/compose-introspect.ts:141-163 | The input: the port 8080:${PORT} has a token, and the file that publishes it no variable. |
| ComposeLaws.DedupedExactly | apps/server/src/app-replicator/compose-introspect.ts:371-381 | Deduplication keeps no two ports alike and one for every port. |
| PortForms.PortFormsAgreeExactly | apps/server/src/app-replicator/compose-introspect.ts:141-210 | For every host and target text, with or without a protocol, the short form host:target and the long form leave the same scan, whatever came before, if and only if the target can be read, or the host cannot, or the host publishes nothing. |
| ComposeLaws.RefreshFromComposeIsQuiet | apps/server/src/app-replicator/replicator.service.ts:200-229 | Merging the variables of the same compose text twice changes and reports nothing the second time, whatever was stored. |
| ComposeWrapper.WrapperReadsBack | apps/server/src/app-replicator/compose-introspect.ts:506-519 | For every exposed port and one-line context, introspecting the generated file gives service app, no fixed ports, no env files, no warnings; its variables are exactly the three APP_ ones if and only if the context's tokens do not interfere; always for a context without tokens. |
| TaskDef.ContainerPorts | apps/server/src/app-replicator/compose-to-taskdef.ts:77-92 | The loop yields the positive ports of the items in order. |
| TaskDef.WrapperPublishes | apps/server/src/app-replicator/compose-to-taskdef.ts:77-92 | For every build context whose tokens do not interfere: from the generated file's schema and a chosen host port h, the env map makes the ports line read h:p (or p:p when none is chosen) and its one container port is p. |
| EnvFileVars.MergeEnvFileVars | apps/server/src/app-replicator/compose-introspect.ts:484-497 | The loop over the env file's variables and the final sort yield what the fold by name specifies. |
| EnvFileVars.ReadEnvFiles | apps/server/src/app-replicator/repo-introspect.service.ts:207-232 | The files are folded one after the other, at most 300 variables of each. |
| EnvFileVars.MergedByName | apps/server/src/app-replicator/compose-introspect.ts:478-497 | Name by name, the result has the compose variable with its gaps filled, or whichever side has one; no name twice. |
| EnvFileVars.RepoSchemaByName | apps/server/src/app-replicator/compose-introspect.ts:478-497 | For every compose text and all env files: where both declare a name, role, service, port, secrecy and any default or comment are the compose file's, and only gaps are filled. |
| EnvFileVars.NoSampleSecret | apps/server/src/app-replicator/compose-introspect.ts:448-475 | No sample value of an env file becomes a secret's default; a secret only env files declare has none and must be supplied. |
| EnvFileVars.RepoSchemaIsWellFormed | apps/server/src/app-replicator/compose-introspect.ts:484-497 | The folded schema has distinct well-formed names and no plain secret, so a refresh settles on it. |
| RefreshSchema.SanitizeFixedPorts | apps/server/src/app-replicator/replicator.service.ts:265-288 | Keeps exactly the ports with valid numbers, each with its range, variable and adjustability normalized. |
| RefreshSchema.MergedPortsExactly | apps/server/src/app-replicator/replicator.service.ts:295-300 | A merged list holds the usable fresh ports and the hand-added ones that no fresh port counts as one with, and nothing else. |
| RefreshSchema.RefreshSettles | apps/server/src/app-replicator/replicator.service.ts:106-132 | For every app, pasted or in a repository with any env files, whatever is stored: once a refresh's proposal is stored, refreshing again proposes the same variables and fixed ports and reports nothing. |
| SchemaMerge.MergeSchema | apps/server/src/app-replicator/replicator.service.ts:200-229 | The pass over the fresh list returns the merged, sanitized schema and the differences the specification gives. |
| SchemaMerge.DiffIsNameDifference | apps/server/src/app-replicator/replicator.service.ts:204-228 | Added and removed are exactly the name differences, less hand-added variables. |
| SchemaMerge.ManualSurvives | apps/server/src/app-replicator/replicator.service.ts:221-225 | A well-named hand-added variable that the repo does not declare survives. |
| SchemaMerge.ToggleSurvives | apps/server/src/app-replicator/replicator.service.ts:213-216 | The operator's secret decision on a variable that stays togglable survives. |
| SchemaMerge.SanitizeMembers | apps/server/src/app-replicator/replicator.service.ts:232-253 | Sanitizing keeps exactly the well-named variables. |
| SchemaMerge.RefreshIsIdempotent | apps/server/src/app-replicator/replicator.service.ts:200-253 | Merging the result with the same fresh schema changes nothing and reports nothing. |
| SchemaMerge.FixedPointExactly | apps/server/src/app-replicator/replicator.service.ts:200-253 | That holds for every stored schema if and only if the fresh one has well-formed names and marks no plain variable secret. |
| HostPorts.Suggest | apps/server/src/app-replicator/port-allocator.service.ts:38-44 | The search ends for all finite sets, at the least free port from the floor up, and records it. |
| HostPorts.TargetInfo | apps/server/src/app-replicator/deployment.service.ts:154-165 | One suggestion per host-port variable, in order, each avoiding the earlier ones. |
| HostPorts.SuggestionsAreFree | apps/server/src/app-replicator/port-allocator.service.ts:38-44 | A whole batch is distinct, unused, at least 1024, and each the least its predecessors leave open. |
| HostPorts.ResolvePorts | apps/server/src/app-replicator/deployment.service.ts:746-779 | Resolves host-port variables and fixed ports as specified, refusing the first invalid host port by name. |
| HostPorts.PreflightPorts | apps/server/src/app-replicator/deployment.service.ts:781-805 | The loop collects the conflicts the specification lists, in order. |
| HostPorts.PreflightExactly | apps/server/src/app-replicator/deployment.service.ts:786-804 | The preflight passes exactly when the host ports are pairwise distinct and none is in use. |
| HostPorts.SuggestionsPassPreflight | apps/server/src/app-replicator/deployment.service.ts:746-805 | Deploying with the whole batch resolves exactly when every suggestion is a port number, and then the preflight passes. |

## Left out

- TunnelLaws.UpstreamIsConserved: claims nothing after quit, when a blocked send may drop its frame while a later one is queued.
- TunnelLaws.DownstreamIsInOrder: stream ids are never reused.
- Tunnel goroutines are steps of a state machine, not methods: their loops appear as the order of steps, and aliasing of read buffers is not modelled. A socket whose stream has left the tables may still read, write and be written to before it is closed. Dial targets and heartbeats are parameters or absent.
- Desks.IdleTeardownIsJustified: which ports are in use at a wake-up is any set; DesksOverTunnel ties it to the tunnel's own streams. Desk ids are not reused and belong to one session; the teardown commands themselves are absent.
- AuthSessions.SignedInWasEntitled: the sign-in of providers/sso.controller.ts and logout are not among the modelled requests; errors of the session store are absent.
- AuthSessions.FreshChallengesDoNotHelp: like the other bounds over whole sign-in requests it takes them one at a time and Redis as answering; OverlappingSignIns.OverlappingBound has them overlap. The throttle fails open by design, so a command that Redis does not answer is outside both.
- LoginThrottling.AccountFailureBound: holds over the lock time less the rounding of the TTL answer, a parameter. The limits are at least 1, which the environment parsing does not enforce: a setting between 0 and 1 is floored to 0. For failMax that acts as 1 (LoginThrottling.ZeroLimitActsAsOne); an ipMax of 0 refuses every request with a known address; a lock or window time of 0 is outside the model.
- AssistantLaws.GatedActionsAreApproved: random ids of a run are assumed distinct; the headless run for automations, UI events, audit and logging are absent. The message array shared between generator and store is passed by value. AssistantInterleaving.OverlappingGatesHold is the same law for overlapping requests.
- BackupSchedule.NextRunExactly: local time has one fixed offset from UTC, so no daylight saving, and Date's range limits are absent.
- FrameCodec.ChunkingIsInvisible: FIN, fragments and control-frame replies (section 5.4 of RFC 6455) play no part, as the helper ignores them. Bit masks on bytes are written as remainders and quotients; lengths of 2^53 and more are exact here though Number() rounds them.
- LlmStream.StreamChatCompletions: starts from decoded text; HTTP errors and the UTF-8 decoder are absent.
- HostPorts.Suggest: ports are unbounded integers; a default that is fractional or of 2^53 and more, for which the source's search may not end, is outside the model.
- HostPorts.PreflightExactly: about the first port of a range only, like the code.
- Dotenv.NoDriftExactly: names are identifiers, as the schema's are; the reported lists are sets here, unsorted; the file is read back unchanged by SSH. The answers for other targets and for an unreachable host are absent.
- Dollars.ScalarReadsBack: the YAML reader is the double-quoted scalar on one line, without the numeric escapes that are never written.
- ComposeIntrospect.IntrospectCompose: a port that Number() reads as a fraction counts as no number; sort() is a stable insertion sort, which any sort() equals when the comparison is an order.
- ComposeWrapper.WrapperReadsBack: the build context is a single line. Contexts with line breaks could add arbitrary compose text.
- TaskDef.WrapperPublishes: takes the ports item as the YAML library yields it, without its quotes.
- EnvMaps.BuildEnvMap: records are maps and ordered lists of bindings; the inherited properties of JavaScript objects are absent.
- Strings are sequences of Unicode characters, not UTF-16 units.
- Mounts and the rest of the override, the rest of the task definition, connectors, web app, persistence, SSH, certificates and update signing: plumbing, or easy beside what is here.
- EnvFileVars.ReadEnvFiles: which files are found, their size limit and the warnings are absent; the files that count are a list of texts.
- RefreshSchema.RefreshSettles: the stored fixed ports are sanitized, as registering and updating leave them; refusals of a pasted compose file are absent.
- PortForms.PortFormsAgreeExactly: host and target are texts with no white space or quotes around them, no slash, and no colon outside braces; a bind address is not among them.
- OverlappingSignIns.OverlappingBound: a check's verdict, the session write that follows it and, after a right answer, the clearing of the throttle are one step; the attempts counter of a challenge plays no part in the bound.
- InFlight.InFlightBound: takes recordFailure at one go; RedisBound.CommandBound takes it command by command.
