/**
 * The fixed-window, in-memory rate limiter (apps/server/src/common/rate-limiter.ts): one window
 * record per key, replaced when it has run out, and a sweep of dead windows once the table is big.
 */
module RateLimiting {
  import opened Wrappers
  import opened Windows

  datatype Window = Window(start: int, count: int)

  type Table = map<string, Window>

  datatype Config = Config(limit: int, windowMs: int) {
    predicate Expired(w: Window, now: int) {
      now - w.start >= windowMs
    }

    function WaitSeconds(w: Window, now: int): int {
      var ceil := (w.start + windowMs - now + 999) / 1000;
      if ceil < 1 then 1 else ceil
    }

    /** Drop expired windows, but only once the table has grown to a thousand keys. */
    function Pruned(table: Table, now: int): Table {
      if |table| < 1000 then table else map k | k in table && !Expired(table[k], now) :: table[k]
    }

    /** One hit: the new table, and None when admitted or the seconds to wait. */
    function Hit(table: Table, key: string, now: int, prune: bool): (Table, Option<int>) {
      if key !in table || Expired(table[key], now) then
        var table' := table[key := Window(now, 1)];
        (if prune then Pruned(table', now) else table', None)
      else if table[key].count >= limit then
        (table, Some(WaitSeconds(table[key], now)))
      else
        (table[key := Window(table[key].start, table[key].count + 1)], None)
    }
  }

  class RateLimiter {
    const config: Config
    var windows: Table

    constructor (limit: int, windowMs: int)
      ensures config == Config(limit, windowMs) && windows == map[]
    {
      config := Config(limit, windowMs);
      windows := map[];
    }

    /** Count one hit for `key`. */
    method Hit(key: string, now: int) returns (wait: Option<int>)
      modifies this
      ensures (windows, wait) == config.Hit(old(windows), key, now, true)
    {
      if key !in windows || config.Expired(windows[key], now) {
        windows := windows[key := Window(now, 1)];
        Prune(now);
        return None;
      }
      var w := windows[key];
      if w.count >= config.limit {
        return Some(config.WaitSeconds(w, now));
      }
      windows := windows[key := Window(w.start, w.count + 1)];
      return None;
    }

    method Prune(now: int)
      modifies this
      ensures windows == config.Pruned(old(windows), now)
    {
      if |windows| < 1000 {
        return;
      }
      var todo := windows.Keys;
      while todo != {}
        invariant todo <= old(windows).Keys
        invariant windows == map k | k in old(windows) && (k in todo || !config.Expired(old(windows)[k], now)) ::
                  old(windows)[k]
        decreases todo
      {
        var k :| k in todo;
        if config.Expired(windows[k], now) {
          windows := windows - {k};
        }
        todo := todo - {k};
      }
    }
  }

  // ---------------------------------------------------------------- runs

  datatype Call = Call(key: string, now: int)

  function TimeOf(call: Call): int {
    call.now
  }

  /** The table and every answer after a run of calls on a fresh limiter. */
  function Run(cfg: Config, calls: seq<Call>, prune: bool): (r: (Table, seq<Option<int>>))
    ensures |r.1| == |calls|
  {
    if calls == [] then (map[], [])
    else
      var last := calls[|calls| - 1];
      var (table, answers) := Run(cfg, calls[..|calls| - 1], prune);
      var (table', answer) := cfg.Hit(table, last.key, last.now, prune);
      (table', answers + [answer])
  }

  /** The times at which hits for `key` were admitted. */
  function Admitted(calls: seq<Call>, answers: seq<Option<int>>, key: string): seq<int>
    requires |answers| == |calls|
  {
    if calls == [] then []
    else
      var n := |calls| - 1;
      Admitted(calls[..n], answers[..n], key)
        + if calls[n].key == key && answers[n].None? then [calls[n].now] else []
  }

  // ---------------------------------------------------------------- pruning is invisible

  /** The pruned table lacks only windows that had already expired by `now`. */
  ghost predicate OnlyExpiredMissing(cfg: Config, pruned: Table, full: Table, now: int) {
    && (forall k :: k in pruned ==> k in full && pruned[k] == full[k])
    && (forall k :: k in full && k !in pruned ==> cfg.Expired(full[k], now))
  }

  lemma HitKeepsOnlyExpiredMissing(cfg: Config, pruned: Table, full: Table, before: int, key: string, now: int)
    requires OnlyExpiredMissing(cfg, pruned, full, before) && before <= now
    ensures cfg.Hit(pruned, key, now, true).1 == cfg.Hit(full, key, now, false).1
    ensures OnlyExpiredMissing(cfg, cfg.Hit(pruned, key, now, true).0, cfg.Hit(full, key, now, false).0, now)
  {
  }

  lemma {:induction false} PrunedRunSimulates(cfg: Config, calls: seq<Call>)
    requires ClockNeverGoesBack(calls, TimeOf)
    ensures Run(cfg, calls, true).1 == Run(cfg, calls, false).1
    ensures calls != [] ==>
              OnlyExpiredMissing(cfg, Run(cfg, calls, true).0, Run(cfg, calls, false).0, calls[|calls| - 1].now)
    ensures calls == [] ==> Run(cfg, calls, true) == Run(cfg, calls, false) == (map[], [])
  {
    if calls != [] {
      var n := |calls| - 1;
      PrunedRunSimulates(cfg, calls[..n]);
      var before := if n == 0 then calls[0].now else calls[n - 1].now;
      HitKeepsOnlyExpiredMissing(cfg, Run(cfg, calls[..n], true).0, Run(cfg, calls[..n], false).0,
                                 before, calls[n].key, calls[n].now);
    }
  }

  /** Over every run with a clock that never goes back, pruning changes no answer. */
  lemma PruningIsInvisible(cfg: Config, calls: seq<Call>)
    requires ClockNeverGoesBack(calls, TimeOf)
    ensures Run(cfg, calls, true).1 == Run(cfg, calls, false).1
  {
    PrunedRunSimulates(cfg, calls);
  }

  // ---------------------------------------------------------------- the bound

  /** The key's window, if any, is the last group, none of whose times is later than `now`. */
  ghost predicate WindowIs(table: Table, key: string, groups: seq<seq<int>>, now: int) {
    && (key in table <==> groups != [])
    && (groups != [] ==>
          var last := groups[|groups| - 1];
          last != [] && table[key] == Window(last[0], |last|) && last[|last| - 1] <= now)
  }

  lemma AdmittedStep(cfg: Config, table: Table, key: string, groups: seq<seq<int>>, call: Call)
    returns (groups': seq<seq<int>>)
    requires cfg.limit >= 1 && cfg.windowMs >= 0
    requires Grouped(groups, cfg.windowMs, cfg.limit) && WindowIs(table, key, groups, call.now)
    ensures var (table', answer) := cfg.Hit(table, call.key, call.now, false);
            && Grouped(groups', cfg.windowMs, cfg.limit) && WindowIs(table', key, groups', call.now)
            && Flatten(groups') == Flatten(groups) + if call.key == key && answer.None? then [call.now] else []
  {
    groups' := groups;
    if call.key == key {
      if groups == [] || cfg.Expired(table[key], call.now) {
        OpenGroup(groups, cfg.windowMs, cfg.limit, call.now);
        groups' := groups + [[call.now]];
      } else if table[key].count < cfg.limit {
        ExtendGroup(groups, cfg.windowMs, cfg.limit, call.now);
        groups' := groups[..|groups| - 1] + [groups[|groups| - 1] + [call.now]];
      }
    }
  }

  /** Without pruning, the admitted times of a key fall into groups, the last one being its window. */
  lemma {:induction false} AdmittedGroups(cfg: Config, calls: seq<Call>, key: string) returns (groups: seq<seq<int>>)
    requires ClockNeverGoesBack(calls, TimeOf) && cfg.limit >= 1 && cfg.windowMs >= 0
    ensures Grouped(groups, cfg.windowMs, cfg.limit)
    ensures var (table, answers) := Run(cfg, calls, false);
            && Flatten(groups) == Admitted(calls, answers, key)
            && forall now :: (calls != [] ==> calls[|calls| - 1].now <= now) ==> WindowIs(table, key, groups, now)
  {
    if calls == [] { return []; }
    var n := |calls| - 1;
    groups := AdmittedGroups(cfg, calls[..n], key);
    var (table, answers) := Run(cfg, calls[..n], false);
    assert n > 0 ==> TimeOf(calls[n - 1]) <= TimeOf(calls[n]);
    assert Run(cfg, calls, false).1[..n] == answers;
    groups := AdmittedStep(cfg, table, key, groups, calls[n]);
  }

  /** Any half-open interval as long as the window admits at most 2·limit - 1 hits per key. */
  lemma AdmissionBound(cfg: Config, calls: seq<Call>, key: string, lo: int)
    requires ClockNeverGoesBack(calls, TimeOf) && cfg.limit >= 1 && cfg.windowMs >= 0
    ensures CountIn(Admitted(calls, Run(cfg, calls, true).1, key), lo, lo + cfg.windowMs) <= 2 * cfg.limit - 1
  {
    PruningIsInvisible(cfg, calls);
    var groups := AdmittedGroups(cfg, calls, key);
    SlidingBound(groups, cfg.windowMs, cfg.limit, lo);
  }

  // ---------------------------------------------------------------- the returned wait

  /**
   * The wait is the least whole number of seconds, at least one, after which the refusing window
   * has ended; a hit at or after that moment is admitted.
   */
  lemma WaitIsLeastSufficient(cfg: Config, table: Table, key: string, now: int, later: int, prune: bool)
    requires cfg.Hit(table, key, now, prune).1.Some?
    ensures var wait := cfg.Hit(table, key, now, prune).1.value;
            && wait >= 1
            && table[key].start + cfg.windowMs <= now + 1000 * wait
            && (wait > 1 ==> now + 1000 * (wait - 1) < table[key].start + cfg.windowMs)
            && (later >= now + 1000 * wait ==> cfg.Hit(table, key, later, prune).1.None?)
  {
  }
}
