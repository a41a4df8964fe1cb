/**
 * The two brakes on automation rules (apps/server/src/automations/automations.service.ts): the
 * occurrence debounce, a sliding list of match times per rule, and the cooldown between firings.
 */
module AutomationBrakes {
  import opened Wrappers
  import opened Windows

  datatype Occurrences = Occurrences(count: int, windowSec: int) {
    /** A qualifier that asks for nothing: every match goes straight through. */
    predicate Trivial() {
      count <= 1 || windowSec <= 0
    }

    function Window(): int {
      windowSec * 1000
    }
  }

  /** The times at or after `cutoff`, in order. */
  function Recent(times: seq<int>, cutoff: int): (r: seq<int>)
  {
    if times == [] then []
    else (if times[0] >= cutoff then [times[0]] else []) + Recent(times[1..], cutoff)
  }

  /** The stored times and the answer after one match at `now`. */
  function Match(occ: Occurrences, stored: seq<int>, now: int): (seq<int>, bool) {
    var hits := Recent(stored, now - occ.Window()) + [now];
    if |hits| < occ.count then (hits, false) else ([], true)
  }

  function StoredFor(recent: map<string, seq<int>>, ruleId: string): seq<int> {
    if ruleId in recent then recent[ruleId] else []
  }

  function LastFor(lastFired: map<string, int>, ruleId: string): int {
    if ruleId in lastFired then lastFired[ruleId] else 0
  }

  class AutomationsService {
    var recentMatches: map<string, seq<int>>
    var lastFired: map<string, int>

    constructor ()
      ensures recentMatches == map[] && lastFired == map[]
    {
      recentMatches := map[];
      lastFired := map[];
    }

    /** Whether this match completes a group of `count` inside the window; a rule without one needs no group. */
    method OccurrencesReached(ruleId: string, occ: Option<Occurrences>, now: int) returns (reached: bool)
      modifies this`recentMatches
      ensures occ.None? || occ.value.Trivial() ==> reached && recentMatches == old(recentMatches)
      ensures occ.Some? && !occ.value.Trivial() ==>
                var (stored, answer) := Match(occ.value, StoredFor(old(recentMatches), ruleId), now);
                reached == answer && recentMatches == old(recentMatches)[ruleId := stored]
    {
      if occ.None? || occ.value.Trivial() {
        return true;
      }
      var cutoff := now - occ.value.windowSec * 1000;
      var earlier := StoredFor(recentMatches, ruleId);
      var hits: seq<int> := [];
      var i := 0;
      while i < |earlier|
        invariant 0 <= i <= |earlier|
        invariant hits + Recent(earlier[i..], cutoff) == Recent(earlier, cutoff)
      {
        if earlier[i] >= cutoff {
          hits := hits + [earlier[i]];
        }
        i := i + 1;
      }
      assert hits == Recent(earlier, cutoff);
      hits := hits + [now];
      recentMatches := recentMatches[ruleId := hits];
      if |hits| < occ.value.count {
        return false;
      }
      recentMatches := recentMatches[ruleId := []];
      return true;
    }

    /** The gate in front of a rule's actions: false is "skipped: cooldown". The clock is read again for the stamp. */
    method Fire(ruleId: string, cooldownSec: int, forced: bool, now: int, stamp: int) returns (ran: bool)
      modifies this`lastFired
      ensures ran == (forced || now - LastFor(old(lastFired), ruleId) >= cooldownSec * 1000)
      ensures lastFired == if ran then old(lastFired)[ruleId := stamp] else old(lastFired)
    {
      if !forced {
        var last := LastFor(lastFired, ruleId);
        if now - last < cooldownSec * 1000 {
          return false;
        }
      }
      lastFired := lastFired[ruleId := stamp];
      return true;
    }
  }

  // ---------------------------------------------------------------- the debounce over a run

  /** The stored list and all answers after a run of matches of one rule. */
  function Run(occ: Occurrences, times: seq<int>): (r: (seq<int>, seq<bool>))
    ensures |r.1| == |times|
  {
    if times == [] then ([], [])
    else
      var n := |times| - 1;
      var (stored, answers) := Run(occ, times[..n]);
      var (stored', answer) := Match(occ, stored, times[n]);
      (stored', answers + [answer])
  }

  /** Where counting starts afresh: just after the last true answer. */
  function ResetPoint(answers: seq<bool>): (r: nat)
    ensures r <= |answers|
    ensures r > 0 ==> answers[r - 1]
    ensures forall i :: r <= i < |answers| ==> !answers[i]
  {
    if answers == [] then 0
    else if answers[|answers| - 1] then |answers|
    else ResetPoint(answers[..|answers| - 1])
  }

  function Trues(answers: seq<bool>): nat {
    if answers == [] then 0
    else Trues(answers[..|answers| - 1]) + if answers[|answers| - 1] then 1 else 0
  }

  lemma {:induction false} RecentConcat(a: seq<int>, b: seq<int>, cutoff: int)
    ensures Recent(a + b, cutoff) == Recent(a, cutoff) + Recent(b, cutoff)
  {
    if a == [] {
      assert a + b == b;
    } else {
      assert (a + b)[1..] == a[1..] + b;
      RecentConcat(a[1..], b, cutoff);
    }
  }

  /** Filtering with an older cutoff first loses nothing. */
  lemma {:induction false} RecentTwice(times: seq<int>, older: int, newer: int)
    requires older <= newer
    ensures Recent(Recent(times, older), newer) == Recent(times, newer)
  {
    if times != [] {
      RecentTwice(times[1..], older, newer);
      var head := if times[0] >= older then [times[0]] else [];
      RecentConcat(head, Recent(times[1..], older), newer);
      assert Recent([times[0]], newer) == if times[0] >= newer then [times[0]] else [];
    }
  }

  /** The filter keeps exactly the times of an interval that ends after all of them. */
  lemma {:induction false} RecentCounts(times: seq<int>, cutoff: int, hi: int)
    requires forall i :: 0 <= i < |times| ==> times[i] < hi
    ensures |Recent(times, cutoff)| == CountIn(times, cutoff, hi)
  {
    if times != [] {
      RecentCounts(times[1..], cutoff, hi);
    }
  }

  /** The matches since the last true answer, the newest included, that lie in its window. */
  function Hits(occ: Occurrences, times: seq<int>, past: seq<bool>): seq<int>
    requires times != [] && |past| == |times| - 1
  {
    Recent(times[ResetPoint(past)..], times[|times| - 1] - occ.Window())
  }

  /** Between calls the store holds the matches since the last true answer, as the last call saw them. */
  ghost predicate StoredOk(occ: Occurrences, times: seq<int>, stored: seq<int>, answers: seq<bool>)
    requires |times| == |answers|
  {
    && |stored| < occ.count
    && stored == (if times == [] then []
                  else Recent(times[ResetPoint(answers)..], times[|times| - 1] - occ.Window()))
    && Trues(answers) * occ.count + |stored| <= |times|
  }

  lemma {:induction false} StoredIsRecent(occ: Occurrences, times: seq<int>)
    requires !occ.Trivial() && Sorted(times)
    ensures StoredOk(occ, times, Run(occ, times).0, Run(occ, times).1)
  {
    if times != [] {
      var n := |times| - 1;
      StoredIsRecent(occ, times[..n]);
      var (before, past) := Run(occ, times[..n]);
      MatchSeesHits(occ, times, before, past);
      MatchKeepsStored(occ, times, before, past);
    }
  }

  /** The list a call builds is the list of matches in its window not yet used by a true answer. */
  lemma {:induction false} MatchSeesHits(occ: Occurrences, times: seq<int>, before: seq<int>, past: seq<bool>)
    requires !occ.Trivial() && Sorted(times) && times != [] && |past| == |times| - 1
    requires StoredOk(occ, times[..|times| - 1], before, past)
    ensures var now := times[|times| - 1];
            Recent(before, now - occ.Window()) + [now] == Hits(occ, times, past)
  {
    var n := |times| - 1;
    var now := times[n];
    var cutoff := now - occ.Window();
    var since := times[..n][ResetPoint(past)..];
    assert times[ResetPoint(past)..] == since + [now];
    RecentConcat(since, [now], cutoff);
    assert Recent([now], cutoff) == [now];
    if n > 0 {
      RecentTwice(since, times[n - 1] - occ.Window(), cutoff);
    }
  }

  lemma {:induction false} MatchKeepsStored(occ: Occurrences, times: seq<int>, before: seq<int>, past: seq<bool>)
    requires !occ.Trivial() && times != [] && |past| == |times| - 1
    requires StoredOk(occ, times[..|times| - 1], before, past)
    requires var now := times[|times| - 1];
             Recent(before, now - occ.Window()) + [now] == Hits(occ, times, past)
    ensures var (stored, answer) := Match(occ, before, times[|times| - 1]);
            && answer == (|Hits(occ, times, past)| >= occ.count)
            && |Hits(occ, times, past)| <= occ.count
            && StoredOk(occ, times, stored, past + [answer])
  {
    var now := times[|times| - 1];
    RecentShrinks(before, now - occ.Window());
    var (stored, answer) := Match(occ, before, now);
    var answers := past + [answer];
    assert answers[..|past|] == past;
    if answer {
      assert times[ResetPoint(answers)..] == [];
      assert (Trues(past) + 1) * occ.count == Trues(past) * occ.count + occ.count;
    }
  }

  lemma {:induction false} RecentShrinks(times: seq<int>, cutoff: int)
    ensures |Recent(times, cutoff)| <= |times|
  {
    if times != [] { RecentShrinks(times[1..], cutoff); }
  }

  /** Earlier answers do not depend on later matches. */
  lemma {:induction false} AnswersArePrefixStable(occ: Occurrences, times: seq<int>, i: nat)
    requires i <= |times|
    ensures Run(occ, times[..i]).1 == Run(occ, times).1[..i]
    decreases |times|
  {
    if i == |times| {
      assert times[..i] == times;
    } else {
      var n := |times| - 1;
      assert times[..n][..i] == times[..i];
      AnswersArePrefixStable(occ, times[..n], i);
    }
  }

  /** The last answer of a run, counted over the matches since the last true answer before it. */
  lemma {:induction false} LastAnswer(occ: Occurrences, times: seq<int>)
    requires !occ.Trivial() && Sorted(times) && times != []
    ensures var n := |times| - 1;
            var past := Run(occ, times[..n]).1;
            var inWindow := CountIn(times[ResetPoint(past)..], times[n] - occ.Window(), times[n] + 1);
            && Run(occ, times).1 == past + [inWindow >= occ.count]
            && inWindow <= occ.count
  {
    var n := |times| - 1;
    var (before, past) := Run(occ, times[..n]);
    StoredIsRecent(occ, times[..n]);
    MatchSeesHits(occ, times, before, past);
    MatchKeepsStored(occ, times, before, past);
    HitsCount(occ, times, past);
  }

  lemma {:induction false} HitsCount(occ: Occurrences, times: seq<int>, past: seq<bool>)
    requires Sorted(times) && times != [] && |past| == |times| - 1
    ensures |Hits(occ, times, past)|
         == CountIn(times[ResetPoint(past)..], times[|times| - 1] - occ.Window(), times[|times| - 1] + 1)
  {
    var r, now := ResetPoint(past), times[|times| - 1];
    forall i | 0 <= i < |times[r..]| ensures times[r..][i] < now + 1 {
      assert times[r..][i] == times[r + i];
    }
    RecentCounts(times[r..], now - occ.Window(), now + 1);
  }

  /**
   * Exactly when a match gets through: when the matches since the last true answer, this one
   * included, number at least `count` within the window; at a true answer they number exactly
   * `count`, and none of them serves a later one.
   */
  lemma {:induction false} ReachedExactly(occ: Occurrences, times: seq<int>, i: nat)
    requires !occ.Trivial() && Sorted(times) && i < |times|
    ensures var answers := Run(occ, times).1;
            var since := times[..i + 1][ResetPoint(answers[..i])..];
            var inWindow := CountIn(since, times[i] - occ.Window(), times[i] + 1);
            && (answers[i] <==> inWindow >= occ.count)
            && (answers[i] ==> inWindow == occ.count && ResetPoint(answers[..i + 1]) == i + 1)
  {
    AnswersArePrefixStable(occ, times, i);
    AnswersArePrefixStable(occ, times, i + 1);
    var upTo := times[..i + 1];
    assert upTo[..i] == times[..i];
    LastAnswer(occ, upTo);
    var answers := Run(occ, times).1;
    assert answers[i] == Run(occ, upTo).1[i];
  }

  /** True answers times `count` never exceed the matches, and the stored list stays below `count`. */
  lemma {:induction false} TruesArePaidFor(occ: Occurrences, times: seq<int>)
    requires !occ.Trivial() && Sorted(times)
    ensures Trues(Run(occ, times).1) * occ.count <= |times|
    ensures |Run(occ, times).0| < occ.count
  {
    StoredIsRecent(occ, times);
  }

  // ---------------------------------------------------------------- the cooldown over a run

  /** `now` is the clock at the check, `stamp` the clock when the run is noted. */
  datatype Firing = Firing(ruleId: string, cooldownSec: int, forced: bool, now: int, stamp: int)

  function FireStep(lastFired: map<string, int>, f: Firing): (map<string, int>, bool) {
    var ran := f.forced || f.now - LastFor(lastFired, f.ruleId) >= f.cooldownSec * 1000;
    (if ran then lastFired[f.ruleId := f.stamp] else lastFired, ran)
  }

  function FireRun(firings: seq<Firing>): (r: (map<string, int>, seq<bool>))
    ensures |r.1| == |firings|
  {
    if firings == [] then (map[], [])
    else
      var n := |firings| - 1;
      var (lastFired, ran) := FireRun(firings[..n]);
      var (lastFired', r) := FireStep(lastFired, firings[n]);
      (lastFired', ran + [r])
  }

  /** The stamp of the rule's last run, in the whole run. */
  function LastRun(firings: seq<Firing>, ran: seq<bool>, ruleId: string): Option<int>
    requires |firings| == |ran|
  {
    if firings == [] then None
    else
      var n := |firings| - 1;
      if firings[n].ruleId == ruleId && ran[n] then Some(firings[n].stamp)
      else LastRun(firings[..n], ran[..n], ruleId)
  }

  lemma {:induction false} LastFiredIsLastRun(firings: seq<Firing>, ruleId: string)
    ensures var (lastFired, ran) := FireRun(firings);
            var last := LastRun(firings, ran, ruleId);
            (ruleId in lastFired <==> last.Some?) && (last.Some? ==> lastFired[ruleId] == last.value)
  {
    if firings != [] {
      var n := |firings| - 1;
      LastFiredIsLastRun(firings[..n], ruleId);
      assert FireRun(firings).1[..n] == FireRun(firings[..n]).1;
    }
  }

  /**
   * An unforced firing goes ahead exactly when the stamp of the rule's previous run, forced or not,
   * lies at least the cooldown back; a rule that never ran is measured from the epoch.
   */
  lemma {:induction false} CooldownExactly(firings: seq<Firing>)
    requires firings != [] && !firings[|firings| - 1].forced
    ensures var n := |firings| - 1;
            var f := firings[n];
            var ran := FireRun(firings).1;
            var last := LastRun(firings[..n], ran[..n], f.ruleId);
            ran[n] <==> f.now - (if last.Some? then last.value else 0) >= f.cooldownSec * 1000
  {
    var n := |firings| - 1;
    LastFiredIsLastRun(firings[..n], firings[n].ruleId);
    assert FireRun(firings).1[..n] == FireRun(firings[..n]).1;
  }
}
