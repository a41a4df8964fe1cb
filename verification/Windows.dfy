/**
 * Admission windows. A sequence of event times is cut into groups so that no group holds more
 * than `cap` events and the first events of two groups lie at least `gap` apart. Every limiter
 * in the server (the fixed-window rate limiter, the login throttle's account lock and its
 * per-address counter) produces such a grouping; the numeric bounds follow from it alone.
 */
module Windows {

  /** How many of the times lie in the half-open interval from `lo` to `hi`. */
  function CountIn(times: seq<int>, lo: int, hi: int): nat {
    if times == [] then 0
    else (if lo <= times[0] < hi then 1 else 0) + CountIn(times[1..], lo, hi)
  }

  function Flatten(groups: seq<seq<int>>): seq<int> {
    if groups == [] then [] else groups[0] + Flatten(groups[1..])
  }

  ghost predicate Sorted(times: seq<int>) {
    forall i, j :: 0 <= i < j < |times| ==> times[i] <= times[j]
  }

  /** Events in the order of their times. */
  ghost predicate ClockNeverGoesBack<E>(events: seq<E>, timeOf: E -> int) {
    forall i, j :: 0 <= i < j < |events| ==> timeOf(events[i]) <= timeOf(events[j])
  }

  ghost predicate GroupOk(group: seq<int>, cap: nat) {
    group != [] && |group| <= cap && Sorted(group)
  }

  /** The group `later` begins a full gap after `earlier` began, and not before it ended. */
  ghost predicate Apart(earlier: seq<int>, later: seq<int>, gap: int)
    requires earlier != [] && later != []
  {
    earlier[0] + gap <= later[0] && earlier[|earlier| - 1] <= later[0]
  }

  ghost predicate Grouped(groups: seq<seq<int>>, gap: int, cap: nat) {
    && (forall i :: 0 <= i < |groups| ==> GroupOk(groups[i], cap))
    && (forall i, j :: 0 <= i < j < |groups| ==> Apart(groups[i], groups[j], gap))
  }

  // ---------------------------------------------------------------- counting

  lemma {:induction false} CountInConcat(a: seq<int>, b: seq<int>, lo: int, hi: int)
    ensures CountIn(a + b, lo, hi) == CountIn(a, lo, hi) + CountIn(b, lo, hi)
  {
    if a == [] {
      assert a + b == b;
    } else {
      assert (a + b)[1..] == a[1..] + b;
      CountInConcat(a[1..], b, lo, hi);
    }
  }

  lemma {:induction false} CountInAtMostLength(times: seq<int>, lo: int, hi: int)
    ensures CountIn(times, lo, hi) <= |times|
    ensures (forall i :: 0 <= i < |times| ==> !(lo <= times[i] < hi)) ==> CountIn(times, lo, hi) == 0
    ensures times != [] && !(lo <= times[0] < hi) ==> CountIn(times, lo, hi) < |times|
  {
    if times != [] {
      CountInAtMostLength(times[1..], lo, hi);
    }
  }

  /** Widening the interval on a side where no event lies changes nothing. */
  lemma {:induction false} CountInRaiseLow(times: seq<int>, lo: int, mid: int, hi: int)
    requires forall i :: 0 <= i < |times| ==> mid <= times[i]
    requires lo <= mid
    ensures CountIn(times, lo, hi) == CountIn(times, mid, hi)
  {
    if times != [] {
      CountInRaiseLow(times[1..], lo, mid, hi);
    }
  }

  // ---------------------------------------------------------------- groups

  lemma GroupedTail(groups: seq<seq<int>>, gap: int, cap: nat)
    requires Grouped(groups, gap, cap) && groups != []
    ensures Grouped(groups[1..], gap, cap)
    ensures forall i :: 0 <= i < |groups[1..]| ==> Apart(groups[0], groups[1..][i], gap)
  {
    var rest := groups[1..];
    forall i, j | 0 <= i < j < |rest| ensures Apart(rest[i], rest[j], gap) {
      assert Apart(groups[i + 1], groups[j + 1], gap);
    }
    forall i | 0 <= i < |rest| ensures GroupOk(rest[i], cap) && Apart(groups[0], rest[i], gap) {
      assert GroupOk(groups[i + 1], cap);
      assert Apart(groups[0], groups[i + 1], gap);
    }
  }

  /** Nothing in the groups precedes the first event of the first group. */
  lemma {:induction false} GroupedFloor(groups: seq<seq<int>>, gap: int, cap: nat, floor: int)
    requires Grouped(groups, gap, cap)
    requires forall i :: 0 <= i < |groups| ==> groups[i] != [] && floor <= groups[i][0]
    ensures forall i :: 0 <= i < |Flatten(groups)| ==> floor <= Flatten(groups)[i]
  {
    if groups != [] {
      GroupedTail(groups, gap, cap);
      GroupedFloor(groups[1..], gap, cap, floor);
      assert GroupOk(groups[0], cap);
    }
  }

  lemma FlattenHead(groups: seq<seq<int>>, lo: int, hi: int)
    requires groups != []
    ensures CountIn(Flatten(groups), lo, hi)
         == CountIn(groups[0], lo, hi) + CountIn(Flatten(groups[1..]), lo, hi)
  {
    CountInConcat(groups[0], Flatten(groups[1..]), lo, hi);
  }

  /** Groups that begin at or after the end of an interval contribute nothing to it. */
  lemma LateGroupsCountZero(groups: seq<seq<int>>, gap: int, cap: nat, lo: int, hi: int)
    requires Grouped(groups, gap, cap)
    requires forall i :: 0 <= i < |groups| ==> groups[i] != [] && hi <= groups[i][0]
    ensures CountIn(Flatten(groups), lo, hi) == 0
  {
    GroupedFloor(groups, gap, cap, hi);
    CountInAtMostLength(Flatten(groups), lo, hi);
  }

  /** Any half-open interval as long as the gap sees at most 2·cap - 1 events. */
  lemma {:induction false} SlidingBound(groups: seq<seq<int>>, gap: int, cap: nat, lo: int)
    requires Grouped(groups, gap, cap) && cap >= 1
    ensures CountIn(Flatten(groups), lo, lo + gap) <= 2 * cap - 1
  {
    if groups == [] { return; }
    var head, rest := groups[0], groups[1..];
    var hi := lo + gap;
    GroupedTail(groups, gap, cap);
    FlattenHead(groups, lo, hi);
    assert GroupOk(head, cap);
    CountInAtMostLength(head, lo, hi);
    if lo <= head[0] {
      LateGroupsCountZero(rest, gap, cap, lo, hi);
    } else if CountIn(head, lo, hi) == 0 {
      SlidingBound(rest, gap, cap, lo);
    } else {
      assert CountIn(head, lo, hi) <= cap - 1;
      assert exists k :: 0 <= k < |head| && lo <= head[k] < hi;
      if rest != [] {
        GroupedTail(rest, gap, cap);
        FlattenHead(rest, lo, hi);
        assert Apart(head, rest[0], gap) && GroupOk(rest[0], cap);
        assert lo <= rest[0][0];
        CountInAtMostLength(rest[0], lo, hi);
        forall i | 0 <= i < |rest[1..]| ensures hi <= rest[1..][i][0] {
          assert Apart(rest[0], rest[1..][i], gap);
        }
        LateGroupsCountZero(rest[1..], gap, cap, lo, hi);
      }
    }
  }

  /** How many gaps it takes to cover a length: the ceiling of length / gap. */
  function CeilDiv(length: nat, gap: nat): (n: nat)
    requires gap >= 1
    ensures length <= n * gap < length + gap
    decreases length
  {
    if length == 0 then 0 else if length <= gap then 1 else
      var n := CeilDiv(length - gap, gap);
      assert (n + 1) * gap == n * gap + gap;
      n + 1
  }

  /** From a clean start, a run of the given length sees at most cap events per started gap. */
  lemma {:induction false} RunBound(groups: seq<seq<int>>, gap: nat, cap: nat, start: int, length: nat)
    requires Grouped(groups, gap, cap) && gap >= 1
    requires groups != [] ==> start <= groups[0][0]
    ensures CountIn(Flatten(groups), start, start + length) <= cap * CeilDiv(length, gap)
    decreases |groups|
  {
    var hi := start + length;
    if groups == [] {
      assert cap * CeilDiv(length, gap) >= 0;
    } else if length == 0 {
      forall i | 0 <= i < |groups| ensures hi <= groups[i][0] {
        if i > 0 { assert Apart(groups[0], groups[i], gap); }
      }
      LateGroupsCountZero(groups, gap, cap, start, hi);
    } else {
      var head, rest := groups[0], groups[1..];
      GroupedTail(groups, gap, cap);
      FlattenHead(groups, start, hi);
      assert GroupOk(head, cap);
      CountInAtMostLength(head, start, hi);
      forall i | 0 <= i < |rest| ensures start + gap <= rest[i][0] {
        assert Apart(head, rest[i], gap);
      }
      if length <= gap {
        LateGroupsCountZero(rest, gap, cap, start, hi);
      } else {
        GroupedFloor(rest, gap, cap, start + gap);
        CountInRaiseLow(Flatten(rest), start, start + gap, hi);
        RunBound(rest, gap, cap, start + gap, length - gap);
        TimesSuccessor(cap, CeilDiv(length - gap, gap));
      }
    }
  }

  lemma TimesSuccessor(a: int, b: int)
    ensures a * (b + 1) == a * b + a
  {
  }

  // ---------------------------------------------------------------- extending a grouping

  /** Opening a new group a full gap after the last one began keeps the grouping. */
  lemma OpenGroup(groups: seq<seq<int>>, gap: nat, cap: nat, t: int)
    requires Grouped(groups, gap, cap) && cap >= 1
    requires groups != [] ==> Apart(groups[|groups| - 1], [t], gap)
    ensures Grouped(groups + [[t]], gap, cap)
    ensures Flatten(groups + [[t]]) == Flatten(groups) + [t]
  {
    var longer := groups + [[t]];
    forall i, j | 0 <= i < j < |longer| ensures Apart(longer[i], longer[j], gap) {
      if j == |groups| && i < |groups| - 1 {
        assert Apart(groups[i], groups[|groups| - 1], gap);
      }
    }
    FlattenSnoc(groups, [t]);
  }

  /** Adding an event to the last group, while it has room, keeps the grouping. */
  lemma ExtendGroup(groups: seq<seq<int>>, gap: nat, cap: nat, t: int)
    requires Grouped(groups, gap, cap) && groups != []
    requires var last := groups[|groups| - 1]; |last| < cap && last[|last| - 1] <= t
    ensures var last := groups[|groups| - 1];
            && Grouped(groups[..|groups| - 1] + [last + [t]], gap, cap)
            && Flatten(groups[..|groups| - 1] + [last + [t]]) == Flatten(groups) + [t]
  {
    var front, last := groups[..|groups| - 1], groups[|groups| - 1];
    var longer := front + [last + [t]];
    forall i, j | 0 <= i < j < |longer| ensures Apart(longer[i], longer[j], gap) {
      assert Apart(groups[i], groups[j], gap);
    }
    forall i | 0 <= i < |longer| ensures GroupOk(longer[i], cap) {
      assert GroupOk(groups[i], cap);
    }
    FlattenSnoc(front, last);
    FlattenSnoc(front, last + [t]);
    assert groups == front + [last];
  }

  lemma {:induction false} FlattenSnoc(groups: seq<seq<int>>, last: seq<int>)
    ensures Flatten(groups + [last]) == Flatten(groups) + last
  {
    if groups == [] {
      assert groups + [last] == [last];
      assert Flatten([last]) == last + Flatten([last][1..]);
    } else {
      assert (groups + [last])[1..] == groups[1..] + [last];
      FlattenSnoc(groups[1..], last);
    }
  }
}
