/**
 * The timeline builder: a workout configuration is expanded into the ordered
 * list of timed phases the engine runs through. One countdown comes first,
 * then, group by group and round by round, a work phase, followed by a pause
 * phase when the group's pause is positive.
 */
module Timeline {
  import opened Types

  /** Length of the opening countdown, in seconds. */
  const CountdownDuration: real := 5.0

  datatype TimelineItem = TimelineItem(kind: Phase, groupIndex: int, round: int, duration: real)

  function CountdownItem(): TimelineItem
  {
    TimelineItem(Countdown, 0, 0, CountdownDuration)
  }

  /** How many times `for (let r = 1; r <= g.rounds; r++)` runs. */
  function RoundCount(g: RoundGroup): nat
  {
    if g.rounds > 0 then g.rounds else 0
  }

  /** Items emitted per round: the work phase, and the pause phase when it is positive. */
  function PerRound(g: RoundGroup): nat
  {
    if g.pauseSeconds > 0.0 then 2 else 1
  }

  /** Number of items group `g` contributes: rounds + (pauseSeconds > 0 ? rounds : 0). */
  function GroupLength(g: RoundGroup): nat
  {
    RoundCount(g) + (if g.pauseSeconds > 0.0 then RoundCount(g) else 0)
  }

  /** Number of items the first `n` groups contribute. */
  function LengthUpTo(gs: seq<RoundGroup>, n: nat): nat
    requires n <= |gs|
  {
    if n == 0 then 0 else LengthUpTo(gs, n - 1) + GroupLength(gs[n - 1])
  }

  /** What one round of group number `gi` emits. */
  function RoundItems(g: RoundGroup, gi: int, r: int): seq<TimelineItem>
  {
    [TimelineItem(Work, gi, r, g.workSeconds)]
    + (if g.pauseSeconds > 0.0 then [TimelineItem(Pause, gi, r, g.pauseSeconds)] else [])
  }

  /** What rounds 1..k of group number `gi` emit, in order. */
  function RoundsUpTo(g: RoundGroup, gi: int, k: nat): seq<TimelineItem>
  {
    if k == 0 then [] else RoundsUpTo(g, gi, k - 1) + RoundItems(g, gi, k)
  }

  /** What the first `n` groups emit, in order. */
  function GroupsUpTo(gs: seq<RoundGroup>, n: nat): seq<TimelineItem>
    requires n <= |gs|
  {
    if n == 0 then [] else GroupsUpTo(gs, n - 1) + RoundsUpTo(gs[n - 1], n - 1, RoundCount(gs[n - 1]))
  }

  /** The timeline of a configuration. */
  function Timeline(cfg: WorkoutConfig): seq<TimelineItem>
  {
    [CountdownItem()] + GroupsUpTo(cfg.groups, |cfg.groups|)
  }

  /** `buildTimeline`: pushes the countdown, then loops over the groups and their rounds. */
  method BuildTimeline(cfg: WorkoutConfig) returns (timeline: seq<TimelineItem>)
    ensures timeline == Timeline(cfg)
  {
    timeline := [];
    timeline := timeline + [CountdownItem()];
    var gi := 0;
    while gi < |cfg.groups|
      invariant 0 <= gi <= |cfg.groups|
      invariant timeline == [CountdownItem()] + GroupsUpTo(cfg.groups, gi)
    {
      var g := cfg.groups[gi];
      ghost var prefix := timeline;
      var r := 1;
      while r <= g.rounds
        invariant 1 <= r <= RoundCount(g) + 1
        invariant timeline == prefix + RoundsUpTo(g, gi, r - 1)
      {
        ghost var before := timeline;
        timeline := timeline + [TimelineItem(Work, gi, r, g.workSeconds)];
        if g.pauseSeconds > 0.0 {
          timeline := timeline + [TimelineItem(Pause, gi, r, g.pauseSeconds)];
        }
        assert timeline == before + RoundItems(g, gi, r);
        r := r + 1;
      }
      assert GroupsUpTo(cfg.groups, gi + 1) == GroupsUpTo(cfg.groups, gi) + RoundsUpTo(g, gi, RoundCount(g));
      gi := gi + 1;
    }
  }

  // ----- Shape of the timeline -----

  /** The item at position `j` of a group's block, in closed form. */
  function GroupItemAt(g: RoundGroup, gi: int, j: nat): TimelineItem
  {
    if g.pauseSeconds > 0.0 then
      (if j % 2 == 0 then TimelineItem(Work, gi, j / 2 + 1, g.workSeconds)
       else TimelineItem(Pause, gi, j / 2 + 1, g.pauseSeconds))
    else TimelineItem(Work, gi, j + 1, g.workSeconds)
  }

  lemma {:induction false} RoundsUpToAt(g: RoundGroup, gi: int, k: nat)
    ensures |RoundsUpTo(g, gi, k)| == k * PerRound(g)
    ensures forall j :: 0 <= j < |RoundsUpTo(g, gi, k)| ==> RoundsUpTo(g, gi, k)[j] == GroupItemAt(g, gi, j)
  {
    if k > 0 {
      RoundsUpToAt(g, gi, k - 1);
      var prev := RoundsUpTo(g, gi, k - 1);
      var all := RoundsUpTo(g, gi, k);
      assert all == prev + RoundItems(g, gi, k);
      assert |prev| == (k - 1) * PerRound(g);
      forall j | |prev| <= j < |all| ensures all[j] == GroupItemAt(g, gi, j) {
        if g.pauseSeconds > 0.0 {
          assert |prev| == 2 * (k - 1);
          if j == |prev| {
            assert j % 2 == 0 && j / 2 + 1 == k;
          } else {
            assert j == 2 * (k - 1) + 1;
            assert j % 2 == 1 && j / 2 + 1 == k;
          }
        } else {
          assert j == k - 1;
        }
      }
    }
  }

  lemma GroupLengthIsRounds(g: RoundGroup, gi: int)
    ensures |RoundsUpTo(g, gi, RoundCount(g))| == GroupLength(g)
    ensures forall j :: 0 <= j < GroupLength(g) ==> RoundsUpTo(g, gi, RoundCount(g))[j] == GroupItemAt(g, gi, j)
  {
    RoundsUpToAt(g, gi, RoundCount(g));
  }

  lemma {:induction false} GroupsUpToLength(gs: seq<RoundGroup>, n: nat)
    requires n <= |gs|
    ensures |GroupsUpTo(gs, n)| == LengthUpTo(gs, n)
  {
    if n > 0 {
      GroupsUpToLength(gs, n - 1);
      GroupLengthIsRounds(gs[n - 1], n - 1);
    }
  }

  lemma {:induction false} GroupsUpToAt(gs: seq<RoundGroup>, n: nat, gi: nat, j: nat)
    requires gi < n <= |gs| && j < GroupLength(gs[gi])
    ensures |GroupsUpTo(gs, n)| == LengthUpTo(gs, n)
    ensures LengthUpTo(gs, gi) + j < |GroupsUpTo(gs, n)|
    ensures GroupsUpTo(gs, n)[LengthUpTo(gs, gi) + j] == GroupItemAt(gs[gi], gi, j)
  {
    GroupsUpToLength(gs, n);
    GroupsUpToLength(gs, n - 1);
    GroupLengthIsRounds(gs[n - 1], n - 1);
    var prev := GroupsUpTo(gs, n - 1);
    var last := RoundsUpTo(gs[n - 1], n - 1, RoundCount(gs[n - 1]));
    assert GroupsUpTo(gs, n) == prev + last;
    if gi < n - 1 {
      LengthUpToMonotone(gs, gi + 1, n - 1);
      GroupsUpToAt(gs, n - 1, gi, j);
    }
  }

  lemma {:induction false} LengthUpToMonotone(gs: seq<RoundGroup>, a: nat, b: nat)
    requires a <= b <= |gs|
    ensures LengthUpTo(gs, a) <= LengthUpTo(gs, b)
    decreases b - a
  {
    if a < b {
      LengthUpToMonotone(gs, a, b - 1);
    }
  }

  /**
   * The length formula: one countdown plus, per group,
   * rounds + (pauseSeconds > 0 ? rounds : 0) items.
   */
  lemma TimelineLength(cfg: WorkoutConfig)
    ensures |Timeline(cfg)| == 1 + LengthUpTo(cfg.groups, |cfg.groups|)
  {
    GroupsUpToLength(cfg.groups, |cfg.groups|);
  }

  /**
   * Complete layout of the timeline: past the countdown at position 0, the
   * block of group `gi` starts right after the blocks of groups 0..gi-1, and
   * its `j`-th item is work/pause of round j/2+1 (with pauses) or work of
   * round j+1 (without pauses), carrying the group's durations.
   */
  lemma TimelineAt(cfg: WorkoutConfig, gi: nat, j: nat)
    requires gi < |cfg.groups| && j < GroupLength(cfg.groups[gi])
    ensures 1 + LengthUpTo(cfg.groups, gi) + j < |Timeline(cfg)|
    ensures Timeline(cfg)[1 + LengthUpTo(cfg.groups, gi) + j] == GroupItemAt(cfg.groups[gi], gi, j)
  {
    GroupsUpToAt(cfg.groups, |cfg.groups|, gi, j);
  }

  /** Which group block, and which position in it, index `k` of the first `n` blocks falls in. */
  function Locate(gs: seq<RoundGroup>, n: nat, k: nat): (p: (nat, nat))
    requires n <= |gs| && k < LengthUpTo(gs, n)
    ensures p.0 < n && p.1 < GroupLength(gs[p.0]) && k == LengthUpTo(gs, p.0) + p.1
  {
    if k >= LengthUpTo(gs, n - 1) then (n - 1, k - LengthUpTo(gs, n - 1)) else Locate(gs, n - 1, k)
  }

  /** Blocks do not overlap, so the block and position of an index are unique. */
  lemma {:induction false} LocateUnique(gs: seq<RoundGroup>, n: nat, a: nat, i: nat)
    requires n <= |gs| && a < n && i < GroupLength(gs[a])
    ensures LengthUpTo(gs, a) + i < LengthUpTo(gs, n)
    ensures Locate(gs, n, LengthUpTo(gs, a) + i) == (a, i)
  {
    LengthUpToMonotone(gs, a + 1, n);
    if a < n - 1 {
      LengthUpToMonotone(gs, a + 1, n - 1);
      LocateUnique(gs, n - 1, a, i);
    }
  }

  /** Every item after the first belongs to the block of exactly one group. */
  lemma TimelineLocate(cfg: WorkoutConfig, k: nat)
    requires 1 <= k < |Timeline(cfg)|
    ensures k - 1 < LengthUpTo(cfg.groups, |cfg.groups|)
    ensures var p := Locate(cfg.groups, |cfg.groups|, k - 1);
            Timeline(cfg)[k] == GroupItemAt(cfg.groups[p.0], p.0, p.1)
  {
    TimelineLength(cfg);
    var p := Locate(cfg.groups, |cfg.groups|, k - 1);
    TimelineAt(cfg, p.0, p.1);
  }

  /** The countdown is the first item, and the only one. */
  lemma CountdownOnlyFirst(cfg: WorkoutConfig)
    ensures |Timeline(cfg)| >= 1 && Timeline(cfg)[0] == TimelineItem(Countdown, 0, 0, 5.0)
    ensures forall k :: 1 <= k < |Timeline(cfg)| ==> Timeline(cfg)[k].kind != Countdown
  {
    forall k | 1 <= k < |Timeline(cfg)| ensures Timeline(cfg)[k].kind != Countdown {
      TimelineLocate(cfg, k);
    }
  }

  /**
   * Every item after the countdown names an existing group and one of its
   * rounds 1..rounds, and carries that group's work or pause duration;
   * pause items exist only for groups whose pause is positive.
   */
  lemma ItemsBelongToGroups(cfg: WorkoutConfig, k: nat)
    requires 1 <= k < |Timeline(cfg)|
    ensures var it := Timeline(cfg)[k];
            0 <= it.groupIndex < |cfg.groups|
            && 1 <= it.round <= RoundCount(cfg.groups[it.groupIndex])
            && (it.kind == Work ==> it.duration == cfg.groups[it.groupIndex].workSeconds)
            && (it.kind == Pause ==> it.duration == cfg.groups[it.groupIndex].pauseSeconds > 0.0)
  {
    TimelineLocate(cfg, k);
  }

  /**
   * Each work item is immediately followed by the pause of the same group
   * and round when that group's pause is positive; otherwise the next item,
   * if any, is a work item.
   */
  lemma WorkThenPause(cfg: WorkoutConfig, k: nat)
    requires 1 <= k < |Timeline(cfg)| && Timeline(cfg)[k].kind == Work
    ensures 0 <= Timeline(cfg)[k].groupIndex < |cfg.groups|
    ensures var it := Timeline(cfg)[k];
            var g := cfg.groups[it.groupIndex];
            (g.pauseSeconds > 0.0 ==>
                  k + 1 < |Timeline(cfg)|
                  && Timeline(cfg)[k + 1] == TimelineItem(Pause, it.groupIndex, it.round, g.pauseSeconds))
            && (g.pauseSeconds <= 0.0 ==> k + 1 == |Timeline(cfg)| || Timeline(cfg)[k + 1].kind == Work)
  {
    TimelineLength(cfg);
    var p := Locate(cfg.groups, |cfg.groups|, k - 1);
    TimelineAt(cfg, p.0, p.1);
    if cfg.groups[p.0].pauseSeconds > 0.0 {
      WorkFollowedByPause(cfg, k, p.0, p.1);
    } else if k + 1 < |Timeline(cfg)| {
      WorkFollowedByWork(cfg, k, p.0, p.1);
    }
  }

  /** In a group with a pause, the work item at offset j is followed by the pause of its round. */
  lemma WorkFollowedByPause(cfg: WorkoutConfig, k: nat, gi: nat, j: nat)
    requires gi < |cfg.groups| && j < GroupLength(cfg.groups[gi]) && cfg.groups[gi].pauseSeconds > 0.0
    requires k == 1 + LengthUpTo(cfg.groups, gi) + j && k < |Timeline(cfg)|
    requires Timeline(cfg)[k] == GroupItemAt(cfg.groups[gi], gi, j) && Timeline(cfg)[k].kind == Work
    ensures k + 1 < |Timeline(cfg)|
    ensures Timeline(cfg)[k + 1] == TimelineItem(Pause, gi, Timeline(cfg)[k].round, cfg.groups[gi].pauseSeconds)
  {
    var g := cfg.groups[gi];
    assert j % 2 == 0;
    assert j + 1 < GroupLength(g) by {
      assert GroupLength(g) == 2 * RoundCount(g);
    }
    TimelineAt(cfg, gi, j + 1);
  }

  /** In a group without a pause, whatever follows a work item is a work item. */
  lemma WorkFollowedByWork(cfg: WorkoutConfig, k: nat, gi: nat, j: nat)
    requires gi < |cfg.groups| && j < GroupLength(cfg.groups[gi]) && cfg.groups[gi].pauseSeconds <= 0.0
    requires k == 1 + LengthUpTo(cfg.groups, gi) + j && k + 1 < |Timeline(cfg)|
    ensures Timeline(cfg)[k + 1].kind == Work
  {
    var gs := cfg.groups;
    TimelineLength(cfg);
    var q := Locate(gs, |gs|, k);
    TimelineAt(cfg, q.0, q.1);
    if q.1 > 0 {
      // position k - 1 lies in group q.0, and it lies in group gi: the same group, which has no pause
      SameBlock(gs, q.0, q.1 - 1, gi, j);
    }
  }

  /** Two block positions naming the same index are the same position. */
  lemma SameBlock(gs: seq<RoundGroup>, a: nat, i: nat, b: nat, l: nat)
    requires a < |gs| && i < GroupLength(gs[a]) && b < |gs| && l < GroupLength(gs[b])
    requires LengthUpTo(gs, a) + i == LengthUpTo(gs, b) + l
    ensures a == b && i == l
  {
    LocateUnique(gs, |gs|, a, i);
    LocateUnique(gs, |gs|, b, l);
  }

  /**
   * Groups appear in declaration order and, inside a group, rounds are
   * non-decreasing along the timeline.
   */
  lemma GroupsInOrder(cfg: WorkoutConfig, k: nat, k': nat)
    requires 1 <= k < k' < |Timeline(cfg)|
    ensures Timeline(cfg)[k].groupIndex <= Timeline(cfg)[k'].groupIndex
    ensures Timeline(cfg)[k].groupIndex == Timeline(cfg)[k'].groupIndex ==>
              Timeline(cfg)[k].round <= Timeline(cfg)[k'].round
  {
    var gs := cfg.groups;
    TimelineLength(cfg);
    var p := Locate(gs, |gs|, k - 1);
    var p' := Locate(gs, |gs|, k' - 1);
    TimelineAt(cfg, p.0, p.1);
    TimelineAt(cfg, p'.0, p'.1);
    BlockOrder(gs, p.0, p.1, p'.0, p'.1);
    if p.0 == p'.0 {
      RoundsGrow(gs[p.0], p.0, p.1, p'.1);
    }
  }

  /** An earlier index lies in an earlier block, or earlier in the same block. */
  lemma BlockOrder(gs: seq<RoundGroup>, a: nat, i: nat, b: nat, l: nat)
    requires a < |gs| && i < GroupLength(gs[a]) && b < |gs| && l < GroupLength(gs[b])
    requires LengthUpTo(gs, a) + i < LengthUpTo(gs, b) + l
    ensures a <= b && (a == b ==> i < l)
  {
    if b < a {
      LengthUpToMonotone(gs, b + 1, a);
      assert false;
    }
  }

  /** Inside a block, the round number never goes down. */
  lemma RoundsGrow(g: RoundGroup, gi: int, i: nat, l: nat)
    requires i <= l
    ensures GroupItemAt(g, gi, i).round <= GroupItemAt(g, gi, l).round
  {
    if g.pauseSeconds > 0.0 {
      assert i / 2 <= l / 2;
    }
  }

  /** With non-negative work and pause durations every phase has a non-negative length. */
  ghost predicate NonNegativeDurations(cfg: WorkoutConfig)
  {
    forall i :: 0 <= i < |cfg.groups| ==> cfg.groups[i].workSeconds >= 0.0 && cfg.groups[i].pauseSeconds >= 0.0
  }

  /** No item of `t` lasts a negative time. */
  ghost predicate AllDurationsNonNegative(t: seq<TimelineItem>)
  {
    forall k :: 0 <= k < |t| ==> t[k].duration >= 0.0
  }

  /** A well-formed configuration gives a timeline without negative durations. */
  lemma DurationsNonNegative(cfg: WorkoutConfig)
    requires NonNegativeDurations(cfg)
    ensures AllDurationsNonNegative(Timeline(cfg))
  {
    forall k | 1 <= k < |Timeline(cfg)| ensures Timeline(cfg)[k].duration >= 0.0 {
      TimelineLocate(cfg, k);
    }
  }

  /** Two worked examples: 2 rounds of 30 s work and 10 s pause, and 1 round of 20 s work without a pause. */
  lemma ScenarioTimelines()
    ensures Timeline(WorkoutConfig([RoundGroup("a", 2, 30.0, 10.0)]))
         == [TimelineItem(Countdown, 0, 0, 5.0),
             TimelineItem(Work, 0, 1, 30.0), TimelineItem(Pause, 0, 1, 10.0),
             TimelineItem(Work, 0, 2, 30.0), TimelineItem(Pause, 0, 2, 10.0)]
    ensures Timeline(WorkoutConfig([RoundGroup("b", 1, 20.0, 0.0)]))
         == [TimelineItem(Countdown, 0, 0, 5.0), TimelineItem(Work, 0, 1, 20.0)]
  {
  }
}
