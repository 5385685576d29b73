/**
 * The timer engine: a state machine that runs through the timeline of a
 * workout. Every animation frame calls `tick(now)`, which measures the
 * time since the previous frame, counts it off the current phase, gives
 * the five-second lookahead cue once per phase and, when the phase has run
 * out, moves to the next phase or completes the workout.
 *
 * The animation-frame handle is reduced to a `running` flag, and the calls
 * the engine makes on the speech service, the tone generator and the
 * vibration motor are recorded as cues instead of being performed.
 *
 * The step functions over `EngineState` specify the methods of the class
 * `TimerEngine`; the lemmas state what the source promises about them.
 */
module Engine {
  import opened Types
  import opened Timeline
  import Voice

  /** A phase gives its lookahead cue once its remaining time is at most this. */
  const WarningThreshold: real := 5.0

  /** The argument of one `navigator.vibrate` call: one pulse or an on/off pattern, in ms. */
  datatype Vibration = Pulse(ms: int) | Pattern(steps: seq<int>)

  /** One call the engine makes on a notification service. */
  datatype Cue = Say(text: string) | Beep | Vibrate(v: Vibration)

  /** All mutable state of one engine. */
  datatype EngineState = EngineState(
    state: TimerState,
    timeline: seq<TimelineItem>,
    idx: int,
    lastTime: real,
    running: bool,
    warned: bool,
    settings: AudioSettings)

  function IdleSnapshot(): TimerState
  {
    TimerState(Idle, 0, 1, 0.0, 0.0, None)
  }

  /** The engine `createTimerEngine` returns. */
  function InitialEngine(cfg: WorkoutConfig, settings: AudioSettings): EngineState
  {
    EngineState(IdleSnapshot(), Timeline.Timeline(cfg), 0, 0.0, false, false, settings)
  }

  /** `setStateFromItem`: the snapshot shows `item`, and its warning has not fired. */
  function Install(e: EngineState, item: TimelineItem): EngineState
  {
    e.(state := e.state.(
         currentGroupIndex := item.groupIndex,
         currentRound := if item.round == 0 then 1 else item.round,
         remainingSeconds := item.duration,
         status := Running(item.kind)),
       warned := false)
  }

  /** `start`: nothing for a configuration without groups; otherwise the run begins at the countdown. */
  function StartStep(cfg: WorkoutConfig, e: EngineState): (EngineState, seq<Cue>)
  {
    if |cfg.groups| == 0 then (e, [])
    else
      var t := Timeline.Timeline(cfg);
      var e1 := Install(e.(timeline := t, idx := 0), t[0]);
      (e1.(state := e1.state.(totalElapsed := 0.0), lastTime := 0.0, warned := false, running := true),
       if e.settings.sound then [Say("Starting workout")] else [])
  }

  /** `pause`: only from a running phase, which is remembered in `prevStatus`; the loop stops. */
  function PauseStep(e: EngineState): EngineState
  {
    if e.state.status.Running? then
      e.(state := e.state.(prevStatus := Some(e.state.status.phase), status := Paused), running := false)
    else e
  }

  /** `resume`: only when paused with time left; the remembered phase (or work) comes back. */
  function ResumeStep(e: EngineState): EngineState
  {
    if e.state.status == Paused && e.state.remainingSeconds > 0.0 then
      var restore := if e.state.prevStatus.Some? then e.state.prevStatus.value else Work;
      e.(state := e.state.(status := Running(restore), prevStatus := None), lastTime := 0.0, running := true)
    else e
  }

  /** `reset`: back to idle with a fresh timeline, whatever the state was. */
  function ResetStep(cfg: WorkoutConfig, e: EngineState): EngineState
  {
    EngineState(IdleSnapshot(), Timeline.Timeline(cfg), 0, 0.0, false, false, e.settings)
  }

  /** Seconds a frame at `now` (ms) accounts for; the first frame of a run only sets the reference. */
  function Delta(e: EngineState, now: real): real
  {
    (now - (if e.lastTime == 0.0 then now else e.lastTime)) / 1000.0
  }

  function NextItem(e: EngineState): Option<TimelineItem>
  {
    if 0 <= e.idx + 1 < |e.timeline| then Some(e.timeline[e.idx + 1]) else None
  }

  /** The lookahead cue: speech only towards a pause or towards work, vibration in any direction. */
  function WarningCues(status: Status, next: Option<TimelineItem>, settings: AudioSettings): seq<Cue>
  {
    (if !settings.sound then []
     else if status == Running(Work) && next.Some? && next.value.kind == Pause then
       [Say(Voice.CountdownText(Voice.RestAhead, 5))]
     else if (status == Running(Pause) || status == Running(Countdown)) && next.Some? && next.value.kind == Work then
       [Say(Voice.CountdownText(Voice.WorkAhead, 5))]
     else [])
    + (if settings.vibration then [Vibrate(Pattern([50, 40]))] else [])
  }

  function BoundaryCues(settings: AudioSettings): seq<Cue>
  {
    (if settings.sound then [Beep] else []) + (if settings.vibration then [Vibrate(Pulse(80))] else [])
  }

  function CompletionCues(settings: AudioSettings): seq<Cue>
  {
    (if settings.sound then [Say("Workout complete")] else [])
    + (if settings.vibration then [Vibrate(Pattern([200, 100, 200]))] else [])
  }

  /** The time accounting of a frame: the delta is added to the elapsed total and counted off the phase. */
  function AccountStep(e: EngineState, now: real): EngineState
  {
    var delta := Delta(e, now);
    e.(state := e.state.(totalElapsed := e.state.totalElapsed + delta,
                         remainingSeconds := e.state.remainingSeconds - delta),
       lastTime := now)
  }

  /** The lookahead check of a frame, on the already updated remaining time. */
  function WarnStep(e: EngineState): (EngineState, seq<Cue>)
  {
    if !e.warned && e.state.remainingSeconds <= WarningThreshold && e.state.remainingSeconds > 0.0 then
      (e.(warned := true), WarningCues(e.state.status, NextItem(e), e.settings))
    else (e, [])
  }

  /** Leaving a phase that has run out: on to the next item, or complete past the last one. */
  function AdvanceStep(e: EngineState): (EngineState, seq<Cue>)
    requires e.idx >= 0
  {
    var i := e.idx + 1;
    if i >= |e.timeline| then
      (e.(idx := i, state := e.state.(status := Complete, remainingSeconds := 0.0), running := false),
       CompletionCues(e.settings))
    else
      (Install(e.(idx := i), e.timeline[i]), BoundaryCues(e.settings))
  }

  /** Whether the frame at `now` gives the lookahead cue. */
  function WarningFires(e: EngineState, now: real): bool
  {
    var remaining := e.state.remainingSeconds - Delta(e, now);
    !e.warned && remaining <= WarningThreshold && remaining > 0.0
  }

  /** `tick(now)`: one animation frame. */
  function TickStep(e: EngineState, now: real): (EngineState, seq<Cue>)
    requires e.idx >= 0
  {
    var e1 := AccountStep(e, now);
    var (e2, warnCues) := WarnStep(e1);
    if e2.state.remainingSeconds <= 0.0 then
      var (e3, moveCues) := AdvanceStep(e2);
      (e3, warnCues + moveCues)
    else (e2, warnCues)
  }

  // ----- The engine invariant -----

  /** What holds of every engine built for `cfg`, whatever the sequence of calls. */
  ghost predicate Consistent(cfg: WorkoutConfig, e: EngineState)
  {
    && e.timeline == Timeline.Timeline(cfg)
    && 0 <= e.idx <= |e.timeline|
    // the loop only runs inside a phase, on an existing item
    && (e.running ==> e.state.status.Running? && e.idx < |e.timeline|)
    && (e.state.status.Running? ==> e.idx < |e.timeline|)
    // a user pause always records the paused phase
    && PauseRecorded(e.state) && (e.state.status == Paused ==> e.idx < |e.timeline|)
    // completion is reached past the last item, and the loop is stopped
    && (e.state.status == Complete ==> e.idx == |e.timeline| && !e.running)
    && (e.state.status == Idle ==> e.idx == 0)
    // with a well-formed configuration the remaining time is never negative
    && (AllDurationsNonNegative(e.timeline) ==> e.state.remainingSeconds >= 0.0)
  }

  lemma InitialConsistent(cfg: WorkoutConfig, settings: AudioSettings)
    ensures Consistent(cfg, InitialEngine(cfg, settings))
  {
  }

  // ----- start -----

  /** `start` on a configuration without groups changes nothing and says nothing. */
  lemma StartWithoutGroups(cfg: WorkoutConfig, e: EngineState)
    requires |cfg.groups| == 0
    ensures StartStep(cfg, e) == (e, [])
  {
  }

  /**
   * Otherwise the run begins: index 0, status countdown with 5 seconds,
   * round 1 (the countdown's round 0 shows as 1), group 0, no time elapsed,
   * warning cleared, loop running, and "Starting workout" when sound is on.
   */
  lemma StartBeginsCountdown(cfg: WorkoutConfig, e: EngineState)
    requires |cfg.groups| > 0
    ensures var (e', cues) := StartStep(cfg, e);
            && e'.idx == 0 && e'.timeline == Timeline.Timeline(cfg)
            && e'.state.status == Running(Countdown) && e'.state.remainingSeconds == 5.0
            && e'.state.currentRound == 1 && e'.state.currentGroupIndex == 0
            && e'.state.totalElapsed == 0.0 && e'.state.prevStatus == e.state.prevStatus
            && !e'.warned && e'.running && e'.lastTime == 0.0 && e'.settings == e.settings
            && cues == (if e.settings.sound then [Say("Starting workout")] else [])
  {
    CountdownOnlyFirst(cfg);
  }

  lemma StartConsistent(cfg: WorkoutConfig, e: EngineState)
    requires Consistent(cfg, e)
    ensures Consistent(cfg, StartStep(cfg, e).0)
  {
    if |cfg.groups| > 0 {
      StartBeginsCountdown(cfg, e);
      TimelineLength(cfg);
    }
  }

  // ----- pause and resume -----

  /**
   * `pause` acts exactly on a running phase: it records that phase, shows
   * paused and stops the loop, leaving the times, group and round alone.
   */
  lemma PauseGuard(e: EngineState)
    ensures !e.state.status.Running? ==> PauseStep(e) == e
    ensures e.state.status.Running? ==>
              var e' := PauseStep(e);
              && e'.state.status == Paused && e'.state.prevStatus == Some(e.state.status.phase)
              && !e'.running
              && e'.state.remainingSeconds == e.state.remainingSeconds
              && e'.state.totalElapsed == e.state.totalElapsed
              && e'.state.currentGroupIndex == e.state.currentGroupIndex
              && e'.state.currentRound == e.state.currentRound
              && e'.idx == e.idx && e'.timeline == e.timeline && e'.lastTime == e.lastTime
              && e'.warned == e.warned && e'.settings == e.settings
  {
  }

  /**
   * `resume` acts exactly when paused with time left: it restores the
   * recorded phase (work if none is recorded), clears the record, makes the
   * next frame count from zero and restarts the loop.
   */
  lemma ResumeGuard(e: EngineState)
    ensures !(e.state.status == Paused && e.state.remainingSeconds > 0.0) ==> ResumeStep(e) == e
    ensures e.state.status == Paused && e.state.remainingSeconds > 0.0 ==>
              var e' := ResumeStep(e);
              && e'.state.status == Running(if e.state.prevStatus.Some? then e.state.prevStatus.value else Work)
              && e'.state.prevStatus == None && e'.running && e'.lastTime == 0.0
              && e'.state.remainingSeconds == e.state.remainingSeconds
              && e'.state.totalElapsed == e.state.totalElapsed
              && e'.idx == e.idx && e'.warned == e.warned
  {
  }

  /**
   * Pause followed by resume gives back the phase that was running, with
   * the same remaining time, elapsed time, group, round and position; only
   * the time reference is restarted. With no time left the timer stays paused.
   */
  lemma PauseResumeRoundTrip(e: EngineState)
    requires e.state.status.Running?
    ensures e.state.remainingSeconds > 0.0 ==>
              ResumeStep(PauseStep(e)) == e.(state := e.state.(prevStatus := None), lastTime := 0.0, running := true)
    ensures e.state.remainingSeconds <= 0.0 ==> ResumeStep(PauseStep(e)) == PauseStep(e)
  {
  }

  lemma PauseConsistent(cfg: WorkoutConfig, e: EngineState)
    requires Consistent(cfg, e)
    ensures Consistent(cfg, PauseStep(e))
  {
  }

  lemma ResumeConsistent(cfg: WorkoutConfig, e: EngineState)
    requires Consistent(cfg, e)
    ensures Consistent(cfg, ResumeStep(e))
  {
  }

  // ----- reset -----

  /** `reset` always yields idle, group 0, round 1, no time, index 0, no record and a stopped loop. */
  lemma ResetIsIdle(cfg: WorkoutConfig, e: EngineState)
    ensures var e' := ResetStep(cfg, e);
            && e'.state == TimerState(Idle, 0, 1, 0.0, 0.0, None)
            && e'.idx == 0 && !e'.running && e'.lastTime == 0.0 && !e'.warned
            && e'.timeline == Timeline.Timeline(cfg) && e'.settings == e.settings
            && Consistent(cfg, e')
  {
  }

  // ----- tick -----

  /**
   * Time accounting of a frame: the reference becomes `now`; the elapsed
   * total grows by exactly the frame's delta, which is zero on the first
   * frame of a run and never negative while the clock does not go back.
   */
  lemma TickTime(e: EngineState, now: real)
    requires e.idx >= 0
    ensures var (e', _) := TickStep(e, now);
            && e'.lastTime == now
            && e'.state.totalElapsed == e.state.totalElapsed + Delta(e, now)
            && (e.lastTime == 0.0 ==> Delta(e, now) == 0.0)
            && (e.lastTime == 0.0 || now >= e.lastTime ==> e'.state.totalElapsed >= e.state.totalElapsed)
  {
  }

  /**
   * A frame moves at most one phase ahead, and exactly when the current
   * phase has run out. Without a move the delta is counted off the
   * remaining time; with a move onto an item its full duration is
   * installed (any overshoot is dropped) and its warning is re-armed;
   * past the last item the workout completes with nothing remaining and
   * the loop stops.
   */
  lemma TickAdvance(e: EngineState, now: real)
    requires e.idx >= 0
    ensures var (e', cues) := TickStep(e, now);
            var remaining := e.state.remainingSeconds - Delta(e, now);
            && e'.timeline == e.timeline && e'.settings == e.settings
            && (remaining > 0.0 ==>
                  e'.idx == e.idx && e'.state.remainingSeconds == remaining
                  && e'.state.status == e.state.status && e'.running == e.running
                  && e'.state.currentGroupIndex == e.state.currentGroupIndex
                  && e'.state.currentRound == e.state.currentRound)
            && (remaining <= 0.0 ==> e'.idx == e.idx + 1)
            && (remaining <= 0.0 && e.idx + 1 < |e.timeline| ==>
                  var item := e.timeline[e.idx + 1];
                  && e'.state.status == Running(item.kind)
                  && e'.state.remainingSeconds == item.duration
                  && e'.state.currentGroupIndex == item.groupIndex
                  && e'.state.currentRound == (if item.round == 0 then 1 else item.round)
                  && !e'.warned && e'.running == e.running)
            && (remaining <= 0.0 && e.idx + 1 >= |e.timeline| ==>
                  e'.state.status == Complete && e'.state.remainingSeconds == 0.0 && !e'.running)
  {
  }

  /** After every frame the remaining time is non-negative, given non-negative durations. */
  lemma TickRemainingNonNegative(e: EngineState, now: real)
    requires e.idx >= 0 && AllDurationsNonNegative(e.timeline)
    ensures TickStep(e, now).0.state.remainingSeconds >= 0.0
  {
    if e.state.remainingSeconds - Delta(e, now) <= 0.0 && e.idx + 1 < |e.timeline| {
      assert e.timeline[e.idx + 1].duration >= 0.0;
    }
  }

  /**
   * The cues of a frame, in order: the lookahead cue when it fires, then
   * the boundary tone and pulse when a phase is left for another, or the
   * completion announcement and pattern when the last one is left.
   */
  lemma TickCues(e: EngineState, now: real)
    requires e.idx >= 0
    ensures var (_, cues) := TickStep(e, now);
            var remaining := e.state.remainingSeconds - Delta(e, now);
            var warn := if WarningFires(e, now) then WarningCues(e.state.status, NextItem(e), e.settings) else [];
            cues == warn + (if remaining > 0.0 then []
                            else if e.idx + 1 < |e.timeline| then BoundaryCues(e.settings)
                            else CompletionCues(e.settings))
  {
  }

  /**
   * The lookahead cue fires at most once per phase: once it has fired no
   * later frame on the same item gives it, and the flag is cleared only by
   * installing a new item.
   */
  lemma WarningAtMostOncePerPhase(e: EngineState, now: real)
    requires e.idx >= 0
    ensures e.warned ==> !WarningFires(e, now)
    ensures var e' := TickStep(e, now).0;
            e'.idx == e.idx ==> (e'.warned <==> e.warned || WarningFires(e, now))
    ensures var e' := TickStep(e, now).0;
            !e'.warned && e.warned ==> e'.idx == e.idx + 1
  {
  }

  /**
   * What the lookahead cue says: "Rest in 5 seconds" only from work into a
   * pause, "Work in 5 seconds" only from a pause or the countdown into work,
   * and only with sound on; the [50, 40] pulse whenever vibration is on.
   */
  lemma WarningCueContent(status: Status, next: Option<TimelineItem>, settings: AudioSettings, c: Cue)
    ensures c in WarningCues(status, next, settings) ==>
              (c == Say("Rest in 5 seconds") && settings.sound && status == Running(Work)
                 && next.Some? && next.value.kind == Pause)
              || (c == Say("Work in 5 seconds") && settings.sound
                 && (status == Running(Pause) || status == Running(Countdown))
                 && next.Some? && next.value.kind == Work)
              || (c == Vibrate(Pattern([50, 40])) && settings.vibration)
    ensures settings.vibration ==> Vibrate(Pattern([50, 40])) in WarningCues(status, next, settings)
    ensures !settings.sound ==> forall t :: Say(t) !in WarningCues(status, next, settings)
  {
    assert Voice.CountdownText(Voice.RestAhead, 5) == "Rest in 5 seconds";
    assert Voice.CountdownText(Voice.WorkAhead, 5) == "Work in 5 seconds";
  }

  lemma TickConsistent(cfg: WorkoutConfig, e: EngineState, now: real)
    requires Consistent(cfg, e) && e.running
    ensures Consistent(cfg, TickStep(e, now).0)
  {
    TickAdvance(e, now);
    if AllDurationsNonNegative(e.timeline) {
      TickRemainingNonNegative(e, now);
    }
  }

  /**
   * Completion is terminal: a completed engine is not running, so no frame
   * reaches it; pause and resume leave it as it is; only start and reset
   * move it.
   */
  lemma CompleteIsTerminal(cfg: WorkoutConfig, e: EngineState)
    requires Consistent(cfg, e) && e.state.status == Complete
    ensures !e.running
    ensures PauseStep(e) == e && ResumeStep(e) == e
  {
  }

  // ----- The engine object -----

  class TimerEngine {
    /** The configuration the engine was created for. */
    const cfg: WorkoutConfig
    var state: TimerState
    var timeline: seq<TimelineItem>
    var idx: int
    /** Timestamp (ms) of the previous frame; 0 means the next frame establishes it. */
    var lastTime: real
    /** An animation frame is requested (`raf !== null`). */
    var running: bool
    var warnedForCurrent: bool
    var settingsRef: AudioSettings
    /** Every notification call made so far, oldest first. */
    var cues: seq<Cue>

    function Snapshot(): EngineState
      reads this
    {
      EngineState(state, timeline, idx, lastTime, running, warnedForCurrent, settingsRef)
    }

    ghost predicate Valid()
      reads this
    {
      Consistent(cfg, Snapshot())
    }

    /** `createTimerEngine(cfg, settings)`. */
    constructor (cfg: WorkoutConfig, settings: AudioSettings)
      ensures Valid() && this.cfg == cfg
      ensures Snapshot() == InitialEngine(cfg, settings) && cues == []
    {
      this.cfg := cfg;
      state := TimerState(Idle, 0, 1, 0.0, 0.0, None);
      var t := BuildTimeline(cfg);
      timeline := t;
      idx := 0;
      lastTime := 0.0;
      running := false;
      warnedForCurrent := false;
      settingsRef := settings;
      cues := [];
    }

    /** `setStateFromItem`. */
    method SetStateFromItem(item: TimelineItem)
      modifies this
      ensures Snapshot() == Install(old(Snapshot()), item) && cues == old(cues)
    {
      state := state.(currentGroupIndex := item.groupIndex);
      state := state.(currentRound := if item.round == 0 then 1 else item.round);
      state := state.(remainingSeconds := item.duration);
      state := state.(status := Running(item.kind));
      warnedForCurrent := false;
    }

    /** `cancelLoop`, also exposed as `cleanup`: the pending frame is withdrawn. */
    method CancelLoop()
      modifies this
      ensures Snapshot() == old(Snapshot()).(running := false) && cues == old(cues)
    {
      if running {
        running := false;
      }
    }

    method Cleanup()
      requires Valid()
      modifies this
      ensures Valid()
      ensures Snapshot() == old(Snapshot()).(running := false) && cues == old(cues)
    {
      CancelLoop();
    }

    /** The first half of `tick`: time accounting. */
    method Account(now: real)
      modifies this
      ensures Snapshot() == AccountStep(old(Snapshot()), now) && cues == old(cues)
    {
      if lastTime == 0.0 {
        lastTime := now;
      }
      var delta := (now - lastTime) / 1000.0;
      lastTime := now;
      state := state.(totalElapsed := state.totalElapsed + delta);
      state := state.(remainingSeconds := state.remainingSeconds - delta);
    }

    /** The five-second warning of `tick`. */
    method WarnIfDue()
      modifies this
      ensures Snapshot() == WarnStep(old(Snapshot())).0
      ensures cues == old(cues) + WarnStep(old(Snapshot())).1
    {
      if !warnedForCurrent && state.remainingSeconds <= WarningThreshold && state.remainingSeconds > 0.0 {
        warnedForCurrent := true;
        var next := if 0 <= idx + 1 < |timeline| then Some(timeline[idx + 1]) else None;
        var said: seq<Cue> := [];
        if settingsRef.sound {
          if state.status == Running(Work) && next.Some? && next.value.kind == Phase.Pause {
            said := [Say(Voice.CountdownText(Voice.RestAhead, 5))];
          } else if (state.status == Running(Phase.Pause) || state.status == Running(Countdown))
                    && next.Some? && next.value.kind == Work {
            said := [Say(Voice.CountdownText(Voice.WorkAhead, 5))];
          }
        }
        cues := cues + said;
        if settingsRef.vibration {
          cues := cues + [Vibrate(Pattern([50, 40]))];
        }
      }
    }

    /** The advance of `tick`, once the phase has run out. */
    method Advance()
      requires idx >= 0
      modifies this
      ensures Snapshot() == AdvanceStep(old(Snapshot())).0
      ensures cues == old(cues) + AdvanceStep(old(Snapshot())).1
    {
      idx := idx + 1;
      if idx >= |timeline| {
        state := state.(status := Complete);
        state := state.(remainingSeconds := 0.0);
        if settingsRef.sound {
          cues := cues + [Say("Workout complete")];
        }
        if settingsRef.vibration {
          cues := cues + [Vibrate(Pattern([200, 100, 200]))];
        }
        CancelLoop();
        return;
      }
      if settingsRef.sound {
        cues := cues + [Beep];
      }
      if settingsRef.vibration {
        cues := cues + [Vibrate(Pulse(80))];
      }
      SetStateFromItem(timeline[idx]);
    }

    /** `tick(now)`: runs only while a frame is requested; a frame that does not complete requests the next. */
    method Tick(now: real)
      requires Valid() && running
      modifies this
      ensures Valid()
      ensures Snapshot() == TickStep(old(Snapshot()), now).0
      ensures cues == old(cues) + TickStep(old(Snapshot()), now).1
      ensures AllDurationsNonNegative(timeline) ==> state.remainingSeconds >= 0.0
      ensures state.status.Running? || state.status == Complete
      ensures state.status == Complete <==> !running
    {
      TickConsistent(cfg, Snapshot(), now);
      Account(now);
      WarnIfDue();
      if state.remainingSeconds <= 0.0 {
        Advance();
      }
    }

    /** `start`. */
    method Start()
      requires Valid()
      modifies this
      ensures Valid()
      ensures Snapshot() == StartStep(cfg, old(Snapshot())).0
      ensures cues == old(cues) + StartStep(cfg, old(Snapshot())).1
      ensures |cfg.groups| > 0 ==>
                idx == 0 && state.status == Running(Countdown) && state.remainingSeconds == 5.0
                && state.currentRound == 1 && state.totalElapsed == 0.0 && !warnedForCurrent && running
    {
      ghost var e0 := Snapshot();
      StartConsistent(cfg, e0);
      if |cfg.groups| == 0 {
        return;
      }
      StartBeginsCountdown(cfg, e0);
      var t := BuildTimeline(cfg);
      timeline := t;
      idx := 0;
      SetStateFromItem(timeline[0]);
      state := state.(totalElapsed := 0.0);
      lastTime := 0.0;
      warnedForCurrent := false;
      if settingsRef.sound {
        cues := cues + [Say("Starting workout")];
      }
      running := true;
    }

    /** `pause`. */
    method Pause()
      requires Valid()
      modifies this
      ensures Valid()
      ensures Snapshot() == PauseStep(old(Snapshot())) && cues == old(cues)
      ensures old(state.status).Running? ==>
                state.status == Paused && state.prevStatus == Some(old(state.status).phase) && !running
    {
      PauseConsistent(cfg, Snapshot());
      StatusIsOneOfSix(state.status);
      if state.status == Running(Work) || state.status == Running(Phase.Pause) || state.status == Running(Countdown) {
        state := state.(prevStatus := Some(state.status.phase));
        state := state.(status := Paused);
        CancelLoop();
      }
    }

    /** `resume`. */
    method Resume()
      requires Valid()
      modifies this
      ensures Valid()
      ensures Snapshot() == ResumeStep(old(Snapshot())) && cues == old(cues)
    {
      ResumeConsistent(cfg, Snapshot());
      if state.status == Paused && state.remainingSeconds > 0.0 {
        var restore := if state.prevStatus.Some? then state.prevStatus.value else Work;
        state := state.(status := Running(restore));
        state := state.(prevStatus := None);
        lastTime := 0.0;
        running := true;
      }
    }

    /** `reset`. */
    method Reset()
      requires Valid()
      modifies this
      ensures Valid()
      ensures Snapshot() == ResetStep(cfg, old(Snapshot())) && cues == old(cues)
      ensures state == TimerState(Idle, 0, 1, 0.0, 0.0, None) && idx == 0 && !running
    {
      CancelLoop();
      var t := BuildTimeline(cfg);
      timeline := t;
      idx := 0;
      state := state.(status := Idle);
      state := state.(currentGroupIndex := 0);
      state := state.(currentRound := 1);
      state := state.(remainingSeconds := 0.0);
      state := state.(totalElapsed := 0.0);
      lastTime := 0.0;
      warnedForCurrent := false;
      state := state.(prevStatus := None);
    }

    /** `updateSettings`: later cues follow the new switches; timing is untouched. */
    method UpdateSettings(s: AudioSettings)
      requires Valid()
      modifies this
      ensures Valid()
      ensures Snapshot() == old(Snapshot()).(settings := s) && cues == old(cues)
    {
      settingsRef := s;
    }
  }

  /**
   * A run of one group of two rounds (30 s work, 10 s pause) with sound on:
   * the countdown's first frame gives "Work in 5 seconds" at once; 5 s later
   * the first work phase begins with a tone; pausing and resuming keeps it.
   */
  method ScenarioRun()
  {
    var cfg := WorkoutConfig([RoundGroup("a", 2, 30.0, 10.0)]);
    var engine := new TimerEngine(cfg, AudioSettings(true, false));
    ScenarioTimelines();
    engine.Start();
    assert engine.state.status == Running(Countdown);
    engine.Tick(1000.0);
    assert engine.cues == [Say("Starting workout"), Say("Work in 5 seconds")] by {
      assert Voice.CountdownText(Voice.WorkAhead, 5) == "Work in 5 seconds";
    }
    engine.Tick(6000.0);
    assert engine.state.status == Running(Work) && engine.state.remainingSeconds == 30.0;
    assert engine.cues[|engine.cues| - 1] == Beep;
    engine.Pause();
    assert engine.state.status == Paused && !engine.running;
    engine.Resume();
    assert engine.state.status == Running(Work) && engine.state.remainingSeconds == 30.0;
  }
}
