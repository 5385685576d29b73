/**
 * The shared data types of the interval timer: round groups and workout
 * configurations, the observable timer snapshot with its status enum, the
 * audio settings and the saved configurations kept in local storage.
 */
module Types {

  datatype Option<+T> = None | Some(value: T)

  /** One block of the workout: `rounds` times work, each optionally followed by a pause. */
  datatype RoundGroup = RoundGroup(id: string, rounds: int, workSeconds: real, pauseSeconds: real)

  datatype WorkoutConfig = WorkoutConfig(groups: seq<RoundGroup>)

  /** The three kinds of timed phase; also the only values `prevStatus` may hold. */
  datatype Phase = Countdown | Work | Pause

  /** The six values of the timer's `status` field. */
  datatype Status = Idle | Running(phase: Phase) | Paused | Complete

  /** There are exactly six statuses: idle, countdown, work, pause, paused, complete. */
  lemma StatusIsOneOfSix(s: Status)
    ensures s == Idle || s == Running(Countdown) || s == Running(Work)
         || s == Running(Pause) || s == Paused || s == Complete
  {
    match s
    case Running(p) =>
      match p {
        case Countdown =>
        case Work =>
        case Pause =>
      }
    case Idle =>
    case Paused =>
    case Complete =>
  }

  /**
   * The observable snapshot. `prevStatus` can only name a phase (never idle,
   * paused or complete): that is enforced by its type.
   */
  datatype TimerState = TimerState(
    status: Status,
    currentGroupIndex: int,
    currentRound: int,
    remainingSeconds: real,
    totalElapsed: real,
    prevStatus: Option<Phase>)

  /** When user-paused, the snapshot records which phase was paused. */
  ghost predicate PauseRecorded(s: TimerState)
  {
    s.status == Paused ==> s.prevStatus.Some?
  }

  /** Exactly two switches. */
  datatype AudioSettings = AudioSettings(sound: bool, vibration: bool)

  datatype SavedConfig = SavedConfig(id: string, name: string, config: WorkoutConfig, createdAt: int)
}
