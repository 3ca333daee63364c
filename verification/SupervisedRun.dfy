/** The supervised restart loop as a function from an arbitrary environment to the trace of
    everything the loop does. `SupervisedSession` proves the imperative loop against it. */
module SupervisedRun {
  import opened Common
  import opened Backoff
  import opened ExitStatus

  /** The supervision settings and the resume settings of one session. */
  datatype Config = Config(restartOnCrash: int64, maxBackoff: int64, keepsSession: bool, preset: string)

  /** Everything the environment decides about one attempt: the session ids the reader parses
      before the child is reaped and after it (while the closed master drains), the supervisor
      claims in lock order, the wait result, when Stop or a cancelled context first happens
      (while the child runs, between its reaping and the loop's check, during backoff, or after
      it), whether a select with both arms ready picks the timer, and whether the respawn fails. */
  datatype Attempt = Attempt(
    ids: seq<string>, lateIds: seq<string>, claims: seq<Kill>,
    ps: Option<ProcessState>, waitErr: Option<WaitError>,
    stopInWait: bool, stopBeforeCheck: bool, stopInBackoff: bool, timerWins: bool, stopBeforeSpawn: bool,
    spawnError: Option<WaitError>)

  type Environment = nat -> Attempt

  datatype Event =
    | StopCalled
    | Spawned(child: nat, resume: string)
    | SpawnFailed(child: nat)
    | Parsed(id: string)
    | Waited(child: nat)
    | MasterClosed(child: nat)
    | ReaderJoined(child: nat)
    | CleanedUp(child: nat)
    | BackedOff(wait: int64)
    | Restarting(number: nat, prev: Exit)
    | Published(exit: Option<Exit>)

  function MaxRestarts(cfg: Config): nat {
    if cfg.restartOnCrash < 0 then 0 else cfg.restartOnCrash as nat
  }

  /** The most recent non-empty session id. */
  function LastId(last: string, ids: seq<string>): string
    decreases |ids|
  {
    if ids == [] then last
    else LastId(if ids[0] == "" then last else ids[0], ids[1..])
  }

  /** The resume id given to a respawn. */
  function ResumeId(cfg: Config, last: string): string {
    if cfg.keepsSession && last != "" then last else cfg.preset
  }

  function ParsedEvents(ids: seq<string>): (r: seq<Event>)
    ensures |r| == |ids|
    ensures forall i :: 0 <= i < |ids| ==> r[i] == Parsed(ids[i])
  {
    seq(|ids|, i requires 0 <= i < |ids| => Parsed(ids[i]))
  }

  function StopEvent(now: bool): seq<Event> {
    if now then [StopCalled] else []
  }

  /** The exit of attempt k, classified by the first claim. */
  function ExitOf(a: Attempt): Option<Exit> {
    BuildExit(a.ps, a.waitErr, FirstClaim(a.claims))
  }

  function AttemptTrace(k: nat, a: Attempt, stopped: bool): seq<Event> {
    ParsedEvents(a.ids) + StopEvent(!stopped && a.stopInWait) + [Waited(k), MasterClosed(k)]
    + ParsedEvents(a.lateIds) + [ReaderJoined(k), CleanedUp(k)] + StopEvent(!stopped && !a.stopInWait && a.stopBeforeCheck)
  }

  /** What the loop's check after an attempt finds. */
  predicate StopSeen(a: Attempt, stopped: bool) {
    stopped || a.stopInWait || a.stopBeforeCheck
  }

  /** From the end of attempt k's wait to just before the respawn. */
  function RestartTrace(cfg: Config, k: nat, a: Attempt, prev: Exit): seq<Event>
    requires k < MaxRestarts(cfg)
  {
    StopEvent(a.stopInBackoff)
    + [BackedOff(ComputeRestartBackoff((k + 1) as int64, cfg.maxBackoff)), Restarting(k + 1, prev)]
    + StopEvent(!a.stopInBackoff && a.stopBeforeSpawn)
  }

  datatype Run = Run(trace: seq<Event>, exit: Option<Exit>)

  function Prepend(t: seq<Event>, r: Run): Run {
    r.(trace := t + r.trace)
  }

  /** The loop from the top of attempt k. `last` is the last session id stored, `stopped`
      whether Stop or cancellation has already happened. */
  function RunFrom(cfg: Config, env: Environment, k: nat, last: string, stopped: bool): Run
    requires k <= MaxRestarts(cfg)
    decreases MaxRestarts(cfg) - k
  {
    var a := env(k);
    var exit := ExitOf(a);
    var waited := AttemptTrace(k, a, stopped);
    if StopSeen(a, stopped) || !RestartEligible(exit) then
      Run(waited, exit)
    else if k >= MaxRestarts(cfg) then
      Run(waited, Some(exit.value.(cause := RestartExhausted)))
    else if a.stopInBackoff && !a.timerWins then
      Run(waited + [StopCalled], exit)
    else
      var t := waited + RestartTrace(cfg, k, a, exit.value);
      if a.spawnError.Some? then
        Run(t + [SpawnFailed(k + 1)], Some(Exit(-1, 0, false, RestartExhausted, a.spawnError)))
      else
        var last' := NextLast(a, last);
        Prepend(t + [Spawned(k + 1, ResumeId(cfg, last'))],
                RunFrom(cfg, env, k + 1, last', a.stopInBackoff || a.stopBeforeSpawn))
  }

  /** The whole life of a session: the first spawn, the loop, the published result. */
  function FullTrace(cfg: Config, env: Environment): seq<Event> {
    [Spawned(0, cfg.preset)] + WholeRun(cfg, env).trace + [Published(WholeRun(cfg, env).exit)]
  }

  function WholeRun(cfg: Config, env: Environment): Run {
    RunFrom(cfg, env, 0, cfg.preset, false)
  }

  /** Attempt k crashes with stop unobserved, budget left and the timer winning. */
  predicate Retries(cfg: Config, k: nat, a: Attempt, stopped: bool) {
    && !StopSeen(a, stopped) && RestartEligible(ExitOf(a))
    && k < MaxRestarts(cfg) && (a.stopInBackoff ==> a.timerWins)
  }

  /** The state at the top of the next attempt. */
  function NextLast(a: Attempt, last: string): string {
    LastId(LastId(last, a.ids), a.lateIds)
  }

  function NextRun(cfg: Config, env: Environment, k: nat, last: string): Run
    requires k < MaxRestarts(cfg)
  {
    var a := env(k);
    RunFrom(cfg, env, k + 1, NextLast(a, last), a.stopInBackoff || a.stopBeforeSpawn)
  }

  /** One whole round of the loop: attempt k, the restart, the respawn. */
  function RoundTrace(cfg: Config, k: nat, a: Attempt, last: string): seq<Event>
    requires k < MaxRestarts(cfg) && RestartEligible(ExitOf(a))
  {
    AttemptTrace(k, a, false) + RestartTrace(cfg, k, a, ExitOf(a).value) + [Spawned(k + 1, ResumeId(cfg, NextLast(a, last)))]
  }

  lemma RunFromRound(cfg: Config, env: Environment, k: nat, last: string)
    requires k <= MaxRestarts(cfg) && Retries(cfg, k, env(k), false) && env(k).spawnError == None
    ensures RunFrom(cfg, env, k, last, false).trace
         == RoundTrace(cfg, k, env(k), last) + NextRun(cfg, env, k, last).trace
    ensures RunFrom(cfg, env, k, last, false).exit == NextRun(cfg, env, k, last).exit
  {
  }

  lemma RunFromFailure(cfg: Config, env: Environment, k: nat, last: string)
    requires k <= MaxRestarts(cfg) && Retries(cfg, k, env(k), false) && env(k).spawnError.Some?
    ensures RunFrom(cfg, env, k, last, false)
         == Run(AttemptTrace(k, env(k), false) + RestartTrace(cfg, k, env(k), ExitOf(env(k)).value) + [SpawnFailed(k + 1)],
                Some(Exit(-1, 0, false, RestartExhausted, env(k).spawnError)))
  {
  }
}
