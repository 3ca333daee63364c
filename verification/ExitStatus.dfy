/** Exit classification and the first-writer-wins kill cause of one attempt. */
module ExitStatus {
  import opened Common

  /** Why a supervised termination happened; `NoCause` is the empty string of the source. */
  datatype Cause = NoCause | IdleTimeout | WatchdogKill | RestartExhausted

  datatype Kill = IdleKill | WatchdogFired

  function CauseOf(k: Kill): (c: Cause)
    ensures c != NoCause && c != RestartExhausted
  {
    match k
    case IdleKill => IdleTimeout
    case WatchdogFired => WatchdogKill
  }

  /** What the process-wait call reports besides success. */
  datatype WaitError = ExitFailure(code: int) | OtherError(message: string)

  const SIGKILL: int := 9

  datatype ProcessState = ProcessState(exitCode: int, signal: Option<int>)

  /** The structured outcome of a non-clean exit, as a value. */
  datatype Exit = Exit(code: int, signal: int, killed: bool, cause: Cause, waitErr: Option<WaitError>)

  /** An attempt ended cleanly: the wait reported no error and no supervisor claimed it. */
  predicate CleanExit(waitErr: Option<WaitError>, cause: Cause) {
    waitErr == None && cause == NoCause
  }

  function BuildExit(ps: Option<ProcessState>, waitErr: Option<WaitError>, cause: Cause): Option<Exit> {
    if waitErr == None && cause == NoCause then
      None
    else
      var code := if ps.Some? then ps.value.exitCode else -1;
      var signal := if ps.Some? && ps.value.signal.Some? then ps.value.signal.value else 0;
      var code' := if code == -1 && waitErr.Some? && waitErr.value.ExitFailure? then waitErr.value.code else code;
      Some(Exit(code', signal, signal == SIGKILL, cause, waitErr))
  }

  /** A crash: a non-zero exit or a signal that no supervisor claimed. */
  predicate RestartEligible(exit: Option<Exit>) {
    exit.Some? && exit.value.cause == NoCause && (exit.value.code != 0 || exit.value.signal != 0)
  }

  /** What became of a child: it exited with a code, a signal killed it, it exited with 0 but
      copying its output failed, or it could not be waited for at all. */
  datatype Fate = Exited(code: nat) | Signalled(signal: nat) | CopyFailed(why: string) | WaitFailed(why: string)

  /** Signal 0 does not exist. */
  predicate Possible(f: Fate) {
    f.Signalled? ==> f.signal > 0
  }

  /** The pair of process state and wait error that each fate is reported as: an error whenever
      the process did not succeed, and -1 for the exit code of a process a signal killed. */
  function Report(f: Fate): (Option<ProcessState>, Option<WaitError>) {
    match f
    case Exited(code) => (Some(ProcessState(code, None)), if code == 0 then None else Some(ExitFailure(code)))
    case Signalled(signal) => (Some(ProcessState(-1, Some(signal))), Some(ExitFailure(-1)))
    case CopyFailed(why) => (Some(ProcessState(0, None)), Some(OtherError(why)))
    case WaitFailed(why) => (None, Some(OtherError(why)))
  }

  /** Reading an exit: what a caller that is handed the error can tell of the child. */
  function FateOf(e: Exit): Fate {
    if e.waitErr == None then Exited(0)
    else if e.waitErr.value.OtherError? then
      if e.code == 0 then CopyFailed(e.waitErr.value.message) else WaitFailed(e.waitErr.value.message)
    else if e.signal > 0 then Signalled(e.signal)
    else if e.code >= 0 then Exited(e.code) else Exited(0)
  }

  /** The child crashed: it failed or was killed, or nobody knows. A child that exited with 0
      did not crash, even if copying its output failed. */
  predicate Crashed(f: Fate) {
    !(f.CopyFailed? || f == Exited(0))
  }

  /** Nothing is lost on the way to the caller: an exit error gives back the child's fate and
      the supervisor's claim, with the code the child exited with or -1 if it has none; there
      is none exactly for an unclaimed success, it says killed exactly for SIGKILL, and a
      restart follows exactly for an unclaimed crash. */
  lemma FateRecovered(f: Fate, cause: Cause)
    requires Possible(f)
    ensures var exit := BuildExit(Report(f).0, Report(f).1, cause);
            && (exit == None <==> f == Exited(0) && cause == NoCause)
            && (exit.Some? ==>
                  && FateOf(exit.value) == f && exit.value.cause == cause && exit.value.waitErr == Report(f).1
                  && exit.value.code == (if f.Exited? then f.code else if f.CopyFailed? then 0 else -1)
                  && exit.value.signal == (if f.Signalled? then f.signal else 0)
                  && (exit.value.killed <==> f == Signalled(9)))
            && (RestartEligible(exit) <==> cause == NoCause && Crashed(f))
  {
  }

  /** The first supervisor to claim an attempt decides its cause. */
  function FirstClaim(claims: seq<Kill>): Cause {
    if claims == [] then NoCause else CauseOf(claims[0])
  }

  /** The cause cell shared by the supervisors of one attempt. */
  class SupState {
    var cause: Cause

    constructor ()
      ensures cause == NoCause
    {
      cause := NoCause;
    }

    /** Succeeds for the first caller only; later callers leave the cause as it is. */
    method TrySetCause(c: Cause) returns (ok: bool)
      modifies this
      ensures ok == (old(cause) == NoCause)
      ensures cause == if old(cause) == NoCause then c else old(cause)
    {
      if cause != NoCause {
        return false;
      }
      cause := c;
      return true;
    }
  }

  /** Each supervisor that finds its threshold exceeded claims the attempt, and signals the
      child only when its claim succeeded. However many claims race, at most one acts. */
  method RaceClaims(claims: seq<Kill>) returns (cause: Cause, acted: seq<Kill>)
    ensures cause == FirstClaim(claims)
    ensures acted == if claims == [] then [] else [claims[0]]
  {
    var state := new SupState();
    acted := [];
    for i := 0 to |claims|
      invariant state.cause == FirstClaim(claims[..i])
      invariant acted == if i == 0 then [] else [claims[0]]
    {
      var ok := state.TrySetCause(CauseOf(claims[i]));
      if ok {
        acted := acted + [claims[i]];
      }
      assert claims[..i + 1] == claims[..i] + [claims[i]];
    }
    cause := state.cause;
    assert claims[..|claims|] == claims;
  }
}
