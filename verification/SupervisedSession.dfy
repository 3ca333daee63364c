/** The imperative supervised session: the loop that owns a PTY child across restarts. */
module SupervisedSession {
  import opened Common
  import opened Backoff
  import opened ExitStatus
  import opened SupervisedRun

  /** The exit error is a heap object in the source: the loop hands it to OnRestart and later
      may overwrite the cause of the last one. */
  class ExitError {
    const code: int
    const signal: int
    const killed: bool
    const waitErr: Option<WaitError>
    var cause: Cause

    constructor (e: Exit)
      ensures Value() == e
    {
      code, signal, killed, waitErr, cause := e.code, e.signal, e.killed, e.waitErr, e.cause;
    }

    function Value(): Exit
      reads this
    {
      Exit(code, signal, killed, cause, waitErr)
    }
  }

  function ValueOf(e: ExitError?): Option<Exit>
    reads e
  {
    if e == null then None else Some(e.Value())
  }

  lemma Regroup(t: seq<Event>, a: seq<Event>, b: seq<Event>, c: seq<Event>, d: seq<Event>, e: seq<Event>, k: nat)
    ensures t + a + b + c + d + [ReaderJoined(k)] + [CleanedUp(k)] + e
         == t + (a + b + c + d + [ReaderJoined(k), CleanedUp(k)] + e)
  {
    assert [ReaderJoined(k)] + [CleanedUp(k)] == [ReaderJoined(k), CleanedUp(k)];
  }

  lemma RegroupRound(t: seq<Event>, a: seq<Event>, b: seq<Event>, e: Event)
    ensures t + a + (b + [e]) == t + (a + b + [e])
    ensures t + a + b + [e] == t + (a + b + [e])
  {
  }

  class PtySession {
    const cfg: Config
    var lastSessionID: string
    var ptmx: Option<nat>            // the current attempt's master, nil between attempts
    var alive: bool
    var done: seq<ExitError?>        // values sent on the done channel
    var waitCode: int
    var waitErr: ExitError?
    ghost var trace: seq<Event>
    ghost var handed: set<ExitError> // exits passed to OnRestart

    /** Start: the preset seeds the session id and the first child is spawned synchronously. */
    constructor (cfg: Config)
      ensures this.cfg == cfg && Started()
    {
      this.cfg := cfg;
      lastSessionID := cfg.preset;
      ptmx := Some(0);
      alive := true;
      done := [];
      waitCode := 0;
      waitErr := null;
      trace := [Spawned(0, cfg.preset)];
      handed := {};
    }

    ghost predicate Started()
      reads this
    {
      && lastSessionID == cfg.preset && ptmx == Some(0) && done == [] && handed == {}
      && trace == [Spawned(0, cfg.preset)]
    }

    /** The reader stores every non-empty session id it parses. */
    method ReadIds(ids: seq<string>)
      modifies this`lastSessionID, this`trace
      ensures lastSessionID == LastId(old(lastSessionID), ids)
      ensures trace == old(trace) + ParsedEvents(ids)
    {
      for i := 0 to |ids|
        invariant LastId(lastSessionID, ids[i..]) == LastId(old(lastSessionID), ids)
        invariant trace == old(trace) + ParsedEvents(ids)[..i]
      {
        if ids[i] != "" {
          lastSessionID := ids[i];
        }
        trace := trace + [Parsed(ids[i])];
        assert ids[i..][1..] == ids[i + 1..];
      }
    }

    /** One attempt: reader and supervisors run, the child is reaped, the handle is cleared
        before the master is closed, and the reader is joined; then the loop cleans up. */
    method WaitOnceSupervised(k: nat, a: Attempt, ghost stopped: bool) returns (exit: ExitError?)
      requires ptmx == Some(k)
      modifies this`lastSessionID, this`trace, this`ptmx
      ensures ptmx == None
      ensures lastSessionID == NextLast(a, old(lastSessionID))
      ensures trace == old(trace) + AttemptTrace(k, a, stopped)
      ensures ValueOf(exit) == ExitOf(a) && (exit != null ==> fresh(exit))
    {
      ghost var t0, stop := trace, StopEvent(!stopped && a.stopInWait);
      ReadIds(a.ids);
      var cause, acted := RaceClaims(a.claims);
      trace := trace + stop;
      ptmx := None;
      trace := trace + [Waited(k), MasterClosed(k)];
      ghost var t1 := trace;
      ReadIds(a.lateIds);
      trace := trace + [ReaderJoined(k)];
      trace := trace + [CleanedUp(k)];
      ghost var late := StopEvent(!stopped && !a.stopInWait && a.stopBeforeCheck);
      trace := trace + late;
      Regroup(t0, ParsedEvents(a.ids), stop, [Waited(k), MasterClosed(k)], ParsedEvents(a.lateIds), late, k);
      var e := BuildExit(a.ps, a.waitErr, cause);
      if e == None {
        exit := null;
      } else {
        exit := new ExitError(e.value);
      }
    }

    /** Installs the new master and chooses the resume id. */
    method SpawnAttempt(k: nat, ok: bool)
      requires k > 0 && ptmx == None
      modifies this`ptmx, this`trace
      ensures ok ==> ptmx == Some(k) && trace == old(trace) + [Spawned(k, ResumeId(cfg, lastSessionID))]
      ensures !ok ==> ptmx == None && trace == old(trace) + [SpawnFailed(k)]
    {
      var sessionIDPreset := cfg.preset;
      if cfg.keepsSession {
        if lastSessionID != "" {
          sessionIDPreset := lastSessionID;
        }
      }
      if !ok {
        trace := trace + [SpawnFailed(k)];
        return;
      }
      ptmx := Some(k);
      trace := trace + [Spawned(k, sessionIDPreset)];
    }

    /** Backoff, OnRestart and the next spawn. */
    method Respawn(k: nat, a: Attempt, exit: ExitError) returns (failure: ExitError?)
      requires k < MaxRestarts(cfg) && ptmx == None
      modifies this`ptmx, this`trace, this`handed
      ensures handed == old(handed) + {exit}
      ensures a.spawnError == None ==> failure == null && ptmx == Some(k + 1)
      ensures a.spawnError.Some? ==>
                && failure != null && fresh(failure) && ptmx == None
                && failure.Value() == Exit(-1, 0, false, RestartExhausted, a.spawnError)
      ensures trace == old(trace) + RestartTrace(cfg, k, a, exit.Value())
                     + [if a.spawnError == None then Spawned(k + 1, ResumeId(cfg, lastSessionID)) else SpawnFailed(k + 1)]
    {
      var backoff := ComputeRestartBackoff((k + 1) as int64, cfg.maxBackoff);
      trace := trace + StopEvent(a.stopInBackoff);
      trace := trace + [BackedOff(backoff), Restarting(k + 1, exit.Value())];
      handed := handed + {exit};
      trace := trace + StopEvent(!a.stopInBackoff && a.stopBeforeSpawn);
      SpawnAttempt(k + 1, a.spawnError == None);
      failure := null;
      if a.spawnError.Some? {
        failure := new ExitError(Exit(-1, 0, false, RestartExhausted, a.spawnError));
      }
    }

    /** The deferred tail of the loop: publish the result once. */
    method Finish(lastExit: ExitError?)
      requires done == []
      modifies this`alive, this`done, this`waitCode, this`waitErr, this`trace
      ensures !alive && done == [lastExit]
      ensures trace == old(trace) + [Published(ValueOf(lastExit))]
      ensures waitErr == (if lastExit == null then old(waitErr) else lastExit)
      ensures waitCode == (if lastExit == null then 0 else lastExit.code)
    {
      alive := false;
      if lastExit == null {
        waitCode := 0;
      } else {
        waitCode := lastExit.code;
        waitErr := lastExit;
      }
      done := done + [lastExit];
      trace := trace + [Published(ValueOf(lastExit))];
    }

    /** The loop itself. The trace is the one the specification computes; the result is
        published exactly once; and no exit ever handed to OnRestart has gained a cause by
        the time the loop ends, although the last exit may be relabelled in place. */
    method RunSupervised(env: Environment)
      requires Started()
      modifies this
      ensures trace == FullTrace(cfg, env)
      ensures |done| == 1 && ValueOf(done[0]) == WholeRun(cfg, env).exit
      ensures ptmx == None && !alive
      ensures ValueOf(done[0]) == None ==> waitCode == 0 && waitErr == old(waitErr)
      ensures ValueOf(done[0]).Some? ==> waitCode == ValueOf(done[0]).value.code && waitErr == done[0]
      ensures forall e | e in handed :: e.cause == NoCause
    {
      var lastExit := Loop(env);
      Finish(lastExit);
    }

    method Loop(env: Environment) returns (lastExit: ExitError?)
      requires Started()
      modifies this`lastSessionID, this`trace, this`ptmx, this`handed
      ensures trace == [Spawned(0, cfg.preset)] + WholeRun(cfg, env).trace
      ensures ValueOf(lastExit) == WholeRun(cfg, env).exit
      ensures ptmx == None
      ensures forall e | e in handed :: e.cause == NoCause
    {
      hide AttemptTrace, RestartTrace, ExitOf, NextLast, ResumeId, ComputeRestartBackoff;
      var maxRestarts: nat := if cfg.restartOnCrash < 0 then 0 else cfg.restartOnCrash as nat;
      var attempt: nat := 0;
      var stopped := false;
      ghost var full := Prepend(trace, WholeRun(cfg, env));
      lastExit := null;
      while attempt <= maxRestarts
        invariant attempt <= maxRestarts && ptmx == Some(attempt)
        invariant full == Prepend(trace, RunFrom(cfg, env, attempt, lastSessionID, stopped))
        invariant forall e | e in handed :: fresh(e) && e.cause == NoCause
        decreases maxRestarts - attempt
      {
        ghost var before, last := trace, lastSessionID;
        var a := env(attempt);
        var exit := WaitOnceSupervised(attempt, a, stopped);
        ghost var waited := AttemptTrace(attempt, a, stopped);
        lastExit := exit;
        if stopped || a.stopInWait || a.stopBeforeCheck {
          return;
        }
        if exit == null {
          return;
        }
        if !RestartEligible(Some(exit.Value())) {
          return;
        }
        if attempt >= maxRestarts {
          lastExit.cause := RestartExhausted;
          return;
        }
        if a.stopInBackoff && !a.timerWins {
          trace := trace + [StopCalled];
          Assoc(before, waited, [StopCalled]);
          return;
        }
        ghost var restart := RestartTrace(cfg, attempt, a, exit.Value());
        var failure := Respawn(attempt, a, exit);
        if failure != null {
          lastExit := failure;
          RegroupRound(before, waited, restart, SpawnFailed(attempt + 1));
          return;
        }
        stopped := a.stopInBackoff || a.stopBeforeSpawn;
        assert full == Prepend(trace, NextRun(cfg, env, attempt, last)) by {
          RunFromRound(cfg, env, attempt, last);
          RegroupRound(before, waited, restart, Spawned(attempt + 1, ResumeId(cfg, lastSessionID)));
          Assoc(before, RoundTrace(cfg, attempt, a, last), NextRun(cfg, env, attempt, last).trace);
        }
        attempt := attempt + 1;
      }
    }
  }
}
