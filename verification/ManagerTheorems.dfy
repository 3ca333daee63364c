/** What callers of the manager can rely on, over every interleaving. */
module ManagerTheorems {
  import opened Common
  import opened ManagerProtocol
  import opened ManagerInvariant
  import opened ManagerEveryRun

  // ------------------------------------------------- Shutdown

  /** A registered session whose end is recorded and its broker closed. */
  predicate Ended(tok: Token) {
    && tok.phase == Watched(Finished) && tok.exit.Some?
    && tok.trace == RUNNING + [Terminal(tok.seenKilling || tok.exit.value.code == 0, tok.exit.value.code)]
    && tok.brokerCloses == (if tok.attach then 1 else 0)
  }

  /** And its result is given out, once. */
  predicate Settled(tok: Token) {
    Ended(tok) && tok.seenKilling == tok.killing && tok.deliveries == 1 && tok.given == tok.exit
  }

  lemma {:induction false} NobodyWatching(tokens: seq<Token>, t: nat)
    requires Watching(tokens) == 0 && t < |tokens|
    ensures !Busy(tokens[t].phase)
    decreases |tokens|
  {
    if t < |tokens| - 1 {
      NobodyWatching(tokens[..|tokens| - 1], t);
    }
  }

  lemma {:induction false} StoppedIsDistinct(s: State, run: seq<Action>)
    requires s.stopped && Exec(s, run).Some?
    ensures DistinctRun(s, run)
    decreases |run|
  {
    if run != [] {
      StoppedStep(s, run[0]);
      StoppedIsDistinct(Apply(s, run[0]), run[1..]);
    }
  }

  lemma StoppedStep(s: State, a: Action)
    requires s.stopped && Enabled(s, a)
    ensures Apply(s, a).stopped && (s.shut == ReturnedNil ==> Apply(s, a).shut == ReturnedNil)
  {
  }

  lemma NoneNew(s: State, a: Action, t: nat)
    requires s.stopped && Enabled(s, a) && t < |Apply(s, a).tokens| && Apply(s, a).tokens[t].phase.Watched?
    ensures t < |s.tokens| && s.tokens[t].phase.Watched?
  {
    if t >= |s.tokens| {
      NewTokenOk(s, a);
    } else if a != Register(t) {
      TokenFrame(s, a, t);
    }
  }

  /** Once stopped, nobody is registered any more, and a nil from Shutdown is never undone. */
  lemma {:induction false} StoppedRun(s: State, run: seq<Action>, t: nat)
    requires s.stopped && Exec(s, run).Some?
    ensures var u := Exec(s, run).value;
            && u.stopped && (s.shut == ReturnedNil ==> u.shut == ReturnedNil)
            && (t < |u.tokens| && u.tokens[t].phase.Watched? ==> t < |s.tokens| && s.tokens[t].phase.Watched?)
    decreases |run|
  {
    if run != [] {
      StoppedStep(s, run[0]);
      StoppedRun(Apply(s, run[0]), run[1..], t);
      var next := Apply(s, run[0]);
      if t < |next.tokens| && next.tokens[t].phase.Watched? {
        NoneNew(s, run[0], t);
      }
    }
  }

  /** When the first Shutdown has returned nil, every session ever registered has its end
      recorded and its broker closed, the registry is empty, and nothing that happens later
      registers another. If no live id was registered again, each of their results has also
      been given out exactly once. */
  lemma ShutdownSettlesEverything(run: seq<Action>, more: seq<Action>, t: nat)
    requires Exec(INIT, run).Some?
    requires Exec(INIT, run).value.shut == ReturnedNil && Exec(Exec(INIT, run).value, more).Some?
    ensures var s, u := Exec(INIT, run).value, Exec(Exec(INIT, run).value, more).value;
            && u.registry == map[]
            && (t < |u.tokens| && u.tokens[t].phase.Watched? ==>
                  && t < |s.tokens| && Ended(s.tokens[t]) && Ended(u.tokens[t])
                  && (DistinctRun(INIT, run) ==> Settled(s.tokens[t]) && Settled(u.tokens[t])))
  {
    var s := Exec(INIT, run).value;
    var u := Exec(s, more).value;
    InitEveryRun();
    EveryRunKept(INIT, run);
    EveryRunKept(s, more);
    StoppedRun(s, more, t);
    NilMeansEnded(s, t);
    NilMeansEnded(u, t);
    if DistinctRun(INIT, run) && t < |u.tokens| && u.tokens[t].phase.Watched? {
      InitInv();
      InvRun(INIT, run);
      StoppedIsDistinct(s, more);
      InvRun(s, more);
      assert TokenOk(s.tokens[t]) && TokenOk(u.tokens[t]);
    }
  }

  lemma NilMeansEnded(s: State, t: nat)
    requires EveryRun(s) && s.shut == ReturnedNil
    ensures s.registry == map[]
    ensures t < |s.tokens| && s.tokens[t].phase.Watched? ==> Ended(s.tokens[t])
  {
    if t < |s.tokens| && s.tokens[t].phase.Watched? {
      assert RecordOk(s.tokens[t]);
      NobodyWatching(s.tokens, t);
    }
    forall id | id in s.registry
      ensures false
    {
      assert RegistryOk(s, id);
      NobodyWatching(s.tokens, s.registry[id]);
    }
  }

  // ------------------------------------------------- what the sink and the waiters see

  /** Some Stop in the run found this session in the registry. */
  predicate StopHits(s: State, run: seq<Action>, t: nat)
    requires Exec(s, run).Some?
    decreases |run|
  {
    run != []
    && ((run[0].Stop? && s.registry[run[0].id] == t) || StopHits(Apply(s, run[0]), run[1..], t))
  }

  predicate Killing(s: State, t: nat) {
    t < |s.tokens| && s.tokens[t].killing
  }

  lemma KillingStep(s: State, a: Action, t: nat)
    requires Enabled(s, a)
    ensures Killing(Apply(s, a), t) <==> Killing(s, t) || (a.Stop? && s.registry[a.id] == t)
  {
    if t < |s.tokens| && StartAction(a) {
      KillingStart(s, a, t);
    } else if t < |s.tokens| {
      KillingOther(s, a, t);
    } else if t == |s.tokens| && |s.tokens| < |Apply(s, a).tokens| {
      NewTokenOk(s, a);
    } else {
      MapsFrame(s, a);
      LengthStep(s, a);
    }
  }

  lemma LengthStep(s: State, a: Action)
    requires Enabled(s, a)
    ensures |Apply(s, a).tokens| == |s.tokens| + if a.StartCheck? then 1 else 0
  {
  }

  lemma KillingStart(s: State, a: Action, t: nat)
    requires Enabled(s, a) && StartAction(a) && t < |s.tokens|
    ensures Killing(Apply(s, a), t) <==> Killing(s, t)
  {
  }

  lemma KillingOther(s: State, a: Action, t: nat)
    requires Enabled(s, a) && !StartAction(a) && t < |s.tokens|
    ensures Killing(Apply(s, a), t) <==> Killing(s, t) || (a.Stop? && s.registry[a.id] == t)
  {
  }

  lemma {:induction false} KillingIsStopped(s: State, run: seq<Action>, t: nat)
    requires Exec(s, run).Some?
    ensures Killing(Exec(s, run).value, t) <==> Killing(s, t) || StopHits(s, run, t)
    decreases |run|
  {
    if run != [] {
      KillingStep(s, run[0], t);
      KillingIsStopped(Apply(s, run[0]), run[1..], t);
    }
  }

  /** A Start shows the sink one of four traces or the beginning of one, and the last state is
      done exactly when the session exited with 0 or the entry its watch found under its id
      had been stopped. If no live id was registered again, that is: or a Stop found this
      session still registered. */
  lemma SinkTrace(run: seq<Action>, t: nat)
    requires Exec(INIT, run).Some? && t < |Exec(INIT, run).value.tokens|
    ensures var tok := Exec(INIT, run).value.tokens[t];
            || tok.trace in {[], LAUNCHED, FAILED, RUNNING}
            || (tok.exit.Some?
                && tok.trace == RUNNING + [Terminal(tok.exit.value.code == 0 || SawStop(INIT, run, t), tok.exit.value.code)])
    ensures var tok := Exec(INIT, run).value.tokens[t];
            && (|tok.trace| == 3 <==> tok.phase.Watched? && !tok.phase.watch.Waiting? && !tok.phase.watch.Removed?)
            && (|tok.trace| == 3 && DistinctRun(INIT, run) ==> (SawStop(INIT, run, t) <==> StopHits(INIT, run, t)))
  {
    InitEveryRun();
    EveryRunKept(INIT, run);
    SawIsSawStop(INIT, run, t);
    assert RecordOk(Exec(INIT, run).value.tokens[t]);
    if DistinctRun(INIT, run) {
      InitInv();
      InvRun(INIT, run);
      KillingIsStopped(INIT, run, t);
      assert TokenOk(Exec(INIT, run).value.tokens[t]);
    }
  }

  /** While live ids are distinct, any two WaitSession calls that return for one session return
      the same exit code and error, the session's own, and by then its end is recorded and its
      broker closed. */
  lemma WaitersAgree(run: seq<Action>, j: nat, k: nat)
    requires Exec(INIT, run).Some? && DistinctRun(INIT, run)
    requires var ws := Exec(INIT, run).value.waits;
             j < |ws| && k < |ws| && ws[j].pc.Got? && ws[k].pc.Got? && ws[j].token == ws[k].token
    ensures var s := Exec(INIT, run).value;
            && s.waits[j].pc == s.waits[k].pc && s.waits[j].token < |s.tokens|
            && var tok := s.tokens[s.waits[j].token];
               && tok.exit == Some(s.waits[j].pc.end) && |tok.trace| == 3
               && tok.trace[2].Terminal? && tok.trace[2].code == s.waits[j].pc.end.code
               && tok.brokerCloses == if tok.attach then 1 else 0
  {
    InitInv();
    InvRun(INIT, run);
    var s := Exec(INIT, run).value;
    assert WaitOk(s, s.waits[j]) && WaitOk(s, s.waits[k]);
    assert TokenOk(s.tokens[s.waits[j].token]);
  }

  // ------------------------------------------------- attach counts

  lemma {:induction false} CountedIsCounted(attaches: seq<Attach>, k: nat)
    requires k < |attaches| && attaches[k].pc == Counted
    ensures InProgress(attaches, attaches[k].token) > 0
    decreases |attaches|
  {
    if k < |attaches| - 1 {
      CountedIsCounted(attaches[..|attaches| - 1], k);
    }
  }

  /** attachCount is the number of AttachWith calls in progress, so a leaving one always finds
      itself counted: the source's guard against going below zero never decides anything. */
  lemma AttachCountIsExact(run: seq<Action>, t: nat, k: nat)
    requires Exec(INIT, run).Some?
    ensures var s := Exec(INIT, run).value;
            && (t < |s.tokens| ==> s.tokens[t].attachCount == InProgress(s.attaches, t))
            && (Enabled(s, AttachLeave(k)) ==> s.tokens[s.attaches[k].token].attachCount > 0)
  {
    InitEveryRun();
    EveryRunKept(INIT, run);
    var s := Exec(INIT, run).value;
    if Enabled(s, AttachLeave(k)) {
      CountedIsCounted(s.attaches, k);
    }
  }

  // ------------------------------------------------- a watch needs nobody

  function NextWatchStep(tok: Token, t: nat): Action
    requires Busy(tok.phase)
  {
    match tok.phase.watch
    case Waiting => Remove(t)
    case Removed => Record(t)
    case Recorded => CloseBroker(t)
    case Closed => Deliver(t)
    case Delivered => Done(t)
  }

  function WatchLeft(p: Phase): nat {
    if !p.Watched? then 0
    else match p.watch
      case Waiting => 5
      case Removed => 4
      case Recorded => 3
      case Closed => 2
      case Delivered => 1
      case Finished => 0
  }

  predicate WatchStepOf(a: Action, t: nat) {
    a in {Remove(t), Record(t), CloseBroker(t), Deliver(t), Done(t)}
  }

  lemma WatchEnabled(s: State, t: nat)
    requires t < |s.tokens| && Busy(s.tokens[t].phase) && s.tokens[t].exit.Some?
    ensures var a := NextWatchStep(s.tokens[t], t); Enabled(s, a) && Distinct(s, a) && WatchStepOf(a, t)
  {
  }

  lemma WatchAdvances(s: State, t: nat, a: Action)
    requires t < |s.tokens| && Busy(s.tokens[t].phase) && s.tokens[t].exit.Some?
    requires a == NextWatchStep(s.tokens[t], t) && Enabled(s, a)
    ensures t < |Apply(s, a).tokens| && Apply(s, a).tokens[t].exit == s.tokens[t].exit
    ensures WatchLeft(Apply(s, a).tokens[t].phase) == WatchLeft(s.tokens[t].phase) - 1
  {
    match s.tokens[t].phase.watch
    case Waiting =>
      assert a == Remove(t);
    case Removed =>
      assert a == Record(t);
    case Recorded =>
      assert a == CloseBroker(t);
    case Closed =>
      assert a == Deliver(t);
    case Delivered =>
      assert a == Done(t);
  }

  /** Whenever a registered session has ended, its watch can settle it by its own steps alone,
      in at most five. */
  lemma {:induction false} WatchCompletes(s: State, t: nat) returns (run: seq<Action>)
    requires Inv(s) && t < |s.tokens| && s.tokens[t].phase.Watched? && s.tokens[t].exit.Some?
    ensures Exec(s, run).Some? && |run| == WatchLeft(s.tokens[t].phase) <= 5
    ensures forall i :: 0 <= i < |run| ==> WatchStepOf(run[i], t)
    ensures t < |Exec(s, run).value.tokens| && Settled(Exec(s, run).value.tokens[t])
    decreases WatchLeft(s.tokens[t].phase)
  {
    assert TokenOk(s.tokens[t]);
    if !Busy(s.tokens[t].phase) {
      run := [];
    } else {
      var a := NextWatchStep(s.tokens[t], t);
      WatchEnabled(s, t);
      WatchAdvances(s, t, a);
      InvStep(s, a);
      TokenFrame(s, a, t);
      var rest := WatchCompletes(Apply(s, a), t);
      run := [a] + rest;
      assert run[1..] == rest;
    }
  }
}
