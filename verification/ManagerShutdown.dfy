/** What a Shutdown waits for, that it can return once the sessions have ended, and what a later
    one finds. */
module ManagerShutdown {
  import opened Common
  import opened ManagerProtocol
  import opened ManagerInvariant
  import opened ManagerEveryRun
  import opened ManagerTheorems
  import opened ManagerIds
  import opened ManagerHistory

  // ------------------------------------------------- the watches bring it about

  /** How many steps the watches of these Starts have left. */
  function StepsLeft(tokens: seq<Token>): nat {
    if tokens == [] then 0 else StepsLeft(tokens[..|tokens| - 1]) + WatchLeft(tokens[|tokens| - 1].phase)
  }

  /** One watch moves on and the others stay where they are. */
  lemma {:induction false} OneStepFewer(a: seq<Token>, b: seq<Token>, t: nat)
    requires t < |a| == |b| && WatchLeft(b[t].phase) == WatchLeft(a[t].phase) - 1
    requires forall i :: 0 <= i < |a| && i != t ==> WatchLeft(b[i].phase) == WatchLeft(a[i].phase)
    ensures StepsLeft(b) == StepsLeft(a) - 1
    decreases |a|
  {
    var n := |a| - 1;
    if t < n {
      OneStepFewer(a[..n], b[..n], t);
    } else {
      SameSteps(a[..n], b[..n]);
    }
  }

  lemma {:induction false} SameSteps(a: seq<Token>, b: seq<Token>)
    requires |a| == |b| && forall i :: 0 <= i < |a| ==> WatchLeft(b[i].phase) == WatchLeft(a[i].phase)
    ensures StepsLeft(b) == StepsLeft(a)
    decreases |a|
  {
    if a != [] {
      SameSteps(a[..|a| - 1], b[..|b| - 1]);
    }
  }

  lemma {:induction false} NothingLeft(tokens: seq<Token>)
    ensures StepsLeft(tokens) == 0 <==> forall t :: 0 <= t < |tokens| ==> !Busy(tokens[t].phase)
    decreases |tokens|
  {
    if tokens != [] {
      NothingLeft(tokens[..|tokens| - 1]);
    }
  }

  /** Every registered session has ended. */
  ghost predicate AllEnded(s: State) {
    forall t :: 0 <= t < |s.tokens| && s.tokens[t].phase.Watched? ==> s.tokens[t].exit.Some?
  }

  predicate WatchStep(a: Action) {
    a.Remove? || a.Record? || a.CloseBroker? || a.Deliver? || a.Done?
  }

  /** A watch's step moves no other watch, ends no session and begins none. */
  lemma WatchStepAlone(s: State, a: Action, t: nat)
    requires Enabled(s, a) && WatchStep(a) && t < |s.tokens|
    ensures |Apply(s, a).tokens| == |s.tokens| && Apply(s, a).shut == s.shut && Apply(s, a).stopped == s.stopped
    ensures Apply(s, a).tokens[t].exit == s.tokens[t].exit
    ensures Apply(s, a).tokens[t].phase.Watched? == s.tokens[t].phase.Watched?
    ensures t != a.t ==> Apply(s, a).tokens[t].phase == s.tokens[t].phase
  {
    hide RegisterStep;
    if a.Deliver? {
      assert Apply(s, a) == DeliverStep(s, a.t);
      hide Apply;
      DeliverOnly(s, a.t, t);
    } else {
      hide DeliverStep;
    }
  }

  /** In every run, once the registered sessions have ended, the watches' own steps can finish
      them all, in exactly as many steps as they have left. */
  lemma {:induction false} WatchesComplete(s: State) returns (run: seq<Action>)
    requires EveryRun(s) && AllEnded(s)
    ensures Exec(s, run).Some? && |run| == StepsLeft(s.tokens)
    ensures forall i :: 0 <= i < |run| ==> WatchStep(run[i])
    ensures var u := Exec(s, run).value; EveryRun(u) && AllFinished(u) && u.wg == 0 && u.shut == s.shut
    decreases StepsLeft(s.tokens)
  {
    NothingLeft(s.tokens);
    if StepsLeft(s.tokens) == 0 {
      run := [];
      NobodyBusy(s.tokens);
    } else {
      var t: nat :| t < |s.tokens| && Busy(s.tokens[t].phase);
      var a := OneWatchStep(s, t);
      var rest := WatchesComplete(Apply(s, a));
      run := [a] + rest;
      assert run[1..] == rest;
    }
  }

  lemma OneWatchStep(s: State, t: nat) returns (a: Action)
    requires EveryRun(s) && AllEnded(s) && t < |s.tokens| && Busy(s.tokens[t].phase)
    ensures Enabled(s, a) && WatchStep(a) && EveryRun(Apply(s, a)) && AllEnded(Apply(s, a))
    ensures StepsLeft(Apply(s, a).tokens) == StepsLeft(s.tokens) - 1 && Apply(s, a).shut == s.shut
  {
    hide Apply, Enabled, EveryRun, StepsLeft;
    a := NextWatchStep(s.tokens[t], t);
    WatchEnabled(s, t);
    WatchAdvances(s, t, a);
    EveryStep(s, a);
    forall i: nat | i < |s.tokens|
      ensures |Apply(s, a).tokens| == |s.tokens| && Apply(s, a).shut == s.shut
      ensures Apply(s, a).tokens[i].exit == s.tokens[i].exit
      ensures Apply(s, a).tokens[i].phase.Watched? == s.tokens[i].phase.Watched?
      ensures i != t ==> Apply(s, a).tokens[i].phase == s.tokens[i].phase
    {
      WatchStepAlone(s, a, i);
    }
    WatchStepAlone(s, a, t);
    OneStepFewer(s.tokens, Apply(s, a).tokens, t);
  }

  /** When the first Shutdown waits and every registered session has ended, the watches' own steps
      lead to a state in which it returns nil. */
  lemma ShutdownCanReturn(run: seq<Action>) returns (more: seq<Action>)
    requires Exec(INIT, run).Some? && Exec(INIT, run).value.shut == ShutWaiting && AllEnded(Exec(INIT, run).value)
    ensures var s := Exec(INIT, run).value;
            && |more| == StepsLeft(s.tokens) && (forall i :: 0 <= i < |more| ==> WatchStep(more[i]))
            && Exec(s, more).Some? && Enabled(Exec(s, more).value, ShutReturn)
  {
    hide Exec, EveryRun;
    InitEveryRun();
    EveryRunKept(INIT, run);
    more := WatchesComplete(Exec(INIT, run).value);
  }

  // ------------------------------------------------- later Shutdowns

  /** Once the manager is stopped a Shutdown can return at any moment, and when it does every
      session ever registered has been seen to its end if and only if the wait group is empty,
      which only the first one waits for. */
  lemma LaterShutdownFindsAllDoneIff(run: seq<Action>)
    requires Exec(INIT, run).Some?
    ensures var s := Exec(INIT, run).value;
            && (s.stopped <==> Enabled(s, ShutAgain))
            && (AllFinished(s) <==> s.wg == 0)
            && (Enabled(s, ShutReturn) ==> AllFinished(s))
  {
    hide Apply, Exec, Enabled, MapsInv, AttachInv, RecordOk, AllFinished;
    InitEveryRun();
    EveryRunKept(INIT, run);
    DoneMeansNobodyBusy(Exec(INIT, run).value);
  }

  lemma DoneMeansNobodyBusy(s: State)
    requires WgInv(s)
    ensures s.stopped <==> Enabled(s, ShutAgain)
    ensures AllFinished(s) <==> s.wg == 0
    ensures Enabled(s, ShutReturn) ==> s.wg == 0
  {
    NobodyBusy(s.tokens);
  }
}
