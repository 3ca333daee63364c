/** The manager's state as an account of its run: which call, session, watch and waiter has got
    how far is decided by the steps it has taken and by nothing else, and each look-up finds
    what was last filed under the id it was asked for. */
module ManagerHistory {
  import opened Common
  import opened ManagerProtocol
  import opened ManagerInvariant
  import opened ManagerEveryRun

  // ------------------------------------------------- what was asked

  /** The ids and attach flags of the Starts, in order. */
  function Starts(run: seq<Action>): seq<(Id, bool)> {
    if run == [] then []
    else
      var last := run[|run| - 1];
      Starts(run[..|run| - 1]) + if last.StartCheck? then [(last.id, last.attach)] else []
  }

  /** The ids asked for by WaitSession, in order. */
  function WaitsFor(run: seq<Action>): seq<Id> {
    if run == [] then []
    else WaitsFor(run[..|run| - 1]) + if run[|run| - 1].WaitLook? then [run[|run| - 1].id] else []
  }

  /** The ids asked for by AttachWith, in order. */
  function AttachesTo(run: seq<Action>): seq<Id> {
    if run == [] then []
    else AttachesTo(run[..|run| - 1]) + if run[|run| - 1].AttachLook? then [run[|run| - 1].id] else []
  }

  function LaterShutdowns(run: seq<Action>): nat {
    if run == [] then 0 else LaterShutdowns(run[..|run| - 1]) + if run[|run| - 1].ShutAgain? then 1 else 0
  }

  /** Which Start was last registered under the id, before Shutdown began. */
  function LastFiled(run: seq<Action>, id: Id): Option<nat> {
    if run == [] then None
    else
      var front, a := run[..|run| - 1], run[|run| - 1];
      if a.Register? && ShutBegin !in front && a.t < |Starts(front)| && Starts(front)[a.t].0 == id then Some(a.t)
      else LastFiled(front, id)
  }

  /** And whether no watch has taken it out since. */
  function Current(run: seq<Action>, id: Id): Option<nat> {
    if run == [] then None
    else
      var front, a := run[..|run| - 1], run[|run| - 1];
      if a.Register? && ShutBegin !in front && a.t < |Starts(front)| && Starts(front)[a.t].0 == id then Some(a.t)
      else if a.Remove? && a.t < |Starts(front)| && Starts(front)[a.t].0 == id then None
      else Current(front, id)
  }

  function Lookup(m: map<Id, nat>, id: Id): Option<nat> {
    if id in m then Some(m[id]) else None
  }

  // ------------------------------------------------- one step of the account

  /** How far a Start has come, by the steps taken on it. */
  predicate PhaseOk(run: seq<Action>, t: nat, p: Phase) {
    && (Launch(t) in run <==> !p.Checked?)
    && (SpawnFail(t) in run <==> p.SpawnFailed? || p.Failed?)
    && (FailRecord(t) in run <==> p.Failed?)
    && (SpawnOk(t) in run <==> p.Spawned? || p.Ran? || p.Rejecting? || p.Rejected? || p.Watched?)
    && (RunRecord(t) in run <==> p.Ran? || p.Rejecting? || p.Rejected? || p.Watched?)
    && (Register(t) in run <==> p.Rejecting? || p.Rejected? || p.Watched?)
    && (RejectClose(t) in run <==> p.Rejected?)
    && (Remove(t) in run <==> p.Watched? && !p.watch.Waiting?)
    && (Record(t) in run <==> p.Watched? && (p.watch.Recorded? || p.watch.Closed? || p.watch.Delivered? || p.watch.Finished?))
    && (CloseBroker(t) in run <==> p.Watched? && (p.watch.Closed? || p.watch.Delivered? || p.watch.Finished?))
    && (Deliver(t) in run <==> p.Watched? && (p.watch.Delivered? || p.watch.Finished?))
    && (Done(t) in run <==> p.Watched? && p.watch.Finished?)
  }

  /** The phase of a Start that may not exist yet. */
  function PhaseAt(s: State, t: nat): Phase {
    if t < |s.tokens| then s.tokens[t].phase else Checked
  }

  /** The phases a step can leave, and where it leads. */
  function Next(a: Action, t: nat, p: Phase, stopped: bool): Phase {
    if a == Launch(t) then Launched
    else if a == SpawnFail(t) then SpawnFailed
    else if a == FailRecord(t) then Failed
    else if a == SpawnOk(t) then Spawned
    else if a == RunRecord(t) then Ran
    else if a == Register(t) then if stopped then Rejecting else Watched(Waiting)
    else if a == RejectClose(t) then Rejected
    else if a == Remove(t) then Watched(Removed)
    else if a == Record(t) then Watched(Recorded)
    else if a == CloseBroker(t) then Watched(Closed)
    else if a == Deliver(t) then Watched(Delivered)
    else if a == Done(t) then Watched(Finished)
    else p
  }

  lemma OwnStart(s: State, a: Action)
    requires Enabled(s, a) && StartAction(a)
    ensures a.t < |s.tokens| && a.t < |Apply(s, a).tokens|
    ensures Apply(s, a).tokens[a.t].phase == Next(a, a.t, s.tokens[a.t].phase, s.stopped)
  {
  }

  lemma OwnOther(s: State, a: Action, t: nat)
    requires Enabled(s, a) && !StartAction(a) && !a.Deliver? && Target(s, a) == Some(t) && t < |s.tokens|
    ensures t < |Apply(s, a).tokens|
    ensures Apply(s, a).tokens[t].phase == Next(a, t, s.tokens[t].phase, s.stopped)
  {
    hide RegisterStep, DeliverStep;
  }

  /** A step that aims at no or another Start leads this one nowhere. */
  lemma NotNext(s: State, a: Action, t: nat)
    requires Enabled(s, a) && !a.Deliver? && (t >= |s.tokens| || Target(s, a) != Some(t))
    ensures Next(a, t, PhaseAt(s, t), s.stopped) == PhaseAt(s, t)
  {
    hide Apply, From, PhaseOk;
  }

  lemma OwnDeliver(s: State, a: Action, t: nat)
    requires Enabled(s, a) && a.Deliver?
    ensures PhaseAt(Apply(s, a), t) == Next(a, t, PhaseAt(s, t), s.stopped)
  {
    LengthOnly(s, a);
    assert a.t < |s.tokens| && Apply(s, a) == DeliverStep(s, a.t);
    hide Apply, DeliverStep;
    if t < |s.tokens| {
      DeliverOnly(s, a.t, t);
    }
  }

  lemma PhaseIs(s: State, a: Action, t: nat)
    requires Enabled(s, a)
    ensures PhaseAt(Apply(s, a), t) == Next(a, t, PhaseAt(s, t), s.stopped)
  {
    hide Next;
    if a.Deliver? {
      OwnDeliver(s, a, t);
    } else if t >= |s.tokens| || Target(s, a) != Some(t) {
      NotNext(s, a, t);
      LengthOnly(s, a);
      if t < |s.tokens| {
        Untouched(s, a, t);
      }
      hide Apply, Enabled;
    } else if StartAction(a) {
      OwnStart(s, a);
      hide Apply, Enabled;
    } else {
      OwnOther(s, a, t);
      hide Apply, Enabled;
    }
  }

  /** Where a Start must stand for a step to be taken on it. */
  predicate From(a: Action, t: nat, p: Phase) {
    && (a == Launch(t) ==> p.Checked?) && (a == SpawnFail(t) || a == SpawnOk(t) ==> p.Launched?)
    && (a == FailRecord(t) ==> p.SpawnFailed?) && (a == RunRecord(t) ==> p.Spawned?) && (a == Register(t) ==> p.Ran?)
    && (a == RejectClose(t) ==> p.Rejecting?)
    && (a == Remove(t) ==> p == Watched(Waiting)) && (a == Record(t) ==> p == Watched(Removed))
    && (a == CloseBroker(t) ==> p == Watched(Recorded)) && (a == Deliver(t) ==> p == Watched(Closed))
    && (a == Done(t) ==> p == Watched(Delivered))
  }

  lemma EnabledFrom(s: State, a: Action, t: nat)
    requires Enabled(s, a)
    ensures From(a, t, PhaseAt(s, t))
  {
  }

  lemma Grows(run: seq<Action>, a: Action)
    ensures forall x :: x in run + [a] <==> x in run || x == a
  {
  }

  lemma PhaseOkNext(run: seq<Action>, a: Action, t: nat, p: Phase, stopped: bool)
    requires PhaseOk(run, t, p) && From(a, t, p)
    ensures PhaseOk(run + [a], t, Next(a, t, p, stopped))
  {
    Grows(run, a);
  }

  lemma PhaseStep(run: seq<Action>, s: State, a: Action, t: nat)
    requires Enabled(s, a) && PhaseOk(run, t, PhaseAt(s, t))
    ensures PhaseOk(run + [a], t, PhaseAt(Apply(s, a), t))
  {
    hide Apply, Enabled, PhaseOk, From, Next, PhaseAt;
    PhaseIs(s, a, t);
    EnabledFrom(s, a, t);
    PhaseOkNext(run, a, t, PhaseAt(s, t), s.stopped);
  }

  lemma TokenIds(s: State, a: Action, t: nat)
    requires Enabled(s, a)
    ensures |Apply(s, a).tokens| == |s.tokens| + if a.StartCheck? then 1 else 0
    ensures t < |s.tokens| ==> Apply(s, a).tokens[t].id == s.tokens[t].id && Apply(s, a).tokens[t].attach == s.tokens[t].attach
    ensures t == |s.tokens| && a.StartCheck? ==> Apply(s, a).tokens[t] == NewToken(a.id, a.attach)
  {
    if t < |s.tokens| {
      TokenFrame(s, a, t);
    }
    LengthOnly(s, a);
  }

  lemma LengthOnly(s: State, a: Action)
    requires Enabled(s, a)
    ensures |Apply(s, a).tokens| == |s.tokens| + if a.StartCheck? then 1 else 0
    ensures a.StartCheck? ==> Apply(s, a).tokens == s.tokens + [NewToken(a.id, a.attach)]
  {
  }

  lemma ExitMoves(s: State, a: Action, t: nat)
    requires Enabled(s, a) && t < |s.tokens|
    ensures t < |Apply(s, a).tokens|
    ensures Apply(s, a).tokens[t].exit == if a.Exit? && a.t == t then Some(a.end) else s.tokens[t].exit
  {
    if StartAction(a) {
      ExitStart(s, a, t);
    } else {
      ExitOther(s, a, t);
    }
  }

  lemma ExitStart(s: State, a: Action, t: nat)
    requires Enabled(s, a) && StartAction(a) && t < |s.tokens|
    ensures t < |Apply(s, a).tokens| && Apply(s, a).tokens[t].exit == s.tokens[t].exit
  {
  }

  lemma ExitOther(s: State, a: Action, t: nat)
    requires Enabled(s, a) && !StartAction(a) && t < |s.tokens|
    ensures t < |Apply(s, a).tokens|
    ensures Apply(s, a).tokens[t].exit == if a.Exit? && a.t == t then Some(a.end) else s.tokens[t].exit
  {
    hide RegisterStep;
    if a.Deliver? {
      assert Apply(s, a) == DeliverStep(s, a.t);
      hide Apply;
      DeliverOnly(s, a.t, t);
    } else {
      hide DeliverStep;
    }
  }

  /** How the lists of callers and the Shutdown status move. */
  lemma CallersStep(s: State, a: Action)
    requires Enabled(s, a)
    ensures var u := Apply(s, a);
            && u.waits == (match a
                 case WaitLook(id) => s.waits + [Wait(id, s.results[id], Blocked)]
                 case WaitGet(k) => s.waits[k := s.waits[k].(pc := Got(s.tokens[s.waits[k].token].given.value))]
                 case WaitCancel(k) => s.waits[k := s.waits[k].(pc := GaveUp)]
                 case _ => s.waits)
            && u.attaches == (match a
                 case AttachLook(id) => s.attaches + [Attach(id, s.registry[id], Looked)]
                 case AttachEnter(k) => s.attaches[k := s.attaches[k].(pc := Counted)]
                 case AttachLeave(k) => s.attaches[k := s.attaches[k].(pc := AttachPc.Left)]
                 case _ => s.attaches)
            && u.shut == (if a == ShutBegin then ShutWaiting else if a == ShutReturn then ReturnedNil
                          else if a == ShutCtx then ReturnedCtx else s.shut)
            && u.stopped == (s.stopped || a == ShutBegin) && u.laterShuts == s.laterShuts + if a == ShutAgain then 1 else 0
  {
    if StartAction(a) {
      CallersStart(s, a);
    } else {
      hide RegisterStep;
    }
  }

  lemma CallersStart(s: State, a: Action)
    requires Enabled(s, a) && StartAction(a)
    ensures var u := Apply(s, a);
            && u.waits == s.waits && u.attaches == s.attaches && u.shut == s.shut
            && u.stopped == s.stopped && u.laterShuts == s.laterShuts
  {
  }

  lemma MapsStepIs(s: State, a: Action, id: Id)
    requires Enabled(s, a)
    ensures Lookup(Apply(s, a).results, id)
         == if a.Register? && !s.stopped && s.tokens[a.t].id == id then Some(a.t) else Lookup(s.results, id)
    ensures Lookup(Apply(s, a).registry, id)
         == if a.Register? && !s.stopped && s.tokens[a.t].id == id then Some(a.t)
            else if a.Remove? && s.tokens[a.t].id == id then None
            else Lookup(s.registry, id)
  {
    if a.Register? {
    } else if a.Remove? {
    } else {
      MapsFrame(s, a);
    }
  }

  // ------------------------------------------------- the account of a whole run

  predicate WaitIs(run: seq<Action>, k: nat, pc: WaitPc) {
    && (pc.Got? <==> WaitGet(k) in run)
    && (pc.GaveUp? <==> WaitCancel(k) in run)
  }

  predicate AttachIs(run: seq<Action>, k: nat, pc: AttachPc) {
    && (pc != Looked <==> AttachEnter(k) in run)
    && (pc == AttachPc.Left <==> AttachLeave(k) in run)
  }

  predicate ShutIs(run: seq<Action>, s: State) {
    && (s.stopped <==> ShutBegin in run) && (s.shut == NotCalled <==> ShutBegin !in run)
    && (s.shut == ReturnedNil <==> ShutReturn in run) && (s.shut == ReturnedCtx <==> ShutCtx in run)
    && s.laterShuts == LaterShutdowns(run)
  }

  ghost predicate IdsAre(run: seq<Action>, s: State) {
    && |s.tokens| == |Starts(run)|
    && (forall t :: 0 <= t < |s.tokens| ==> s.tokens[t].id == Starts(run)[t].0 && s.tokens[t].attach == Starts(run)[t].1)
  }

  lemma IdsStep(run: seq<Action>, s: State, a: Action)
    requires Enabled(s, a) && IdsAre(run, s)
    ensures IdsAre(run + [a], Apply(s, a))
  {
    assert (run + [a])[..|run|] == run;
    var u := Apply(s, a);
    LengthOnly(s, a);
    forall t: nat | t < |u.tokens|
      ensures u.tokens[t].id == Starts(run + [a])[t].0 && u.tokens[t].attach == Starts(run + [a])[t].1
    {
      TokenIds(s, a, t);
    }
  }

  lemma {:induction false} IdsRun(run: seq<Action>)
    requires Exec(INIT, run).Some?
    ensures IdsAre(run, Exec(INIT, run).value)
    decreases |run|
  {
    if run != [] {
      ExecLast(INIT, run);
      IdsRun(run[..|run| - 1]);
      IdsStep(run[..|run| - 1], Exec(INIT, run[..|run| - 1]).value, run[|run| - 1]);
      assert run == run[..|run| - 1] + [run[|run| - 1]];
    }
  }

  /** In every run a Start has come exactly as far as the steps taken on it say, under the id and
      with the attach flag it was called with, and its session has ended exactly with what it
      exited with. */
  lemma {:induction false} StartIsItsSteps(run: seq<Action>, t: nat)
    requires Exec(INIT, run).Some?
    ensures var s := Exec(INIT, run).value;
            && PhaseOk(run, t, PhaseAt(s, t))
            && (t < |s.tokens| <==> t < |Starts(run)|)
            && (t < |s.tokens| ==> (s.tokens[t].id, s.tokens[t].attach) == Starts(run)[t])
            && (t < |s.tokens| ==> forall end :: s.tokens[t].exit == Some(end) <==> Exit(t, end) in run)
            && (t >= |s.tokens| ==> forall end :: Exit(t, end) !in run)
    decreases |run|
  {
    IdsRun(run);
    if run != [] {
      var front, a := run[..|run| - 1], run[|run| - 1];
      assert run == front + [a];
      ExecLast(INIT, run);
      var s := Exec(INIT, front).value;
      StartIsItsSteps(front, t);
      PhaseStep(front, s, a, t);
      TokenIds(s, a, t);
      if t < |s.tokens| {
        ExitMoves(s, a, t);
      }
      hide Apply;
      forall end
        ensures Exit(t, end) in run <==> Exit(t, end) in front || a == Exit(t, end)
      {
      }
    }
  }

  predicate WaitsAre(run: seq<Action>, waits: seq<Wait>, k: nat) {
    && |waits| == |WaitsFor(run)|
    && if k < |waits| then waits[k].id == WaitsFor(run)[k] && WaitIs(run, k, waits[k].pc) else WaitIs(run, k, Blocked)
  }

  predicate AttachesAre(run: seq<Action>, attaches: seq<Attach>, k: nat) {
    && |attaches| == |AttachesTo(run)|
    && if k < |attaches| then attaches[k].id == AttachesTo(run)[k] && AttachIs(run, k, attaches[k].pc) else AttachIs(run, k, Looked)
  }

  lemma WaitsStep(run: seq<Action>, s: State, a: Action, k: nat)
    requires Enabled(s, a) && WaitsAre(run, s.waits, k)
    ensures WaitsAre(run + [a], Apply(s, a).waits, k)
  {
    CallersStep(s, a);
    hide Apply;
    Grows(run, a);
    assert (run + [a])[..|run|] == run;
  }

  lemma AttachesStep(run: seq<Action>, s: State, a: Action, k: nat)
    requires Enabled(s, a) && AttachesAre(run, s.attaches, k)
    ensures AttachesAre(run + [a], Apply(s, a).attaches, k)
  {
    CallersStep(s, a);
    hide Apply;
    Grows(run, a);
    assert (run + [a])[..|run|] == run;
  }

  lemma ShutStep(run: seq<Action>, s: State, a: Action)
    requires Enabled(s, a) && ShutIs(run, s)
    ensures ShutIs(run + [a], Apply(s, a))
  {
    CallersStep(s, a);
    hide Apply;
    Grows(run, a);
    assert (run + [a])[..|run|] == run;
  }

  /** In every run each WaitSession and AttachWith call has come exactly as far as its own steps
      say, and Shutdown has. */
  lemma {:induction false} CallersAreTheirSteps(run: seq<Action>, k: nat)
    requires Exec(INIT, run).Some?
    ensures var s := Exec(INIT, run).value;
            ShutIs(run, s) && WaitsAre(run, s.waits, k) && AttachesAre(run, s.attaches, k)
    decreases |run|
  {
    if run != [] {
      var front, a := run[..|run| - 1], run[|run| - 1];
      assert run == front + [a];
      ExecLast(INIT, run);
      hide Exec, Apply, Enabled, ShutIs, WaitsAre, AttachesAre;
      CallersAreTheirSteps(front, k);
      var s := Exec(INIT, front).value;
      ShutStep(front, s, a);
      WaitsStep(front, s, a, k);
      AttachesStep(front, s, a, k);
    }
  }

  /** In every run each map holds what was last filed under each id: the results for good, the
      registry until a watch of that id takes it out. */
  lemma {:induction false} MapsAreLastFiled(run: seq<Action>, id: Id)
    requires Exec(INIT, run).Some?
    ensures var s := Exec(INIT, run).value;
            Lookup(s.results, id) == LastFiled(run, id) && Lookup(s.registry, id) == Current(run, id)
    decreases |run|
  {
    if run != [] {
      var front, a := run[..|run| - 1], run[|run| - 1];
      ExecLast(INIT, run);
      MapsAreLastFiled(front, id);
      MapsStepIs(Exec(INIT, front).value, a, id);
      hide Apply;
      IdsRun(front);
      CallersAreTheirSteps(front, 0);
      if a.Register? || a.Remove? {
        TargetExists(Exec(INIT, front).value, a);
      }
    }
  }

  lemma TargetExists(s: State, a: Action)
    requires Enabled(s, a) && (a.Register? || a.Remove?)
    ensures a.t < |s.tokens|
  {
  }

  // ------------------------------------------------- what a look-up finds

  lemma WaitFixed(s: State, a: Action, k: nat)
    requires Enabled(s, a) && k < |s.waits|
    ensures k < |Apply(s, a).waits| && Apply(s, a).waits[k].id == s.waits[k].id && Apply(s, a).waits[k].token == s.waits[k].token
  {
    CallersStep(s, a);
    hide Apply;
  }

  lemma {:induction false} WaitStays(s: State, run: seq<Action>, k: nat)
    requires Exec(s, run).Some? && k < |s.waits|
    ensures var u := Exec(s, run).value;
            k < |u.waits| && u.waits[k].id == s.waits[k].id && u.waits[k].token == s.waits[k].token
    decreases |run|
  {
    if run != [] {
      WaitFixed(s, run[0], k);
      WaitStays(Apply(s, run[0]), run[1..], k);
    }
  }

  /** WaitSession(id) waits on the Start last registered under that very id, and on no other,
      whatever comes later; and with distinct live ids what it answers is the end of that
      Start's session, which is the one running under the id if one is. */
  lemma WaitAnswersForItsId(before: seq<Action>, id: Id, after: seq<Action>)
    requires Exec(INIT, before + ([WaitLook(id)] + after)).Some?
    ensures Exec(INIT, before).Some? && LastFiled(before, id).Some?
    ensures var s, u := Exec(INIT, before).value, Exec(INIT, before + ([WaitLook(id)] + after)).value;
            var k, t := |s.waits|, LastFiled(before, id).value;
            && k < |u.waits| && u.waits[k].id == id && u.waits[k].token == t
            && t < |s.tokens| && t < |u.tokens| && u.tokens[t].id == s.tokens[t].id == id
            && (DistinctRun(INIT, before + ([WaitLook(id)] + after)) ==>
                  && (forall r :: 0 <= r < |s.tokens| && s.tokens[r].id == id && Live(s.tokens[r].phase) ==> r == t)
                  && (u.waits[k].pc.Got? ==> u.tokens[t].exit == Some(u.waits[k].pc.end)))
  {
    var all := before + ([WaitLook(id)] + after);
    ExecPrefix(INIT, before, [WaitLook(id)] + after);
    ExecConcat(INIT, before, [WaitLook(id)] + after);
    var s := Exec(INIT, before).value;
    assert ([WaitLook(id)] + after)[1..] == after;
    CallersStep(s, WaitLook(id));
    WaitStays(Apply(s, WaitLook(id)), after, |s.waits|);
    MapsAreLastFiled(before, id);
    InitEveryRun();
    EveryRunKept(INIT, before);
    assert ResultOk(s, id);
    IdStays(s, [WaitLook(id)] + after, s.results[id]);
    if DistinctRun(INIT, all) {
      AnswersTruly(before, [WaitLook(id)] + after, id, |s.waits|);
    }
  }

  lemma {:induction false} IdStays(s: State, run: seq<Action>, t: nat)
    requires Exec(s, run).Some? && t < |s.tokens|
    ensures t < |Exec(s, run).value.tokens| && Exec(s, run).value.tokens[t].id == s.tokens[t].id
    decreases |run|
  {
    if run != [] {
      TokenIds(s, run[0], t);
      IdStays(Apply(s, run[0]), run[1..], t);
    }
  }

  lemma {:induction false} DistinctPrefix(s: State, first: seq<Action>, second: seq<Action>)
    requires Exec(s, first + second).Some? && DistinctRun(s, first + second)
    ensures Exec(s, first).Some? && DistinctRun(s, first)
    decreases |first|
  {
    if first != [] {
      assert (first + second)[1..] == first[1..] + second;
      DistinctPrefix(Apply(s, first[0]), first[1..], second);
    }
  }

  lemma AnswersTruly(before: seq<Action>, after: seq<Action>, id: Id, k: nat)
    requires Exec(INIT, before + after).Some? && DistinctRun(INIT, before + after)
    ensures Exec(INIT, before).Some?
    ensures var s := Exec(INIT, before).value;
            forall r :: 0 <= r < |s.tokens| && s.tokens[r].id == id && Live(s.tokens[r].phase) ==>
                          id in s.results && s.results[id] == r && id in s.registry && s.registry[id] == r
    ensures var u := Exec(INIT, before + after).value;
            k < |u.waits| && u.waits[k].pc.Got? ==>
              u.waits[k].token < |u.tokens| && u.tokens[u.waits[k].token].exit == Some(u.waits[k].pc.end)
  {
    InitInv();
    DistinctPrefix(INIT, before, after);
    InvRun(INIT, before);
    InvRun(INIT, before + after);
    var s, u := Exec(INIT, before).value, Exec(INIT, before + after).value;
    hide Apply, Exec, Enabled, DistinctRun;
    forall r | 0 <= r < |s.tokens| && s.tokens[r].id == id && Live(s.tokens[r].phase)
      ensures id in s.results && s.results[id] == r && id in s.registry && s.registry[id] == r
    {
      assert Linked(s, r);
    }
    if k < |u.waits| && u.waits[k].pc.Got? {
      assert WaitOk(u, u.waits[k]);
      assert TokenOk(u.tokens[u.waits[k].token]);
    }
  }

  lemma {:induction false} AttachStays(s: State, run: seq<Action>, k: nat)
    requires Exec(s, run).Some? && k < |s.attaches|
    ensures var u := Exec(s, run).value;
            k < |u.attaches| && u.attaches[k].id == s.attaches[k].id && u.attaches[k].token == s.attaches[k].token
    decreases |run|
  {
    if run != [] {
      CallersStep(s, run[0]);
      AttachStays(Apply(s, run[0]), run[1..], k);
    }
  }

  /** AttachWith(id) attaches to the Start registered under that very id and not taken out since,
      which is live and has a broker, whatever comes later; with distinct live ids there is no
      other one live under the id. It is refused exactly when there is none or that one has
      no broker. */
  lemma AttachFindsItsId(before: seq<Action>, id: Id, after: seq<Action>)
    requires Exec(INIT, before).Some?
    ensures var s := Exec(INIT, before).value;
            var t := Current(before, id);
            && (Enabled(s, AttachLook(id)) <==> t.Some? && t.value < |Starts(before)| && Starts(before)[t.value].1)
            && (t.Some? ==> t.value < |s.tokens| && s.tokens[t.value].id == id && Live(s.tokens[t.value].phase))
            && (DistinctRun(INIT, before) ==>
                  forall r :: 0 <= r < |s.tokens| && s.tokens[r].id == id && Live(s.tokens[r].phase) ==> t == Some(r))
    ensures Exec(INIT, before + ([AttachLook(id)] + after)).Some? ==>
              var s, u := Exec(INIT, before).value, Exec(INIT, before + ([AttachLook(id)] + after)).value;
              var k := |s.attaches|;
              k < |u.attaches| && u.attaches[k].id == id && Current(before, id) == Some(u.attaches[k].token)
  {
    hide Exec, Apply;
    var s := Exec(INIT, before).value;
    MapsAreLastFiled(before, id);
    IdsRun(before);
    InitEveryRun();
    EveryRunKept(INIT, before);
    assert id in s.registry ==> RegistryOk(s, id);
    if DistinctRun(INIT, before) {
      assert before + [] == before;
      AnswersTruly(before, [], id, 0);
    }
    if Exec(INIT, before + ([AttachLook(id)] + after)).Some? {
      ExecConcat(INIT, before, [AttachLook(id)] + after);
      AttachKeptFrom(s, id, after);
    }
  }

  lemma AttachKeptFrom(s: State, id: Id, after: seq<Action>)
    requires Exec(s, [AttachLook(id)] + after).Some?
    ensures Enabled(s, AttachLook(id))
    ensures var u, k := Exec(s, [AttachLook(id)] + after).value, |s.attaches|;
            k < |u.attaches| && u.attaches[k].id == id && u.attaches[k].token == s.registry[id]
  {
    assert ([AttachLook(id)] + after)[1..] == after;
    CallersStep(s, AttachLook(id));
    AttachStays(Apply(s, AttachLook(id)), after, |s.attaches|);
  }

  // ------------------------------------------------- what the sink and the brokers see, by phase

  /** The sink's trace and the broker's closes at every point of every Start: a failed launch is
      recorded as failed with code 1 behind a closed broker, a refused session is left running
      in the sink behind a closed broker, and a watched one ends with its own code. */
  lemma StartShows(run: seq<Action>, t: nat)
    requires Exec(INIT, run).Some? && t < |Exec(INIT, run).value.tokens|
    ensures var tok := Exec(INIT, run).value.tokens[t];
            var ended := tok.phase.Watched? && !tok.phase.watch.Waiting? && !tok.phase.watch.Removed?;
            && tok.trace == (if tok.phase.Checked? then []
                             else if tok.phase.Launched? || tok.phase.SpawnFailed? || tok.phase.Spawned? then [Launching]
                             else if tok.phase.Failed? then [Launching, Terminal(false, 1)]
                             else if !ended || tok.exit == None then [Launching, Running]
                             else [Launching, Running, Terminal(tok.seenKilling || tok.exit.value.code == 0, tok.exit.value.code)])
            && (ended ==> tok.exit.Some?)
            && tok.brokerCloses == (if !tok.attach then 0
                                    else if tok.phase.SpawnFailed? || tok.phase.Failed? || tok.phase.Rejected?
                                            || (ended && !tok.phase.watch.Recorded?) then 1 else 0)
  {
    InitEveryRun();
    EveryRunKept(INIT, run);
    assert RecordOk(Exec(INIT, run).value.tokens[t]);
  }

  // ------------------------------------------------- what can happen next

  /** The steps of one Start, its session and its watch, each possible exactly when its
      predecessor has been taken and it has not. */
  lemma StartStepsPossible(run: seq<Action>, t: nat, end: End)
    requires Exec(INIT, run).Some?
    ensures var s := Exec(INIT, run).value;
            var watched := Register(t) in run && PhaseAt(s, t).Watched?;
            && (Enabled(s, Launch(t)) <==> t < |Starts(run)| && Launch(t) !in run)
            && (Enabled(s, SpawnFail(t)) <==> Launch(t) in run && SpawnFail(t) !in run && SpawnOk(t) !in run)
            && (Enabled(s, SpawnOk(t)) <==> Launch(t) in run && SpawnFail(t) !in run && SpawnOk(t) !in run)
            && (Enabled(s, FailRecord(t)) <==> SpawnFail(t) in run && FailRecord(t) !in run)
            && (Enabled(s, RunRecord(t)) <==> SpawnOk(t) in run && RunRecord(t) !in run)
            && (Enabled(s, Register(t)) <==> RunRecord(t) in run && Register(t) !in run)
            && (Enabled(s, RejectClose(t)) <==> Register(t) in run && !watched && RejectClose(t) !in run)
            && (Enabled(s, Exit(t, end)) <==> SpawnOk(t) in run && forall e :: Exit(t, e) !in run)
            && (Enabled(s, Remove(t)) <==> watched && Remove(t) !in run && exists e :: Exit(t, e) in run)
            && (Enabled(s, Record(t)) <==> Remove(t) in run && Record(t) !in run)
            && (Enabled(s, CloseBroker(t)) <==> Record(t) in run && CloseBroker(t) !in run)
            && (Enabled(s, Deliver(t)) <==> CloseBroker(t) in run && Deliver(t) !in run)
            && (Enabled(s, Done(t)) <==> Deliver(t) in run && Done(t) !in run)
  {
    hide Exec, Apply, Starts, Enabled, PhaseAt, MapsInv, AttachInv, WgInv;
    StartIsItsSteps(run, t);
    InitEveryRun();
    EveryRunKept(INIT, run);
    var s := Exec(INIT, run).value;
    PossibleByPhase(s, t, end);
    if t < |s.tokens| {
      assert RecordOk(s.tokens[t]);
      assert s.tokens[t].exit.Some? ==> Exit(t, s.tokens[t].exit.value) in run;
    }
  }

  lemma PossibleByPhase(s: State, t: nat, end: End)
    ensures var p := PhaseAt(s, t);
            && (t >= |s.tokens| ==> p.Checked?)
            && (t < |s.tokens| ==> p == s.tokens[t].phase)
            && (Enabled(s, Launch(t)) <==> t < |s.tokens| && p.Checked?)
            && (Enabled(s, SpawnFail(t)) <==> p.Launched?) && (Enabled(s, SpawnOk(t)) <==> p.Launched?)
            && (Enabled(s, FailRecord(t)) <==> p.SpawnFailed?) && (Enabled(s, RunRecord(t)) <==> p.Spawned?)
            && (Enabled(s, Register(t)) <==> p.Ran?) && (Enabled(s, RejectClose(t)) <==> p.Rejecting?)
            && (Enabled(s, CloseBroker(t)) <==> p == Watched(Recorded)) && (Enabled(s, Done(t)) <==> p == Watched(Delivered))
            && (t < |s.tokens| ==>
                  var out := s.tokens[t].exit.Some?;
                  && (Enabled(s, Exit(t, end)) <==> HasSession(p) && !out)
                  && (Enabled(s, Remove(t)) <==> p == Watched(Waiting) && out)
                  && (Enabled(s, Record(t)) <==> p == Watched(Removed) && out)
                  && (Enabled(s, Deliver(t)) <==> p == Watched(Closed) && out))
            && (t >= |s.tokens| ==> !Enabled(s, Exit(t, end)) && !Enabled(s, Remove(t)) && !Enabled(s, Record(t)) && !Enabled(s, Deliver(t)))
  {
    hide Enabled;
    PossibleStart(s, t);
    PossibleSpawned(s, t);
    PossibleWatch(s, t, end);
  }

  lemma PossibleStart(s: State, t: nat)
    ensures var p := PhaseAt(s, t);
            && (Enabled(s, Launch(t)) <==> t < |s.tokens| && p.Checked?)
            && (Enabled(s, SpawnFail(t)) <==> p.Launched?) && (Enabled(s, SpawnOk(t)) <==> p.Launched?)
            && (Enabled(s, FailRecord(t)) <==> p.SpawnFailed?)
  {
  }

  lemma PossibleSpawned(s: State, t: nat)
    ensures var p := PhaseAt(s, t);
            && (Enabled(s, RunRecord(t)) <==> p.Spawned?)
            && (Enabled(s, Register(t)) <==> p.Ran?) && (Enabled(s, RejectClose(t)) <==> p.Rejecting?)
            && (Enabled(s, CloseBroker(t)) <==> p == Watched(Recorded)) && (Enabled(s, Done(t)) <==> p == Watched(Delivered))
  {
  }

  lemma PossibleWatch(s: State, t: nat, end: End)
    ensures t < |s.tokens| ==>
              var p, out := s.tokens[t].phase, s.tokens[t].exit.Some?;
              && (Enabled(s, Exit(t, end)) <==> HasSession(p) && !out)
              && (Enabled(s, Remove(t)) <==> p == Watched(Waiting) && out)
              && (Enabled(s, Record(t)) <==> p == Watched(Removed) && out)
              && (Enabled(s, Deliver(t)) <==> p == Watched(Closed) && out)
    ensures t >= |s.tokens| ==> !Enabled(s, Exit(t, end)) && !Enabled(s, Remove(t)) && !Enabled(s, Record(t)) && !Enabled(s, Deliver(t))
  {
  }

  /** The steps of the callers: a Start is admitted exactly until Shutdown begins; WaitSession finds
      a result exactly if one was ever filed under the id, and Stop a session exactly if one is
      registered under it; a waiter can give up until it has its answer, and gets that once the
      result is out; the first Shutdown can give up while it waits and returns nil exactly when
      every watch has signed off. */
  lemma CallersStepsPossible(run: seq<Action>, id: Id, attach: bool, k: nat)
    requires Exec(INIT, run).Some?
    ensures var s := Exec(INIT, run).value;
            var blocked := k < |WaitsFor(run)| && WaitGet(k) !in run && WaitCancel(k) !in run;
            var waiting := ShutBegin in run && ShutReturn !in run && ShutCtx !in run;
            && (Enabled(s, StartCheck(id, attach)) <==> ShutBegin !in run)
            && (Enabled(s, WaitLook(id)) <==> LastFiled(run, id).Some?)
            && (Enabled(s, Stop(id)) <==> Current(run, id).Some?)
            && (Enabled(s, WaitCancel(k)) <==> blocked)
            && (Enabled(s, WaitGet(k)) ==> blocked)
            && (blocked ==> k < |s.waits| && s.waits[k].token < |s.tokens|
                            && (Enabled(s, WaitGet(k)) <==> s.tokens[s.waits[k].token].deliveries > 0))
            && (Enabled(s, AttachEnter(k)) <==> k < |AttachesTo(run)| && AttachEnter(k) !in run)
            && (Enabled(s, AttachLeave(k)) <==> AttachEnter(k) in run && AttachLeave(k) !in run)
            && (Enabled(s, ShutBegin) <==> ShutBegin !in run) && (Enabled(s, ShutAgain) <==> ShutBegin in run)
            && (Enabled(s, ShutCtx) <==> waiting)
            && (Enabled(s, ShutReturn) <==> waiting && forall t :: 0 <= t < |s.tokens| ==> !Busy(s.tokens[t].phase))
  {
    hide Exec, Apply, Enabled, AttachesTo, WaitsFor, LastFiled, Current, Watching, RecordOk, Busy;
    CallersAreTheirSteps(run, k);
    MapsAreLastFiled(run, id);
    Settling(run);
    var s := Exec(INIT, run).value;
    NobodyBusy(s.tokens);
    PossibleForCallers(s, id, attach, k);
  }

  lemma PossibleForCallers(s: State, id: Id, attach: bool, k: nat)
    requires Grounded(s)
    ensures (Enabled(s, StartCheck(id, attach)) <==> !s.stopped)
         && (Enabled(s, ShutBegin) <==> !s.stopped) && (Enabled(s, ShutAgain) <==> s.stopped)
         && (Enabled(s, ShutCtx) <==> s.shut == ShutWaiting) && (Enabled(s, ShutReturn) <==> s.shut == ShutWaiting && s.wg == 0)
    ensures (Enabled(s, WaitLook(id)) <==> id in s.results) && (Enabled(s, Stop(id)) <==> id in s.registry)
    ensures Enabled(s, WaitCancel(k)) <==> k < |s.waits| && s.waits[k].pc == Blocked
    ensures Enabled(s, WaitGet(k)) ==> k < |s.waits| && s.waits[k].pc == Blocked
    ensures k < |s.waits| && s.waits[k].pc == Blocked ==>
              s.waits[k].token < |s.tokens| && (Enabled(s, WaitGet(k)) <==> s.tokens[s.waits[k].token].deliveries > 0)
    ensures Enabled(s, AttachEnter(k)) <==> k < |s.attaches| && s.attaches[k].pc == Looked
    ensures Enabled(s, AttachLeave(k)) <==> k < |s.attaches| && s.attaches[k].pc == Counted
  {
    hide Enabled, RecordOk;
    PossibleShut(s, id, attach);
    PossibleLook(s, id);
    PossibleWait(s, k);
    PossibleAttach(s, k);
  }

  lemma PossibleShut(s: State, id: Id, attach: bool)
    ensures (Enabled(s, StartCheck(id, attach)) <==> !s.stopped)
         && (Enabled(s, ShutBegin) <==> !s.stopped) && (Enabled(s, ShutAgain) <==> s.stopped)
         && (Enabled(s, ShutCtx) <==> s.shut == ShutWaiting) && (Enabled(s, ShutReturn) <==> s.shut == ShutWaiting && s.wg == 0)
  {
  }

  lemma PossibleLook(s: State, id: Id)
    requires MapsInv(s)
    ensures (Enabled(s, WaitLook(id)) <==> id in s.results) && (Enabled(s, Stop(id)) <==> id in s.registry)
  {
    assert id in s.registry ==> RegistryOk(s, id);
  }

  lemma PossibleWait(s: State, k: nat)
    requires Grounded(s)
    ensures Enabled(s, WaitCancel(k)) <==> k < |s.waits| && s.waits[k].pc == Blocked
    ensures Enabled(s, WaitGet(k)) ==> k < |s.waits| && s.waits[k].pc == Blocked
    ensures k < |s.waits| && s.waits[k].pc == Blocked ==>
              s.waits[k].token < |s.tokens| && (Enabled(s, WaitGet(k)) <==> s.tokens[s.waits[k].token].deliveries > 0)
  {
    hide EveryRun;
  }

  lemma PossibleAttach(s: State, k: nat)
    requires AttachInv(s)
    ensures Enabled(s, AttachEnter(k)) <==> k < |s.attaches| && s.attaches[k].pc == Looked
    ensures Enabled(s, AttachLeave(k)) <==> k < |s.attaches| && s.attaches[k].pc == Counted
  {
  }

  lemma {:induction false} NobodyBusy(tokens: seq<Token>)
    ensures Watching(tokens) == 0 <==> forall t :: 0 <= t < |tokens| ==> !Busy(tokens[t].phase)
    decreases |tokens|
  {
    if tokens != [] {
      NobodyBusy(tokens[..|tokens| - 1]);
    }
  }

  /** A result that is out holds an end, and waiters and attachers name Starts that exist. */
  ghost predicate Grounded(s: State) {
    && EveryRun(s)
    && (forall t :: 0 <= t < |s.tokens| && s.tokens[t].deliveries > 0 ==> s.tokens[t].given.Some?)
    && (forall k :: 0 <= k < |s.waits| ==> s.waits[k].token < |s.tokens|)
  }

  lemma GivenMoves(s: State, a: Action, t: nat)
    requires Enabled(s, a) && t < |s.tokens| && (s.tokens[t].deliveries > 0 ==> s.tokens[t].given.Some?)
    ensures t < |Apply(s, a).tokens|
    ensures Apply(s, a).tokens[t].deliveries > 0 ==> Apply(s, a).tokens[t].given.Some?
  {
    hide Apply, Enabled;
    if a.Deliver? {
      GivenDeliver(s, a, t);
    } else if Target(s, a) != Some(t) {
      Untouched(s, a, t);
    } else if StartAction(a) {
      GivenStart(s, a);
    } else {
      GivenOther(s, a, t);
    }
  }

  lemma GivenDeliver(s: State, a: Action, t: nat)
    requires Enabled(s, a) && a.Deliver? && t < |s.tokens| && (s.tokens[t].deliveries > 0 ==> s.tokens[t].given.Some?)
    ensures t < |Apply(s, a).tokens|
    ensures Apply(s, a).tokens[t].deliveries > 0 ==> Apply(s, a).tokens[t].given.Some?
  {
    assert s.tokens[a.t].exit.Some? && Apply(s, a) == DeliverStep(s, a.t);
    hide Apply, Enabled;
  }

  lemma GivenOther(s: State, a: Action, t: nat)
    requires Enabled(s, a) && !StartAction(a) && !a.Deliver? && Target(s, a) == Some(t) && t < |s.tokens|
    ensures t < |Apply(s, a).tokens|
    ensures Apply(s, a).tokens[t].deliveries == s.tokens[t].deliveries && Apply(s, a).tokens[t].given == s.tokens[t].given
  {
    hide RegisterStep, DeliverStep;
  }

  lemma GivenStart(s: State, a: Action)
    requires Enabled(s, a) && StartAction(a)
    ensures a.t < |s.tokens| && a.t < |Apply(s, a).tokens|
    ensures Apply(s, a).tokens[a.t].deliveries == s.tokens[a.t].deliveries && Apply(s, a).tokens[a.t].given == s.tokens[a.t].given
  {
  }

  lemma {:induction false} Settling(run: seq<Action>)
    requires Exec(INIT, run).Some?
    ensures Grounded(Exec(INIT, run).value)
    decreases |run|
  {
    InitEveryRun();
    if run != [] {
      var front, a := run[..|run| - 1], run[|run| - 1];
      ExecLast(INIT, run);
      Settling(front);
      GroundedStep(Exec(INIT, front).value, a);
    }
  }

  lemma GroundedStep(s: State, a: Action)
    requires Grounded(s) && Enabled(s, a)
    ensures Grounded(Apply(s, a))
  {
    var u := Apply(s, a);
    EveryStep(s, a);
    LengthOnly(s, a);
    CallersStep(s, a);
    forall t: nat | t < |u.tokens| && u.tokens[t].deliveries > 0
      ensures u.tokens[t].given.Some?
    {
      if t < |s.tokens| {
        GivenMoves(s, a, t);
      }
    }
    assert a.WaitLook? ==> ResultOk(s, a.id);
    hide Apply, Enabled, EveryRun;
  }
}
