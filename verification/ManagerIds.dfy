/** What a duplicate id does. The manager files sessions under their ids without looking, so
    every promise about results rests on live ids being distinct; here is exactly why. */
module ManagerIds {
  import opened Common
  import opened ManagerProtocol
  import opened ManagerInvariant
  import opened ManagerTheorems

  // ------------------------------------------------- what holds of every run

  predicate Registered(s: State, t: nat) {
    t < |s.tokens| && s.tokens[t].id in s.registry && s.registry[s.tokens[t].id] == t
  }

  /** Both maps name existing registrations, filed under their own ids, and whatever is in the
      registry has its result filed too. */
  predicate FiledOk(s: State, id: Id) {
    && (id in s.results ==>
          s.results[id] < |s.tokens| && s.tokens[s.results[id]].id == id && s.tokens[s.results[id]].phase.Watched?)
    && (id in s.registry ==> id in s.results && s.registry[id] == s.results[id])
  }

  /** A result that a watch has taken is of its own id; once taken or given out, it is no longer
      in the registry. */
  predicate TakenOk(s: State, t: nat)
    requires t < |s.tokens|
  {
    && (s.tokens[t].captured.Some? ==>
          var r := s.tokens[t].captured.value;
          r < |s.tokens| && s.tokens[r].id == s.tokens[t].id && s.tokens[r].phase.Watched? && !Registered(s, r))
    && (s.tokens[t].deliveries > 0 ==> s.tokens[t].phase.Watched? && !Registered(s, t))
  }

  ghost predicate Filed(s: State) {
    && (forall id :: id in s.results || id in s.registry ==> FiledOk(s, id))
    && (forall t :: 0 <= t < |s.tokens| ==> TakenOk(s, t))
  }

  /** Registered once, but its result is in nobody's reach any more and was never given. */
  ghost predicate Lost(s: State, r: nat) {
    && r < |s.tokens| && s.tokens[r].phase.Watched? && s.tokens[r].deliveries == 0
    && (forall id :: id in s.results ==> s.results[id] != r)
    && (forall t :: 0 <= t < |s.tokens| ==> s.tokens[t].captured != Some(r))
  }

  // ------------------------------------------------- how each step moves them

  lemma FiledStep(s: State, a: Action, id: Id)
    requires Filed(s) && Enabled(s, a) && (id in Apply(s, a).results || id in Apply(s, a).registry)
    ensures FiledOk(Apply(s, a), id)
  {
    if id in s.results || id in s.registry {
      assert FiledOk(s, id);
    }
    if a.Register? {
      FiledRegister(s, a, id);
    } else if a.Remove? {
      FiledRemove(s, a, id);
    } else {
      MapsFrame(s, a);
      hide Apply;
      TokenFrame(s, a, s.results[id]);
    }
  }

  lemma FiledRegister(s: State, a: Action, id: Id)
    requires Enabled(s, a) && a.Register? && (id in Apply(s, a).results || id in Apply(s, a).registry)
    requires id in s.results || id in s.registry ==> FiledOk(s, id)
    ensures FiledOk(Apply(s, a), id)
  {
  }

  lemma FiledRemove(s: State, a: Action, id: Id)
    requires Enabled(s, a) && a.Remove? && FiledOk(s, id)
    ensures FiledOk(Apply(s, a), id)
  {
  }

  /** Deliver counts on the result that was captured; nothing else changes a delivery count. */
  lemma DeliveriesStep(s: State, a: Action, r: nat)
    requires Enabled(s, a) && r < |s.tokens|
    ensures r < |Apply(s, a).tokens|
    ensures Apply(s, a).tokens[r].deliveries
            == s.tokens[r].deliveries + if a.Deliver? && s.tokens[a.t].captured == Some(r) then 1 else 0
  {
    if StartAction(a) {
      DeliveriesStart(s, a, r);
    } else {
      DeliveriesOther(s, a, r);
    }
  }

  lemma DeliveriesStart(s: State, a: Action, r: nat)
    requires Enabled(s, a) && StartAction(a) && r < |s.tokens|
    ensures r < |Apply(s, a).tokens| && Apply(s, a).tokens[r].deliveries == s.tokens[r].deliveries
  {
  }

  lemma DeliveriesOther(s: State, a: Action, r: nat)
    requires Enabled(s, a) && !StartAction(a) && r < |s.tokens|
    ensures r < |Apply(s, a).tokens|
    ensures Apply(s, a).tokens[r].deliveries
            == s.tokens[r].deliveries + if a.Deliver? && s.tokens[a.t].captured == Some(r) then 1 else 0
  {
    hide RegisterStep;
    if a.Deliver? {
      assert Apply(s, a) == DeliverStep(s, a.t);
      hide Apply;
    } else {
      hide DeliverStep;
    }
  }

  /** Register files only the Start it registers; Remove takes entries out. */
  lemma RegisteredStep(s: State, a: Action, r: nat)
    requires Filed(s) && Enabled(s, a) && r < |s.tokens| && s.tokens[r].phase.Watched? && !Registered(s, r)
    ensures !Registered(Apply(s, a), r) && r < |Apply(s, a).tokens| && Apply(s, a).tokens[r].phase.Watched?
    ensures Apply(s, a).tokens[r].id == s.tokens[r].id
  {
    TokenFrame(s, a, r);
    MapsFrame(s, a);
    if a.Register? || a.Remove? {
      RegisteredMoved(s, a, r);
    } else {
      hide Apply;
    }
  }

  lemma RegisteredMoved(s: State, a: Action, r: nat)
    requires Enabled(s, a) && (a.Register? || a.Remove?)
    requires r < |s.tokens| && s.tokens[r].phase.Watched? && !Registered(s, r)
    ensures !Registered(Apply(s, a), r)
  {
  }

  lemma CapturedStep(s: State, a: Action, t: nat)
    requires Enabled(s, a) && t < |s.tokens|
    ensures t < |Apply(s, a).tokens|
    ensures var now := Apply(s, a).tokens[t].captured;
            now == if a == Remove(t) then (if s.tokens[t].id in s.results then Some(s.results[s.tokens[t].id]) else None)
                   else s.tokens[t].captured
  {
    if StartAction(a) {
      CapturedStart(s, a, t);
    } else {
      CapturedOther(s, a, t);
    }
  }

  lemma CapturedStart(s: State, a: Action, t: nat)
    requires Enabled(s, a) && StartAction(a) && t < |s.tokens|
    ensures t < |Apply(s, a).tokens| && Apply(s, a).tokens[t].captured == s.tokens[t].captured
  {
  }

  lemma CapturedOther(s: State, a: Action, t: nat)
    requires Enabled(s, a) && !StartAction(a) && t < |s.tokens|
    ensures t < |Apply(s, a).tokens|
    ensures Apply(s, a).tokens[t].captured
            == if a == Remove(t) then (if s.tokens[t].id in s.results then Some(s.results[s.tokens[t].id]) else None)
               else s.tokens[t].captured
  {
    hide RegisterStep;
    if a.Deliver? {
      assert Apply(s, a) == DeliverStep(s, a.t);
      hide Apply;
    } else {
      hide DeliverStep;
    }
  }

  /** What Remove captures leaves the registry in the same step. */
  lemma RemoveUnregisters(s: State, a: Action, r: nat)
    requires Filed(s) && Enabled(s, a) && a.Remove?
    requires s.tokens[a.t].id in s.results && s.results[s.tokens[a.t].id] == r
    ensures r < |s.tokens| && r < |Apply(s, a).tokens|
    ensures Apply(s, a).tokens[r].phase.Watched? && !Registered(Apply(s, a), r)
    ensures Apply(s, a).tokens[r].id == s.tokens[a.t].id
  {
    assert FiledOk(s, s.tokens[a.t].id);
  }

  lemma TakenStep(s: State, a: Action, t: nat)
    requires Filed(s) && Enabled(s, a) && t < |Apply(s, a).tokens|
    ensures TakenOk(Apply(s, a), t)
  {
    if t >= |s.tokens| {
      NewTokenOk(s, a);
    } else {
      CapturedStep(s, a, t);
      DeliveriesStep(s, a, t);
      TokenFrame(s, a, t);
      hide Apply;
      assert TakenOk(s, t);
      if a == Remove(t) && s.tokens[t].id in s.results {
        RemoveUnregisters(s, a, s.results[s.tokens[t].id]);
      } else if s.tokens[t].captured.Some? {
        RegisteredStep(s, a, s.tokens[t].captured.value);
      }
      if s.tokens[t].deliveries > 0 {
        RegisteredStep(s, a, t);
      } else if a.Deliver? && s.tokens[a.t].captured == Some(t) {
        assert TakenOk(s, a.t);
        RegisteredStep(s, a, t);
      }
    }
  }

  lemma FiledKept(s: State, a: Action)
    requires Filed(s) && Enabled(s, a)
    ensures Filed(Apply(s, a))
  {
    var u := Apply(s, a);
    forall id | id in u.results || id in u.registry
      ensures FiledOk(u, id)
    {
      FiledStep(s, a, id);
    }
    forall t | 0 <= t < |u.tokens|
      ensures TakenOk(u, t)
    {
      TakenStep(s, a, t);
    }
  }

  // ------------------------------------------------- lost for good

  lemma LostStep(s: State, a: Action, r: nat)
    requires Filed(s) && Lost(s, r) && Enabled(s, a)
    ensures Lost(Apply(s, a), r)
  {
    var u := Apply(s, a);
    TokenFrame(s, a, r);
    if a.Deliver? {
      assert s.tokens[a.t].captured != Some(r);
    }
    DeliveriesStep(s, a, r);
    forall id | id in u.results
      ensures u.results[id] != r
    {
      ResultsStep(s, a, id);
    }
    forall t | 0 <= t < |u.tokens|
      ensures u.tokens[t].captured != Some(r)
    {
      if t < |s.tokens| {
        CapturedStep(s, a, t);
      } else {
        NewTokenOk(s, a);
      }
    }
  }

  lemma ResultsStep(s: State, a: Action, id: Id)
    requires Enabled(s, a) && id in Apply(s, a).results
    ensures || (id in s.results && Apply(s, a).results[id] == s.results[id])
            || (a.Register? && a.t < |s.tokens| && !s.tokens[a.t].phase.Watched? && Apply(s, a).results[id] == a.t)
  {
    if a.Register? || a.Remove? {
      ResultsMoved(s, a, id);
    } else {
      MapsFrame(s, a);
    }
  }

  lemma ResultsMoved(s: State, a: Action, id: Id)
    requires Enabled(s, a) && (a.Register? || a.Remove?) && id in Apply(s, a).results
    ensures || (id in s.results && Apply(s, a).results[id] == s.results[id])
            || (a.Register? && a.t < |s.tokens| && !s.tokens[a.t].phase.Watched? && Apply(s, a).results[id] == a.t)
  {
  }

  lemma {:induction false} LostForever(s: State, run: seq<Action>, r: nat)
    requires Filed(s) && Lost(s, r) && Exec(s, run).Some?
    ensures Lost(Exec(s, run).value, r)
    decreases |run|
  {
    if run != [] {
      LostStep(s, run[0], r);
      FiledKept(s, run[0]);
      LostForever(Apply(s, run[0]), run[1..], r);
    }
  }

  /** Registering an id that is in use loses the result of the session that had it. */
  lemma OverwrittenIsLost(s: State, a: Action)
    requires Filed(s) && Enabled(s, a) && !Distinct(s, a)
    ensures s.tokens[a.t].id in s.registry && Lost(Apply(s, a), s.registry[s.tokens[a.t].id])
  {
    var id := s.tokens[a.t].id;
    var r := s.registry[id];
    assert FiledOk(s, id) && TakenOk(s, r);
    TokenFrame(s, a, r);
    DeliveriesStep(s, a, r);
    var u := Apply(s, a);
    forall other | other in u.results
      ensures u.results[other] != r
    {
      if other != id && other in s.results {
        assert FiledOk(s, other);
      }
    }
    forall t | 0 <= t < |u.tokens|
      ensures u.tokens[t].captured != Some(r)
    {
      assert TakenOk(s, t);
      CapturedStep(s, a, t);
    }
  }

  lemma {:induction false} SomebodyLost(s: State, run: seq<Action>) returns (r: nat)
    requires Filed(s) && Exec(s, run).Some? && !DistinctRun(s, run)
    ensures Lost(Exec(s, run).value, r)
    decreases |run|
  {
    FiledKept(s, run[0]);
    if !Distinct(s, run[0]) {
      r := s.registry[s.tokens[run[0].t].id];
      OverwrittenIsLost(s, run[0]);
      LostForever(Apply(s, run[0]), run[1..], r);
    } else {
      r := SomebodyLost(Apply(s, run[0]), run[1..]);
    }
  }

  /** Each registered session's result has been given out exactly once. */
  ghost predicate AllDelivered(s: State) {
    forall t :: 0 <= t < |s.tokens| && s.tokens[t].phase.Watched? ==> s.tokens[t].deliveries == 1
  }

  predicate AllFinished(s: State) {
    forall t :: 0 <= t < |s.tokens| && s.tokens[t].phase.Watched? ==> s.tokens[t].phase.watch.Finished?
  }

  /** When every watch has signed off, every registered session's result has been given out
      exactly once if and only if no live id was ever registered again. */
  lemma DeliveredIffDistinct(run: seq<Action>)
    requires Exec(INIT, run).Some? && AllFinished(Exec(INIT, run).value)
    ensures AllDelivered(Exec(INIT, run).value) <==> DistinctRun(INIT, run)
  {
    var u := Exec(INIT, run).value;
    if DistinctRun(INIT, run) {
      InitInv();
      InvRun(INIT, run);
      assert forall t :: 0 <= t < |u.tokens| ==> TokenOk(u.tokens[t]);
    } else {
      var r := SomebodyLost(INIT, run);
      assert u.tokens[r].deliveries == 0;
    }
  }

  // ------------------------------------------------- the runs that show it

  const CLEAN := End(0, None)

  const START_ONE: seq<Action> := [StartCheck(7, false), Launch(0), SpawnOk(0), RunRecord(0), Register(0)]
  const LAUNCH_TWO: seq<Action> := [StartCheck(7, false), Launch(1), SpawnOk(1)]
  const REGISTER_TWO: seq<Action> := [RunRecord(1), Register(1)]
  const BOTH_EXIT: seq<Action> := [Exit(0, CLEAN), Exit(1, CLEAN)]
  const BOTH_REMOVED: seq<Action> := [Remove(0), Remove(1)]
  const ONE_SETTLES: seq<Action> := [Record(0), CloseBroker(0), Deliver(0)]
  const TWO_SETTLES: seq<Action> := [Record(1), CloseBroker(1), Deliver(1)]

  /** Two live sessions under one id. */
  const TWO_WITH_ONE_ID := START_ONE + LAUNCH_TWO + REGISTER_TWO + BOTH_EXIT + BOTH_REMOVED + ONE_SETTLES + TWO_SETTLES

  /** A clean exit, its watch at w with the second session's result in hand. */
  predicate Holding(s: State, t: nat, w: Watch) {
    t < |s.tokens| && s.tokens[t].phase == Watched(w) && s.tokens[t].exit == Some(CLEAN) && s.tokens[t].captured == Some(1)
  }

  predicate Given(s: State, n: nat) {
    |s.tokens| == 2 && s.tokens[0].deliveries == 0 && s.tokens[1].deliveries == n
  }

  lemma StartOne()
    ensures Exec(INIT, START_ONE).Some?
    ensures var s := Exec(INIT, START_ONE).value;
            && |s.tokens| == 1 && s.registry == map[7 := 0] && s.results == map[7 := 0] && !s.stopped
            && InPhase(s, 0, Watched(Waiting)) && s.tokens[0].id == 7 && s.tokens[0].exit == None
            && s.tokens[0].deliveries == 0 && s.laterShuts == 0
  {
  }

  lemma LaunchTwo(s: State)
    requires |s.tokens| == 1 && s.registry == map[7 := 0] && s.results == map[7 := 0] && !s.stopped
    requires InPhase(s, 0, Watched(Waiting)) && s.tokens[0].id == 7 && s.tokens[0].exit == None && s.tokens[0].deliveries == 0
    ensures Exec(s, LAUNCH_TWO).Some?
    ensures var u := Exec(s, LAUNCH_TWO).value;
            && u.results == map[7 := 0] && !u.stopped && Given(u, 0) && u.tokens[0] == s.tokens[0]
            && u.tokens[1].id == 7 && InPhase(u, 1, Spawned) && u.tokens[1].exit == None
  {
    hide RegisterStep, RemoveStep, DeliverStep;
    var s1 := Apply(s, StartCheck(7, false));
    var s2 := Apply(s1, Launch(1));
    assert LAUNCH_TWO[1..] == [Launch(1), SpawnOk(1)] && [Launch(1), SpawnOk(1)][1..] == [SpawnOk(1)];
    assert |s2.tokens| == 2 && InPhase(s2, 1, Launched) && s2.tokens[0] == s.tokens[0] && s2.results == s.results;
    var u := Apply(s2, SpawnOk(1));
    assert Exec(s2, [SpawnOk(1)]) == Some(u);
  }

  lemma RegisterTwo(s: State)
    requires s.results == map[7 := 0] && !s.stopped && Given(s, 0)
    requires InPhase(s, 0, Watched(Waiting)) && s.tokens[0].id == 7 && s.tokens[0].exit == None
    requires InPhase(s, 1, Spawned) && s.tokens[1].id == 7 && s.tokens[1].exit == None
    ensures Exec(s, REGISTER_TWO).Some?
    ensures var u := Exec(s, REGISTER_TWO).value;
            && u.results == map[7 := 1] && Given(u, 0) && u.tokens[0].id == 7 && u.tokens[1].id == 7
            && InPhase(u, 0, Watched(Waiting)) && u.tokens[0].exit == None
            && InPhase(u, 1, Watched(Waiting)) && u.tokens[1].exit == None
  {
    hide RemoveStep, DeliverStep;
  }

  lemma BothExit(s: State)
    requires s.results == map[7 := 1] && Given(s, 0) && s.tokens[0].id == 7 && s.tokens[1].id == 7
    requires InPhase(s, 0, Watched(Waiting)) && s.tokens[0].exit == None
    requires InPhase(s, 1, Watched(Waiting)) && s.tokens[1].exit == None
    ensures Exec(s, BOTH_EXIT).Some?
    ensures var u := Exec(s, BOTH_EXIT).value;
            && u.results == map[7 := 1] && Given(u, 0) && u.tokens[0].id == 7 && u.tokens[1].id == 7
            && InPhase(u, 0, Watched(Waiting)) && u.tokens[0].exit == Some(CLEAN)
            && InPhase(u, 1, Watched(Waiting)) && u.tokens[1].exit == Some(CLEAN)
  {
    hide RegisterStep, RemoveStep, DeliverStep;
    assert BOTH_EXIT[1..] == [Exit(1, CLEAN)] && [Exit(1, CLEAN)][1..] == [];
    var s1 := Apply(s, Exit(0, CLEAN));
    var u := Apply(s1, Exit(1, CLEAN));
    assert Exec(s1, [Exit(1, CLEAN)]) == Some(u);
  }

  lemma BothRemoved(s: State)
    requires s.results == map[7 := 1] && Given(s, 0) && s.tokens[0].id == 7 && s.tokens[1].id == 7
    requires InPhase(s, 0, Watched(Waiting)) && s.tokens[0].exit == Some(CLEAN)
    requires InPhase(s, 1, Watched(Waiting)) && s.tokens[1].exit == Some(CLEAN)
    ensures Exec(s, BOTH_REMOVED).Some?
    ensures var u := Exec(s, BOTH_REMOVED).value; Given(u, 0) && Holding(u, 0, Removed) && Holding(u, 1, Removed)
  {
    hide RegisterStep, DeliverStep;
  }

  /** t's watch is at w, everything else as in s. */
  ghost predicate MovedTo(s: State, u: State, t: nat, w: Watch) {
    && |u.tokens| == |s.tokens| == 2 && Holding(u, t, w) && u.tokens[t].deliveries == s.tokens[t].deliveries
    && forall other :: 0 <= other < 2 && other != t ==> u.tokens[other] == s.tokens[other]
  }

  lemma RecordsAndCloses(s: State, t: nat) returns (u: State)
    requires |s.tokens| == 2 && Holding(s, t, Removed)
    ensures MovedTo(s, u, t, Closed) && Exec(s, [Record(t), CloseBroker(t), Deliver(t)]) == Exec(u, [Deliver(t)])
  {
    hide RegisterStep, RemoveStep, DeliverStep;
    var s1 := Apply(s, Record(t));
    u := Apply(s1, CloseBroker(t));
    assert [Record(t), CloseBroker(t), Deliver(t)][1..] == [CloseBroker(t), Deliver(t)];
    assert [CloseBroker(t), Deliver(t)][1..] == [Deliver(t)];
  }

  lemma GivesOut(s: State, t: nat)
    requires |s.tokens| == 2 && Holding(s, t, Closed)
    ensures Exec(s, [Deliver(t)]) == Some(DeliverStep(s, t))
    ensures var u := DeliverStep(s, t);
            && |u.tokens| == 2 && u.tokens[0].deliveries == s.tokens[0].deliveries
            && u.tokens[1].deliveries == s.tokens[1].deliveries + 1
            && (t == 0 && Holding(s, 1, Removed) ==> Holding(u, 1, Removed))
  {
    hide RegisterStep, RemoveStep;
    assert [Deliver(t)][1..] == [];
    assert Apply(s, Deliver(t)) == DeliverStep(s, t);
  }

  lemma OneSettles(s: State)
    requires Given(s, 0) && Holding(s, 0, Removed) && Holding(s, 1, Removed)
    ensures Exec(s, ONE_SETTLES).Some?
    ensures Given(Exec(s, ONE_SETTLES).value, 1) && Holding(Exec(s, ONE_SETTLES).value, 1, Removed)
  {
    hide Apply, Enabled, Exec, DeliverStep;
    var u := RecordsAndCloses(s, 0);
    GivesOut(u, 0);
  }

  lemma TwoSettles(s: State)
    requires Given(s, 1) && Holding(s, 1, Removed)
    ensures Exec(s, TWO_SETTLES).Some? && Given(Exec(s, TWO_SETTLES).value, 2)
  {
    hide Apply, Enabled, Exec, DeliverStep;
    var u := RecordsAndCloses(s, 1);
    GivesOut(u, 1);
  }

  /** With two live sessions under one id the second's result is closed twice, which panics in
      the source, and the first's never: its waiters are left to their contexts. */
  lemma DuplicateIdClosesTwice()
    ensures Exec(INIT, TWO_WITH_ONE_ID).Some?
    ensures Given(Exec(INIT, TWO_WITH_ONE_ID).value, 2)
  {
    StartOne();
    LaunchTwo(Exec(INIT, START_ONE).value);
    ExecConcat(INIT, START_ONE, LAUNCH_TWO);
    RegisterTwo(Exec(INIT, START_ONE + LAUNCH_TWO).value);
    ExecConcat(INIT, START_ONE + LAUNCH_TWO, REGISTER_TWO);
    var two := START_ONE + LAUNCH_TWO + REGISTER_TWO;
    BothExit(Exec(INIT, two).value);
    ExecConcat(INIT, two, BOTH_EXIT);
    BothRemoved(Exec(INIT, two + BOTH_EXIT).value);
    ExecConcat(INIT, two + BOTH_EXIT, BOTH_REMOVED);
    var gone := two + BOTH_EXIT + BOTH_REMOVED;
    OneSettles(Exec(INIT, gone).value);
    ExecConcat(INIT, gone, ONE_SETTLES);
    TwoSettles(Exec(INIT, gone + ONE_SETTLES).value);
    ExecConcat(INIT, gone + ONE_SETTLES, TWO_SETTLES);
  }

  const SHUT_TWICE: seq<Action> := [ShutBegin, ShutAgain]

  /** Only the first Shutdown waits: a later one returns at once, here while a session is
      registered and running. */
  lemma LaterShutdownDoesNotWait()
    ensures Exec(INIT, START_ONE + SHUT_TWICE).Some?
    ensures var s := Exec(INIT, START_ONE + SHUT_TWICE).value;
            s.laterShuts == 1 && s.shut == ShutWaiting && InPhase(s, 0, Watched(Waiting)) && s.tokens[0].exit == None
  {
    StartOne();
    ExecConcat(INIT, START_ONE, SHUT_TWICE);
    ShutTwice(Exec(INIT, START_ONE).value);
  }

  lemma ShutTwice(s: State)
    requires !s.stopped && s.laterShuts == 0 && InPhase(s, 0, Watched(Waiting)) && s.tokens[0].exit == None
    ensures Exec(s, SHUT_TWICE).Some?
    ensures var u := Exec(s, SHUT_TWICE).value;
            u.laterShuts == 1 && u.shut == ShutWaiting && InPhase(u, 0, Watched(Waiting)) && u.tokens[0].exit == None
  {
  }
}
