/** Every step keeps the manager's invariant, provided no live id is registered again. */
module ManagerInvariant {
  import opened Common
  import opened ManagerProtocol

  // ------------------------------------------------- what a step leaves alone

  lemma MapsFrame(s: State, a: Action)
    requires Enabled(s, a)
    ensures |s.tokens| <= |Apply(s, a).tokens|
    ensures !a.Register? && !a.Remove? ==> Apply(s, a).registry == s.registry && Apply(s, a).results == s.results
    ensures !a.WaitLook? && !a.WaitGet? && !a.WaitCancel? ==> Apply(s, a).waits == s.waits
    ensures !a.AttachLook? && !a.AttachEnter? && !a.AttachLeave? ==> Apply(s, a).attaches == s.attaches
  {
    if StartAction(a) {
      MapsFrameStart(s, a);
    } else {
      MapsFrameOther(s, a);
    }
  }

  lemma MapsFrameStart(s: State, a: Action)
    requires Enabled(s, a) && StartAction(a)
    ensures |s.tokens| == |Apply(s, a).tokens|
    ensures !a.Register? ==> Apply(s, a).registry == s.registry && Apply(s, a).results == s.results
    ensures Apply(s, a).waits == s.waits && Apply(s, a).attaches == s.attaches
  {
  }

  lemma MapsFrameOther(s: State, a: Action)
    requires Enabled(s, a) && !StartAction(a)
    ensures |s.tokens| <= |Apply(s, a).tokens|
    ensures !a.Remove? ==> Apply(s, a).registry == s.registry && Apply(s, a).results == s.results
    ensures !a.WaitLook? && !a.WaitGet? && !a.WaitCancel? ==> Apply(s, a).waits == s.waits
    ensures !a.AttachLook? && !a.AttachEnter? && !a.AttachLeave? ==> Apply(s, a).attaches == s.attaches
  {
  }

  /** The Start whose record a step rewrites. */
  function Target(s: State, a: Action): Option<nat>
    requires Enabled(s, a)
  {
    match a
    case Stop(id) => Some(s.registry[id])
    case AttachEnter(k) => Some(s.attaches[k].token)
    case AttachLeave(k) => Some(s.attaches[k].token)
    case StartCheck(_, _) | AttachLook(_) | WaitLook(_) | WaitGet(_) | WaitCancel(_) => None
    case ShutBegin | ShutReturn | ShutCtx | ShutAgain => None
    case _ => Some(a.t)
  }

  predicate StartAction(a: Action) {
    a.Launch? || a.SpawnFail? || a.FailRecord? || a.SpawnOk? || a.RunRecord? || a.Register? || a.RejectClose?
  }

  lemma Untouched(s: State, a: Action, t: nat)
    requires Enabled(s, a) && t < |s.tokens| && Target(s, a) != Some(t)
    requires a.Deliver? ==> s.tokens[a.t].captured == Some(a.t)
    ensures t < |Apply(s, a).tokens| && Apply(s, a).tokens[t] == s.tokens[t]
  {
  }

  /** The parts of a Start that only Register, Remove and Deliver change. */
  ghost predicate Framed(a: Action, t: nat, was: Token, now: Token) {
    && now.id == was.id && now.attach == was.attach
    && (was.phase.Watched? ==> now.phase.Watched?)
    && (a != Register(t) && a != Remove(t) ==> Live(now.phase) == Live(was.phase) && now.captured == was.captured)
    && (a != Register(t) ==> now.phase.Watched? == was.phase.Watched?)
    && (!a.Deliver? ==> now.given == was.given && ResultOut(now.phase) == ResultOut(was.phase))
  }

  lemma DeliverFrame(s: State, a: Action, t: nat)
    requires Enabled(s, a) && a.Deliver? && t < |s.tokens|
    ensures t < |Apply(s, a).tokens| && Framed(a, t, s.tokens[t], Apply(s, a).tokens[t])
  {
  }

  lemma StartFrame(s: State, a: Action, t: nat)
    requires Enabled(s, a) && StartAction(a) && t < |s.tokens| && Target(s, a) == Some(t)
    ensures t < |Apply(s, a).tokens| && Framed(a, t, s.tokens[t], Apply(s, a).tokens[t])
  {
  }

  lemma WatchFrame(s: State, a: Action, t: nat)
    requires Enabled(s, a) && !StartAction(a) && !a.Deliver? && t < |s.tokens| && Target(s, a) == Some(t)
    ensures t < |Apply(s, a).tokens| && Framed(a, t, s.tokens[t], Apply(s, a).tokens[t])
  {
  }

  lemma TokenFrame(s: State, a: Action, t: nat)
    requires Enabled(s, a) && t < |s.tokens|
    ensures t < |Apply(s, a).tokens| && Framed(a, t, s.tokens[t], Apply(s, a).tokens[t])
  {
    if a.Deliver? {
      DeliverFrame(s, a, t);
    } else if Target(s, a) == Some(t) {
      if StartAction(a) {
        StartFrame(s, a, t);
      } else {
        WatchFrame(s, a, t);
      }
    } else {
      Untouched(s, a, t);
    }
  }

  // ------------------------------------------------- one Start's own record

  lemma StartTokenStep(s: State, a: Action)
    requires Enabled(s, a) && StartAction(a) && TokenOk(s.tokens[a.t])
    ensures TokenOk(Apply(s, a).tokens[a.t])
  {
    hide RemoveStep, DeliverStep;
    if !a.Register? {
      hide RegisterStep;
    }
  }

  lemma WatchTokenStep(s: State, a: Action)
    requires Enabled(s, a) && (a.Exit? || a.Record? || a.CloseBroker? || a.Done?) && TokenOk(s.tokens[a.t])
    ensures TokenOk(Apply(s, a).tokens[a.t])
  {
  }

  lemma RemoveTokenStep(s: State, a: Action)
    requires Enabled(s, a) && (a.Remove? || a.Deliver?) && TokenOk(s.tokens[a.t]) && Linked(s, a.t)
    ensures TokenOk(Apply(s, a).tokens[a.t])
  {
  }

  lemma OtherTokenStep(s: State, a: Action)
    requires Enabled(s, a) && (a.Stop? || a.AttachEnter? || a.AttachLeave?)
    requires TokenOk(s.tokens[Target(s, a).value]) && (a.Stop? ==> RegistryOk(s, a.id))
    ensures TokenOk(Apply(s, a).tokens[Target(s, a).value])
  {
  }

  lemma TokenStep(s: State, a: Action, t: nat)
    requires TokensInv(s) && MapsInv(s) && Enabled(s, a) && t < |Apply(s, a).tokens|
    ensures TokenOk(Apply(s, a).tokens[t])
  {
    if t == |s.tokens| {
      NewTokenOk(s, a);
    } else {
      assert TokenOk(s.tokens[t]) && Linked(s, t);
      if Target(s, a) != Some(t) {
        if a.Deliver? {
          assert Linked(s, a.t);
        }
        Untouched(s, a, t);
      } else if StartAction(a) {
        StartTokenStep(s, a);
      } else if a.Remove? || a.Deliver? {
        RemoveTokenStep(s, a);
      } else if a.Stop? || a.AttachEnter? || a.AttachLeave? {
        OtherTokenStep(s, a);
      } else {
        WatchTokenStep(s, a);
      }
    }
  }

  lemma NewTokenOk(s: State, a: Action)
    requires Enabled(s, a) && |s.tokens| < |Apply(s, a).tokens|
    ensures |Apply(s, a).tokens| == |s.tokens| + 1 && a.StartCheck?
    ensures var tok := Apply(s, a).tokens[|s.tokens|]; tok == NewToken(a.id, a.attach) && TokenOk(tok)
  {
  }

  // ------------------------------------------------- the maps and what points into them

  lemma LinkRegister(s: State, a: Action, t: nat)
    requires Enabled(s, a) && a.Register? && Distinct(s, a) && t < |s.tokens| && Linked(s, t) && TokenOk(s.tokens[a.t])
    ensures Linked(Apply(s, a), t)
  {
  }

  lemma LinkRemove(s: State, a: Action, t: nat)
    requires Enabled(s, a) && a.Remove? && t < |s.tokens| && Linked(s, t) && Linked(s, a.t)
    ensures Linked(Apply(s, a), t)
  {
  }

  /** Where neither map moves and the Start keeps its place in them, the link stays. */
  lemma LinkFrame(s: State, u: State, a: Action, t: nat)
    requires t < |s.tokens| && t < |u.tokens| && Linked(s, t) && Framed(a, t, s.tokens[t], u.tokens[t])
    requires u.registry == s.registry && u.results == s.results && !a.Register? && !a.Remove?
    ensures Linked(u, t)
  {
  }

  lemma LinkStep(s: State, a: Action, t: nat)
    requires TokensInv(s) && Enabled(s, a) && Distinct(s, a) && t < |Apply(s, a).tokens|
    ensures Linked(Apply(s, a), t)
  {
    if t == |s.tokens| {
      NewTokenOk(s, a);
    } else {
      assert Linked(s, t);
      if a.Register? {
        assert TokenOk(s.tokens[a.t]);
        LinkRegister(s, a, t);
      } else if a.Remove? {
        assert Linked(s, a.t);
        LinkRemove(s, a, t);
      } else {
        MapsFrame(s, a);
        TokenFrame(s, a, t);
        LinkFrame(s, Apply(s, a), a, t);
      }
    }
  }

  lemma RegistryStep(s: State, a: Action, id: Id)
    requires MapsInv(s) && Enabled(s, a) && id in Apply(s, a).registry
    ensures RegistryOk(Apply(s, a), id)
  {
    if a.Register? {
      RegistryRegister(s, a, id);
    } else if a.Remove? {
      RegistryRemove(s, a, id);
    } else {
      MapsFrame(s, a);
      hide Apply;
      assert RegistryOk(s, id);
      TokenFrame(s, a, s.registry[id]);
    }
  }

  lemma RegistryRegister(s: State, a: Action, id: Id)
    requires Enabled(s, a) && a.Register? && id in Apply(s, a).registry && (id in s.registry ==> RegistryOk(s, id))
    ensures RegistryOk(Apply(s, a), id)
  {
  }

  lemma RegistryRemove(s: State, a: Action, id: Id)
    requires Enabled(s, a) && a.Remove? && id in Apply(s, a).registry
    requires id in s.registry && RegistryOk(s, id)
    ensures RegistryOk(Apply(s, a), id)
  {
  }

  lemma ResultStep(s: State, a: Action, id: Id)
    requires MapsInv(s) && Enabled(s, a) && id in Apply(s, a).results
    ensures ResultOk(Apply(s, a), id)
  {
    if a.Register? || a.Remove? {
      ResultMoved(s, a, id);
    } else {
      MapsFrame(s, a);
      hide Apply;
      assert ResultOk(s, id);
      TokenFrame(s, a, s.results[id]);
    }
  }

  lemma ResultMoved(s: State, a: Action, id: Id)
    requires Enabled(s, a) && (a.Register? || a.Remove?) && id in Apply(s, a).results
    requires id in s.results ==> ResultOk(s, id)
    ensures ResultOk(Apply(s, a), id)
  {
  }

  // ------------------------------------------------- waiters

  lemma WaitStep(s: State, a: Action, k: nat)
    requires TokensInv(s) && MapsInv(s) && WaitsInv(s) && Enabled(s, a) && k < |Apply(s, a).waits|
    ensures WaitOk(Apply(s, a), Apply(s, a).waits[k])
  {
    if a.WaitLook? {
      assert ResultOk(s, a.id);
      assert k < |s.waits| ==> WaitOk(s, s.waits[k]);
    } else {
      assert k < |s.waits|;
      assert WaitOk(s, s.waits[k]);
      var t := s.waits[k].token;
      assert TokenOk(s.tokens[t]);
      if a.WaitGet? || a.WaitCancel? {
      } else if a.Deliver? {
        assert Linked(s, a.t) && TokenOk(s.tokens[a.t]);
      } else {
        MapsFrame(s, a);
        TokenFrame(s, a, t);
        hide Apply;
      }
    }
  }

  // ------------------------------------------------- attach counts

  lemma {:induction false} InProgressUpdate(attaches: seq<Attach>, k: nat, now: Attach, t: nat)
    requires k < |attaches|
    ensures InProgress(attaches[k := now], t)
            == InProgress(attaches, t) - (if Counts(attaches[k], t) then 1 else 0)
               + (if Counts(now, t) then 1 else 0)
    decreases |attaches|
  {
    var n := |attaches| - 1;
    if k == n {
      assert attaches[k := now][..n] == attaches[..n];
    } else {
      assert attaches[k := now][..n] == attaches[..n][k := now];
      InProgressUpdate(attaches[..n], k, now, t);
    }
  }

  /** No AttachWith can be in progress on a Start that does not exist yet. */
  lemma {:induction false} InProgressNone(attaches: seq<Attach>, t: nat)
    requires forall k :: 0 <= k < |attaches| ==> attaches[k].token != t
    ensures InProgress(attaches, t) == 0
    decreases |attaches|
  {
    if attaches != [] {
      InProgressNone(attaches[..|attaches| - 1], t);
    }
  }

  lemma AttachCountStep(s: State, a: Action, t: nat)
    requires MapsInv(s) && AttachInv(s) && Enabled(s, a) && t < |Apply(s, a).tokens|
    ensures Apply(s, a).tokens[t].attachCount == InProgress(Apply(s, a).attaches, t)
  {
    if t == |s.tokens| {
      NewTokenOk(s, a);
      InProgressNone(s.attaches, t);
    } else if a.AttachEnter? {
      InProgressUpdate(s.attaches, a.k, s.attaches[a.k].(pc := Counted), t);
    } else if a.AttachLeave? {
      InProgressUpdate(s.attaches, a.k, s.attaches[a.k].(pc := AttachPc.Left), t);
    } else if a.AttachLook? {
      assert Apply(s, a).attaches[..|s.attaches|] == s.attaches;
    } else {
      MapsFrame(s, a);
      if StartAction(a) {
        CountStart(s, a, t);
      } else {
        CountOther(s, a, t);
      }
    }
  }

  lemma CountStart(s: State, a: Action, t: nat)
    requires Enabled(s, a) && StartAction(a) && t < |s.tokens|
    ensures t < |Apply(s, a).tokens| && Apply(s, a).tokens[t].attachCount == s.tokens[t].attachCount
  {
  }

  lemma CountOther(s: State, a: Action, t: nat)
    requires Enabled(s, a) && !StartAction(a) && !a.AttachEnter? && !a.AttachLeave? && t < |s.tokens|
    ensures t < |Apply(s, a).tokens| && Apply(s, a).tokens[t].attachCount == s.tokens[t].attachCount
  {
  }

  lemma AttachTargets(s: State, a: Action, k: nat)
    requires MapsInv(s) && AttachInv(s) && Enabled(s, a) && k < |Apply(s, a).attaches|
    ensures Apply(s, a).attaches[k].token < |Apply(s, a).tokens|
  {
    MapsFrame(s, a);
    if a.AttachLook? {
      assert RegistryOk(s, a.id);
    }
  }

  // ------------------------------------------------- the wait group

  lemma {:induction false} WatchingUpdate(tokens: seq<Token>, t: nat, now: Token)
    requires t < |tokens|
    ensures Watching(tokens[t := now])
            == Watching(tokens) - (if Busy(tokens[t].phase) then 1 else 0) + (if Busy(now.phase) then 1 else 0)
    decreases |tokens|
  {
    var n := |tokens| - 1;
    if t == n {
      assert tokens[t := now][..n] == tokens[..n];
    } else {
      assert tokens[t := now][..n] == tokens[..n][t := now];
      WatchingUpdate(tokens[..n], t, now);
    }
  }

  /** A step rewrites the one record it targets, or appends a fresh one, or none. */
  lemma TokensShape(s: State, a: Action)
    requires Enabled(s, a) && (a.Deliver? ==> s.tokens[a.t].captured == Some(a.t))
    ensures var u := Apply(s, a);
            match Target(s, a)
            case Some(t) => t < |s.tokens| && t < |u.tokens| && u.tokens == s.tokens[t := u.tokens[t]]
            case None => u.tokens == s.tokens || (a.StartCheck? && u.tokens == s.tokens + [NewToken(a.id, a.attach)])
  {
  }

  /** The wait group counts the watches that have yet to sign off, whatever the ids, and never
      grows once the manager is stopped. */
  lemma WgStep(s: State, a: Action)
    requires WgInv(s) && Enabled(s, a)
    ensures WgInv(Apply(s, a)) && (s.stopped ==> Apply(s, a).wg <= s.wg)
  {
    hide Apply, Enabled, Target, Watching, Busy, StartAction, BusyKept;
    if a.Deliver? {
      DeliverBusy(s, a);
    } else if Target(s, a).Some? {
      WgTarget(s, a, Target(s, a).value);
    } else {
      WgAppend(s, a);
    }
    ShutFrame(s, a);
  }

  /** The count moves with the wait group. */
  predicate Tracks(s: State, u: State) {
    u.wg - s.wg == Watching(u.tokens) - Watching(s.tokens) && (s.stopped ==> u.wg <= s.wg)
  }

  lemma WgTarget(s: State, a: Action, t: nat)
    requires Enabled(s, a) && !a.Deliver? && Target(s, a) == Some(t)
    ensures Tracks(s, Apply(s, a))
  {
    TokensShape(s, a);
    hide Apply, Enabled;
    WatchingUpdate(s.tokens, t, Apply(s, a).tokens[t]);
    if StartAction(a) {
      BusyStart(s, a, t);
    } else {
      BusyWatch(s, a, t);
    }
  }

  lemma WgAppend(s: State, a: Action)
    requires WgInv(s) && Enabled(s, a) && Target(s, a) == None
    ensures Tracks(s, Apply(s, a))
  {
    TokensShape(s, a);
    ShutFrame(s, a);
    hide Apply, Enabled, Target;
    if Apply(s, a).tokens != s.tokens {
      NobodyNew(s.tokens, NewToken(a.id, a.attach));
    }
  }

  lemma NobodyNew(tokens: seq<Token>, tok: Token)
    requires !Busy(tok.phase)
    ensures Watching(tokens + [tok]) == Watching(tokens)
  {
    assert (tokens + [tok])[..|tokens|] == tokens;
  }

  /** Deliver moves a watch that stays busy, and touches one more record's result. */
  lemma DeliverBusy(s: State, a: Action)
    requires Enabled(s, a) && a.Deliver?
    ensures Apply(s, a).wg == s.wg && Watching(Apply(s, a).tokens) == Watching(s.tokens)
  {
    WatchingSame(s.tokens, Apply(s, a).tokens);
  }

  lemma {:induction false} WatchingSame(a: seq<Token>, b: seq<Token>)
    requires |a| == |b| && forall t :: 0 <= t < |a| ==> Busy(a[t].phase) == Busy(b[t].phase)
    ensures Watching(a) == Watching(b)
    decreases |a|
  {
    if a != [] {
      WatchingSame(a[..|a| - 1], b[..|b| - 1]);
    }
  }

  ghost predicate BusyKept(s: State, a: Action, t: nat)
    requires Enabled(s, a) && t < |s.tokens| && t < |Apply(s, a).tokens|
  {
    var was, now := Busy(s.tokens[t].phase), Busy(Apply(s, a).tokens[t].phase);
    && Apply(s, a).wg == s.wg - (if was then 1 else 0) + (if now then 1 else 0)
    && (s.stopped ==> Apply(s, a).wg <= s.wg)
  }

  lemma BusyStart(s: State, a: Action, t: nat)
    requires Enabled(s, a) && StartAction(a) && a.t == t && t < |s.tokens|
    ensures t < |Apply(s, a).tokens| && BusyKept(s, a, t)
  {
  }

  lemma BusyWatch(s: State, a: Action, t: nat)
    requires Enabled(s, a) && !StartAction(a) && Target(s, a) == Some(t) && t < |s.tokens|
    requires a.Deliver? ==> s.tokens[t].captured == Some(t)
    ensures t < |Apply(s, a).tokens| && BusyKept(s, a, t)
  {
  }

  lemma ShutFrame(s: State, a: Action)
    requires Enabled(s, a) && (s.stopped <==> s.shut != NotCalled)
    ensures Apply(s, a).stopped <==> Apply(s, a).shut != NotCalled
    ensures Target(s, a) == None ==> Apply(s, a).wg == s.wg
    ensures Apply(s, a).shut == ReturnedNil ==> s.stopped && (s.shut == ReturnedNil || s.wg == 0)
    ensures s.stopped ==> Apply(s, a).stopped
  {
  }

  // ------------------------------------------------- all together

  lemma InvStep(s: State, a: Action)
    requires Inv(s) && Enabled(s, a) && Distinct(s, a)
    ensures Inv(Apply(s, a))
  {
    var u := Apply(s, a);
    forall t | 0 <= t < |u.tokens|
      ensures TokenOk(u.tokens[t]) && Linked(u, t)
    {
      TokenStep(s, a, t);
      LinkStep(s, a, t);
    }
    MapsStep(s, a);
    forall k | 0 <= k < |u.waits|
      ensures WaitOk(u, u.waits[k])
    {
      WaitStep(s, a, k);
    }
    AttachStep(s, a);
    WgStep(s, a);
  }

  lemma MapsStep(s: State, a: Action)
    requires MapsInv(s) && Enabled(s, a)
    ensures MapsInv(Apply(s, a))
  {
    var u := Apply(s, a);
    forall id | id in u.registry
      ensures RegistryOk(u, id)
    {
      RegistryStep(s, a, id);
    }
    forall id | id in u.results
      ensures ResultOk(u, id)
    {
      ResultStep(s, a, id);
    }
  }

  lemma AttachStep(s: State, a: Action)
    requires MapsInv(s) && AttachInv(s) && Enabled(s, a)
    ensures AttachInv(Apply(s, a))
  {
    var u := Apply(s, a);
    forall k | 0 <= k < |u.attaches|
      ensures u.attaches[k].token < |u.tokens|
    {
      AttachTargets(s, a, k);
    }
    forall t: nat | t < |u.tokens|
      ensures u.tokens[t].attachCount == InProgress(u.attaches, t)
    {
      AttachCountStep(s, a, t);
    }
  }

  lemma InitInv()
    ensures Inv(INIT)
  {
  }

  lemma {:induction false} InvRun(s: State, run: seq<Action>)
    requires Inv(s) && Exec(s, run).Some? && DistinctRun(s, run)
    ensures Inv(Exec(s, run).value)
    decreases |run|
  {
    if run != [] {
      InvStep(s, run[0]);
      InvRun(Apply(s, run[0]), run[1..]);
    }
  }
}
