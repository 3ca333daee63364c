/** What holds in every run of the manager, also when a live id is registered again: the maps,
    the wait group, the attach counts, and what the sink and the brokers see. */
module ManagerEveryRun {
  import opened Common
  import opened ManagerProtocol
  import opened ManagerInvariant

  /** The part of one Start's bookkeeping that nobody else's id can disturb: what the sink has
      been told, how often its broker was closed, and that its end is known once its watch
      has passed its lock region. */
  predicate RecordOk(tok: Token) {
    var p := tok.phase;
    && tok.trace == TraceAt(tok, tok.seenKilling)
    && tok.brokerCloses == (if tok.attach && BrokerDone(p) then 1 else 0)
    && (tok.exit.Some? ==> HasSession(p))
    && (p.Watched? && !p.watch.Waiting? ==> tok.exit.Some?)
    && (tok.seenKilling ==> p.Watched? && !p.watch.Waiting?)
  }

  ghost predicate EveryRun(s: State) {
    && (forall t :: 0 <= t < |s.tokens| ==> RecordOk(s.tokens[t]))
    && MapsInv(s) && AttachInv(s) && WgInv(s)
  }

  lemma RecordStart(s: State, a: Action)
    requires Enabled(s, a) && StartAction(a) && RecordOk(s.tokens[a.t])
    ensures RecordOk(Apply(s, a).tokens[a.t])
  {
  }

  lemma RecordWatch(s: State, a: Action)
    requires Enabled(s, a) && (a.Exit? || a.Remove? || a.Record? || a.CloseBroker? || a.Done?) && RecordOk(s.tokens[a.t])
    ensures RecordOk(Apply(s, a).tokens[a.t])
  {
  }

  lemma RecordOther(s: State, a: Action, t: nat)
    requires Enabled(s, a) && (a.Stop? || a.AttachEnter? || a.AttachLeave?)
    requires Target(s, a) == Some(t) && t < |s.tokens| && RecordOk(s.tokens[t])
    ensures t < |Apply(s, a).tokens| && RecordOk(Apply(s, a).tokens[t])
  {
  }

  lemma RecordDeliver(s: State, a: Action, t: nat)
    requires Enabled(s, a) && a.Deliver? && t < |s.tokens| && RecordOk(s.tokens[t])
    ensures t < |Apply(s, a).tokens| && RecordOk(Apply(s, a).tokens[t])
  {
    assert Apply(s, a) == DeliverStep(s, a.t);
    hide Apply;
    DeliverOnly(s, a.t, t);
  }

  /** Deliver moves its own watch on and touches nothing else but results. */
  lemma DeliverOnly(s: State, d: nat, t: nat)
    requires InPhase(s, d, Watched(Closed)) && t < |s.tokens|
    ensures t < |DeliverStep(s, d).tokens|
    ensures var was, now := s.tokens[t], DeliverStep(s, d).tokens[t];
            && now.phase == (if t == d then Watched(Delivered) else was.phase)
            && now == was.(phase := now.phase, given := now.given, deliveries := now.deliveries)
  {
  }

  lemma RecordStep(s: State, a: Action, t: nat)
    requires Enabled(s, a) && t < |Apply(s, a).tokens| && (t < |s.tokens| ==> RecordOk(s.tokens[t]))
    ensures RecordOk(Apply(s, a).tokens[t])
  {
    if t >= |s.tokens| {
      NewTokenOk(s, a);
    } else if a.Deliver? {
      RecordDeliver(s, a, t);
    } else if Target(s, a) != Some(t) {
      Untouched(s, a, t);
    } else if StartAction(a) {
      RecordStart(s, a);
    } else if a.Stop? || a.AttachEnter? || a.AttachLeave? {
      RecordOther(s, a, t);
    } else {
      RecordWatch(s, a);
    }
  }

  /** Every step keeps it, with no condition on ids. */
  lemma EveryStep(s: State, a: Action)
    requires EveryRun(s) && Enabled(s, a)
    ensures EveryRun(Apply(s, a))
  {
    var u := Apply(s, a);
    MapsStep(s, a);
    AttachStep(s, a);
    WgStep(s, a);
    forall t | 0 <= t < |u.tokens|
      ensures RecordOk(u.tokens[t])
    {
      RecordStep(s, a, t);
    }
  }

  lemma {:induction false} EveryRunKept(s: State, run: seq<Action>)
    requires EveryRun(s) && Exec(s, run).Some?
    ensures EveryRun(Exec(s, run).value)
    decreases |run|
  {
    if run != [] {
      EveryStep(s, run[0]);
      EveryRunKept(Apply(s, run[0]), run[1..]);
    }
  }

  lemma InitEveryRun()
    ensures EveryRun(INIT)
  {
  }

  // ------------------------------------------------- what a watch saw

  /** When t's watch removed what was registered under its id, that had been stopped. */
  predicate SawStop(s: State, run: seq<Action>, t: nat)
    requires Exec(s, run).Some?
    decreases |run|
  {
    run != []
    && ((run[0] == Remove(t) && Marked(s, s.tokens[t].id)) || SawStop(Apply(s, run[0]), run[1..], t))
  }

  predicate Saw(s: State, t: nat) {
    t < |s.tokens| && s.tokens[t].seenKilling
  }

  lemma SawStart(s: State, a: Action, t: nat)
    requires Enabled(s, a) && StartAction(a) && t < |s.tokens|
    ensures Saw(Apply(s, a), t) <==> Saw(s, t)
  {
  }

  lemma SawOther(s: State, a: Action, t: nat)
    requires Enabled(s, a) && !StartAction(a) && t < |s.tokens| && RecordOk(s.tokens[t])
    ensures Saw(Apply(s, a), t) <==> Saw(s, t) || (a == Remove(t) && Marked(s, s.tokens[t].id))
  {
    hide RegisterStep;
    if a.Deliver? {
      assert Apply(s, a) == DeliverStep(s, a.t);
      hide Apply;
      DeliverOnly(s, a.t, t);
    } else {
      hide DeliverStep;
    }
  }

  lemma SawStep(s: State, a: Action, t: nat)
    requires EveryRun(s) && Enabled(s, a)
    ensures Saw(Apply(s, a), t) <==> Saw(s, t) || (a == Remove(t) && Marked(s, s.tokens[t].id))
  {
    if t >= |s.tokens| {
      if t < |Apply(s, a).tokens| {
        NewTokenOk(s, a);
      }
    } else if StartAction(a) {
      SawStart(s, a, t);
    } else {
      SawOther(s, a, t);
    }
  }

  lemma {:induction false} SawIsSawStop(s: State, run: seq<Action>, t: nat)
    requires EveryRun(s) && Exec(s, run).Some?
    ensures Saw(Exec(s, run).value, t) <==> Saw(s, t) || SawStop(s, run, t)
    decreases |run|
  {
    if run != [] {
      SawStep(s, run[0], t);
      EveryStep(s, run[0]);
      SawIsSawStop(Apply(s, run[0]), run[1..], t);
    }
  }
}
