/** The manager in place: the registry and result maps, the stopped flag and the wait group,
    with each lock region proved to be the transition of `ManagerProtocol`, and Start and watch
    composed from them. */
module SessionManager {
  import opened Common
  import opened ManagerProtocol
  import opened ManagerEveryRun

  class Entry {
    ghost const token: nat           // which Start made it
    var killing: bool
    var attachCount: nat

    constructor (ghost token: nat)
      ensures this.token == token && !killing && attachCount == 0
    {
      this.token := token;
      killing, attachCount := false, 0;
    }
  }

  /** A result; closing `done` a second time panics, after the fields have been set again. */
  class SessionResult {
    ghost const token: nat
    var done: bool
    var exitCode: int
    var exitErr: Option<string>

    constructor (ghost token: nat)
      ensures this.token == token && !done
    {
      this.token := token;
      done, exitCode, exitErr := false, 0, None;
    }

    method Publish(end: End) returns (panics: bool)
      modifies this
      ensures done && exitCode == end.code && exitErr == end.err
      ensures panics == old(done)
    {
      exitCode, exitErr := end.code, end.err;
      panics := done;
      done := true;
    }
  }

  /** What the outside sees, in order. */
  datatype Effect = SinkTold(id: Id, event: SinkEvent) | BrokerClosed(id: Id) | SessionStopped(id: Id) | ResultOut(id: Id)

  datatype StartResult = Refused | SpawnError | TurnedAway | Started

  /** What the sink is told of one session, in order. */
  function Told(log: seq<Effect>, id: Id): seq<SinkEvent> {
    if log == [] then []
    else
      var last := log[|log| - 1];
      Told(log[..|log| - 1], id) + if last.SinkTold? && last.id == id then [last.event] else []
  }

  /** How often the broker of one session is closed. */
  function Closings(log: seq<Effect>, id: Id): nat {
    if log == [] then 0 else Closings(log[..|log| - 1], id) + if log[|log| - 1] == BrokerClosed(id) then 1 else 0
  }

  lemma {:induction false} LogConcat(a: seq<Effect>, b: seq<Effect>, id: Id)
    ensures Told(a + b, id) == Told(a, id) + Told(b, id) && Closings(a + b, id) == Closings(a, id) + Closings(b, id)
    decreases |b|
  {
    if b == [] {
      assert a + b == a;
    } else {
      var front := b[..|b| - 1];
      assert (a + b)[..|a + b| - 1] == a + front;
      LogConcat(a, front, id);
    }
  }

  lemma LogOne(e: Effect, id: Id)
    ensures Told([e], id) == if e.SinkTold? && e.id == id then [e.event] else []
    ensures Closings([e], id) == if e == BrokerClosed(id) then 1 else 0
    ensures Told([], id) == [] && Closings([], id) == 0
  {
    assert [e][..0] == [];
  }

  function IfAttached(attach: bool, id: Id): seq<Effect> {
    if attach then [BrokerClosed(id)] else []
  }

  ghost function EntryTokens(m: map<Id, Entry>): map<Id, nat> {
    map id | id in m :: m[id].token
  }

  ghost function ResultTokens(m: map<Id, SessionResult>): map<Id, nat> {
    map id | id in m :: m[id].token
  }

  lemma TokensFiled(m: map<Id, Entry>, r: map<Id, SessionResult>, id: Id, e: Entry, x: SessionResult)
    ensures EntryTokens(m[id := e]) == EntryTokens(m)[id := e.token]
    ensures ResultTokens(r[id := x]) == ResultTokens(r)[id := x.token]
  {
  }

  lemma TokensRemoved(m: map<Id, Entry>, id: Id)
    ensures EntryTokens(m - {id}) == EntryTokens(m) - {id}
  {
  }

  class Manager {
    var registry: map<Id, Entry>
    var results: map<Id, SessionResult>
    var stopped: bool
    var wg: int
    var log: seq<Effect>

    ghost function Entries(): set<Entry>
      reads `registry
    {
      set id | id in registry :: registry[id]
    }

    /** The fields are those of s, with its Starts told apart by their tokens. */
    ghost predicate Agrees(s: State)
      reads `registry, `results, `stopped, `wg, Entries()
    {
      && s.registry == EntryTokens(registry) && s.results == ResultTokens(results)
      && s.stopped == stopped && s.wg == wg
      && (forall id :: id in registry ==> Mirrors(s, id, registry[id]))
    }

    static ghost predicate Mirrors(s: State, id: Id, e: Entry)
      reads e
    {
      && e.token < |s.tokens| && s.tokens[e.token].id == id
      && s.tokens[e.token].killing == e.killing && s.tokens[e.token].attachCount == e.attachCount
    }

    constructor ()
      ensures Agrees(INIT) && log == []
    {
      registry, results, stopped, wg, log := map[], map[], false, 0, [];
    }

    // -------------------------------------------- lock regions

    /** Start's second lock region. */
    method Register(id: Id, ghost s: State, ghost t: nat) returns (ok: bool)
      requires Agrees(s) && Enabled(s, Action.Register(t))
      requires s.tokens[t].id == id && !s.tokens[t].killing && s.tokens[t].attachCount == 0
      requires forall other :: other in registry ==> registry[other].token != t
      modifies `registry, `results, `wg
      ensures Agrees(RegisterStep(s, t))
      ensures ok == !stopped && (!ok ==> registry == old(registry) && results == old(results))
      ensures ok ==> id in registry && fresh(registry[id]) && id in results && fresh(results[id]) && !results[id].done
    {
      hide Apply;
      if stopped {
        return false;
      }
      var e := new Entry(t);
      var r := new SessionResult(t);
      TokensFiled(registry, results, id, e, r);
      hide EntryTokens, ResultTokens;
      registry, results := registry[id := e], results[id := r];
      wg := wg + 1;
      ok := true;
    }

    /** The watch's lock region. */
    method Remove(id: Id, ghost s: State, ghost t: nat) returns (killing: bool, result: Option<SessionResult>)
      requires Agrees(s) && Enabled(s, Action.Remove(t)) && s.tokens[t].id == id
      modifies `registry
      ensures Agrees(RemoveStep(s, t))
      ensures registry == old(registry) - {id} && killing == RemoveStep(s, t).tokens[t].seenKilling
      ensures result == if id in results then Some(results[id]) else None
      ensures RemoveStep(s, t).tokens[t].captured == if result.Some? then Some(result.value.token) else None
    {
      killing := false;
      if id in registry {
        killing := registry[id].killing;
        TokensRemoved(registry, id);
        registry := registry - {id};
      }
      result := if id in results then Some(results[id]) else None;
    }

    /** Stop's lock region; false when no such session is registered. */
    method MarkKilling(id: Id, ghost s: State) returns (ok: bool)
      requires Agrees(s)
      modifies Entries()`killing
      ensures ok == (id in registry)
      ensures Agrees(if ok then Apply(s, Action.Stop(id)) else s)
    {
      ok := id in registry;
      if ok {
        registry[id].killing := true;
      }
    }

    /** AttachWith's increment. */
    method EnterAttach(e: Entry, ghost s: State, ghost k: nat)
      requires Agrees(s) && Enabled(s, AttachEnter(k)) && s.attaches[k].token == e.token
      requires s.tokens[e.token].attachCount == e.attachCount
      requires forall id :: id in registry && registry[id].token == e.token ==> registry[id] == e
      modifies e`attachCount
      ensures Agrees(Apply(s, AttachEnter(k)))
      ensures e.attachCount == Apply(s, AttachEnter(k)).tokens[e.token].attachCount
    {
      e.attachCount := e.attachCount + 1;
    }

    /** AttachWith's deferred decrement. */
    method LeaveAttach(e: Entry, ghost s: State, ghost k: nat)
      requires Agrees(s) && Enabled(s, AttachLeave(k)) && s.attaches[k].token == e.token
      requires s.tokens[e.token].attachCount == e.attachCount
      requires forall id :: id in registry && registry[id].token == e.token ==> registry[id] == e
      modifies e`attachCount
      ensures Agrees(Apply(s, AttachLeave(k)))
      ensures e.attachCount == Apply(s, AttachLeave(k)).tokens[e.token].attachCount
    {
      if e.attachCount > 0 {
        e.attachCount := e.attachCount - 1;
      }
    }

    /** Shutdown's lock region; false for every call after the first. */
    method BeginShutdown(ghost s: State) returns (first: bool)
      requires Agrees(s)
      modifies `stopped
      ensures first == !old(stopped)
      ensures Agrees(Apply(s, if first then ShutBegin else ShutAgain))
    {
      if stopped {
        return false;
      }
      stopped := true;
      first := true;
    }

    // -------------------------------------------- Start and watch

    /** The part of Start between its two looks at `stopped`. */
    method Launching(id: Id, attach: bool, spawns: bool, ghost s: State, ghost t: nat) returns (ghost u: State)
      requires Agrees(s) && InPhase(s, t, Checked) && s.tokens[t] == NewToken(id, attach)
      requires forall other :: other in registry ==> registry[other].token != t
      modifies `log
      ensures Agrees(u) && u.stopped == s.stopped && t < |u.tokens|
      ensures log == old(log) + if spawns then StartLog(Started, id, attach) else StartLog(SpawnError, id, attach)
      ensures var tok := u.tokens[t];
              && tok.id == id && !tok.killing && tok.attachCount == 0
              && tok.phase == (if spawns then Ran else Failed) && tok.trace == if spawns then RUNNING else FAILED
    {
      hide Apply, EntryTokens, ResultTokens;
      log := log + [SinkTold(id, SinkEvent.Launching)];
      u := Go(s, Launch(t), t);
      if spawns {
        u := Go(u, SpawnOk(t), t);
        log := log + [SinkTold(id, Running)];
        u := Go(u, RunRecord(t), t);
      } else {
        u := FailLaunch(id, attach, u, t);
      }
    }

    /** The runtime refused: the broker is closed and the failure recorded. */
    method FailLaunch(id: Id, attach: bool, ghost s: State, ghost t: nat) returns (ghost u: State)
      requires Agrees(s) && InPhase(s, t, Launched)
      requires forall other :: other in registry ==> registry[other].token != t
      modifies `log
      ensures Agrees(u) && u.stopped == s.stopped && t < |u.tokens|
      ensures log == old(log) + (IfAttached(attach, id) + [SinkTold(id, Terminal(false, 1))])
      ensures u.tokens[t].id == s.tokens[t].id && u.tokens[t].killing == s.tokens[t].killing
      ensures u.tokens[t].attachCount == s.tokens[t].attachCount
      ensures u.tokens[t].phase == Failed && u.tokens[t].trace == s.tokens[t].trace + [Terminal(false, 1)]
    {
      hide Apply, EntryTokens, ResultTokens;
      if attach {
        log := log + [BrokerClosed(id)];
      }
      u := Go(s, SpawnFail(t), t);
      log := log + [SinkTold(id, Terminal(false, 1))];
      u := Go(u, FailRecord(t), t);
    }

    /** Start, up to its hand-over to watch. `spawns` is whether the runtime starts the
        session; `shutMeanwhile` whether a Shutdown falls between the two looks at `stopped`. */
    method Start(id: Id, attach: bool, spawns: bool, shutMeanwhile: bool, ghost s: State, ghost t: nat)
      returns (r: StartResult, ghost u: State)
      requires Agrees(s)
      requires !stopped ==> InPhase(s, t, Checked) && s.tokens[t] == NewToken(id, attach)
      requires forall other :: other in registry ==> registry[other].token != t
      modifies `registry, `results, `wg, `stopped, `log
      ensures r == if old(stopped) then Refused else if !spawns then SpawnError
                   else if shutMeanwhile then TurnedAway else Started
      ensures log == old(log) + StartLog(r, id, attach) && Agrees(u)
      ensures r.Refused? ==> u == s
      ensures !r.Refused? ==> t < |u.tokens| && u.tokens[t].phase == PhaseAfter(r) && u.tokens[t].trace == TraceAfter(r)
    {
      hide Apply, EntryTokens, ResultTokens;
      if stopped {
        return Refused, s;
      }
      u := Launching(id, attach, spawns, s, t);
      if !spawns {
        return SpawnError, u;
      }
      if shutMeanwhile {
        u := ShutDown(u);
      }
      var ok := Register(id, u, t);
      u := RegisterStep(u, t);
      if !ok {
        u := TurnAway(id, attach, u, t);
        return TurnedAway, u;
      }
      r := Started;
    }

    /** Stopped meanwhile: the broker is closed and the new session stopped. */
    method TurnAway(id: Id, attach: bool, ghost s: State, ghost t: nat) returns (ghost u: State)
      requires Agrees(s) && InPhase(s, t, Rejecting)
      requires forall other :: other in registry ==> registry[other].token != t
      modifies `log
      ensures Agrees(u) && t < |u.tokens| && u.tokens[t].phase == Rejected && u.tokens[t].trace == s.tokens[t].trace
      ensures log == old(log) + (IfAttached(attach, id) + [SessionStopped(id)])
    {
      hide Apply, EntryTokens, ResultTokens;
      if attach {
        log := log + [BrokerClosed(id)];
      }
      log := log + [SessionStopped(id)];
      u := Go(s, RejectClose(t), t);
    }

    /** Another caller's Shutdown. */
    method ShutDown(ghost s: State) returns (ghost u: State)
      requires Agrees(s) && !stopped
      modifies `stopped
      ensures stopped && Agrees(u) && u.stopped && u == Apply(s, ShutBegin) && u.tokens == s.tokens
    {
      var first := BeginShutdown(s);
      u := Apply(s, ShutBegin);
    }

    /** A step of a Start that is not registered touches none of the fields. */
    lemma Go(s: State, a: Action, t: nat) returns (u: State)
      requires Agrees(s) && a in OwnSteps(t) && Enabled(s, a)
      requires forall other :: other in registry ==> registry[other].token != t
      ensures u == Apply(s, a) && Agrees(u) && u.stopped == s.stopped && Moved(s, a, t, u)
    {
      u := Apply(s, a);
    }

    /** The watch behind a registered session that has ended: it takes whatever is registered
        under the id out of the registry, records the end, closes the broker and only then gives
        the end out, in whatever result is filed under the id. `panics` when that has been given
        out already, which only a duplicate live id can bring about; the process is gone then,
        and the watch has got as far as closing the broker. */
    method Watch(id: Id, attach: bool, end: End, ghost s: State, ghost t: nat) returns (panics: bool, ghost u: State)
      requires Agrees(s) && MapsInv(s) && InPhase(s, t, Watched(Waiting)) && s.tokens[t].exit == Some(end)
      requires s.tokens[t].id == id && s.tokens[t].attach == attach
      modifies `registry, `wg, `log, if id in results then {results[id]} else {}
      ensures panics <==> id in results && old(results[id].done)
      ensures log == old(log) + WatchLog(id, attach, id in old(registry) && old(registry[id].killing), end, id in results && !panics)
      ensures id in results ==> results[id].done && results[id].exitCode == end.code && results[id].exitErr == end.err
      ensures registry == old(registry) - {id} && wg == old(wg) - (if panics then 0 else 1)
      ensures Agrees(u) && InPhase(u, t, Watched(if panics then Closed else Finished))
      ensures u.tokens[t].trace == s.tokens[t].trace + Told(log[|old(log)|..], id)
      ensures u.tokens[t].brokerCloses == s.tokens[t].brokerCloses + Closings(log[|old(log)|..], id)
      ensures !panics && id in results ==>
                var r := results[id].token;
                && r < |s.tokens| && r < |u.tokens|
                && u.tokens[r].deliveries == s.tokens[r].deliveries + 1 && u.tokens[r].given == Some(end)
    {
      hide Apply, Enabled, EntryTokens, DeliverStep, RemoveStep, Marked, MapsInv, SignedTo, Mirrors, Told, Closings;
      MarkIsKilling(id, s);
      Removing(s, t);
      FiledHere(s, id);
      var killing, result := Remove(id, s, t);
      ghost var s1 := RemoveStep(s, t);
      log := log + [SinkTold(id, Terminal(killing || end.code == 0, end.code))];
      panics, u := HandOver(id, attach, end, result, s1, t);
      SignedOff(s1, u, t, if panics then Closed else Finished);
      Assoc(old(log), [SinkTold(id, Terminal(killing || end.code == 0, end.code))],
            IfAttached(attach, id) + Out(id, id in results && !panics));
      TellsSuffix(old(log), id, attach, killing, end, id in results && !panics);
    }

    lemma MarkIsKilling(id: Id, s: State)
      requires Agrees(s)
      ensures Marked(s, id) == (id in registry && registry[id].killing)
    {
      if id in registry {
        assert Mirrors(s, id, registry[id]);
      }
    }

    /** The end recorded: close the broker, give the end out, and sign off. */
    method HandOver(id: Id, attach: bool, end: End, result: Option<SessionResult>, ghost s: State, ghost t: nat)
      returns (panics: bool, ghost u: State)
      requires Agrees(s) && InPhase(s, t, Watched(Removed)) && s.tokens[t].exit == Some(end)
      requires s.tokens[t].captured == if result.Some? then Some(result.value.token) else None
      requires result.Some? ==> result.value.token < |s.tokens|
      modifies `wg, `log, if result.Some? then {result.value} else {}
      ensures panics <==> result.Some? && old(result.value.done)
      ensures log == old(log) + (IfAttached(attach, id) + Out(id, result.Some? && !panics))
      ensures result.Some? ==> result.value.done && result.value.exitCode == end.code && result.value.exitErr == end.err
      ensures wg == old(wg) - if panics then 0 else 1
      ensures Agrees(u) && SignedTo(s, u, t, if panics then Closed else Finished)
    {
      hide Apply, Enabled, EntryTokens, ResultTokens, DeliverStep, SignedTo;
      panics := false;
      if attach {
        log := log + [BrokerClosed(id)];
      }
      if result.Some? {
        panics := result.value.Publish(end);
        if panics {
          u := UpToClose(s, t);
          SignedWg(s, u, t, Closed);
          StillAgrees(s, u, t, Closed);
          return;
        }
        log := log + [ResultOut(id)];
      }
      wg := wg - 1;
      u := SignOff(s, t);
      SignedWg(s, u, t, Finished);
      StillAgrees(s, u, t, Finished);
    }

    lemma StillAgrees(s: State, u: State, t: nat, w: Watch)
      requires Agrees(s.(wg := wg)) && SignedTo(s, u, t, w) && u.wg == wg
      ensures Agrees(u)
    {
      hide EntryTokens, ResultTokens;
    }
  }

  function Out(id: Id, given: bool): seq<Effect> {
    if given then [ResultOut(id)] else []
  }

  function WatchLog(id: Id, attach: bool, killing: bool, end: End, given: bool): seq<Effect> {
    [SinkTold(id, Terminal(killing || end.code == 0, end.code))] + (IfAttached(attach, id) + Out(id, given))
  }

  lemma FiledHere(s: State, id: Id)
    requires MapsInv(s)
    ensures id in s.results ==> s.results[id] < |s.tokens|
  {
    assert id in s.results ==> ResultOk(s, id);
  }

  lemma Removing(s: State, t: nat)
    requires InPhase(s, t, Watched(Waiting))
    ensures s.tokens[t].exit.Some? ==> Enabled(s, Remove(t))
    ensures InPhase(RemoveStep(s, t), t, Watched(Removed)) && RemoveStep(s, t).results == s.results
    ensures |RemoveStep(s, t).tokens| == |s.tokens|
    ensures forall r :: 0 <= r < |s.tokens| ==> RemoveStep(s, t).tokens[r].deliveries == s.tokens[r].deliveries
    ensures var was, now := s.tokens[t], RemoveStep(s, t).tokens[t];
            && now.id == was.id && now.exit == was.exit && now.seenKilling == Marked(s, was.id)
            && now.attach == was.attach && now.trace == was.trace && now.brokerCloses == was.brokerCloses
            && now.captured == if was.id in s.results then Some(s.results[was.id]) else None
  {
  }

  /** Another Start's record once t's watch has given its end out, or before. */
  function Credited(s: State, t: nat, other: nat, out: bool): Token
    requires t < |s.tokens| && other < |s.tokens|
  {
    if out && s.tokens[t].captured == Some(other)
    then s.tokens[other].(given := s.tokens[t].exit, deliveries := s.tokens[other].deliveries + 1)
    else s.tokens[other]
  }

  /** The state a watch records last. */
  function LastWord(tok: Token): seq<SinkEvent> {
    if tok.exit == None then [] else [Terminal(tok.seenKilling || tok.exit.value.code == 0, tok.exit.value.code)]
  }

  /** u is s after its watch at t has moved on to w; the only other change is in the result that
      the watch holds. */
  ghost predicate SignedTo(s: State, u: State, t: nat, w: Watch) {
    && u.registry == s.registry && u.results == s.results && u.stopped == s.stopped
    && u.wg == s.wg - (if w.Finished? then 1 else 0)
    && |u.tokens| == |s.tokens| && InPhase(u, t, Watched(w))
    && var out := w.Delivered? || w.Finished?;
       && (forall other :: 0 <= other < |s.tokens| && other != t ==> u.tokens[other] == Credited(s, t, other, out))
       && var now, due := u.tokens[t], Credited(s, t, t, out);
          && now.id == due.id && now.killing == due.killing && now.attachCount == due.attachCount
          && now.exit == due.exit && now.captured == due.captured
          && now.given == due.given && now.deliveries == due.deliveries && now.attach == due.attach && now.seenKilling == due.seenKilling
          && now.trace == due.trace + (if w.Removed? then [] else LastWord(due))
          && now.brokerCloses == due.brokerCloses + if due.attach && !w.Removed? && !w.Recorded? then 1 else 0
  }

  lemma SignNext(s: State, now: State, a: Action, t: nat, w: Watch) returns (u: State)
    requires t < |s.tokens| && s.tokens[t].exit.Some? && SignedTo(s, now, t, w)
    requires (w == Removed && a == Record(t)) || (w == Watch.Recorded && a == CloseBroker(t)) || (w == Delivered && a == Done(t))
    ensures Enabled(now, a) && u == Apply(now, a)
    ensures SignedTo(s, u, t, if a.Record? then Watch.Recorded else if a.CloseBroker? then Closed else Finished)
  {
    hide RegisterStep, RemoveStep, DeliverStep;
    u := Apply(now, a);
  }

  lemma SignDeliver(s: State, now: State, t: nat) returns (u: State)
    requires t < |s.tokens| && s.tokens[t].exit.Some? && SignedTo(s, now, t, Closed)
    ensures Enabled(now, Deliver(t)) && u == Apply(now, Deliver(t)) && SignedTo(s, u, t, Delivered)
  {
    hide Apply, Enabled, DeliverStep;
    DeliverApply(now, t);
    u := DeliverStep(now, t);
    forall other: nat | other < |now.tokens|
      ensures other < |u.tokens|
      ensures u.tokens[other] == Credited(now, t, other, true).(phase := if other == t then Watched(Delivered) else now.tokens[other].phase)
    {
      DeliverOnly(now, t, other);
      DeliverCredits(now, t, other);
    }
  }

  lemma DeliverCredits(s: State, t: nat, other: nat)
    requires InPhase(s, t, Watched(Closed)) && other < |s.tokens|
    ensures var u, due := DeliverStep(s, t), Credited(s, t, other, true);
            && |u.tokens| == |s.tokens| && u.tokens[other].given == due.given && u.tokens[other].deliveries == due.deliveries
  {
  }

  lemma DeliverApply(s: State, t: nat)
    requires InPhase(s, t, Watched(Closed)) && s.tokens[t].exit.Some?
    ensures Enabled(s, Deliver(t)) && Apply(s, Deliver(t)) == DeliverStep(s, t)
    ensures var u := DeliverStep(s, t);
            && u.registry == s.registry && u.results == s.results && u.stopped == s.stopped && u.wg == s.wg
            && |u.tokens| == |s.tokens|
  {
    hide RegisterStep, RemoveStep;
  }

  /** The first two steps a watch takes after its lock region. */
  lemma UpToClose(s: State, t: nat) returns (u: State)
    requires InPhase(s, t, Watched(Removed)) && s.tokens[t].exit.Some?
    ensures Exec(s, [Record(t), CloseBroker(t)]) == Some(u) && SignedTo(s, u, t, Closed)
  {
    hide Apply, Enabled, SignedTo;
    SignedSelf(s, t);
    var s1 := SignNext(s, s, Record(t), t, Removed);
    u := SignNext(s, s1, CloseBroker(t), t, Watch.Recorded);
    ExecTwo(s, Record(t), CloseBroker(t));
  }

  lemma SignedWg(s: State, u: State, t: nat, w: Watch)
    requires SignedTo(s, u, t, w)
    ensures u.wg == s.wg - if w.Finished? then 1 else 0
  {
  }

  lemma SignedOff(s: State, u: State, t: nat, w: Watch)
    requires SignedTo(s, u, t, w)
    ensures |u.tokens| == |s.tokens| && InPhase(u, t, Watched(w)) && t < |s.tokens|
    ensures w.Closed? || w.Finished? ==>
              && u.tokens[t].trace == s.tokens[t].trace + LastWord(s.tokens[t])
              && u.tokens[t].brokerCloses == s.tokens[t].brokerCloses + if s.tokens[t].attach then 1 else 0
    ensures var r := s.tokens[t].captured;
            w.Finished? && r.Some? && r.value < |s.tokens| ==>
              u.tokens[r.value].deliveries == s.tokens[r.value].deliveries + 1 && u.tokens[r.value].given == s.tokens[t].exit
  {
  }

  lemma SignedSelf(s: State, t: nat)
    requires InPhase(s, t, Watched(Removed))
    ensures SignedTo(s, s, t, Removed)
  {
  }

  /** The four steps a watch takes after its lock region. */
  lemma SignOff(s: State, t: nat) returns (u: State)
    requires InPhase(s, t, Watched(Removed)) && s.tokens[t].exit.Some?
    ensures Exec(s, [Record(t), CloseBroker(t), Deliver(t), Done(t)]) == Some(u)
    ensures SignedTo(s, u, t, Finished)
  {
    hide Apply, Enabled, Exec, SignedTo;
    SignedSelf(s, t);
    var s1 := SignNext(s, s, Record(t), t, Removed);
    var s2 := SignNext(s, s1, CloseBroker(t), t, Watch.Recorded);
    var s3 := SignDeliver(s, s2, t);
    u := SignNext(s, s3, Done(t), t, Delivered);
    ExecTwo(s2, Deliver(t), Done(t));
    OneMore(s1, CloseBroker(t), [Deliver(t), Done(t)]);
    OneMore(s, Record(t), [CloseBroker(t), Deliver(t), Done(t)]);
    assert [CloseBroker(t)] + [Deliver(t), Done(t)] == [CloseBroker(t), Deliver(t), Done(t)];
    assert [Record(t)] + [CloseBroker(t), Deliver(t), Done(t)] == [Record(t), CloseBroker(t), Deliver(t), Done(t)];
  }

  lemma ExecTwo(s: State, a: Action, b: Action)
    requires Enabled(s, a) && Enabled(Apply(s, a), b)
    ensures Exec(s, [a, b]) == Some(Apply(Apply(s, a), b))
  {
    hide Apply, Enabled;
    OneMore(Apply(s, a), b, []);
    OneMore(s, a, [b]);
    assert [b] + [] == [b] && [a] + [b] == [a, b];
  }

  lemma OneMore(s: State, a: Action, rest: seq<Action>)
    requires Enabled(s, a)
    ensures Exec(s, [a] + rest) == Exec(Apply(s, a), rest)
  {
    assert ([a] + rest)[1..] == rest;
  }

  function OwnSteps(t: nat): set<Action> {
    {Launch(t), SpawnFail(t), FailRecord(t), SpawnOk(t), RunRecord(t), RejectClose(t)}
  }

  predicate Moved(s: State, a: Action, t: nat, u: State) {
    && t < |s.tokens| && t < |u.tokens|
    && var was, now := s.tokens[t], u.tokens[t];
       && now.id == was.id && now.killing == was.killing && now.attachCount == was.attachCount
       && (match a
           case Launch(_) => now.phase == Launched && now.trace == was.trace + [Launching]
           case SpawnFail(_) => now.phase == SpawnFailed && now.trace == was.trace
           case FailRecord(_) => now.phase == Failed && now.trace == was.trace + [Terminal(false, 1)]
           case SpawnOk(_) => now.phase == Spawned && now.trace == was.trace
           case RunRecord(_) => now.phase == Ran && now.trace == was.trace + [Running]
           case RejectClose(_) => now.phase == Rejected && now.trace == was.trace
           case _ => true)
  }

  /** What a Start tells the sink is the trace of its phase, a broker is closed exactly if the
      launch failed or was refused behind a Shutdown, and the new session is stopped exactly in
      the latter case, after its broker's close. */
  lemma StartTells(r: StartResult, id: Id, attach: bool)
    ensures Told(StartLog(r, id, attach), id) == TraceAfter(r)
    ensures Closings(StartLog(r, id, attach), id) == if attach && (r.SpawnError? || r.TurnedAway?) then 1 else 0
    ensures SessionStopped(id) in StartLog(r, id, attach) <==> r.TurnedAway?
    ensures r.TurnedAway? ==> StartLog(r, id, attach)[|StartLog(r, id, attach)| - 1] == SessionStopped(id)
  {
    hide Told, Closings;
    var a, b, close := SinkTold(id, Launching), SinkTold(id, Running), IfAttached(attach, id);
    LogOne(a, id);
    LogOne(b, id);
    LogOne(BrokerClosed(id), id);
    LogOne(SessionStopped(id), id);
    LogOne(SinkTold(id, Terminal(false, 1)), id);
    LogConcat([a], [b], id);
    LogConcat([a], close, id);
    LogConcat([a] + close, [SinkTold(id, Terminal(false, 1))], id);
    LogConcat([a, b], close, id);
    LogConcat([a, b] + close, [SessionStopped(id)], id);
    assert [a] + [b] == [a, b];
  }

  /** What a watch tells the sink and how often it closes the broker. */
  lemma WatchTells(id: Id, attach: bool, killing: bool, end: End, given: bool)
    ensures Told(WatchLog(id, attach, killing, end, given), id) == [Terminal(killing || end.code == 0, end.code)]
    ensures Closings(WatchLog(id, attach, killing, end, given), id) == if attach then 1 else 0
  {
    hide Told, Closings;
    var a, close, out := SinkTold(id, Terminal(killing || end.code == 0, end.code)), IfAttached(attach, id), Out(id, given);
    LogOne(a, id);
    LogOne(BrokerClosed(id), id);
    LogOne(ResultOut(id), id);
    LogConcat(close, out, id);
    LogConcat([a], close + out, id);
  }

  lemma TellsSuffix(log: seq<Effect>, id: Id, attach: bool, killing: bool, end: End, given: bool)
    ensures var rest := (log + WatchLog(id, attach, killing, end, given))[|log|..];
            && Told(rest, id) == [Terminal(killing || end.code == 0, end.code)]
            && Closings(rest, id) == if attach then 1 else 0
  {
    assert (log + WatchLog(id, attach, killing, end, given))[|log|..] == WatchLog(id, attach, killing, end, given);
    WatchTells(id, attach, killing, end, given);
  }

  function StartLog(r: StartResult, id: Id, attach: bool): seq<Effect> {
    match r
    case Refused => []
    case SpawnError => [SinkTold(id, Launching)] + IfAttached(attach, id) + [SinkTold(id, Terminal(false, 1))]
    case TurnedAway => [SinkTold(id, Launching), SinkTold(id, Running)] + IfAttached(attach, id) + [SessionStopped(id)]
    case Started => [SinkTold(id, Launching), SinkTold(id, Running)]
  }

  function PhaseAfter(r: StartResult): Phase
    requires !r.Refused?
  {
    match r
    case SpawnError => Failed
    case TurnedAway => Rejected
    case Started => Watched(Waiting)
  }

  function TraceAfter(r: StartResult): seq<SinkEvent> {
    match r
    case Refused => []
    case SpawnError => FAILED
    case TurnedAway => RUNNING
    case Started => RUNNING
  }
}
