/** The session manager as a state machine: any number of Starts, watches, Stops, attaches,
    waiters and Shutdowns interleave at every lock region and every outside call. */
module ManagerProtocol {
  import opened Common

  type Id = int

  /** What a session's own Wait returns: the exit code and the error, nil or not. */
  datatype End = End(code: int, err: Option<string>)

  /** What the state sink is told about a session. */
  datatype SinkEvent = Launching | Running | Terminal(done: bool, code: int)

  datatype Watch = Waiting | Removed | Recorded | Closed | Delivered | Finished

  /** Where one call of Start stands, and then the watch it left behind. */
  datatype Phase =
    | Checked                 // found the manager not stopped
    | Launched                // launching recorded, broker made
    | SpawnFailed | Failed    // the runtime refused; then the failure recorded
    | Spawned | Ran           // the session exists; then running recorded
    | Rejecting | Rejected    // stopped was set meanwhile; then the broker closed
    | Watched(watch: Watch)   // registered

  /** One Start with its session, its registry entry, its broker and its result. `captured` is
      the result its watch took from the map, named by the Start that put it there; `given`
      and `deliveries` are what has been stored in this Start's own result and how often it
      was closed. */
  datatype Token = Token(
    id: Id, attach: bool, phase: Phase, exit: Option<End>,
    killing: bool, attachCount: nat, brokerCloses: nat, trace: seq<SinkEvent>,
    seenKilling: bool, captured: Option<nat>, given: Option<End>, deliveries: nat)

  datatype AttachPc = Looked | Counted | Left

  /** One AttachWith call: the id it asked for and the Start it found registered under it. */
  datatype Attach = Attach(id: Id, token: nat, pc: AttachPc)

  datatype WaitPc = Blocked | Got(end: End) | GaveUp

  /** One WaitSession call: the id it asked for and the Start whose result it found. */
  datatype Wait = Wait(id: Id, token: nat, pc: WaitPc)

  datatype Shut = NotCalled | ShutWaiting | ReturnedNil | ReturnedCtx

  datatype State = State(
    tokens: seq<Token>,
    registry: map<Id, nat>,
    results: map<Id, nat>,
    stopped: bool,
    wg: int,
    attaches: seq<Attach>,
    waits: seq<Wait>,
    shut: Shut,               // the first Shutdown call
    laterShuts: nat)          // later ones, all returned

  datatype Action =
    | StartCheck(id: Id, attach: bool) | Launch(t: nat) | SpawnFail(t: nat) | FailRecord(t: nat)
    | SpawnOk(t: nat) | RunRecord(t: nat) | Register(t: nat) | RejectClose(t: nat)
    | Exit(t: nat, end: End) | Remove(t: nat) | Record(t: nat) | CloseBroker(t: nat) | Deliver(t: nat) | Done(t: nat)
    | Stop(id: Id)
    | AttachLook(id: Id) | AttachEnter(k: nat) | AttachLeave(k: nat)
    | WaitLook(id: Id) | WaitGet(k: nat) | WaitCancel(k: nat)
    | ShutBegin | ShutReturn | ShutCtx | ShutAgain

  const INIT := State([], map[], map[], false, 0, [], [], NotCalled, 0)

  function NewToken(id: Id, attach: bool): Token {
    Token(id, attach, Checked, None, false, 0, 0, [], false, None, None, 0)
  }

  predicate InPhase(s: State, t: nat, p: Phase) {
    t < |s.tokens| && s.tokens[t].phase == p
  }

  predicate HasSession(p: Phase) {
    p.Spawned? || p.Ran? || p.Rejecting? || p.Rejected? || p.Watched?
  }

  predicate Enabled(s: State, a: Action) {
    match a
    case StartCheck(_, _) => !s.stopped
    case Launch(t) => InPhase(s, t, Checked)
    case SpawnFail(t) => InPhase(s, t, Launched)
    case FailRecord(t) => InPhase(s, t, SpawnFailed)
    case SpawnOk(t) => InPhase(s, t, Launched)
    case RunRecord(t) => InPhase(s, t, Spawned)
    case Register(t) => InPhase(s, t, Ran)
    case RejectClose(t) => InPhase(s, t, Rejecting)
    case Exit(t, _) => t < |s.tokens| && HasSession(s.tokens[t].phase) && s.tokens[t].exit == None
    case Remove(t) => InPhase(s, t, Watched(Waiting)) && s.tokens[t].exit.Some?
    case Record(t) => InPhase(s, t, Watched(Removed)) && s.tokens[t].exit.Some?
    case CloseBroker(t) => InPhase(s, t, Watched(Recorded))
    case Deliver(t) => InPhase(s, t, Watched(Closed)) && s.tokens[t].exit.Some?
    case Done(t) => InPhase(s, t, Watched(Delivered))
    case Stop(id) => id in s.registry && s.registry[id] < |s.tokens|
    case AttachLook(id) => id in s.registry && s.registry[id] < |s.tokens| && s.tokens[s.registry[id]].attach
    case AttachEnter(k) => k < |s.attaches| && s.attaches[k].pc == Looked && s.attaches[k].token < |s.tokens|
    case AttachLeave(k) => k < |s.attaches| && s.attaches[k].pc == Counted && s.attaches[k].token < |s.tokens|
    case WaitLook(id) => id in s.results
    case WaitGet(k) =>
      && k < |s.waits| && s.waits[k].pc == Blocked && s.waits[k].token < |s.tokens|
      && s.tokens[s.waits[k].token].deliveries > 0 && s.tokens[s.waits[k].token].given.Some?
    case WaitCancel(k) => k < |s.waits| && s.waits[k].pc == Blocked
    case ShutBegin => !s.stopped
    case ShutReturn => s.shut == ShutWaiting && s.wg == 0
    case ShutCtx => s.shut == ShutWaiting
    case ShutAgain => s.stopped
  }

  function CloseOf(tok: Token): Token {
    if tok.attach then tok.(brokerCloses := tok.brokerCloses + 1) else tok
  }

  function With(s: State, t: nat, tok: Token): State
    requires t < |s.tokens|
  {
    s.(tokens := s.tokens[t := tok])
  }

  /** Start's second look at `stopped`, in the same lock region as the registration. */
  function RegisterStep(s: State, t: nat): State
    requires t < |s.tokens|
  {
    var tok := s.tokens[t];
    if s.stopped then With(s, t, tok.(phase := Rejecting))
    else With(s, t, tok.(phase := Watched(Waiting)))
      .(registry := s.registry[tok.id := t], results := s.results[tok.id := t], wg := s.wg + 1)
  }

  predicate Marked(s: State, id: Id) {
    id in s.registry && s.registry[id] < |s.tokens| && s.tokens[s.registry[id]].killing
  }

  /** The watch's lock region: whatever is registered under its id goes, and whatever result is
      filed under it is taken. */
  function RemoveStep(s: State, t: nat): State
    requires t < |s.tokens|
  {
    var tok := s.tokens[t];
    With(s, t, tok.(phase := Watched(Removed), seenKilling := Marked(s, tok.id),
                    captured := if tok.id in s.results then Some(s.results[tok.id]) else None))
      .(registry := s.registry - {tok.id})
  }

  function DeliverStep(s: State, t: nat): State
    requires t < |s.tokens|
  {
    var s1 := With(s, t, s.tokens[t].(phase := Watched(Delivered)));
    match s.tokens[t].captured
    case Some(r) =>
      if r < |s1.tokens|
      then With(s1, r, s1.tokens[r].(given := s.tokens[t].exit, deliveries := s1.tokens[r].deliveries + 1))
      else s1
    case None => s1
  }

  function Apply(s: State, a: Action): State
    requires Enabled(s, a)
  {
    match a
    case StartCheck(id, attach) => s.(tokens := s.tokens + [NewToken(id, attach)])
    case Launch(t) => With(s, t, s.tokens[t].(phase := Launched, trace := s.tokens[t].trace + [Launching]))
    case SpawnFail(t) => With(s, t, CloseOf(s.tokens[t]).(phase := SpawnFailed))
    case FailRecord(t) => With(s, t, s.tokens[t].(phase := Failed, trace := s.tokens[t].trace + [Terminal(false, 1)]))
    case SpawnOk(t) => With(s, t, s.tokens[t].(phase := Spawned))
    case RunRecord(t) => With(s, t, s.tokens[t].(phase := Ran, trace := s.tokens[t].trace + [Running]))
    case Register(t) => RegisterStep(s, t)
    case RejectClose(t) => With(s, t, CloseOf(s.tokens[t]).(phase := Rejected))
    case Exit(t, end) => With(s, t, s.tokens[t].(exit := Some(end)))
    case Remove(t) => RemoveStep(s, t)
    case Record(t) =>
      var tok := s.tokens[t];
      With(s, t, tok.(phase := Watched(Recorded),
                      trace := tok.trace + [Terminal(tok.seenKilling || tok.exit.value.code == 0, tok.exit.value.code)]))
    case CloseBroker(t) => With(s, t, CloseOf(s.tokens[t]).(phase := Watched(Closed)))
    case Deliver(t) => DeliverStep(s, t)
    case Done(t) => With(s, t, s.tokens[t].(phase := Watched(Finished))).(wg := s.wg - 1)
    case Stop(id) => With(s, s.registry[id], s.tokens[s.registry[id]].(killing := true))
    case AttachLook(id) => s.(attaches := s.attaches + [Attach(id, s.registry[id], Looked)])
    case AttachEnter(k) =>
      var t := s.attaches[k].token;
      With(s, t, s.tokens[t].(attachCount := s.tokens[t].attachCount + 1))
        .(attaches := s.attaches[k := s.attaches[k].(pc := Counted)])
    case AttachLeave(k) =>
      var t, n := s.attaches[k].token, s.tokens[s.attaches[k].token].attachCount;
      With(s, t, s.tokens[t].(attachCount := if n > 0 then n - 1 else n))
        .(attaches := s.attaches[k := s.attaches[k].(pc := Left)])
    case WaitLook(id) => s.(waits := s.waits + [Wait(id, s.results[id], Blocked)])
    case WaitGet(k) =>
      var t := s.waits[k].token;
      s.(waits := s.waits[k := s.waits[k].(pc := Got(s.tokens[t].given.value))])
    case WaitCancel(k) => s.(waits := s.waits[k := s.waits[k].(pc := GaveUp)])
    case ShutBegin => s.(stopped := true, shut := ShutWaiting)
    case ShutReturn => s.(shut := ReturnedNil)
    case ShutCtx => s.(shut := ReturnedCtx)
    case ShutAgain => s.(laterShuts := s.laterShuts + 1)
  }

  function Exec(s: State, run: seq<Action>): Option<State>
    decreases |run|
  {
    if run == [] then Some(s)
    else if Enabled(s, run[0]) then Exec(Apply(s, run[0]), run[1..])
    else None
  }

  lemma {:induction false} ExecConcat(s: State, first: seq<Action>, second: seq<Action>)
    requires Exec(s, first).Some?
    ensures Exec(s, first + second) == Exec(Exec(s, first).value, second)
    decreases |first|
  {
    if first == [] {
      assert first + second == second;
    } else {
      assert (first + second)[1..] == first[1..] + second;
      ExecConcat(Apply(s, first[0]), first[1..], second);
    }
  }

  /** A run that is possible is possible up to any moment. */
  lemma {:induction false} ExecPrefix(s: State, first: seq<Action>, second: seq<Action>)
    requires Exec(s, first + second).Some?
    ensures Exec(s, first).Some?
    decreases |first|
  {
    if first != [] {
      assert (first + second)[1..] == first[1..] + second;
      ExecPrefix(Apply(s, first[0]), first[1..], second);
    }
  }

  lemma ExecOne(s: State, a: Action)
    ensures Exec(s, [a]) == if Enabled(s, a) then Some(Apply(s, a)) else None
  {
    assert [a][1..] == [];
  }

  /** A run that is possible is possible up to its last step, which is possible then. */
  lemma ExecLast(s: State, run: seq<Action>)
    requires run != [] && Exec(s, run).Some?
    ensures var front, a := run[..|run| - 1], run[|run| - 1];
            && Exec(s, front).Some? && Enabled(Exec(s, front).value, a)
            && Exec(s, run).value == Apply(Exec(s, front).value, a)
  {
    var front, a := run[..|run| - 1], run[|run| - 1];
    assert run == front + [a];
    ExecPrefix(s, front, [a]);
    ExecConcat(s, front, [a]);
    ExecOne(Exec(s, front).value, a);
  }

  /** The caller's side of the bargain: no session is registered while its id is in use. The
      manager does not check it. */
  predicate Distinct(s: State, a: Action) {
    a.Register? && a.t < |s.tokens| && !s.stopped ==> s.tokens[a.t].id !in s.registry
  }

  predicate DistinctRun(s: State, run: seq<Action>)
    requires Exec(s, run).Some?
    decreases |run|
  {
    run == [] || (Distinct(s, run[0]) && DistinctRun(Apply(s, run[0]), run[1..]))
  }

  // ------------------------------------------------- the invariant

  const LAUNCHED := [Launching]
  const FAILED := [Launching, Terminal(false, 1)]
  const RUNNING := [Launching, Running]

  /** The trace the sink has seen of one Start, by how far it has come and whether its end was
      taken for a stop. */
  function TraceAt(tok: Token, stop: bool): seq<SinkEvent> {
    match tok.phase
    case Checked => []
    case Launched => LAUNCHED
    case SpawnFailed => LAUNCHED
    case Failed => FAILED
    case Spawned => LAUNCHED
    case Ran => RUNNING
    case Rejecting => RUNNING
    case Rejected => RUNNING
    case Watched(w) =>
      if w.Waiting? || w.Removed? || tok.exit == None then RUNNING
      else RUNNING + [Terminal(stop || tok.exit.value.code == 0, tok.exit.value.code)]
  }

  predicate BrokerDone(p: Phase) {
    p.SpawnFailed? || p.Failed? || p.Rejected?
    || (p.Watched? && !p.watch.Waiting? && !p.watch.Removed? && !p.watch.Recorded?)
  }

  predicate ResultOut(p: Phase) {
    p.Watched? && (p.watch.Delivered? || p.watch.Finished?)
  }

  predicate Live(p: Phase) {
    p.Watched? && p.watch.Waiting?
  }

  predicate Busy(p: Phase) {
    p.Watched? && !p.watch.Finished?
  }

  /** One Start's bookkeeping is what its phase says it is. */
  predicate TokenOk(tok: Token) {
    var p := tok.phase;
    && tok.trace == TraceAt(tok, tok.killing)
    && tok.brokerCloses == (if tok.attach && BrokerDone(p) then 1 else 0)
    && tok.deliveries == (if ResultOut(p) then 1 else 0)
    && (ResultOut(p) ==> tok.given == tok.exit && tok.exit.Some?)
    && (tok.exit.Some? ==> HasSession(p))
    && (p.Watched? && !p.watch.Waiting? ==> tok.exit.Some? && tok.seenKilling == tok.killing)
    && (!p.Watched? ==> !tok.killing && tok.captured == None)
  }

  /** A registered Start that its watch has not removed owns its id in both maps; afterwards
      its watch holds its own result. */
  predicate Linked(s: State, t: nat)
    requires t < |s.tokens|
  {
    var tok := s.tokens[t];
    && (Live(tok.phase) ==> tok.id in s.registry && s.registry[tok.id] == t && tok.id in s.results && s.results[tok.id] == t)
    && (tok.phase.Watched? && !Live(tok.phase) ==> tok.captured == Some(t))
  }

  predicate RegistryOk(s: State, id: Id)
    requires id in s.registry
  {
    var t := s.registry[id];
    t < |s.tokens| && s.tokens[t].id == id && Live(s.tokens[t].phase)
  }

  predicate ResultOk(s: State, id: Id)
    requires id in s.results
  {
    var t := s.results[id];
    t < |s.tokens| && s.tokens[t].id == id && s.tokens[t].phase.Watched?
  }

  /** A waiter that has its answer has the exit code and error of the session it asked about, and that
      session's result is out. */
  predicate WaitOk(s: State, w: Wait) {
    && w.token < |s.tokens| && s.tokens[w.token].phase.Watched?
    && (w.pc.Got? ==> ResultOut(s.tokens[w.token].phase) && s.tokens[w.token].given == Some(w.pc.end))
  }

  /** An AttachWith call on t between its increment and its decrement. */
  predicate Counts(a: Attach, t: nat) {
    a.token == t && a.pc == Counted
  }

  /** How many AttachWith calls on t are between their increment and their decrement. */
  function InProgress(attaches: seq<Attach>, t: nat): nat {
    if attaches == [] then 0
    else
      var last := attaches[|attaches| - 1];
      InProgress(attaches[..|attaches| - 1], t) + if Counts(last, t) then 1 else 0
  }

  /** How many watches have yet to sign off. */
  function Watching(tokens: seq<Token>): nat {
    if tokens == [] then 0
    else Watching(tokens[..|tokens| - 1]) + if Busy(tokens[|tokens| - 1].phase) then 1 else 0
  }

  ghost predicate TokensInv(s: State) {
    forall t :: 0 <= t < |s.tokens| ==> TokenOk(s.tokens[t]) && Linked(s, t)
  }

  ghost predicate MapsInv(s: State) {
    && (forall id :: id in s.registry ==> RegistryOk(s, id))
    && (forall id :: id in s.results ==> ResultOk(s, id))
  }

  ghost predicate WaitsInv(s: State) {
    forall k :: 0 <= k < |s.waits| ==> WaitOk(s, s.waits[k])
  }

  ghost predicate AttachInv(s: State) {
    && (forall k :: 0 <= k < |s.attaches| ==> s.attaches[k].token < |s.tokens|)
    && (forall t: nat :: t < |s.tokens| ==> s.tokens[t].attachCount == InProgress(s.attaches, t))
  }

  predicate WgInv(s: State) {
    && s.wg == Watching(s.tokens)
    && (s.stopped <==> s.shut != NotCalled)
    && (s.shut == ReturnedNil ==> s.wg == 0)
  }

  ghost predicate Inv(s: State) {
    TokensInv(s) && MapsInv(s) && WaitsInv(s) && AttachInv(s) && WgInv(s)
  }
}
