/** The JSON-RPC client as a state machine: any number of calls, the reader, Stop, the waiter and
    the respawner interleave at the points where the source takes or drops a lock, sends on or
    closes a channel, or touches the pipe. */
module RpcProtocol {
  import opened Common

  datatype RpcError = RpcError(code: int, message: string)

  /** What a response frame hands to a call. */
  datatype Response = Response(result: Option<string>, err: Option<RpcError>)

  /** The zero value a receive yields on a closed, empty channel. */
  const ZERO := Response(None, None)

  const READER_GONE := Response(None, Some(RpcError(-32000, "agentsessions: jsonrpc reader exited before response")))
  const STOPPED := Response(None, Some(RpcError(-32000, "agentsessions: session stopped")))

  /** A response channel with one slot; `sends` and `closes` count what was done to it. */
  datatype Chan = Chan(slot: Option<Response>, closed: bool, sends: nat, closes: nat)

  const FRESH := Chan(None, false, 0, 0)

  datatype Outcome = NoInput | EncodeFailed | WriteFailed | Cancelled | Answered(response: Response)

  datatype Pc =
    | Entered                    // past the alive check
    | Allocated                  // has an id and a channel
    | Registered                 // in the pending map
    | Sending(pipe: nat)         // holds a stdin handle
    | Waiting                    // request written, blocked in the select
    | Withdrawing(why: Outcome)  // about to run its cleanup
    | Returned(how: Outcome)

  datatype Call = Call(pc: Pc, id: int)

  /** The channels a remover has taken out of the map, each with what it will send, and the
      one it has sent on but not yet closed. */
  datatype Hands = Hands(jobs: map<nat, Response>, sent: Option<nat>)

  const NO_JOBS := Hands(map[], None)

  datatype ReaderMode = Scanning | Exited

  datatype StopMode = NotStopped | Marked | Snapped | PipeShut | Swept

  datatype Who = Reader | Stopper

  /** A response frame as routed: its id if that decodes to an integer, and its payload. */
  datatype Inbound = Inbound(id: Option<int>, response: Response)

  datatype State = State(
    alive: bool,
    nextID: int,
    pending: map<int, nat>,      // id -> the call whose channel is registered
    calls: seq<Call>,
    chans: seq<Chan>,            // call i's channel
    pipe: Option<nat>,           // s.stdin, named by the attempt that installed it
    open: set<nat>,              // stdin handles not closed yet
    attempt: nat,
    reader: ReaderMode,
    readerHands: Hands,
    stop: StopMode,
    stopPipe: Option<nat>,
    stopAttempt: nat,
    stopHands: Hands)

  datatype Action =
    | Enter | Allocate(c: nat) | Register(c: nat) | EncodeFail(c: nat) | Snapshot(c: nat)
    | WriteOk(c: nat) | WriteFail(c: nat) | Receive(c: nat) | Cancel(c: nat) | Cleanup(c: nat)
    | Frame(frame: Inbound) | ReaderExit
    | StopMark | StopSnap | StopShut | StopSweep
    | Send(who: Who, c: nat) | CloseChan(who: Who, c: nat)
    | WaitClear | WaitShut | Respawn | Die

  const INIT := State(true, 0, map[], [], [], Some(0), {0}, 0, Scanning, NO_JOBS, NotStopped, None, 0, NO_JOBS)

  function HandsOf(s: State, who: Who): Hands {
    if who == Reader then s.readerHands else s.stopHands
  }

  function WithHands(s: State, who: Who, h: Hands): State {
    if who == Reader then s.(readerHands := h) else s.(stopHands := h)
  }

  predicate At(s: State, c: nat, pc: Pc) {
    c < |s.calls| && s.calls[c].pc == pc
  }

  predicate Enabled(s: State, a: Action) {
    match a
    case Enter => s.alive
    case Allocate(c) => At(s, c, Entered)
    case Register(c) => At(s, c, Allocated)
    case EncodeFail(c) => At(s, c, Registered)
    case Snapshot(c) => At(s, c, Registered)
    case WriteOk(c) => c < |s.calls| && s.calls[c].pc.Sending? && s.calls[c].pc.pipe in s.open
    case WriteFail(c) => c < |s.calls| && s.calls[c].pc.Sending?
    case Receive(c) => At(s, c, Waiting) && c < |s.chans| && (s.chans[c].slot.Some? || s.chans[c].closed)
    case Cancel(c) => At(s, c, Waiting)
    case Cleanup(c) => c < |s.calls| && s.calls[c].pc.Withdrawing?
    case Frame(_) => s.reader.Scanning? && s.readerHands == NO_JOBS
    case ReaderExit => s.reader.Scanning? && s.readerHands == NO_JOBS
    case StopMark => s.stop.NotStopped?
    case StopSnap => s.stop.Marked?
    case StopShut => s.stop.Snapped?
    case StopSweep => s.stop.PipeShut?
    case Send(who, c) => c in HandsOf(s, who).jobs && HandsOf(s, who).sent == None && c < |s.chans|
    case CloseChan(who, c) => HandsOf(s, who).sent == Some(c) && c < |s.chans|
    case WaitClear => s.pipe.Some?
    case WaitShut => s.pipe == None
    case Respawn => s.reader.Exited? && s.readerHands == NO_JOBS && s.pipe == None && s.attempt !in s.open
    case Die => true
  }

  function SetPc(s: State, c: nat, pc: Pc): State
    requires c < |s.calls|
  {
    s.(calls := s.calls[c := s.calls[c].(pc := pc)])
  }

  /** The calls whose channels are in the map. */
  function Owners(pending: map<int, nat>): (cs: set<nat>)
    ensures forall id :: id in pending ==> pending[id] in cs
    ensures forall c :: c in cs ==> exists id :: id in pending && pending[id] == c
  {
    set id | id in pending :: pending[id]
  }

  /** Swap the pending map for an empty one and take every channel in it. */
  function Take(pending: map<int, nat>, r: Response): Hands {
    Hands(map c | c in Owners(pending) :: r, None)
  }

  /** The reader's lookup-and-delete for one response frame. */
  function Route(s: State, f: Inbound): State {
    if f.id.Some? && f.id.value in s.pending
    then s.(pending := s.pending - {f.id.value}, readerHands := Hands(map[s.pending[f.id.value] := f.response], None))
    else s
  }

  function Apply(s: State, a: Action): State
    requires Enabled(s, a)
  {
    match a
    case Enter => s.(calls := s.calls + [Call(Entered, 0)], chans := s.chans + [FRESH])
    case Allocate(c) => s.(calls := s.calls[c := Call(Allocated, s.nextID + 1)], nextID := s.nextID + 1)
    case Register(c) =>
      SetPc(s, c, Registered).(pending := s.pending[s.calls[c].id := c])
    case EncodeFail(c) => SetPc(s, c, Withdrawing(EncodeFailed))
    case Snapshot(c) => SetPc(s, c, if s.pipe == None then Withdrawing(NoInput) else Sending(s.pipe.value))
    case WriteOk(c) => SetPc(s, c, Waiting)
    case WriteFail(c) => SetPc(s, c, Withdrawing(WriteFailed))
    case Receive(c) =>
      var r := if s.chans[c].slot.Some? then s.chans[c].slot.value else ZERO;
      SetPc(s, c, Returned(Answered(r))).(chans := s.chans[c := s.chans[c].(slot := None)])
    case Cancel(c) => SetPc(s, c, Withdrawing(Cancelled))
    case Cleanup(c) => SetPc(s, c, Returned(s.calls[c].pc.why)).(pending := s.pending - {s.calls[c].id})
    case Frame(f) => Route(s, f)
    case ReaderExit => s.(reader := Exited, readerHands := Take(s.pending, READER_GONE), pending := map[])
    case StopMark => s.(stop := Marked, alive := false)
    case StopSnap => s.(stop := Snapped, stopPipe := s.pipe, stopAttempt := s.attempt)
    case StopShut => s.(stop := PipeShut, open := if s.stopPipe.Some? then s.open - {s.stopPipe.value} else s.open)
    case StopSweep => s.(stop := Swept, stopHands := Take(s.pending, STOPPED), pending := map[])
    case Send(who, c) =>
      var h := HandsOf(s, who);
      WithHands(s, who, h.(sent := Some(c)))
        .(chans := s.chans[c := s.chans[c].(slot := Some(h.jobs[c]), sends := s.chans[c].sends + 1)])
    case CloseChan(who, c) =>
      var h := HandsOf(s, who);
      WithHands(s, who, Hands(h.jobs - {c}, None))
        .(chans := s.chans[c := s.chans[c].(closed := true, closes := s.chans[c].closes + 1)])
    case WaitClear => s.(pipe := None)
    case WaitShut => s.(open := s.open - {s.attempt})
    case Respawn =>
      s.(attempt := s.attempt + 1, pipe := Some(s.attempt + 1), open := s.open + {s.attempt + 1}, reader := Scanning)
    case Die => s.(alive := false)
  }

  function Exec(s: State, run: seq<Action>): Option<State>
    decreases |run|
  {
    if run == [] then Some(s)
    else if Enabled(s, run[0]) then Exec(Apply(s, run[0]), run[1..])
    else None
  }

  lemma {:induction false} ExecConcat(s: State, first: seq<Action>, second: seq<Action>)
    requires Exec(s, first).Some?
    ensures Exec(s, first + second) == Exec(Exec(s, first).value, second)
    decreases |first|
  {
    if first == [] {
      assert first + second == second;
    } else {
      assert (first + second)[1..] == first[1..] + second;
      ExecConcat(Apply(s, first[0]), first[1..], second);
    }
  }

  lemma ExecOne(s: State, a: Action)
    ensures Exec(s, [a]) == if Enabled(s, a) then Some(Apply(s, a)) else None
  {
    assert [a][1..] == [];
  }

  /** A run that is possible is possible up to its last step, which is possible then. */
  lemma {:induction false} ExecLast(s: State, run: seq<Action>)
    requires run != [] && Exec(s, run).Some?
    ensures var front, a := run[..|run| - 1], run[|run| - 1];
            && Exec(s, front).Some? && Enabled(Exec(s, front).value, a)
            && Exec(s, run).value == Apply(Exec(s, front).value, a)
    decreases |run|
  {
    var front, a := run[..|run| - 1], run[|run| - 1];
    if front == [] {
      assert run == [a];
      ExecOne(s, a);
    } else {
      assert run[1..][..|run[1..]| - 1] == front[1..];
      ExecLast(Apply(s, run[0]), run[1..]);
    }
  }

  // ------------------------------------------------- the invariant

  predicate Unregistered(pc: Pc) {
    pc.Entered? || pc.Allocated?
  }

  predicate InFlight(pc: Pc) {
    pc.Registered? || pc.Sending? || pc.Waiting? || pc.Withdrawing?
  }

  predicate InPending(s: State, c: nat) {
    c < |s.calls| && s.calls[c].id in s.pending && s.pending[s.calls[c].id] == c
  }

  predicate Held(s: State, who: Who, c: nat) {
    c in HandsOf(s, who).jobs
  }

  function Other(who: Who): Who {
    if who == Reader then Stopper else Reader
  }

  /** Ids are handed out once, in order. */
  ghost predicate IdInv(s: State) {
    && |s.calls| == |s.chans| && s.nextID >= 0
    && (forall c :: 0 <= c < |s.calls| ==>
          if s.calls[c].pc.Entered? then s.calls[c].id == 0 else 1 <= s.calls[c].id <= s.nextID)
    && (forall c, d :: 0 <= c < d < |s.calls| && !s.calls[c].pc.Entered? && !s.calls[d].pc.Entered? ==>
          s.calls[c].id != s.calls[d].id)
  }

  /** A registered entry belongs to a call that has not returned, under its own id, with an
      untouched channel that no remover holds. */
  predicate EntryOk(s: State, id: int, c: nat) {
    && c < |s.calls| && c < |s.chans|
    && s.calls[c].id == id && InFlight(s.calls[c].pc)
    && s.chans[c] == FRESH && !Held(s, Reader, c) && !Held(s, Stopper, c)
  }

  ghost predicate PendingInv(s: State) {
    forall id :: id in s.pending ==> EntryOk(s, id, s.pending[id])
  }

  /** A channel in some remover's hands is in no other hands and not in the map; it is
      untouched until its send, and between its send and its close it holds the response
      unless its call has already read it. */
  predicate JobOk(s: State, who: Who, c: nat) {
    var h := HandsOf(s, who);
    && c < |s.calls| && c < |s.chans| && c in h.jobs
    && !Unregistered(s.calls[c].pc) && !InPending(s, c) && !Held(s, Other(who), c)
    && (if h.sent == Some(c)
        then s.chans[c].sends == 1 && !s.chans[c].closed && s.chans[c].closes == 0
             && (s.chans[c].slot == Some(h.jobs[c])
                 || (s.chans[c].slot == None && s.calls[c].pc == Returned(Answered(h.jobs[c]))))
        else s.chans[c] == FRESH)
  }

  ghost predicate HandsInv(s: State, who: Who) {
    && (forall c :: c in HandsOf(s, who).jobs ==> JobOk(s, who, c))
    && (HandsOf(s, who).sent.Some? ==> HandsOf(s, who).sent.value in HandsOf(s, who).jobs)
  }

  /** One call and its channel: sent on at most once, closed at most once and only after the
      send, read at most once, and somewhere definite while the call is in flight. */
  predicate CallOk(s: State, c: nat)
    requires c < |s.calls| == |s.chans|
  {
    var ch, pc := s.chans[c], s.calls[c].pc;
    && ch.sends <= 1 && ch.closes <= ch.sends && (ch.closed <==> ch.closes == 1)
    && (ch.sends == 0 ==> ch == FRESH)
    && (ch.sends == 1 ==> !Unregistered(pc) && !InPending(s, c))
    && (ch.sends == 1 ==> (ch.slot == None <==> pc.Returned? && pc.how.Answered?))
    && (ch.sends == 1 && ch.closes == 0 ==> s.readerHands.sent == Some(c) || s.stopHands.sent == Some(c))
    && (ch.closes == 1 ==> !Held(s, Reader, c) && !Held(s, Stopper, c))
    && (pc.Returned? && pc.how.Answered? ==> ch.sends == 1)
    && (pc.Returned? ==> !InPending(s, c))
    && (InFlight(pc) ==> InPending(s, c) || Held(s, Reader, c) || Held(s, Stopper, c) || ch.sends == 1)
    && (pc.Withdrawing? ==> !pc.why.Answered?)
  }

  ghost predicate CallsInv(s: State)
    requires |s.calls| == |s.chans|
  {
    forall c :: 0 <= c < |s.calls| ==> CallOk(s, c)
  }

  ghost predicate Inv(s: State) {
    && IdInv(s) && PendingInv(s) && HandsInv(s, Reader) && HandsInv(s, Stopper) && CallsInv(s)
    && (!s.stop.Swept? ==> s.stopHands == NO_JOBS)
  }
}
