/** How a call ends: each way out of `Call` is open exactly where the source has it, leaves
    nothing behind, and is taken only for its own reason. */
module RpcOutcomes {
  import opened Common
  import opened RpcProtocol
  import opened RpcInvariant
  import RpcDrain

  // ------------------------------------------------- the way in

  /** From any reachable state in which the session is alive and stdin is open, a new call gets
      its request out: a fresh id and channel, filed under the id, and nothing else changed. */
  lemma CallIsSent(run: seq<Action>)
    requires Exec(INIT, run).Some?
    requires var s := Exec(INIT, run).value; s.alive && s.pipe.Some? && s.pipe.value in s.open
    ensures var s := Exec(INIT, run).value;
            var c := |s.calls|;
            Exec(s, [Enter, Allocate(c), Register(c), Snapshot(c), WriteOk(c)])
            == Some(s.(calls := s.calls + [Call(Waiting, s.nextID + 1)], chans := s.chans + [Chan(None, false, 0, 0)],
                       nextID := s.nextID + 1, pending := s.pending[s.nextID + 1 := c]))
    ensures var s := Exec(INIT, run).value; s.nextID + 1 !in s.pending
  {
    InitInv();
    InvRun(INIT, run);
    var s := Exec(INIT, run).value;
    forall id | id in s.pending
      ensures id <= s.nextID
    {
      assert EntryOk(s, id, s.pending[id]);
    }
    Requesting(s);
  }

  lemma Requesting(s: State)
    requires |s.calls| == |s.chans| && s.alive && s.pipe.Some? && s.pipe.value in s.open
    ensures var c := |s.calls|;
            Exec(s, [Enter, Allocate(c), Register(c), Snapshot(c), WriteOk(c)])
            == Some(s.(calls := s.calls + [Call(Waiting, s.nextID + 1)], chans := s.chans + [FRESH],
                       nextID := s.nextID + 1, pending := s.pending[s.nextID + 1 := c]))
  {
    hide Apply, Enabled, Exec;
    var c := |s.calls|;
    var s1 := Entering(s);
    var s2 := Allocating(s1, c);
    var t := s.(calls := s.calls + [Call(Allocated, s.nextID + 1)], chans := s.chans + [FRESH], nextID := s.nextID + 1);
    SnocUpdate(s.calls, Call(Entered, 0), Call(Allocated, s.nextID + 1));
    assert s2 == t;
    ExecTwo(s, Enter, s1, Allocate(c), s2, [Register(c), Snapshot(c), WriteOk(c)]);
    GettingOut(t, c);
    SnocUpdate(s.calls, Call(Allocated, s.nextID + 1), Call(Waiting, s.nextID + 1));
  }

  lemma SnocUpdate<T>(s: seq<T>, x: T, y: T)
    ensures (s + [x])[|s| := y] == s + [y]
  {
  }

  /** A call that has its id gets its request out. */
  lemma GettingOut(s: State, c: nat)
    requires At(s, c, Allocated) && s.pipe.Some? && s.pipe.value in s.open
    ensures Exec(s, [Register(c), Snapshot(c), WriteOk(c)])
         == Some(s.(calls := s.calls[c := Call(Waiting, s.calls[c].id)], pending := s.pending[s.calls[c].id := c]))
  {
    hide Apply, Enabled, Exec;
    var s3 := Registering(s, c);
    var s4 := Picking(s3, c);
    var s5 := Writing(s4, c);
    ExecTwo(s, Register(c), s3, Snapshot(c), s4, [WriteOk(c)]);
    ExecOne(s4, WriteOk(c));
    assert s5.calls == s.calls[c := Call(Waiting, s.calls[c].id)];
  }

  lemma ExecTwo(s: State, a: Action, t: State, b: Action, u: State, rest: seq<Action>)
    requires Enabled(s, a) && t == Apply(s, a) && Enabled(t, b) && u == Apply(t, b)
    ensures Exec(s, [a, b] + rest) == Exec(u, rest)
    ensures |rest| == 1 ==> [a, b] + rest == [a, b, rest[0]]
    ensures |rest| == 3 ==> [a, b] + rest == [a, b, rest[0], rest[1], rest[2]]
  {
    hide Apply, Enabled;
    ExecCons(t, b, rest);
    ExecCons(s, a, [b] + rest);
    assert [a] + ([b] + rest) == [a, b] + rest;
  }

  lemma Entering(s: State) returns (t: State)
    requires s.alive
    ensures Enabled(s, Enter) && t == Apply(s, Enter)
    ensures t == s.(calls := s.calls + [Call(Entered, 0)], chans := s.chans + [FRESH])
  {
    t := Apply(s, Enter);
  }

  lemma Allocating(s: State, c: nat) returns (t: State)
    requires At(s, c, Entered)
    ensures Enabled(s, Allocate(c)) && t == Apply(s, Allocate(c))
    ensures t == s.(calls := s.calls[c := Call(Allocated, s.nextID + 1)], nextID := s.nextID + 1)
  {
    t := Apply(s, Allocate(c));
  }

  lemma Registering(s: State, c: nat) returns (t: State)
    requires At(s, c, Allocated)
    ensures Enabled(s, Register(c)) && t == Apply(s, Register(c))
    ensures t == s.(calls := s.calls[c := Call(Registered, s.calls[c].id)], pending := s.pending[s.calls[c].id := c])
  {
    t := Apply(s, Register(c));
  }

  lemma Picking(s: State, c: nat) returns (t: State)
    requires At(s, c, Registered) && s.pipe.Some?
    ensures Enabled(s, Snapshot(c)) && t == Apply(s, Snapshot(c))
    ensures t == s.(calls := s.calls[c := Call(Sending(s.pipe.value), s.calls[c].id)])
  {
    t := Apply(s, Snapshot(c));
  }

  lemma Writing(s: State, c: nat) returns (t: State)
    requires c < |s.calls| && s.calls[c].pc.Sending? && s.calls[c].pc.pipe in s.open
    ensures Enabled(s, WriteOk(c)) && t == Apply(s, WriteOk(c))
    ensures t == s.(calls := s.calls[c := Call(Waiting, s.calls[c].id)])
  {
    t := Apply(s, WriteOk(c));
  }

  lemma ExecCons(s: State, a: Action, rest: seq<Action>)
    requires Enabled(s, a)
    ensures Exec(s, [a] + rest) == Exec(Apply(s, a), rest)
  {
    assert ([a] + rest)[1..] == rest;
  }

  // ------------------------------------------------- the ways out without an answer

  /** Where a call can give up, with what, and by which step: its context ends while it waits,
      its params do not encode, there is no stdin, or the write fails. */
  predicate GivesUp(s: State, c: nat, a: Action, how: Outcome) {
    c < |s.calls| && match how
      case Cancelled => s.calls[c].pc == Waiting && a == Cancel(c)
      case EncodeFailed => s.calls[c].pc == Registered && a == EncodeFail(c)
      case NoInput => s.calls[c].pc == Registered && s.pipe == None && a == Snapshot(c)
      case WriteFailed => s.calls[c].pc.Sending? && a == WriteFail(c)
      case Answered(_) => false
  }

  /** Giving up is always possible there: by that step and its cleanup the call returns with that
      outcome, its id leaves the map, and every other call and entry, every channel and the
      rest of the client stay as they are. */
  lemma GivesUpCleanly(s: State, c: nat, a: Action, how: Outcome)
    requires GivesUp(s, c, a, how)
    ensures Exec(s, [a, Cleanup(c)]).Some?
    ensures var u, id := Exec(s, [a, Cleanup(c)]).value, s.calls[c].id;
            && |u.calls| == |s.calls| && u.calls[c] == Call(Returned(how), id)
            && (forall d :: 0 <= d < |s.calls| && d != c ==> u.calls[d] == s.calls[d])
            && id !in u.pending
            && (forall other :: other in s.pending && other != id ==> other in u.pending && u.pending[other] == s.pending[other])
            && (forall other :: other in u.pending ==> other in s.pending)
            && u.(calls := s.calls, pending := s.pending) == s
  {
    hide Take, Route;
    ExecCons(s, a, [Cleanup(c)]);
    ExecOne(Apply(s, a), Cleanup(c));
    assert [a] + [Cleanup(c)] == [a, Cleanup(c)];
  }

  /** A response that is there is read at once, exactly as it was sent. */
  lemma ReadsItsAnswer(s: State, c: nat)
    requires Inv(s) && At(s, c, Waiting) && c < |s.chans| && s.chans[c].sends == 1
    ensures s.chans[c].slot.Some? && Exec(s, [Receive(c)]).Some?
    ensures var u := Exec(s, [Receive(c)]).value;
            && |u.calls| == |s.calls| && u.calls[c] == Call(Returned(Answered(s.chans[c].slot.value)), s.calls[c].id)
            && (forall d :: 0 <= d < |s.calls| && d != c ==> u.calls[d] == s.calls[d])
            && u.pending == s.pending && u.readerHands == s.readerHands && u.stopHands == s.stopHands
  {
    assert CallOk(s, c);
    ExecOne(s, Receive(c));
  }

  // ------------------------------------------------- each outcome has its own cause

  /** What a step tells call c, if anything. */
  function Reason(s: State, a: Action, c: nat): seq<Outcome> {
    match a
    case EncodeFail(d) => if d == c then [EncodeFailed] else []
    case Snapshot(d) => if d == c && s.pipe == None then [NoInput] else []
    case WriteFail(d) => if d == c then [WriteFailed] else []
    case Cancel(d) => if d == c then [Cancelled] else []
    case Receive(d) =>
      if d == c && d < |s.chans| then [Answered(if s.chans[d].slot.Some? then s.chans[d].slot.value else ZERO)] else []
    case _ => []
  }

  function Reasons(s: State, run: seq<Action>, c: nat): seq<Outcome>
    requires Exec(s, run).Some?
    decreases |run|
  {
    if run == [] then [] else Reason(s, run[0], c) + Reasons(Apply(s, run[0]), run[1..], c)
  }

  /** What a call is returning with, or has returned with. */
  function Ended(s: State, c: nat): seq<Outcome> {
    if c >= |s.calls| then []
    else match s.calls[c].pc
      case Withdrawing(why) => [why]
      case Returned(how) => [how]
      case _ => []
  }

  lemma EndedStep(s: State, a: Action, c: nat)
    requires Enabled(s, a)
    ensures Ended(Apply(s, a), c) == Ended(s, c) + Reason(s, a, c)
  {
    hide Take, Route;
    if Outside(a) || a.Frame? || a.ReaderExit? || a.StopSweep? || a.Send? || a.CloseChan? {
      CallsAlone(s, a);
      hide Apply;
    }
  }

  lemma CallsAlone(s: State, a: Action)
    requires Enabled(s, a) && (Outside(a) || a.Frame? || a.ReaderExit? || a.StopSweep? || a.Send? || a.CloseChan?)
    ensures Apply(s, a).calls == s.calls
  {
  }

  lemma {:induction false} EndedRun(s: State, run: seq<Action>, c: nat)
    requires Exec(s, run).Some?
    ensures Ended(Exec(s, run).value, c) == Ended(s, c) + Reasons(s, run, c)
    decreases |run|
  {
    if run != [] {
      EndedStep(s, run[0], c);
      EndedRun(Apply(s, run[0]), run[1..], c);
    }
  }

  lemma {:induction false} ReasonInRun(s: State, run: seq<Action>, c: nat)
    requires Exec(s, run).Some?
    ensures Cancelled in Reasons(s, run, c) <==> Cancel(c) in run
    ensures EncodeFailed in Reasons(s, run, c) <==> EncodeFail(c) in run
    ensures WriteFailed in Reasons(s, run, c) <==> WriteFail(c) in run
    ensures NoInput in Reasons(s, run, c) ==> Snapshot(c) in run
    decreases |run|
  {
    if run != [] {
      ReasonInRun(Apply(s, run[0]), run[1..], c);
      assert run == [run[0]] + run[1..];
    }
  }

  /** In every run at most one thing ends a call, and what the call returns is that thing: its
      context's end, an encoding failure or a write failure exactly if that step is in the
      run, the lack of an stdin exactly if it found none, and a response exactly if it read
      one. */
  lemma OutcomeHasItsCause(run: seq<Action>, c: nat)
    requires Exec(INIT, run).Some?
    ensures var ended := Ended(Exec(INIT, run).value, c);
            && ended == Reasons(INIT, run, c) && |ended| <= 1
            && (ended == [Cancelled] <==> Cancel(c) in run)
            && (ended == [EncodeFailed] <==> EncodeFail(c) in run)
            && (ended == [WriteFailed] <==> WriteFail(c) in run)
            && (ended == [NoInput] ==> Snapshot(c) in run)
  {
    EndedRun(INIT, run, c);
    ReasonInRun(INIT, run, c);
  }

  // ------------------------------------------------- a call is its steps

  /** How far a call has come, by the steps it has taken. */
  predicate PcOk(run: seq<Action>, c: nat, pc: Pc) {
    BeganOk(run, c, pc) && FinishedOk(run, c, pc)
  }

  predicate BeganOk(run: seq<Action>, c: nat, pc: Pc) {
    && (Allocate(c) in run <==> !pc.Entered?)
    && (Register(c) in run <==> !Unregistered(pc))
    && (EncodeFail(c) in run <==> pc == Withdrawing(EncodeFailed) || pc == Returned(EncodeFailed))
    && (Snapshot(c) in run <==> !Unregistered(pc) && !pc.Registered? && pc != Withdrawing(EncodeFailed) && pc != Returned(EncodeFailed))
  }

  predicate FinishedOk(run: seq<Action>, c: nat, pc: Pc) {
    var cancelled := pc == Withdrawing(Cancelled) || pc == Returned(Cancelled);
    && (WriteOk(c) in run <==> pc.Waiting? || cancelled || (pc.Returned? && pc.how.Answered?))
    && (WriteFail(c) in run <==> pc == Withdrawing(WriteFailed) || pc == Returned(WriteFailed))
    && (Cancel(c) in run <==> cancelled)
    && (Receive(c) in run <==> pc.Returned? && pc.how.Answered?)
    && (Cleanup(c) in run <==> pc.Returned? && !pc.how.Answered?)
    && (pc.Withdrawing? ==> !pc.why.Answered?)
  }

  /** The pc of a call that may not have been made yet. */
  function PcAt(s: State, c: nat): Pc {
    if c < |s.calls| then s.calls[c].pc else Entered
  }

  /** Where a step leads a call. */
  function NextPc(s: State, a: Action, c: nat): Pc {
    var pc := PcAt(s, c);
    if a == Allocate(c) then Allocated
    else if a == Register(c) then Registered
    else if a == EncodeFail(c) then Withdrawing(EncodeFailed)
    else if a == Snapshot(c) then if s.pipe == None then Withdrawing(NoInput) else Sending(s.pipe.value)
    else if a == WriteOk(c) then Waiting
    else if a == WriteFail(c) then Withdrawing(WriteFailed)
    else if a == Cancel(c) then Withdrawing(Cancelled)
    else if a == Receive(c) then Returned(Answered(if c < |s.chans| && s.chans[c].slot.Some? then s.chans[c].slot.value else ZERO))
    else if a == Cleanup(c) && pc.Withdrawing? then Returned(pc.why)
    else pc
  }

  /** Where a call must stand for its steps. */
  predicate FromPc(a: Action, c: nat, pc: Pc) {
    && (a == Allocate(c) ==> pc.Entered?) && (a == Register(c) ==> pc.Allocated?)
    && (a == EncodeFail(c) || a == Snapshot(c) ==> pc.Registered?)
    && (a == WriteOk(c) || a == WriteFail(c) ==> pc.Sending?)
    && (a == Cancel(c) || a == Receive(c) ==> pc.Waiting?) && (a == Cleanup(c) ==> pc.Withdrawing?)
  }

  lemma FromEnabled(s: State, a: Action, c: nat)
    requires Enabled(s, a)
    ensures FromPc(a, c, PcAt(s, c))
  {
    hide Apply;
  }

  lemma PcMoves(s: State, a: Action, c: nat)
    requires Enabled(s, a)
    ensures PcAt(Apply(s, a), c) == NextPc(s, a, c)
  {
    hide Apply, Enabled;
    if Outside(a) || a.Frame? || a.ReaderExit? || a.StopSweep? || a.Send? || a.CloseChan? {
      CallsAlone(s, a);
    } else if a.Enter? {
      AfterEnter(s);
    } else if a.c == c {
      PcOfOwn(s, a);
    } else {
      PcOfOthers(s, a, c);
    }
  }

  lemma AfterEnter(s: State)
    requires Enabled(s, Enter)
    ensures Apply(s, Enter).calls == s.calls + [Call(Entered, 0)]
  {
  }

  predicate OfCall(a: Action) {
    a.Allocate? || a.Register? || a.EncodeFail? || a.Snapshot? || a.WriteOk? || a.WriteFail? || a.Receive? || a.Cancel? || a.Cleanup?
  }

  lemma PcOfOwn(s: State, a: Action)
    requires Enabled(s, a) && OfCall(a)
    ensures PcAt(Apply(s, a), a.c) == NextPc(s, a, a.c)
  {
  }

  lemma PcOfOthers(s: State, a: Action, c: nat)
    requires Enabled(s, a) && OfCall(a) && a.c != c
    ensures PcAt(Apply(s, a), c) == PcAt(s, c)
  {
  }

  lemma InSnoc(run: seq<Action>, a: Action, x: Action)
    ensures x in run + [a] <==> x in run || x == a
  {
  }

  lemma PcOkNext(run: seq<Action>, s: State, a: Action, c: nat)
    requires PcOk(run, c, PcAt(s, c)) && FromPc(a, c, PcAt(s, c))
    ensures PcOk(run + [a], c, NextPc(s, a, c))
  {
    hide Apply, Enabled, BeganOk, FinishedOk, NextPc, FromPc;
    BeganNext(run, s, a, c);
    FinishedNext(run, s, a, c);
  }

  lemma BeganNext(run: seq<Action>, s: State, a: Action, c: nat)
    requires BeganOk(run, c, PcAt(s, c)) && FromPc(a, c, PcAt(s, c))
    ensures BeganOk(run + [a], c, NextPc(s, a, c))
  {
    InSnoc(run, a, Allocate(c));
    InSnoc(run, a, Register(c));
    InSnoc(run, a, EncodeFail(c));
    InSnoc(run, a, Snapshot(c));
  }

  lemma FinishedNext(run: seq<Action>, s: State, a: Action, c: nat)
    requires FinishedOk(run, c, PcAt(s, c)) && FromPc(a, c, PcAt(s, c))
    ensures FinishedOk(run + [a], c, NextPc(s, a, c))
  {
    InSnoc(run, a, WriteOk(c));
    InSnoc(run, a, WriteFail(c));
    InSnoc(run, a, Cancel(c));
    InSnoc(run, a, Receive(c));
    InSnoc(run, a, Cleanup(c));
  }

  lemma PcOwn(run: seq<Action>, s: State, a: Action, c: nat)
    requires Enabled(s, a) && PcOk(run, c, PcAt(s, c))
    ensures PcOk(run + [a], c, PcAt(Apply(s, a), c))
  {
    hide Apply, Enabled, PcOk, PcAt, NextPc, FromPc;
    FromEnabled(s, a, c);
    PcMoves(s, a, c);
    PcOkNext(run, s, a, c);
  }

  lemma {:induction false} CallIsItsSteps(run: seq<Action>, c: nat)
    requires Exec(INIT, run).Some?
    ensures PcOk(run, c, PcAt(Exec(INIT, run).value, c))
    decreases |run|
  {
    if run != [] {
      var front, a := run[..|run| - 1], run[|run| - 1];
      ExecLast(INIT, run);
      CallIsItsSteps(front, c);
      hide Apply, Enabled, Exec, PcOk, PcAt;
      PcOwn(front, Exec(INIT, front).value, a, c);
      assert run == front + [a];
    }
  }

  /** Every step of every call is possible exactly when its predecessor has been taken and
      nothing has ended it there, whatever the others do. */
  lemma CallStepsPossible(run: seq<Action>, c: nat)
    requires Exec(INIT, run).Some?
    ensures var s := Exec(INIT, run).value;
            && (Enabled(s, Allocate(c)) <==> c < |s.calls| && Allocate(c) !in run)
            && (Enabled(s, Register(c)) <==> Allocate(c) in run && Register(c) !in run)
            && (Enabled(s, EncodeFail(c)) <==> Register(c) in run && EncodeFail(c) !in run && Snapshot(c) !in run)
            && (Enabled(s, Snapshot(c)) <==> Register(c) in run && EncodeFail(c) !in run && Snapshot(c) !in run)
            && (Enabled(s, WriteFail(c)) <==> Snapshot(c) in run && WriteOk(c) !in run && Ended(s, c) == [])
            && (Enabled(s, Cancel(c)) <==> WriteOk(c) in run && Cancel(c) !in run && Receive(c) !in run)
            && (Enabled(s, Cleanup(c)) <==> Ended(s, c) != [] && Receive(c) !in run && Cleanup(c) !in run)
  {
    CallIsItsSteps(run, c);
    hide Exec, Apply;
  }

  // ------------------------------------------------- who may enter

  lemma {:induction false} AliveRun(s: State, run: seq<Action>)
    requires Exec(s, run).Some?
    ensures Exec(s, run).value.alive <==> s.alive && StopMark !in run && Die !in run
    ensures |s.calls| <= |Exec(s, run).value.calls|
    ensures !s.alive ==> |Exec(s, run).value.calls| == |s.calls|
    decreases |run|
  {
    if run != [] {
      AliveStep(s, run[0]);
      AliveRun(Apply(s, run[0]), run[1..]);
      assert run == [run[0]] + run[1..];
    }
  }

  lemma AliveStep(s: State, a: Action)
    requires Enabled(s, a)
    ensures Apply(s, a).alive <==> s.alive && a != StopMark && a != Die
    ensures |Apply(s, a).calls| == |s.calls| + (if a == Enter then 1 else 0) && (a == Enter ==> s.alive)
  {
  }

  /** A call may enter exactly until Stop begins or the session dies; from then on none does,
      whatever is respawned. */
  lemma NobodyEntersAfterStop(run: seq<Action>, more: seq<Action>)
    requires Exec(INIT, run).Some? && Exec(Exec(INIT, run).value, more).Some?
    ensures Enabled(Exec(INIT, run).value, Enter) <==> StopMark !in run && Die !in run
    ensures StopMark in run || Die in run ==>
              |Exec(Exec(INIT, run).value, more).value.calls| == |Exec(INIT, run).value.calls|
  {
    AliveRun(INIT, run);
    AliveRun(Exec(INIT, run).value, more);
  }

  // ------------------------------------------------- the next child

  lemma PipeRun(run: seq<Action>)
    requires Exec(INIT, run).Some?
    ensures RpcDrain.PipeInv(Exec(INIT, run).value)
  {
    InitInv();
    RpcDrain.StopRun(INIT, run);
  }

  /** Once the reader is gone and has drained, a respawn is always possible, any number of times:
      the old stdin out of the field and closed, the new one open in its place, a new reader,
      and no call, entry or channel touched. */
  lemma RespawnServesAgain(run: seq<Action>)
    requires Exec(INIT, run).Some?
    requires var s := Exec(INIT, run).value; s.reader == Exited && s.readerHands == NO_JOBS
    ensures var s := Exec(INIT, run).value;
            var clear := if s.pipe.Some? then [WaitClear] else [];
            var next := s.attempt + 1;
            Exec(s, clear + [WaitShut, Respawn])
            == Some(s.(pipe := Some(next), open := s.open - {s.attempt} + {next}, attempt := next, reader := Scanning))
    ensures Exec(INIT, run).value.open <= {Exec(INIT, run).value.attempt}
  {
    PipeRun(run);
    var s := Exec(INIT, run).value;
    var s1 := s.(pipe := None);
    Respawning(s1);
    if s.pipe.Some? {
      assert Apply(s, WaitClear) == s1;
      ExecCons(s, WaitClear, [WaitShut, Respawn]);
    } else {
      assert [] + [WaitShut, Respawn] == [WaitShut, Respawn] && s == s1;
    }
  }

  lemma Respawning(s: State)
    requires s.reader == Exited && s.readerHands == NO_JOBS && s.pipe == None
    ensures Exec(s, [WaitShut, Respawn])
         == Some(s.(pipe := Some(s.attempt + 1), open := s.open - {s.attempt} + {s.attempt + 1}, attempt := s.attempt + 1,
                    reader := Scanning))
  {
    var s1 := s.(open := s.open - {s.attempt});
    assert Apply(s, WaitShut) == s1;
    ExecOne(s1, Respawn);
    ExecCons(s, WaitShut, [Respawn]);
    assert [WaitShut] + [Respawn] == [WaitShut, Respawn];
  }
}
