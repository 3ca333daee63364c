/** Draining: what Stop and reader exit do for the calls that were registered, and what they
    cannot do for the ones that come later. */
module RpcDrain {
  import opened Common
  import opened RpcProtocol
  import opened RpcInvariant

  // ------------------------------------------------- a drain resolves what it found

  /** c was registered at some point and is no longer in the map. */
  predicate Removed(s: State, c: nat) {
    c < |s.calls| && c < |s.chans| && !Unregistered(s.calls[c].pc) && !InPending(s, c)
  }

  lemma RemovedRegister(s: State, a: Action, c: nat)
    requires IdInv(s) && Enabled(s, a) && a.Register? && Removed(s, c)
    ensures Removed(Apply(s, a), c)
  {
    assert a.c != c && s.calls[a.c].id != s.calls[c].id;
  }

  lemma RemovedOther(s: State, a: Action, c: nat)
    requires Enabled(s, a) && !a.Register? && Removed(s, c)
    ensures Removed(Apply(s, a), c)
  {
  }

  lemma RemovedStep(s: State, a: Action, c: nat)
    requires Inv(s) && Enabled(s, a) && Removed(s, c)
    ensures Removed(Apply(s, a), c)
  {
    if a.Register? {
      RemovedRegister(s, a, c);
    } else {
      RemovedOther(s, a, c);
    }
  }

  lemma {:induction false} RemovedForever(s: State, run: seq<Action>, c: nat)
    requires Inv(s) && Removed(s, c) && Exec(s, run).Some?
    ensures Inv(Exec(s, run).value) && Removed(Exec(s, run).value, c)
    decreases |run|
  {
    if run != [] {
      InvStep(s, run[0]);
      RemovedStep(s, run[0], c);
      RemovedForever(Apply(s, run[0]), run[1..], c);
    }
  }

  function One(b: bool): nat {
    if b then 1 else 0
  }

  predicate Given(s: State, c: nat)
    requires c < |s.chans|
  {
    s.chans[c].sends == 1
  }

  /** Some remover holds the channel and has yet to send on it. */
  predicate AboutToSend(s: State, who: Who, c: nat) {
    Held(s, who, c) && HandsOf(s, who).sent != Some(c)
  }

  /** The caller gave up and took its own entry back. */
  predicate Withdrew(s: State, c: nat)
    requires c < |s.calls| && c < |s.chans|
  {
    s.calls[c].pc.Returned? && !s.calls[c].pc.how.Answered? && s.chans[c].sends == 0
    && !Held(s, Reader, c) && !Held(s, Stopper, c)
  }

  /** Exactly one fate. */
  predicate Resolved(s: State, c: nat)
    requires c < |s.calls| && c < |s.chans|
  {
    && s.chans[c].sends <= 1
    && One(Given(s, c)) + One(AboutToSend(s, Reader, c)) + One(AboutToSend(s, Stopper, c)) + One(Withdrew(s, c)) == 1
  }

  lemma RemovedIsResolved(s: State, c: nat)
    requires Inv(s) && Removed(s, c)
    ensures Resolved(s, c)
  {
    assert CallOk(s, c);
    if Held(s, Reader, c) {
      assert JobOk(s, Reader, c);
    }
    if Held(s, Stopper, c) {
      assert JobOk(s, Stopper, c);
    }
  }

  predicate Drains(a: Action) {
    a == ReaderExit || a == StopSweep
  }

  /** At every moment after a drain's map swap, every call that was registered before it has
      been given exactly one outcome, or has been withdrawn by its caller, or is held by
      exactly one remover about to send; and none of them is in the map again. */
  lemma DrainResolves(run: seq<Action>, drain: Action, more: seq<Action>, c: nat)
    requires Exec(INIT, run).Some? && Drains(drain) && Enabled(Exec(INIT, run).value, drain)
    requires Exec(Apply(Exec(INIT, run).value, drain), more).Some?
    requires c < |Exec(INIT, run).value.calls| && !Unregistered(Exec(INIT, run).value.calls[c].pc)
    ensures var u := Exec(Apply(Exec(INIT, run).value, drain), more).value;
            Removed(u, c) && Resolved(u, c)
  {
    InitInv();
    InvRun(INIT, run);
    var s := Exec(INIT, run).value;
    InvStep(s, drain);
    RemovedForever(Apply(s, drain), more, c);
    RemovedIsResolved(Exec(Apply(s, drain), more).value, c);
  }

  /** No leak: every id in the map belongs to a call that has not returned. */
  lemma NoLeakedEntry(run: seq<Action>, id: int)
    requires Exec(INIT, run).Some? && id in Exec(INIT, run).value.pending
    ensures var s := Exec(INIT, run).value;
            var c := s.pending[id];
            c < |s.calls| && s.calls[c].id == id && InFlight(s.calls[c].pc)
  {
    InitInv();
    InvRun(INIT, run);
    var s := Exec(INIT, run).value;
    assert EntryOk(s, id, s.pending[id]);
  }

  /** While no removal is under way, a call blocked in its select has its answer exactly when
      its entry has been removed: there is no other way to be answered and no way to be
      forgotten. */
  lemma AnsweredIffRemoved(run: seq<Action>, c: nat)
    requires Exec(INIT, run).Some? && At(Exec(INIT, run).value, c, Waiting)
    requires var s := Exec(INIT, run).value; s.readerHands == NO_JOBS && s.stopHands == NO_JOBS
    ensures var s := Exec(INIT, run).value;
            c < |s.chans| && (s.chans[c].slot.Some? <==> !InPending(s, c))
  {
    InitInv();
    InvRun(INIT, run);
    assert CallOk(Exec(INIT, run).value, c);
  }

  // ------------------------------------------------- a drain runs to completion

  function Work(h: Hands): nat {
    2 * |h.jobs| - One(h.sent.Some? && |h.jobs| > 0)
  }

  predicate OwnStep(a: Action, who: Who) {
    (a.Send? || a.CloseChan?) && a.who == who
  }

  /** While a remover holds anything, its next own step is enabled and leaves it one unit less
      of work. */
  lemma NextOwnStep(s: State, who: Who) returns (a: Action)
    requires Inv(s) && HandsOf(s, who).jobs != map[]
    ensures Enabled(s, a) && OwnStep(a, who)
    ensures Work(HandsOf(Apply(s, a), who)) == Work(HandsOf(s, who)) - 1
  {
    var h := HandsOf(s, who);
    if h.sent.Some? {
      a := CloseChan(who, h.sent.value);
      assert JobOk(s, who, h.sent.value);
      RemoveOne(h.jobs, h.sent.value);
    } else {
      var c :| c in h.jobs;
      a := Send(who, c);
      assert JobOk(s, who, c);
    }
  }

  /** From any reachable state a remover can empty its hands by its own steps alone: each is
      enabled whatever the callers do or do not read, and there are exactly as many as it has
      work left. They touch nothing but its hands and the channels in them. */
  lemma {:induction false} DrainCompletes(s: State, who: Who) returns (run: seq<Action>)
    requires Inv(s)
    ensures Exec(s, run).Some? && Inv(Exec(s, run).value)
    ensures HandsOf(Exec(s, run).value, who) == NO_JOBS && OnlyHands(s, Exec(s, run).value, who)
    ensures |run| == Work(HandsOf(s, who)) && forall i :: 0 <= i < |run| ==> OwnStep(run[i], who)
    decreases Work(HandsOf(s, who))
  {
    if HandsOf(s, who).jobs == map[] {
      run := [];
    } else {
      var a := NextOwnStep(s, who);
      InvStep(s, a);
      OwnStepFrame(s, a, who);
      var rest := DrainCompletes(Apply(s, a), who);
      run := [a] + rest;
      assert run[1..] == rest;
    }
  }

  /** u is s but for one remover's hands and the channels. */
  predicate OnlyHands(s: State, u: State, who: Who) {
    && u.calls == s.calls && u.pending == s.pending && HandsOf(u, Other(who)) == HandsOf(s, Other(who))
    && u.reader == s.reader && u.stop == s.stop && |u.chans| == |s.chans|
  }

  lemma OwnStepFrame(s: State, a: Action, who: Who)
    requires Enabled(s, a) && OwnStep(a, who)
    ensures OnlyHands(s, Apply(s, a), who)
  {
  }

  lemma RemoveOne(m: map<nat, Response>, c: nat)
    requires c in m
    ensures |m - {c}| == |m| - 1
  {
    assert (m - {c}).Keys == m.Keys - {c};
    assert |m| == |m.Keys| && |m - {c}| == |(m - {c}).Keys|;
  }

  // ------------------------------------------------- what Stop guarantees

  /** The stdin handle: one open handle at most, and it is the current attempt's; Stop's
      snapshot is of the attempt it ran in. */
  predicate PipeInv(s: State) {
    && s.open <= {s.attempt}
    && (s.pipe.Some? ==> s.pipe.value == s.attempt)
    && s.stopAttempt <= s.attempt
    && (s.stopPipe.Some? ==> s.stopPipe.value == s.stopAttempt)
    && (s.stop.Snapped? || s.stop.PipeShut? || s.stop.Swept? ==>
          s.stopAttempt == s.attempt && s.stopPipe == None ==> s.pipe == None)
    && (s.stop.PipeShut? || s.stop.Swept? ==> s.stopPipe.Some? ==> s.stopPipe.value !in s.open)
  }

  /** A call that registered after Stop's drain has not got its request onto an open pipe,
      unless a respawn intervened. */
  predicate TurnedAway(s: State, c: nat) {
    c < |s.calls| && match s.calls[c].pc
      case Registered => true
      case Withdrawing(_) => true
      case Sending(p) => p !in s.open
      case _ => false
  }

  ghost predicate StopInv(s: State) {
    s.stop.Swept? && s.attempt == s.stopAttempt ==> forall id :: id in s.pending ==> TurnedAway(s, s.pending[id])
  }

  lemma PipeMoves(s: State, a: Action)
    requires PipeInv(s) && Enabled(s, a) && (Outside(a) || a.StopSweep?)
    ensures PipeInv(Apply(s, a))
  {
    if a.Respawn? {
      assert s.open == {};
      assert Apply(s, a).open == {s.attempt + 1};
    } else {
      OpenShrinks(s, a);
    }
  }

  lemma OpenShrinks(s: State, a: Action)
    requires Enabled(s, a) && (Outside(a) || a.StopSweep?) && !a.Respawn?
    ensures var t := Apply(s, a);
            && t.open <= s.open && t.attempt == s.attempt && (t.pipe == s.pipe || t.pipe == None)
            && (t.stopPipe == s.stopPipe || (a.StopSnap? && t.stopPipe == s.pipe))
            && t.stopAttempt == (if a.StopSnap? then s.attempt else s.stopAttempt)
            && (a.StopShut? && s.stopPipe.Some? ==> s.stopPipe.value !in t.open)
  {
  }

  lemma PipeFrame(s: State, a: Action)
    requires Enabled(s, a) && !Outside(a) && !a.StopSweep?
    ensures var t := Apply(s, a);
            && t.pipe == s.pipe && t.open == s.open && t.attempt == s.attempt
            && t.stop == s.stop && t.stopPipe == s.stopPipe && t.stopAttempt == s.stopAttempt
  {
  }

  lemma PipeStep(s: State, a: Action)
    requires PipeInv(s) && Enabled(s, a)
    ensures PipeInv(Apply(s, a))
  {
    if Outside(a) || a.StopSweep? {
      PipeMoves(s, a);
    } else {
      PipeFrame(s, a);
      hide Apply;
    }
  }

  lemma TurnedAwayStep(s: State, a: Action, id: int)
    requires Inv(s) && PipeInv(s) && StopInv(s) && Enabled(s, a) && a != StopSweep
    requires Apply(s, a).stop == Swept && Apply(s, a).attempt == Apply(s, a).stopAttempt && id in Apply(s, a).pending
    ensures TurnedAway(Apply(s, a), Apply(s, a).pending[id])
  {
    if id in s.pending {
      assert EntryOk(s, id, s.pending[id]);
    }
    if Outside(a) {
      TurnedAwayOutside(s, a, id);
    } else {
      PipeFrame(s, a);
      assert id in s.pending ==> TurnedAway(s, s.pending[id]);
      TurnedAwayInside(s, a, id);
    }
  }

  lemma TurnedAwayOutside(s: State, a: Action, id: int)
    requires PipeInv(s) && StopInv(s) && Enabled(s, a) && Outside(a)
    requires Apply(s, a).stop == Swept && Apply(s, a).attempt == Apply(s, a).stopAttempt && id in Apply(s, a).pending
    ensures TurnedAway(Apply(s, a), Apply(s, a).pending[id])
  {
  }

  lemma TurnedAwayInside(s: State, a: Action, id: int)
    requires PipeInv(s) && Enabled(s, a) && !Outside(a) && a != StopSweep
    requires s.stop == Swept && s.attempt == s.stopAttempt && id in Apply(s, a).pending
    requires id in s.pending ==> EntryOk(s, id, s.pending[id]) && TurnedAway(s, s.pending[id])
    ensures TurnedAway(Apply(s, a), Apply(s, a).pending[id])
  {
    PipeFrame(s, a);
    if a.Frame? || a.ReaderExit? || a.Send? || a.CloseChan? {
      OnlyRemoves(s, a);
      hide Apply;
    } else if a.Snapshot? {
      assert s.pipe == None || s.pipe.value !in s.open;
      TurnedAwayCaller(s, a, id);
    } else {
      TurnedAwayCaller(s, a, id);
    }
  }

  /** The reader and the removers take entries out and leave the calls alone. */
  lemma OnlyRemoves(s: State, a: Action)
    requires Enabled(s, a) && (a.Frame? || a.ReaderExit? || a.Send? || a.CloseChan?)
    ensures Apply(s, a).calls == s.calls
    ensures forall id :: id in Apply(s, a).pending ==> id in s.pending && Apply(s, a).pending[id] == s.pending[id]
  {
  }

  lemma TurnedAwayCaller(s: State, a: Action, id: int)
    requires Enabled(s, a) && !Outside(a) && a != StopSweep && !a.Frame? && !a.ReaderExit? && !a.Send? && !a.CloseChan?
    requires a.Snapshot? ==> s.pipe == None || s.pipe.value !in s.open
    requires id in Apply(s, a).pending
    requires id in s.pending ==> EntryOk(s, id, s.pending[id]) && TurnedAway(s, s.pending[id])
    ensures TurnedAway(Apply(s, a), Apply(s, a).pending[id])
  {
    hide Take, Route;
  }

  lemma StopStep(s: State, a: Action)
    requires Inv(s) && PipeInv(s) && StopInv(s) && Enabled(s, a)
    ensures StopInv(Apply(s, a))
  {
    var t := Apply(s, a);
    if t.stop.Swept? && t.attempt == t.stopAttempt && a != StopSweep {
      forall id | id in t.pending
        ensures TurnedAway(t, t.pending[id])
      {
        TurnedAwayStep(s, a, id);
      }
    }
  }

  lemma {:induction false} StopRun(s: State, run: seq<Action>)
    requires Inv(s) && PipeInv(s) && StopInv(s) && Exec(s, run).Some?
    ensures var t := Exec(s, run).value; Inv(t) && PipeInv(t) && StopInv(t)
    decreases |run|
  {
    if run != [] {
      InvStep(s, run[0]);
      PipeStep(s, run[0]);
      StopStep(s, run[0]);
      StopRun(Apply(s, run[0]), run[1..]);
    }
  }

  /** Once Stop's drain has finished, every call still blocked in its select has its answer in
      its channel or is held by the reader about to send, whenever it registered, provided no
      respawn has slipped past Stop's snapshot of the pipe. */
  lemma StopReleasesEveryone(run: seq<Action>, c: nat)
    requires Exec(INIT, run).Some?
    requires var s := Exec(INIT, run).value;
             s.stop == Swept && s.stopHands == NO_JOBS && s.attempt == s.stopAttempt && At(s, c, Waiting)
    ensures var s := Exec(INIT, run).value;
            c < |s.chans| && (s.chans[c].slot.Some? || AboutToSend(s, Reader, c))
  {
    InitInv();
    StopRun(INIT, run);
    var s := Exec(INIT, run).value;
    assert CallOk(s, c);
    WaitingNotPending(s, c);
    if Held(s, Reader, c) {
      assert JobOk(s, Reader, c);
    }
  }

  lemma WaitingNotPending(s: State, c: nat)
    requires StopInv(s) && s.stop == Swept && s.attempt == s.stopAttempt && At(s, c, Waiting)
    ensures !InPending(s, c)
  {
    if s.calls[c].id in s.pending {
      assert TurnedAway(s, s.pending[s.calls[c].id]);
    }
  }

  // ------------------------------------------------- calls that come too late

  /** Blocked with nobody left to answer: the reader has drained and exited, Stop has drained,
      and the call has registered since and is still in the map, whatever else the removers
      are busy with. */
  predicate Stranded(s: State, c: nat) {
    s.reader == Exited && s.stop == Swept && At(s, c, Waiting) && InPending(s, c)
  }

  /** Only its own context or a further respawn can help a stranded call. */
  lemma {:induction false} StrandedStays(s: State, run: seq<Action>, c: nat)
    requires Inv(s) && Stranded(s, c) && Exec(s, run).Some?
    requires Cancel(c) !in run && Respawn !in run
    ensures Inv(Exec(s, run).value) && Stranded(Exec(s, run).value, c)
    decreases |run|
  {
    if run != [] {
      assert run[0] in run;
      StrandedStep(s, run[0], c);
      InvStep(s, run[0]);
      StrandedStays(Apply(s, run[0]), run[1..], c);
    }
  }

  lemma StrandedStep(s: State, a: Action, c: nat)
    requires Inv(s) && Stranded(s, c) && Enabled(s, a) && a != Cancel(c) && a != Respawn
    ensures Stranded(Apply(s, a), c)
  {
    assert EntryOk(s, s.calls[c].id, c);
    if a.Cleanup? || a.Register? {
      assert a.c != c && s.calls[a.c].id != s.calls[c].id;
    }
  }

  /** The run answers the call by other means than its own context or a respawn. */
  predicate Answers(s: State, run: seq<Action>, c: nat) {
    && Cancel(c) !in run && Respawn !in run && Exec(s, run).Some?
    && var u := Exec(s, run).value;
       c < |u.calls| && u.calls[c].pc.Returned? && u.calls[c].pc.how.Answered?
  }

  /** A call blocked in its select can still be answered, without a respawn, if and only if it is
      not stranded. */
  lemma AnswerableIffNotStranded(s: State, c: nat)
    requires Inv(s) && At(s, c, Waiting)
    ensures (exists run :: Answers(s, run, c)) <==> !Stranded(s, c)
  {
    if Stranded(s, c) {
      forall run
        ensures !Answers(s, run, c)
      {
        if Cancel(c) !in run && Respawn !in run && Exec(s, run).Some? {
          StrandedStays(s, run, c);
        }
      }
    } else {
      var run := AnswerRun(s, c);
    }
  }

  /** Steps of the reader and of Stop, and the call's own read. */
  predicate Helps(a: Action, c: nat) {
    a.Send? || a.CloseChan? || a == ReaderExit || a == StopMark || a == StopSnap || a == StopShut || a == StopSweep || a == Receive(c)
  }

  ghost predicate AllHelp(run: seq<Action>, c: nat) {
    forall i :: 0 <= i < |run| ==> Helps(run[i], c)
  }

  lemma HelpIsNoCancel(run: seq<Action>, c: nat)
    requires AllHelp(run, c)
    ensures Cancel(c) !in run && Respawn !in run
  {
  }

  /** A waiting call that is out of the map gets its answer: both removers finish, and it reads. */
  lemma AnswerRemoved(s: State, c: nat) returns (run: seq<Action>)
    requires Inv(s) && At(s, c, Waiting) && !InPending(s, c)
    ensures AllHelp(run, c) && Answers(s, run, c)
  {
    hide Enabled, Apply, Exec, Inv, InPending;
    var first := DrainCompletes(s, Reader);
    var s1 := Exec(s, first).value;
    var second := DrainCompletes(s1, Stopper);
    var s2 := Exec(s1, second).value;
    assert InPending(s2, c) == InPending(s, c) by {
      InPendingKept(s, s2, c);
    }
    ReadsAnswer(s2, c);
    ExecOne(s2, Receive(c));
    ExecConcat(s1, second, [Receive(c)]);
    ExecConcat(s, first, second + [Receive(c)]);
    run := first + (second + [Receive(c)]);
    HelpIsNoCancel(run, c);
  }

  lemma ReadsAnswer(s: State, c: nat)
    requires Inv(s) && At(s, c, Waiting) && !InPending(s, c) && s.readerHands == NO_JOBS && s.stopHands == NO_JOBS
    ensures Enabled(s, Receive(c))
    ensures var u := Apply(s, Receive(c));
            c < |u.calls| && u.calls[c].pc.Returned? && u.calls[c].pc.how.Answered?
  {
    assert CallOk(s, c);
  }

  /** A remover that has not drained yet can be brought to do so. */
  lemma AnswerRun(s: State, c: nat) returns (run: seq<Action>)
    requires Inv(s) && At(s, c, Waiting) && !Stranded(s, c)
    ensures Answers(s, run, c)
  {
    if !InPending(s, c) {
      run := AnswerRemoved(s, c);
    } else {
      var drain: seq<Action>;
      if s.reader == Scanning {
        drain := ReachReaderExit(s, c);
      } else {
        drain := ReachSweep(s, c);
      }
      var s1 := Exec(s, drain).value;
      var rest := AnswerRemoved(s1, c);
      ExecConcat(s, drain, rest);
      run := drain + rest;
      HelpIsNoCancel(run, c);
    }
  }

  /** The call still waits, and has been taken out of the map. */
  predicate Drained(s: State, run: seq<Action>, c: nat) {
    Exec(s, run).Some? && At(Exec(s, run).value, c, Waiting) && !InPending(Exec(s, run).value, c)
  }

  lemma ReachReaderExit(s: State, c: nat) returns (run: seq<Action>)
    requires Inv(s) && At(s, c, Waiting) && s.reader == Scanning
    ensures AllHelp(run, c) && Drained(s, run, c) && Inv(Exec(s, run).value)
  {
    var first := DrainCompletes(s, Reader);
    var s1 := Exec(s, first).value;
    ExecOne(s1, ReaderExit);
    ExecConcat(s, first, [ReaderExit]);
    InvStep(s1, ReaderExit);
    run := first + [ReaderExit];
  }

  lemma {:induction false} ReachSweep(s: State, c: nat) returns (run: seq<Action>)
    requires Inv(s) && At(s, c, Waiting) && s.stop != Swept
    ensures AllHelp(run, c) && Drained(s, run, c) && Inv(Exec(s, run).value)
    decreases if s.stop.NotStopped? then 3 else if s.stop.Marked? then 2 else if s.stop.Snapped? then 1 else 0
  {
    var a := if s.stop.NotStopped? then StopMark else if s.stop.Marked? then StopSnap else if s.stop.Snapped? then StopShut else StopSweep;
    InvStep(s, a);
    if a == StopSweep {
      run := [a];
      ExecOne(s, a);
    } else {
      var rest := ReachSweep(Apply(s, a), c);
      run := [a] + rest;
      assert run[1..] == rest;
    }
  }

  /** One call past the alive check, and every drain done that its attempt will see. */
  predicate Swept0(s: State, attempt: nat) {
    && s.stop == Swept && s.stopHands == NO_JOBS && s.readerHands == NO_JOBS && s.pending == map[]
    && s.calls == [Call(Entered, 0)] && s.chans == [FRESH] && s.stopAttempt == 0 && s.attempt == attempt
  }

  const STOP_FIRST: seq<Action> := [Enter, StopMark, StopSnap, StopShut, StopSweep]
  const RESPAWN_NEXT: seq<Action> := [WaitClear, WaitShut, ReaderExit, Respawn, ReaderExit]
  const REGISTER_LAST: seq<Action> := [Allocate(0), Register(0), Snapshot(0), WriteOk(0)]

  /** A call that passed the alive check before Stop, then registered after Stop's drain and
      after the respawned child's reader had exited. */
  const LATE_CALL := STOP_FIRST + RESPAWN_NEXT + REGISTER_LAST

  lemma TakeNone(m: map<int, nat>, r: Response)
    requires m == map[]
    ensures Take(m, r) == NO_JOBS
  {
    assert Owners(m) == {};
  }

  lemma StopFirst()
    ensures Exec(INIT, STOP_FIRST).Some?
    ensures var s := Exec(INIT, STOP_FIRST).value;
            Swept0(s, 0) && s.reader == Scanning && s.pipe.Some? && s.open == {}
  {
    hide Take, Route;
    TakeNone(map[], STOPPED);
  }

  lemma RespawnNext(s: State)
    requires Swept0(s, 0) && s.reader == Scanning && s.pipe.Some? && s.open == {}
    ensures Exec(s, RESPAWN_NEXT).Some?
    ensures var t := Exec(s, RESPAWN_NEXT).value;
            Swept0(t, 1) && t.reader == Exited && t.pipe == Some(1) && 1 in t.open
  {
    TakeNone(map[], READER_GONE);
  }

  lemma RegisterLast(s: State)
    requires Swept0(s, 1) && s.reader == Exited && s.pipe == Some(1) && 1 in s.open
    ensures Exec(s, REGISTER_LAST).Some?
    ensures var t := Exec(s, REGISTER_LAST).value; Stranded(t, 0) && t.attempt > t.stopAttempt
  {
  }

  /** Such a call exists: the proviso of StopReleasesEveryone cannot be dropped, and no
      unconditional promise that a call returns is true. */
  lemma LateCallIsStranded()
    ensures Exec(INIT, LATE_CALL).Some? && Stranded(Exec(INIT, LATE_CALL).value, 0)
    ensures Exec(INIT, LATE_CALL).value.attempt > Exec(INIT, LATE_CALL).value.stopAttempt
  {
    StopFirst();
    var s := Exec(INIT, STOP_FIRST).value;
    RespawnNext(s);
    ExecConcat(INIT, STOP_FIRST, RESPAWN_NEXT);
    RegisterLast(Exec(s, RESPAWN_NEXT).value);
    ExecConcat(INIT, STOP_FIRST + RESPAWN_NEXT, REGISTER_LAST);
  }
}
