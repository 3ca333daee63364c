/** The input side of the terminal in place: the master handle behind its lock, SendInput and
    the raw boot-prompt write, and the waiter's clear-then-close. Each is tied to the steps
    `PtyHandle` interleaves. */
module PtyInput {
  import opened Common
  import opened PtyHandle

  /** A terminal master; `received` is every byte the child's side was given. Writing to a
      closed one is the mistake the handle protocol exists to prevent. */
  class Master {
    var received: seq<byte>
    var isOpen: bool

    constructor ()
      ensures received == [] && isOpen
    {
      received, isOpen := [], true;
    }

    /** One write: all of p, or an error after some part of it. */
    method Write(p: seq<byte>, taken: nat) returns (ok: bool)
      requires isOpen
      modifies `received
      ensures ok == (taken >= |p|)
      ensures received == old(received) + p[..Min(taken, |p|)]
    {
      ok := taken >= |p|;
      received := received + p[..Min(taken, |p|)];
    }
  }

  datatype SendResult = Delivered | NoInputChannel | WriteFailed

  // ------------------------------------------------- the steps of one uninterrupted call

  /** The steps one send takes when nobody else gets in between: none if the session is not
      alive, otherwise lock, look, write what the master takes, and finish. */
  function SendRun(s: State, data: seq<byte>, raw: bool, taken: nat): seq<Action> {
    var i, p := |s.senders|, Payload(Sender(data, raw, Ready));
    var enter := [Begin(data, raw), Lock(i), Look(i)];
    if !s.alive then []
    else if s.ptmx == None then enter
    else if taken == 0 || p == [] then enter + [if p == [] then Done(i) else Fail(i)]
    else enter + [Action.Write(i, Min(taken, |p|)), if taken >= |p| then Done(i) else Fail(i)]
  }

  const REAP_RUN: seq<Action> := [WaitLock, WaitClear, WaitClose]
  const RESPAWN_RUN: seq<Action> := [PtyStart, SpawnLock, SpawnInstall]

  /** u is s but for the senders, the write history, and p more bytes on the master in place. */
  predicate Took(s: State, u: State, p: seq<byte>) {
    && u.alive == s.alive && u.lock == s.lock && u.ptmx == s.ptmx && u.open == s.open && u.waiter == s.waiter
    && (match s.ptmx
        case None => u.logs == s.logs
        case Some(m) => m < |s.logs| && u.logs == s.logs[m := s.logs[m] + p])
  }

  lemma TookNothing(s: State, u: State)
    requires HandleInv(s) && u.logs == s.logs
    requires u.alive == s.alive && u.lock == s.lock && u.ptmx == s.ptmx && u.open == s.open && u.waiter == s.waiter
    ensures Took(s, u, [])
  {
    if s.ptmx.Some? {
      var m := s.ptmx.value;
      assert s.logs[m] + [] == s.logs[m] && s.logs[m := s.logs[m]] == s.logs;
    }
  }

  lemma ExecCons(s: State, a: Action, rest: seq<Action>)
    requires Enabled(s, a)
    ensures Exec(s, [a] + rest) == Exec(Apply(s, a), rest)
  {
    assert ([a] + rest)[1..] == rest;
  }

  /** How a send of p ends that nobody interrupts: refused without a master, sent if the master
      takes all of p, failed otherwise. */
  function SendEnd(s: State, p: seq<byte>, taken: nat): Pc {
    match s.ptmx
    case None => Refused
    case Some(m) => if taken >= |p| then Sent(s.tickets, m) else Failed(s.tickets, m, taken)
  }

  /** The sender is in its critical section, with the master in hand and nothing sent. */
  predicate Holding(s: State, u: State, snd: Sender) {
    var i := |s.senders|;
    && s.ptmx.Some? && u == s.(senders := s.senders + [snd.(pc := Writing(s.tickets, s.ptmx.value, 0))],
                               lock := BySender(i), tickets := s.tickets + 1)
  }

  lemma Entering(s: State, data: seq<byte>, raw: bool, rest: seq<Action>) returns (u: State)
    requires s.alive && s.lock == Free
    ensures Exec(s, [Begin(data, raw), Lock(|s.senders|), Look(|s.senders|)] + rest) == Exec(u, rest)
    ensures if s.ptmx == None then Took(s, u, []) && u.senders == s.senders + [Sender(data, raw, Refused)]
            else Holding(s, u, Sender(data, raw, Ready))
  {
    var i := |s.senders|;
    var s1 := Apply(s, Begin(data, raw));
    var s2 := Apply(s1, Lock(i));
    u := Apply(s2, Look(i));
    ExecCons(s2, Look(i), rest);
    ExecCons(s1, Lock(i), [Look(i)] + rest);
    ExecCons(s, Begin(data, raw), [Lock(i)] + ([Look(i)] + rest));
    assert [Begin(data, raw), Lock(i), Look(i)] + rest == [Begin(data, raw)] + ([Lock(i)] + ([Look(i)] + rest));
  }

  lemma WriteNothing(s: State, u: State, snd: Sender)
    requires Inv(s) && s.lock == Free && Holding(s, u, snd)
    ensures var i := |s.senders|;
            var last := if Payload(snd) == [] then Done(i) else Fail(i);
            && Exec(u, [last]).Some? && Took(s, Exec(u, [last]).value, [])
            && Exec(u, [last]).value.senders == s.senders + [snd.(pc := SendEnd(s, Payload(snd), 0))]
  {
    var i := |s.senders|;
    var last := if Payload(snd) == [] then Done(i) else Fail(i);
    assert Payload(u.senders[i]) == Payload(snd);
    ExecCons(u, last, []);
    assert [last] + [] == [last];
    TookNothing(s, Apply(u, last));
  }

  lemma WriteSome(s: State, u: State, snd: Sender, taken: nat)
    requires Inv(s) && s.lock == Free && Holding(s, u, snd) && taken > 0 && Payload(snd) != []
    ensures var i, p := |s.senders|, Payload(snd);
            var rest := [Action.Write(i, Min(taken, |p|)), if taken >= |p| then Done(i) else Fail(i)];
            && Exec(u, rest).Some? && Took(s, Exec(u, rest).value, p[..Min(taken, |p|)])
            && Exec(u, rest).value.senders == s.senders + [snd.(pc := SendEnd(s, p, taken))]
  {
    var i, p := |s.senders|, Payload(snd);
    var n := Min(taken, |p|);
    var last := if taken >= |p| then Done(i) else Fail(i);
    assert Payload(u.senders[i]) == p;
    var u1 := Apply(u, Action.Write(i, n));
    assert Payload(u1.senders[i]) == p && u1.senders[i].pc.sent == n;
    ExecCons(u1, last, []);
    assert [last] + [] == [last];
    ExecCons(u, Action.Write(i, n), [last]);
    assert [Action.Write(i, n)] + [last] == [Action.Write(i, n), last];
  }

  /** A send that nobody interrupts puts on the master in place as much of its payload as the
      master takes, ends accordingly, and leaves the rest of the protocol's state as it was. */
  lemma SendSteps(s: State, data: seq<byte>, raw: bool, taken: nat)
    requires Inv(s) && s.lock == Free
    ensures var run, p := SendRun(s, data, raw, taken), Payload(Sender(data, raw, Ready));
            && Exec(s, run).Some? && Inv(Exec(s, run).value)
            && Took(s, Exec(s, run).value, if s.alive then p[..Min(taken, |p|)] else [])
            && Exec(s, run).value.senders == if s.alive then s.senders + [Sender(data, raw, SendEnd(s, p, taken))] else s.senders
  {
    var run, snd := SendRun(s, data, raw, taken), Sender(data, raw, Ready);
    var p, i := Payload(snd), |s.senders|;
    if s.alive {
      var rest := run[3..];
      assert run == [Begin(data, raw), Lock(i), Look(i)] + rest;
      var u := Entering(s, data, raw, rest);
      if s.ptmx != None {
        if taken == 0 || p == [] {
          WriteNothing(s, u, snd);
          assert p[..Min(taken, |p|)] == [];
        } else {
          WriteSome(s, u, snd, taken);
        }
      }
    } else {
      TookNothing(s, s);
    }
    InvAlways(s, run);
  }

  lemma ReapSteps(s: State)
    requires Inv(s) && s.lock == Free && s.waiter == Running
    ensures Exec(s, REAP_RUN).Some? && Inv(Exec(s, REAP_RUN).value)
    ensures Exec(s, REAP_RUN).value == s.(ptmx := None, open := s.open - {Current(s)}, waiter := Reaped)
  {
    var s1 := Apply(s, WaitLock);
    var s2 := Apply(s1, WaitClear);
    ExecCons(s2, WaitClose, []);
    ExecCons(s1, WaitClear, [WaitClose]);
    ExecCons(s, WaitLock, [WaitClear, WaitClose]);
    assert REAP_RUN == [WaitLock] + [WaitClear, WaitClose] && [WaitClear, WaitClose] == [WaitClear] + [WaitClose];
    assert [WaitClose] == [WaitClose] + [];
    InvAlways(s, REAP_RUN);
  }

  lemma RespawnSteps(s: State)
    requires Inv(s) && s.lock == Free && s.waiter == Reaped
    ensures Exec(s, RESPAWN_RUN).Some? && Inv(Exec(s, RESPAWN_RUN).value)
    ensures Exec(s, RESPAWN_RUN).value
         == s.(open := s.open + {|s.logs|}, logs := s.logs + [[]], segments := s.segments + [[]],
               ptmx := Some(|s.logs|), waiter := Running)
  {
    var s1 := Apply(s, PtyStart);
    var s2 := Apply(s1, SpawnLock);
    ExecCons(s2, SpawnInstall, []);
    ExecCons(s1, SpawnLock, [SpawnInstall]);
    ExecCons(s, PtyStart, [SpawnLock, SpawnInstall]);
    assert RESPAWN_RUN == [PtyStart] + [SpawnLock, SpawnInstall] && [SpawnLock, SpawnInstall] == [SpawnLock] + [SpawnInstall];
    assert [SpawnInstall] == [SpawnInstall] + [];
    InvAlways(s, RESPAWN_RUN);
  }

  class Input {
    var alive: bool
    var ptmx: Master?
    var ticks: nat                   // activity ticks, for the idle supervisor

    /** The fields are those of s: the same master in place, open, with the same bytes on it. */
    ghost predicate Agrees(s: State)
      reads this, ptmx
    {
      && Inv(s) && s.lock == Free && s.alive == alive
      && (ptmx == null <==> s.ptmx == None)
      && (ptmx != null ==> ptmx.isOpen && s.ptmx.value in s.open && s.ptmx.value < |s.logs| && ptmx.received == s.logs[s.ptmx.value])
    }

    constructor (m: Master)
      requires m.isOpen && m.received == []
      ensures Agrees(INIT) && alive && ptmx == m && ticks == 0
    {
      alive, ptmx, ticks := true, m, 0;
      new;
      InitInv();
    }

    /** Writes the input as one framed line, or reports why not. Only a complete write counts
        as activity. */
    method SendInput(data: seq<byte>, taken: nat, ghost s: State) returns (r: SendResult)
      requires Agrees(s)
      modifies `ticks, ptmx
      ensures Exec(s, SendRun(s, data, false, taken)).Some? && Agrees(Exec(s, SendRun(s, data, false, taken)).value)
      ensures r == NoInputChannel <==> !alive || ptmx == null
      ensures r == Delivered ==> ptmx.received == old(ptmx.received) + Frame(data)
      ensures r == WriteFailed ==> (exists part :: part < Frame(data) && ptmx.received == old(ptmx.received) + part)
      ensures r == NoInputChannel ==> (ptmx != null ==> unchanged(ptmx))
      ensures ticks == old(ticks) + if r == Delivered then 1 else 0
    {
      SendSteps(s, data, false, taken);
      if !alive || ptmx == null {
        return NoInputChannel;
      }
      var payload := data;
      if |payload| == 0 || payload[|payload| - 1] != NEWLINE {
        payload := data + [NEWLINE];
      }
      var ok := ptmx.Write(payload, taken);
      if !ok {
        assert payload[..Min(taken, |payload|)] < Frame(data);
        return WriteFailed;
      }
      assert payload[..|payload|] == payload;
      ticks := ticks + 1;
      r := Delivered;
    }

    /** The boot prompt goes out as it is, without a newline of its own. */
    method WriteRaw(data: seq<byte>, taken: nat, ghost s: State) returns (r: SendResult)
      requires Agrees(s)
      modifies `ticks, ptmx
      ensures Exec(s, SendRun(s, data, true, taken)).Some? && Agrees(Exec(s, SendRun(s, data, true, taken)).value)
      ensures r == NoInputChannel <==> !alive || ptmx == null
      ensures r == Delivered ==> ptmx.received == old(ptmx.received) + data
      ensures r == WriteFailed ==> (exists part :: part < data && ptmx.received == old(ptmx.received) + part)
      ensures r == NoInputChannel ==> (ptmx != null ==> unchanged(ptmx))
      ensures ticks == old(ticks) + if r == Delivered then 1 else 0
    {
      SendSteps(s, data, true, taken);
      if !alive || ptmx == null {
        return NoInputChannel;
      }
      var ok := ptmx.Write(data, taken);
      if !ok {
        assert data[..Min(taken, |data|)] < data;
        return WriteFailed;
      }
      assert data[..|data|] == data;
      ticks := ticks + 1;
      r := Delivered;
    }

    /** The waiter's end of an attempt: nobody can find the master any more by the time it is
        closed. */
    method Reap(m: Master, ghost s: State)
      requires Agrees(s) && s.waiter == Running && ptmx == m
      modifies `ptmx, m`isOpen
      ensures Exec(s, REAP_RUN).Some? && Agrees(Exec(s, REAP_RUN).value)
      ensures ptmx == null && !m.isOpen
    {
      ReapSteps(s);
      ptmx := null;
      m.isOpen := false;
    }

    /** A respawn installs a new, open, unused master. */
    method Install(m: Master, ghost s: State)
      requires Agrees(s) && s.waiter == Reaped && m.isOpen && m.received == []
      modifies `ptmx
      ensures Exec(s, RESPAWN_RUN).Some? && Agrees(Exec(s, RESPAWN_RUN).value)
      ensures ptmx == m
    {
      RespawnSteps(s);
      ptmx := m;
    }
  }
}
