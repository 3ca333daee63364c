/** What a client that missed bytes can still get. A dropped chunk or an evicted resume point
    leaves a gap; resuming by byte count repeats some bytes, fills some gaps and loses others
    for good. This module says exactly which. */
module ResumeLoss {
  import opened Common
  import opened BrokerSpec
  import opened BrokerTheorems
  import opened ResumeClient

  /** Where the next resume by byte count starts. */
  function ResumeStart(s: State): nat {
    ReplayStart(s.b.ringCap, |s.b.history|, |s.seen|)
  }

  // ------------------------------------------------- one resume

  function AfterResume(s: State, depth: int): State
    requires Good(s) && !Attached(s)
  {
    var s1 := Apply(s, Connect(depth));
    ConnectKeeps(s, depth);
    assert Enabled(s1, CopyReplay(|Chan(s1).replay|));
    Apply(s1, CopyReplay(|Chan(s1).replay|))
  }

  /** A resume delivers the history from its start on, whatever the client holds already. So a
      byte the client has missed is delivered exactly when it lies at or after that start, and
      a byte is delivered twice exactly when the client already holds one from there: it
      knows, by comparing the last position it got with its byte count and the ring. */
  lemma ResumeAfterGap(s: State, depth: int)
    requires Good(s) && !Attached(s)
    ensures var t, from := AfterResume(s, depth), ResumeStart(s);
            && t.b.history == s.b.history && t.pos == s.pos + Iota(from, |s.b.history| - from)
            && (forall x: nat :: x !in s.pos ==> (x in t.pos <==> from <= x < |s.b.history|))
            && ((exists i, j :: 0 <= i < |s.pos| <= j < |t.pos| && t.pos[i] == t.pos[j])
                <==> exists i :: 0 <= i < |s.pos| && s.pos[i] >= from)
  {
    hide AfterResume, Inv, Located, OnTrack, CopyInOrder, Attached, ResumeStart;
    ResumePositions(s, depth);
    RunOf(s.pos, ResumeStart(s), |s.b.history| - ResumeStart(s));
  }

  lemma ResumePositions(s: State, depth: int)
    requires Good(s) && !Attached(s)
    ensures var t, from := AfterResume(s, depth), ResumeStart(s);
            && t.b.history == s.b.history && from <= |s.b.history| && t.pos == s.pos + Iota(from, |s.b.history| - from)
            && forall i :: 0 <= i < |s.pos| ==> s.pos[i] < |s.b.history|
  {
    hide SubOk, SumDrops, OnTrack, LifecycleInv, Tiles, Accepted, CopyInOrder, AppendRing, ComputeReplay;
    ReplayIsHistorySuffix(s.b.history, s.b.ringCap, |s.seen|);
  }

  /** A run of consecutive positions after some others. */
  lemma RunOf(pos: seq<nat>, from: nat, k: nat)
    requires forall i :: 0 <= i < |pos| ==> pos[i] < from + k
    ensures var all := pos + Iota(from, k);
            && (forall x: nat :: x !in pos ==> (x in all <==> from <= x < from + k))
            && ((exists i, j :: 0 <= i < |pos| <= j < |all| && all[i] == all[j])
                <==> exists i :: 0 <= i < |pos| && pos[i] >= from)
  {
    var all := pos + Iota(from, k);
    forall x: nat | x !in pos
      ensures x in all <==> from <= x < from + k
    {
      if from <= x < from + k {
        assert all[|pos| + x - from] == x;
      }
    }
    forall i, j | 0 <= i < |pos| <= j < |all| && all[i] == all[j]
      ensures pos[i] >= from
    {
      assert all[j] == from + (j - |pos|);
    }
    if i :| 0 <= i < |pos| && pos[i] >= from {
      assert all[i] == all[|pos| + pos[i] - from];
    }
  }

  /** An attached client can leave at any moment and resume, and gets exactly that. */
  lemma LeaveAndResume(s: State, depth: int)
    requires Good(s) && Attached(s)
    ensures Enabled(s, Leave)
    ensures var u := Apply(s, Leave);
            && Good(u) && !Attached(u) && u.b == s.b && u.seen == s.seen && u.pos == s.pos && u.clean == s.clean
            && AfterResume(u, depth).pos == s.pos + Iota(ResumeStart(s), |s.b.history| - ResumeStart(s))
  {
    ActKeeps(s, Leave);
    hide Inv, Located, OnTrack, CopyInOrder, AfterResume;
    ResumePositions(Apply(s, Leave), depth);
  }

  /** The writer may take any part of what it is offered: all of it, and the attachment goes on,
      or less, and it ends there with just that part held. */
  lemma EveryCutIsPossible(s: State, k: nat)
    requires Good(s) && Attached(s)
    ensures s.conn.value.phase == Replaying && k <= |Chan(s).replay| ==>
              && Enabled(s, CopyReplay(k))
              && var t := Apply(s, CopyReplay(k));
                 && t.seen == s.seen + Chan(s).replay[..k] && (Attached(t) <==> k == |Chan(s).replay|)
                 && (Attached(t) ==> t.conn.value.phase == Live)
    ensures s.conn.value.phase == Live && Chan(s).queue != [] && k <= |Chan(s).queue[0]| ==>
              && Enabled(s, CopyChunk(k))
              && var t := Apply(s, CopyChunk(k));
                 && t.seen == s.seen + Chan(s).queue[0][..k] && (Attached(t) <==> k == |Chan(s).queue[0]|)
                 && (Attached(t) ==> t.conn.value.phase == Live && Chan(t).queue == Chan(s).queue[1..])
  {
    if s.conn.value.phase == Live && Chan(s).queue != [] {
      NextChunk(s);
    }
    hide LifecycleInv, SumDrops, OnTrack, Located;
  }

  // ------------------------------------------------- bytes that are lost for good

  /** Byte d has passed and cannot come again: the client's count or the ring has moved past
      it, and what the present attachment still has to deliver lies after it. */
  ghost predicate Lost(s: State, d: nat) {
    && d < |s.b.history| && d !in s.pos
    && d < Max(|s.seen|, |s.b.history| - s.b.ringCap)
    && (Attached(s) ==>
          var c, ch := s.conn.value, Chan(s);
          && (c.phase.Replaying? ==> ch.replay == [] || ch.from - |ch.replay| > d)
          && forall n :: ch.received <= n < |Accepted(ch.log)| ==> Accepted(ch.log)[n].at > d)
  }

  /** A channel is offered new chunks at the head of the history only. */
  lemma EnvAccepted(b: Broker, op: Op, i: nat)
    requires Inv(b) && i < |b.chans| && op != Receive(i)
    ensures i < |Step(b, op).chans|
    ensures var s, s' := b.chans[i], Step(b, op).chans[i];
            && s'.received == s.received && s'.replay == s.replay && s'.from == s.from
            && (Accepted(s'.log) == Accepted(s.log)
                || exists o: Offer :: o.at == |b.history| && Accepted(s'.log) == Accepted(s.log) + [o])
  {
    hide SubOk, SumDrops, AppendRing, ComputeReplay, FullSubs, Times;
    var s, s' := b.chans[i], Step(b, op).chans[i];
    if op.Write? && i in b.subs && op.p != [] && !b.closed {
      var o := Offer(|b.history|, op.p, |s.queue| < s.depth);
      assert s' == OfferTo(s, |b.history|, op.p) && s'.log == s.log + [o];
      AcceptedSnoc(s.log, o);
    } else {
      assert s'.log == s.log;
    }
  }

  lemma EnvKeepsLost(s: State, op: Op, d: nat)
    requires Good(s) && Lost(s, d) && Enabled(s, Env(op))
    ensures Lost(Apply(s, Env(op)), d)
  {
    StepHistory(s.b, op);
    if Attached(s) {
      EnvAccepted(s.b, op, s.conn.value.idx);
      hide Step, Inv, OnTrack, CopyInOrder, Located;
      LaterStaysLater(s, Step(s.b, op), d);
    } else if s.conn.Some? {
      assert s.conn.value.phase.Ended?;
      hide Step, Inv, OnTrack, CopyInOrder, Located;
    } else {
      hide Step, Inv, OnTrack, CopyInOrder, Located;
    }
  }

  lemma LaterStaysLater(s: State, b': Broker, d: nat)
    requires Lost(s, d) && Attached(s) && s.conn.value.idx < |b'.chans|
    requires s.b.history <= b'.history && b'.ringCap == s.b.ringCap
    requires var ch, ch' := Chan(s), b'.chans[s.conn.value.idx];
             && ch'.received == ch.received && ch'.replay == ch.replay && ch'.from == ch.from
             && (Accepted(ch'.log) == Accepted(ch.log)
                 || exists o: Offer :: o.at == |s.b.history| && Accepted(ch'.log) == Accepted(ch.log) + [o])
    ensures Lost(s.(b := b'), d)
  {
  }

  lemma ConnectKeepsLost(s: State, depth: int, d: nat)
    requires Good(s) && Lost(s, d) && Enabled(s, Connect(depth))
    ensures Lost(Apply(s, Connect(depth)), d)
  {
    ReplayIsHistorySuffix(s.b.history, s.b.ringCap, |s.seen|);
    var t := Apply(s, Connect(depth));
    assert Chan(t).replay == s.b.history[ResumeStart(s)..] && Accepted(Chan(t).log) == [];
  }

  lemma CopyKeepsLost(s: State, a: Act, d: nat)
    requires Good(s) && Lost(s, d) && Enabled(s, a) && (a.CopyReplay? || a.CopyChunk? || a.Leave?)
    ensures Lost(Apply(s, a), d)
  {
    if a.CopyReplay? {
      assert SubOk(s.b.ringCap, s.b.history, Chan(s));
    }
  }

  lemma {:induction false} LostStays(s: State, acts: seq<Act>, d: nat)
    requires Good(s) && Lost(s, d) && Exec(s, acts).Some?
    ensures Lost(Exec(s, acts).value, d)
    decreases |acts|
  {
    if acts != [] {
      ActKeeps(s, acts[0]);
      match acts[0] {
        case Env(op) => EnvKeepsLost(s, op, d);
        case Connect(depth) => ConnectKeepsLost(s, depth, d);
        case _ => CopyKeepsLost(s, acts[0], d);
      }
      LostStays(Apply(s, acts[0]), acts[1..], d);
    }
  }

  /** For a client that is not attached, a byte of the history it does not hold is lost in
      every continuation if and only if it lies before the start of the next resume. */
  lemma LostExactlyBeforeResumeStart(s: State, d: nat)
    requires Good(s) && !Attached(s) && d < |s.b.history| && d !in s.pos
    ensures d < ResumeStart(s) <==> forall acts :: Exec(s, acts).Some? ==> d !in Exec(s, acts).value.pos
  {
    hide Inv, Located, OnTrack, CopyInOrder;
    if d < ResumeStart(s) {
      forall acts | Exec(s, acts).Some?
        ensures d !in Exec(s, acts).value.pos
      {
        LostStays(s, acts, d);
      }
    } else {
      ResumeAfterGap(s, 0);
      var acts := ResumeRun(s);
      assert d in Exec(s, acts).value.pos;
    }
  }

  /** A resume is a run of two acts. */
  lemma ResumeRun(s: State) returns (acts: seq<Act>)
    requires Good(s) && !Attached(s)
    ensures Exec(s, acts) == Some(AfterResume(s, 0))
  {
    hide Inv, Located, OnTrack, CopyInOrder;
    ConnectKeeps(s, 0);
    var s1 := Apply(s, Connect(0));
    var copy := CopyReplay(|Chan(s1).replay|);
    ActKeeps(s1, copy);
    assert [copy][1..] == [];
    assert Exec(s1, [copy]) == Some(AfterResume(s, 0));
    acts := [Connect(0), copy];
    assert acts[1..] == [copy];
  }

  // ------------------------------------------------- a delivery past a drop

  lemma {:induction false} AcceptedSorted(log: seq<Offer>, from: nat, to: nat, h: seq<byte>, i: nat, j: nat)
    requires Tiles(log, from, to, h) && i < j < |Accepted(log)|
    ensures Accepted(log)[i].at < Accepted(log)[j].at
    decreases |log|
  {
    var front, last := log[..|log| - 1], log[|log| - 1];
    if j < |Accepted(front)| {
      AcceptedSorted(front, from, last.at, h, i, j);
    } else {
      AcceptedInLog(front, i);
      TilesNonEmpty(front, from, last.at, h);
    }
  }

  /** The first chunk delivered past a drop. Until then the client held exactly the first
      |seen| bytes; from then on its last position is at or beyond its new byte count, so its
      count is behind the stream; and the first dropped byte, the one at |seen|, is never
      delivered, however it reconnects. */
  lemma FirstDroppedByteIsLost(s: State, k: nat, acts: seq<Act>)
    requires Good(s) && s.clean && Enabled(s, CopyChunk(k)) && k > 0
    requires !NoDropBefore(Chan(s).log, Chan(s).received)
    ensures var t := Apply(s, CopyChunk(k));
            && Good(t) && !t.clean && t.pos[|t.pos| - 1] >= |t.seen|
            && (Exec(t, acts).Some? ==> |s.seen| !in Exec(t, acts).value.pos)
  {
    var t, ch, d := Apply(s, CopyChunk(k)), Chan(s), |s.seen|;
    ActKeeps(s, CopyChunk(k));
    CrossesDrop(s, k);
    assert Lost(t, d) by {
      hide OnTrack, CopyInOrder, Inv;
      CrossedIsLost(s, k);
    }
    if Exec(t, acts).Some? {
      LostStays(t, acts, d);
    }
  }

  /** While clean, a chunk behind a drop starts after the byte the client needs next. */
  lemma CrossesDrop(s: State, k: nat)
    requires Good(s) && s.clean && Enabled(s, CopyChunk(k))
    requires !NoDropBefore(Chan(s).log, Chan(s).received)
    ensures var ch := Chan(s); Accepted(ch.log)[ch.received].at > |s.seen|
    ensures |s.seen| < |s.b.history| && |s.seen| !in s.pos
  {
    NextChunk(s);
    ChunkStartsHere(s);
    var ch := Chan(s);
    assert SubOk(s.b.ringCap, s.b.history, ch);
    AcceptedPrefix(ch.log, ch.from, End(s.b, ch), s.b.history, ch.received);
    TilesAdjacent(ch.log, ch.from, End(s.b, ch), s.b.history, ch.received);
  }

  lemma CrossedIsLost(s: State, k: nat)
    requires Good(s) && Enabled(s, CopyChunk(k)) && k > 0 && |s.seen| < |s.b.history| && |s.seen| !in s.pos
    requires var ch := Chan(s); Accepted(ch.log)[ch.received].at > |s.seen|
    ensures Lost(Apply(s, CopyChunk(k)), |s.seen|)
  {
    var t, ch, d := Apply(s, CopyChunk(k)), Chan(s), |s.seen|;
    assert SubOk(s.b.ringCap, s.b.history, ch);
    forall n | ch.received < n < |Accepted(ch.log)|
      ensures Accepted(ch.log)[n].at > d
    {
      AcceptedSorted(ch.log, ch.from, End(s.b, ch), s.b.history, ch.received, n);
    }
  }

  // ------------------------------------------------- such a client exists

  /** Queue depth one; [2, 3, 4] finds the queue full and is dropped, [5] is delivered past it. */
  const CROSSING: seq<Act> :=
    [Connect(0), CopyReplay(0), Env(Write([1])), Env(Write([2, 3, 4])), CopyChunk(1), Env(Write([5]))]

  const TAKEN := Offer(0, [1], true)
  const MISSED := Offer(1, [2, 3, 4], false)
  const PAST := Offer(4, [5], true)

  function Queue(queue: seq<seq<byte>>, log: seq<Offer>, received: nat): Sub {
    Sub(1, 0, 0, [], queue, log, received, None, 0)
  }

  function OneSub(h: seq<byte>, drops: nat, sub: Sub): Broker {
    Broker(100, 1, h, |h|, drops, {0}, 1, false, h, [sub])
  }

  function LiveAt(b: Broker, seen: seq<byte>, pos: seq<nat>): State {
    State(b, Some(Conn(0, false, Live, seen)), seen, pos, true)
  }

  lemma ExecCons(s: State, a: Act, rest: seq<Act>, t: State)
    requires Good(s) && Enabled(s, a) && t == Apply(s, a)
    ensures Good(t) && Exec(s, [a] + rest) == Exec(t, rest)
  {
    ActKeeps(s, a);
    hide Inv, Located, OnTrack, CopyInOrder;
    assert ([a] + rest)[1..] == rest;
  }

  lemma ExecNil(s: State)
    requires Good(s)
    ensures Exec(s, []) == Some(s)
  {
  }

  lemma AttachFirst(rest: seq<Act>) returns (t: State)
    ensures Good(t) && t == LiveAt(OneSub([], 0, Queue([], [], 0)), [], [])
    ensures Exec(Start(100, 1), [Connect(0)] + ([CopyReplay(0)] + rest)) == Exec(t, rest)
  {
    hide Inv, Located, OnTrack, CopyInOrder, Exec;
    var s0 := Start(100, 1);
    var s1 := State(OneSub([], 0, Queue([], [], 0)), Some(Conn(0, false, Replaying, [])), [], [], true);
    t := s1.(conn := Some(Conn(0, false, Live, [])));
    assert Apply(s0, Connect(0)) == s1;
    ExecCons(s0, Connect(0), [CopyReplay(0)] + rest, s1);
    assert Apply(s1, CopyReplay(0)) == t;
    ExecCons(s1, CopyReplay(0), rest, t);
  }

  /** One write with one subscriber. */
  lemma Written(b: Broker, p: seq<byte>)
    requires |b.chans| == 1 && p != [] && |b.history| + |p| < 100
    requires b == OneSub(b.history, b.dropCnt, b.chans[0])
    ensures AfterWrite(b, p)
         == OneSub(b.history + p, b.dropCnt + if Full(b.chans[0]) then |p| else 0, OfferTo(b.chans[0], |b.history|, p))
  {
    assert OfferAll(b, p) == [OfferTo(b.chans[0], |b.history|, p)];
    assert FullSubs(b, 1) == if Full(b.chans[0]) then {0} else {};
    assert Times(0, |p|) == 0 && Times(1, |p|) == Times(0, |p|) + |p|;
  }

  lemma WriteNext(s: State, p: seq<byte>, rest: seq<Act>) returns (t: State)
    requires Good(s) && |s.b.chans| == 1 && p != [] && |s.b.history| + |p| < 100
    requires s.b == OneSub(s.b.history, s.b.dropCnt, s.b.chans[0])
    ensures Good(t) && Exec(s, [Env(Write(p))] + rest) == Exec(t, rest)
    ensures t == s.(b := OneSub(s.b.history + p, s.b.dropCnt + if Full(s.b.chans[0]) then |p| else 0,
                                OfferTo(s.b.chans[0], |s.b.history|, p)))
  {
    Written(s.b, p);
    t := Apply(s, Env(Write(p)));
    ExecCons(s, Env(Write(p)), rest, t);
  }

  lemma Logs()
    ensures Accepted([TAKEN, MISSED]) == [TAKEN] && Accepted([TAKEN, MISSED, PAST]) == [TAKEN, PAST]
  {
    hide DroppedBytes;
    assert Accepted([]) == [];
    hide Accepted;
    AcceptedSnoc([], TAKEN);
    AcceptedSnoc([TAKEN], MISSED);
    AcceptedSnoc([TAKEN, MISSED], PAST);
    assert [] + [TAKEN] == [TAKEN] && [TAKEN] + [MISSED] == [TAKEN, MISSED] && [TAKEN, MISSED] + [PAST] == [TAKEN, MISSED, PAST];
  }

  /** The client takes a one-byte chunk off the queue of its only subscription. */
  lemma TakeNext(s: State, x: byte, o: Offer, rest: seq<Act>) returns (t: State)
    requires Good(s) && s.conn.Some? && s.conn.value.phase == Live && s.conn.value.idx == 0 && |s.b.chans| == 1
    requires var ch := s.b.chans[0]; ch.queue == [[x]] && ch.received < |Accepted(ch.log)| && Accepted(ch.log)[ch.received] == o
    ensures Enabled(s, CopyChunk(1)) && t == Apply(s, CopyChunk(1))
    ensures Good(t) && Exec(s, [CopyChunk(1)] + rest) == Exec(t, rest)
    ensures t.seen == s.seen + [x] && t.pos == s.pos + [o.at] && t.clean == (s.clean && NoDropBefore(s.b.chans[0].log, s.b.chans[0].received))
    ensures t.conn == Some(s.conn.value.(got := s.conn.value.got + [x]))
    ensures t.b == s.b.(chans := [s.b.chans[0].(queue := [], received := s.b.chans[0].received + 1)])
  {
    hide Inv, Located, OnTrack, CopyInOrder, Accepted, Exec;
    t := Apply(s, CopyChunk(1));
    ExecCons(s, CopyChunk(1), rest, t);
    assert [[x]][1..] == [] && [x][..1] == [x] && Iota(o.at, 1) == [o.at];
  }

  lemma Crossing() returns (t: State)
    ensures Good(t) && Exec(Start(100, 1), CROSSING) == Some(t)
    ensures t == LiveAt(OneSub([1, 2, 3, 4, 5], 3, Queue([[5]], [TAKEN, MISSED, PAST], 1)), [1], [0])
  {
    hide Good, Enabled, Apply, Accepted, Exec;
    var r5 := [Env(Write([5]))] + [];
    var r4 := [CopyChunk(1)] + r5;
    var r3 := [Env(Write([2, 3, 4]))] + r4;
    var r2 := [Env(Write([1]))] + r3;
    assert CROSSING == [Connect(0)] + ([CopyReplay(0)] + r2);
    Logs();
    t := AttachFirst(r2);
    t := WriteNext(t, [1], r3);
    assert t.b == OneSub([1], 0, Queue([[1]], [TAKEN], 0)) by {
      assert [] + [1 as byte] == [1] && [] + [[1 as byte]] == [[1]] && [] + [TAKEN] == [TAKEN];
    }
    t := WriteNext(t, [2, 3, 4], r4);
    assert t.b == OneSub([1, 2, 3, 4], 3, Queue([[1]], [TAKEN, MISSED], 0)) by {
      assert [1 as byte] + [2, 3, 4] == [1, 2, 3, 4] && [TAKEN] + [MISSED] == [TAKEN, MISSED];
    }
    t := TakeNext(t, 1, TAKEN, r5);
    t := WriteNext(t, [5], []);
    assert t.b == OneSub([1, 2, 3, 4, 5], 3, Queue([[5]], [TAKEN, MISSED, PAST], 1)) by {
      assert [1 as byte, 2, 3, 4] + [5] == [1, 2, 3, 4, 5] && [] + [[5 as byte]] == [[5]];
      assert [TAKEN, MISSED] + [PAST] == [TAKEN, MISSED, PAST];
    }
    ExecNil(t);
  }

  /** A reachable client, one byte held and the drop ahead of it, crosses the drop, leaves, and
      resumes with its count of two: it gets the second and third dropped bytes but not the
      first, and the last byte twice. */
  lemma SomeDroppedBytesCome() returns (s: State, t: State)
    ensures Good(s) && Exec(Start(100, 1), CROSSING) == Some(s)
    ensures s.clean && Enabled(s, CopyChunk(1)) && !NoDropBefore(Chan(s).log, Chan(s).received)
    ensures t == Apply(s, CopyChunk(1)) && Good(t) && Enabled(t, Leave)
    ensures var u := Apply(t, Leave); Good(u) && !Attached(u) && AfterResume(u, 0).pos == [0, 4, 2, 3, 4]
  {
    hide Inv, Located, OnTrack, CopyInOrder, Accepted, AfterResume, Exec;
    s := Crossing();
    Logs();
    assert Chan(s).log == [TAKEN, MISSED, PAST] && !Chan(s).log[1].accepted;
    t := TakeNext(s, 5, PAST, []);
    assert t.pos == [0, 4] && |t.seen| == 2;
    ActKeeps(t, Leave);
    var u := Apply(t, Leave);
    assert |u.b.history| == 5 && ResumeStart(u) == 2;
    ResumePositions(u, 0);
    assert Iota(2, 3) == [2, 3, 4] && [0 as nat, 4] + [2, 3, 4] == [0, 4, 2, 3, 4];
  }
}
