/** What the attach broker guarantees after any sequence of operations. */
module BrokerTheorems {
  import opened Common
  import opened BrokerSpec

  // ------------------------------------------------- ring and replay

  /** Whatever the sizes, appending keeps exactly the last ringCap bytes of the history. */
  lemma AppendRingKeepsSuffix(h: seq<byte>, ringCap: nat, p: seq<byte>)
    requires ringCap >= 1
    ensures AppendRing(LastN(h, ringCap), ringCap, p) == LastN(h + p, ringCap)
  {
    var ring := LastN(h, ringCap);
    if |p| >= ringCap {
      assert (h + p)[|h + p| - ringCap..] == p[|p| - ringCap..];
    } else if |h| + |p| >= ringCap {
      assert AppendRing(ring, ringCap, p) == h[|h| + |p| - ringCap..] + p;
      assert (h + p)[|h + p| - ringCap..] == h[|h| + |p| - ringCap..] + p;
    }
  }

  /** A replay is the history from max(since, ring start) on, and nothing at or past the head. */
  lemma ReplayIsHistorySuffix(h: seq<byte>, ringCap: nat, since: int)
    requires ringCap >= 1
    ensures ComputeReplay(LastN(h, ringCap), |h|, since) == h[ReplayStart(ringCap, |h|, since)..]
    ensures since >= |h| ==> ComputeReplay(LastN(h, ringCap), |h|, since) == []
  {
  }

  // ------------------------------------------------- facts about logs

  lemma AcceptedSnoc(log: seq<Offer>, o: Offer)
    ensures Accepted(log + [o]) == Accepted(log) + (if o.accepted then [o] else [])
    ensures DroppedBytes(log + [o]) == DroppedBytes(log) + (if o.accepted then 0 else |o.bytes|)
  {
    assert (log + [o])[..|log|] == log;
  }

  lemma TilesSnoc(log: seq<Offer>, last: Offer, from: nat, h: seq<byte>, h': seq<byte>)
    requires last.bytes != [] && last.at == |h| && h' == h + last.bytes
    requires Tiles(log, from, |h|, h)
    ensures Tiles(log + [last], from, |h'|, h')
  {
    TilesExtend(log, from, |h|, h, last.bytes);
    var log' := log + [last];
    assert log'[..|log'| - 1] == log && log'[|log'| - 1] == last;
    assert h'[last.at..|h'|] == last.bytes;
  }

  lemma {:induction false} TilesExtend(log: seq<Offer>, from: nat, to: nat, h: seq<byte>, p: seq<byte>)
    requires Tiles(log, from, to, h)
    ensures Tiles(log, from, to, h + p)
    decreases |log|
  {
    if log != [] {
      var last := log[|log| - 1];
      assert (h + p)[last.at..to] == h[last.at..to];
      TilesExtend(log[..|log| - 1], from, last.at, h, p);
    }
  }

  // ------------------------------------------------- preservation

  lemma OfferKeepsSub(ringCap: nat, h: seq<byte>, s: Sub, p: seq<byte>)
    requires SubOk(ringCap, h, s) && s.until == None && p != []
    ensures SubOk(ringCap, h + p, OfferTo(s, |h|, p))
  {
    var o := Offer(|h|, p, |s.queue| < s.depth);
    AcceptedSnoc(s.log, o);
    TilesSnoc(s.log, o, s.from, h, h + p);
    assert (h + p)[ReplayStart(ringCap, s.from, s.since)..s.from] == h[ReplayStart(ringCap, s.from, s.since)..s.from];
    if o.accepted {
      assert Bodies(Accepted(s.log) + [o]) == Bodies(Accepted(s.log)) + [p];
    }
  }

  lemma GrowKeepsClosedSub(ringCap: nat, h: seq<byte>, s: Sub, p: seq<byte>)
    requires SubOk(ringCap, h, s) && s.until.Some?
    ensures SubOk(ringCap, h + p, s)
  {
    TilesExtend(s.log, s.from, s.until.value, h, p);
    assert (h + p)[ReplayStart(ringCap, s.from, s.since)..s.from] == h[ReplayStart(ringCap, s.from, s.since)..s.from];
  }

  lemma WriteKeepsSubs(b: Broker, p: seq<byte>)
    requires Inv(b) && p != [] && !b.closed
    ensures SubsInv(AfterWrite(b, p))
  {
    forall i | 0 <= i < |b.chans|
      ensures SubOk(b.ringCap, b.history + p, OfferAll(b, p)[i])
    {
      assert SubOk(b.ringCap, b.history, b.chans[i]);
      if i in b.subs {
        OfferKeepsSub(b.ringCap, b.history, b.chans[i], p);
      } else {
        GrowKeepsClosedSub(b.ringCap, b.history, b.chans[i], p);
      }
    }
  }

  lemma SumDropsPrefix(chans: seq<Sub>, n: nat)
    requires 0 < n <= |chans|
    ensures SumDrops(chans[..n]) == SumDrops(chans[..n - 1]) + DroppedBytes(chans[n - 1].log)
  {
    assert chans[..n][..n - 1] == chans[..n - 1];
  }

  lemma FullSubsStep(b: Broker, n: nat)
    requires 0 < n <= |b.chans|
    ensures |FullSubs(b, n)| == |FullSubs(b, n - 1)| + (if n - 1 in b.subs && Full(b.chans[n - 1]) then 1 else 0)
  {
    if n - 1 in b.subs && Full(b.chans[n - 1]) {
      assert FullSubs(b, n) == FullSubs(b, n - 1) + {n - 1};
    } else {
      assert FullSubs(b, n) == FullSubs(b, n - 1);
    }
  }

  lemma OfferDrops(s: Sub, at: nat, p: seq<byte>)
    ensures DroppedBytes(OfferTo(s, at, p).log) == DroppedBytes(s.log) + (if Full(s) then |p| else 0)
  {
    AcceptedSnoc(s.log, Offer(at, p, |s.queue| < s.depth));
  }

  lemma {:induction false} WriteDrops(b: Broker, p: seq<byte>, n: nat)
    requires n <= |b.chans|
    ensures SumDrops(OfferAll(b, p)[..n]) == SumDrops(b.chans[..n]) + Times(|FullSubs(b, n)|, |p|)
  {
    if n == 0 {
      assert FullSubs(b, 0) == {};
    } else {
      WriteDrops(b, p, n - 1);
      SumDropsPrefix(OfferAll(b, p), n);
      SumDropsPrefix(b.chans, n);
      FullSubsStep(b, n);
      OfferDrops(b.chans[n - 1], |b.history|, p);
    }
  }

  lemma {:induction false} SameDrops(a: seq<Sub>, c: seq<Sub>)
    requires |a| == |c| && forall i :: 0 <= i < |a| ==> a[i].log == c[i].log
    ensures SumDrops(a) == SumDrops(c)
    decreases |a|
  {
    if a != [] {
      SameDrops(a[..|a| - 1], c[..|c| - 1]);
    }
  }

  lemma WriteKeepsDrops(b: Broker, p: seq<byte>)
    requires Inv(b) && p != [] && !b.closed
    ensures AfterWrite(b, p).dropCnt == SumDrops(AfterWrite(b, p).chans)
  {
    WriteDrops(b, p, |b.chans|);
    assert b.chans[..|b.chans|] == b.chans;
    assert OfferAll(b, p)[..|b.chans|] == OfferAll(b, p);
  }

  lemma WriteKeepsLifecycle(b: Broker, p: seq<byte>)
    requires Inv(b) && p != [] && !b.closed
    ensures LifecycleInv(AfterWrite(b, p))
  {
  }

  lemma WriteKeepsInv(b: Broker, p: seq<byte>)
    requires Inv(b)
    ensures Inv(AfterWrite(b, p))
  {
    if p != [] && !b.closed {
      AppendRingKeepsSuffix(b.history, b.ringCap, p);
      WriteKeepsSubs(b, p);
      WriteKeepsLifecycle(b, p);
      WriteKeepsDrops(b, p);
    }
  }

  lemma NewSubOk(b: Broker, depth: int, since: int)
    requires Inv(b)
    ensures var s := NewSub(b, depth, since);
            SubOk(b.ringCap, b.history, s) && SubOk(b.ringCap, b.history, CloseChan(s, |b.history|))
  {
    ReplayIsHistorySuffix(b.history, b.ringCap, since);
    assert Bodies(Accepted([]))[0..] == [];
  }

  lemma SubscribeKeepsSubs(b: Broker, depth: int, since: int)
    requires Inv(b)
    ensures SubsInv(AfterSubscribe(b, depth, since))
  {
    var after := AfterSubscribe(b, depth, since);
    NewSubOk(b, depth, since);
    forall i | 0 <= i < |after.chans|
      ensures SubOk(b.ringCap, b.history, after.chans[i])
    {
      if i < |b.chans| {
        assert after.chans[i] == b.chans[i];
      }
    }
  }

  lemma SubscribeKeepsLifecycle(b: Broker, depth: int, since: int)
    requires RingInv(b) && LifecycleInv(b)
    ensures LifecycleInv(AfterSubscribe(b, depth, since))
  {
  }

  lemma SubscribeKeepsInv(b: Broker, depth: int, since: int)
    requires Inv(b)
    ensures Inv(AfterSubscribe(b, depth, since))
  {
    var after := AfterSubscribe(b, depth, since);
    SubscribeKeepsSubs(b, depth, since);
    SubscribeKeepsLifecycle(b, depth, since);
    assert after.chans[..|after.chans| - 1] == b.chans;
  }

  lemma CloseSomeKeeps(b: Broker, ids: set<nat>)
    requires Inv(b) && ids <= b.subs
    ensures SumDrops(CloseSome(b, ids)) == SumDrops(b.chans)
    ensures forall i :: 0 <= i < |b.chans| ==> SubOk(b.ringCap, b.history, CloseSome(b, ids)[i])
  {
    SameDrops(CloseSome(b, ids), b.chans);
    forall i | 0 <= i < |b.chans|
      ensures SubOk(b.ringCap, b.history, CloseSome(b, ids)[i])
    {
      assert SubOk(b.ringCap, b.history, b.chans[i]);
    }
  }

  lemma ReceiveKeepsInv(b: Broker, i: nat)
    requires Inv(b)
    ensures Inv(AfterReceive(b, i))
  {
    if i < |b.chans| && b.chans[i].queue != [] {
      var after := AfterReceive(b, i);
      SameDrops(after.chans, b.chans);
      assert SubOk(b.ringCap, b.history, b.chans[i]);
      assert SubOk(b.ringCap, b.history, after.chans[i]);
      assert SubsInv(after);
    }
  }

  lemma CancelKeepsInv(b: Broker, i: nat)
    requires Inv(b)
    ensures Inv(AfterCancel(b, i))
  {
    if i in b.subs {
      CloseSomeKeeps(b, {i});
    }
  }

  lemma CloseKeepsInv(b: Broker)
    requires Inv(b)
    ensures Inv(AfterClose(b))
  {
    if !b.closed {
      CloseSomeKeeps(b, b.subs);
    }
  }

  lemma StepKeepsInv(b: Broker, op: Op)
    requires Inv(b)
    ensures Inv(Step(b, op))
  {
    match op
    case Write(p) => WriteKeepsInv(b, p);
    case Subscribe(depth, since) => SubscribeKeepsInv(b, depth, since);
    case Cancel(i) => CancelKeepsInv(b, i);
    case Close => CloseKeepsInv(b);
    case Receive(i) => ReceiveKeepsInv(b, i);
  }

  /** The state after a sequence of operations. */
  ghost function Run(b: Broker, ops: seq<Op>): (r: Broker)
    requires Inv(b)
    ensures Inv(r)
    decreases |ops|
  {
    if ops == [] then b
    else
      StepKeepsInv(b, ops[0]);
      Run(Step(b, ops[0]), ops[1..])
  }

  // ------------------------------------------------- ring and replay over whole runs

  /** Everything written before the broker was closed, read off the operations alone. */
  function Written(ops: seq<Op>): seq<byte>
    decreases |ops|
  {
    if ops == [] || ops[0].Close? then []
    else (if ops[0].Write? then ops[0].p else []) + Written(ops[1..])
  }

  lemma StepHistory(b: Broker, op: Op)
    requires Inv(b)
    ensures Step(b, op).history == b.history + (if op.Write? && !b.closed then op.p else [])
    ensures Step(b, op).closed == (b.closed || op.Close?)
    ensures Step(b, op).ringCap == b.ringCap
  {
  }

  lemma {:induction false} HistoryIsWritten(b: Broker, ops: seq<Op>)
    requires Inv(b)
    ensures Run(b, ops).history == b.history + (if b.closed then [] else Written(ops))
    ensures Run(b, ops).ringCap == b.ringCap
    decreases |ops|
  {
    if ops != [] {
      StepKeepsInv(b, ops[0]);
      StepHistory(b, ops[0]);
      HistoryIsWritten(Step(b, ops[0]), ops[1..]);
      Assoc(b.history, if ops[0].Write? then ops[0].p else [], Written(ops[1..]));
    }
  }

  lemma ReplayExact(w: seq<byte>, ringCap: nat, since: int)
    requires ringCap >= 1
    ensures var r := w[ReplayStart(ringCap, |w|, since)..];
            && (r == [] <==> since >= |w| || |w| == 0)
            && (0 <= since <= |w| ==> (r == w[since..] <==> |w| - ringCap <= since))
  {
    if 0 <= since <= |w| && since < |w| - ringCap {
      assert |w[ReplayStart(ringCap, |w|, since)..]| < |w[since..]|;
    }
  }

  /** After any operations the ring is the last bytes written, as many as were asked for, or
      65536 if none were; and a replay from any offset is what was written from max(offset,
      ring start) on: empty exactly at or past the head, gapless exactly when the offset has
      not been evicted, and the whole ring when it has. */
  lemma RingAgreesWithHistory(ringBytes: int, depth: int, ops: seq<Op>, since: int)
    ensures var b := Run(New(ringBytes, depth), ops);
            var cap := if ringBytes > 0 then ringBytes else 65536;
            var w := Written(ops);
            var replay := ComputeReplay(b.ring, b.totalWritten, since);
            && b.totalWritten == |w|
            && b.ring == (if |w| <= cap then w else w[|w| - cap..])
            && replay == w[ReplayStart(cap, |w|, since)..]
            && (replay == [] <==> since >= |w| || |w| == 0)
            && (0 <= since <= |w| ==> (replay == w[since..] <==> |w| - cap <= since))
            && (since <= 0 || since <= |w| - cap ==> replay == b.ring)
  {
    hide LifecycleInv, SubsInv, SumDrops, ComputeReplay, AppendRing, Run, Written, ReplayStart;
    var b := Run(New(ringBytes, depth), ops);
    HistoryIsWritten(New(ringBytes, depth), ops);
    assert b.history == Written(ops);
    RingAgrees(b, since);
  }

  lemma RingAgrees(b: Broker, since: int)
    requires RingInv(b)
    ensures var w, replay := b.history, ComputeReplay(b.ring, b.totalWritten, since);
            && b.totalWritten == |w| && b.ring == LastN(w, b.ringCap)
            && replay == w[ReplayStart(b.ringCap, |w|, since)..]
            && (replay == [] <==> since >= |w| || |w| == 0)
            && (0 <= since <= |w| ==> (replay == w[since..] <==> |w| - b.ringCap <= since))
            && (since <= 0 || since <= |w| - b.ringCap ==> replay == b.ring)
  {
    ReplayIsHistorySuffix(b.history, b.ringCap, since);
    ReplayExact(b.history, b.ringCap, since);
  }

  // ------------------------------------------------- conservation per subscriber

  lemma {:induction false} TiledBytes(log: seq<Offer>, from: nat, to: nat, h: seq<byte>)
    requires Tiles(log, from, to, h)
    ensures from <= to <= Max(from, |h|)
    ensures AcceptedBytes(log) + DroppedBytes(log) == to - from
    ensures to <= |h| ==> Flatten(Bodies(log)) == h[from..to]
    decreases |log|
  {
    if log != [] {
      var front, last := log[..|log| - 1], log[|log| - 1];
      TiledBytes(front, from, last.at, h);
      assert Bodies(log) == Bodies(front) + [last.bytes];
      FlattenSnoc(Bodies(front), last.bytes);
      assert h[from..last.at] + h[last.at..to] == h[from..to];
    }
  }

  lemma AcceptedUnfold(front: seq<Offer>, last: Offer)
    ensures Flatten(Bodies(Accepted(front + [last]))) == Flatten(Bodies(Accepted(front))) + (if last.accepted then last.bytes else [])
    ensures AcceptedBytes(front + [last]) == AcceptedBytes(front) + (if last.accepted then |last.bytes| else 0)
  {
    assert (front + [last])[..|front|] == front;
    AcceptedSnoc(front, last);
    if last.accepted {
      assert Bodies(Accepted(front) + [last]) == Bodies(Accepted(front)) + [last.bytes];
      FlattenSnoc(Bodies(Accepted(front)), last.bytes);
    } else {
      assert Accepted(front) + [] == Accepted(front);
    }
  }

  lemma {:induction false} AcceptedLength(log: seq<Offer>)
    ensures |Flatten(Bodies(Accepted(log)))| == AcceptedBytes(log)
    decreases |log|
  {
    if log != [] {
      var front, last := log[..|log| - 1], log[|log| - 1];
      AcceptedLength(front);
      AcceptedUnfold(front, last);
      assert log == front + [last];
    }
  }

  lemma {:induction false} NoDropAcceptsAll(log: seq<Offer>)
    requires DroppedBytes(log) == 0 && forall o :: o in log ==> o.bytes != []
    ensures Accepted(log) == log
    decreases |log|
  {
    if log != [] {
      assert log[|log| - 1] in log;
      NoDropAcceptsAll(log[..|log| - 1]);
    }
  }

  lemma {:induction false} TilesNonEmpty(log: seq<Offer>, from: nat, to: nat, h: seq<byte>)
    requires Tiles(log, from, to, h)
    ensures forall o :: o in log ==> o.bytes != []
    ensures forall o :: o in log ==> from <= o.at && o.at + |o.bytes| <= to <= |h| && o.bytes == h[o.at..o.at + |o.bytes|]
    decreases |log|
  {
    if log != [] {
      var front, last := log[..|log| - 1], log[|log| - 1];
      TilesNonEmpty(front, from, last.at, h);
      TiledBytes(front, from, last.at, h);
      assert log == front + [last];
    }
  }

  /** The accepted chunks keep the order of the writes: each starts at or after the end of the
      one before. */
  predicate Ordered(offers: seq<Offer>, from: nat, to: nat) {
    if offers == [] then from <= to
    else
      var last := offers[|offers| - 1];
      last.at + |last.bytes| <= to && Ordered(offers[..|offers| - 1], from, last.at)
  }

  lemma {:induction false} OrderedWeaken(offers: seq<Offer>, from: nat, to: nat, to': nat)
    requires Ordered(offers, from, to) && to <= to'
    ensures Ordered(offers, from, to')
  {
  }

  lemma {:induction false} AcceptedOrdered(log: seq<Offer>, from: nat, to: nat, h: seq<byte>)
    requires Tiles(log, from, to, h)
    ensures Ordered(Accepted(log), from, to)
    decreases |log|
  {
    if log != [] {
      var front, last := log[..|log| - 1], log[|log| - 1];
      AcceptedOrdered(front, from, last.at, h);
      if last.accepted {
        assert Accepted(log)[..|Accepted(log)| - 1] == Accepted(front);
      } else {
        assert Accepted(log) == Accepted(front);
        OrderedWeaken(Accepted(front), from, last.at, to);
      }
    }
  }

  /** Byte conservation for every subscriber at every moment: accepted bytes plus dropped bytes
      are the bytes written while subscribed; what was received followed by what is queued is
      the accepted chunks, a subsequence of those writes in order; they are all of those
      writes exactly when nothing was dropped; the queue stays within its depth; and the
      broker's drop counter is the sum over all subscribers ever created. */
  lemma SubscriberConservation(b: Broker, ops: seq<Op>, i: nat)
    requires Inv(b) && i < |Run(b, ops).chans|
    ensures var c := Run(b, ops);
            var s := c.chans[i];
            var got := Bodies(Accepted(s.log));
            && |Flatten(got)| + DroppedBytes(s.log) == End(c, s) - s.from
            && s.received <= |got| && s.queue == got[s.received..] && |s.queue| <= s.depth
            && Flatten(Bodies(s.log)) == c.history[s.from..End(c, s)]
            && Ordered(Accepted(s.log), s.from, End(c, s))
            && (Flatten(got) == c.history[s.from..End(c, s)] <==> DroppedBytes(s.log) == 0)
            && c.dropCnt == SumDrops(c.chans)
  {
    var c := Run(b, ops);
    var s := c.chans[i];
    assert SubOk(c.ringCap, c.history, s);
    TiledBytes(s.log, s.from, End(c, s), c.history);
    TilesNonEmpty(s.log, s.from, End(c, s), c.history);
    AcceptedLength(s.log);
    if DroppedBytes(s.log) == 0 {
      NoDropAcceptsAll(s.log);
    }
    AcceptedOrdered(s.log, s.from, End(c, s), c.history);
  }

  // ------------------------------------------------- isolation

  /** Two brokers that differ at most in subscriber j's channel and in the drop counter. */
  ghost predicate AgreeExcept(b: Broker, c: Broker, j: nat) {
    && b.(chans := [], dropCnt := 0) == c.(chans := [], dropCnt := 0)
    && |b.chans| == |c.chans|
    && (forall i :: 0 <= i < |b.chans| && i != j ==> b.chans[i] == c.chans[i])
  }

  lemma StepAgrees(b: Broker, c: Broker, op: Op, j: nat)
    requires |b.ring| <= b.ringCap && AgreeExcept(b, c, j)
    ensures AgreeExcept(Step(b, op), Step(c, op), j)
  {
  }

  lemma ReceiveAgrees(b: Broker, c: Broker, j: nat)
    requires AgreeExcept(b, c, j)
    ensures AgreeExcept(AfterReceive(b, j), c, j)
  {
  }

  /** The operations without subscriber j's receives. */
  function WithoutReceives(ops: seq<Op>, j: nat): seq<Op>
    decreases |ops|
  {
    if ops == [] then []
    else (if ops[0] == Receive(j) then [] else [ops[0]]) + WithoutReceives(ops[1..], j)
  }

  lemma {:induction false} RunAgrees(b: Broker, c: Broker, ops: seq<Op>, j: nat)
    requires Inv(b) && Inv(c) && AgreeExcept(b, c, j)
    ensures AgreeExcept(Run(b, ops), Run(c, WithoutReceives(ops, j)), j)
    decreases |ops|
  {
    if ops != [] {
      StepKeepsInv(b, ops[0]);
      if ops[0] == Receive(j) {
        ReceiveAgrees(b, c, j);
        RunAgrees(Step(b, ops[0]), c, ops[1..], j);
        assert WithoutReceives(ops, j) == WithoutReceives(ops[1..], j);
      } else {
        StepAgrees(b, c, ops[0], j);
        StepKeepsInv(c, ops[0]);
        RunAgrees(Step(b, ops[0]), Step(c, ops[0]), ops[1..], j);
        assert WithoutReceives(ops, j)[1..] == WithoutReceives(ops[1..], j);
      }
    }
  }

  /** However fast or slowly subscriber j reads, the ring, the history, the set of subscribers
      and every other subscriber's channel come out the same. */
  lemma SlowSubscriberIsIsolated(b: Broker, ops: seq<Op>, ops': seq<Op>, j: nat)
    requires Inv(b) && WithoutReceives(ops, j) == WithoutReceives(ops', j)
    ensures AgreeExcept(Run(b, ops), Run(b, ops'), j)
  {
    RunAgrees(b, b, ops, j);
    RunAgrees(b, b, ops', j);
  }

  // ------------------------------------------------- channel lifecycle

  /** All that a closed channel may still see: its reader draining what was queued. */
  predicate OnlyDrained(was: Sub, now: Sub) {
    now.(queue := was.queue, received := was.received) == was
  }

  lemma ClosedStep(b: Broker, op: Op, i: nat)
    requires Inv(b) && i < |b.chans| && b.chans[i].closes == 1
    ensures i < |Step(b, op).chans| && OnlyDrained(b.chans[i], Step(b, op).chans[i])
  {
  }

  lemma {:induction false} ClosedStays(b: Broker, ops: seq<Op>, i: nat)
    requires Inv(b) && i < |b.chans|
    ensures i < |Run(b, ops).chans|
    ensures b.chans[i].closes == 1 ==> OnlyDrained(b.chans[i], Run(b, ops).chans[i])
    decreases |ops|
  {
    if ops != [] {
      if b.chans[i].closes == 1 {
        ClosedStep(b, ops[0], i);
      } else {
        ChansGrow(b, ops[0]);
      }
      StepKeepsInv(b, ops[0]);
      ClosedStays(Step(b, ops[0]), ops[1..], i);
    }
  }

  lemma ChansGrow(b: Broker, op: Op)
    requires |b.ring| <= b.ringCap
    ensures |b.chans| <= |Step(b, op).chans|
  {
  }

  /** At every moment a channel is open exactly while registered and was closed exactly once
      otherwise, whichever of cancel and close came first. Once closed it is offered nothing
      and never closed again, whatever happens later; and a cancel closes its own channel and
      no other. */
  lemma ChannelClosedOnce(b: Broker, ops: seq<Op>, more: seq<Op>, i: nat)
    requires Inv(b) && i < |Run(b, ops).chans|
    ensures var c := Run(b, ops);
            var d := Run(c, more);
            && c.chans[i].closes == (if i in c.subs then 0 else 1)
            && i < |d.chans| && (c.chans[i].closes == 1 ==> OnlyDrained(c.chans[i], d.chans[i]))
            && AfterCancel(c, i).chans[i].closes == 1
            && forall j :: 0 <= j < |c.chans| && j != i ==> AfterCancel(c, i).chans[j] == c.chans[j]
  {
    CancelOwn(Run(b, ops), i);
    ClosedStays(Run(b, ops), more, i);
  }

  lemma CancelOwn(c: Broker, i: nat)
    requires LifecycleInv(c) && i < |c.chans|
    ensures c.chans[i].closes == (if i in c.subs then 0 else 1)
    ensures AfterCancel(c, i).chans[i].closes == 1
    ensures forall j :: 0 <= j < |c.chans| && j != i ==> AfterCancel(c, i).chans[j] == c.chans[j]
  {
  }

  /** d is c, closed, with nothing added but late subscribers, each with its whole replay and a
      channel closed and empty from the start. */
  ghost predicate OnlyLate(c: Broker, d: Broker) {
    && d.closed && d.(chans := c.chans) == c && |c.chans| <= |d.chans|
    && (forall i :: 0 <= i < |c.chans| ==> OnlyDrained(c.chans[i], d.chans[i]))
    && (forall i :: |c.chans| <= i < |d.chans| ==>
          && d.chans[i].replay == c.history[ReplayStart(c.ringCap, |c.history|, d.chans[i].since)..]
          && d.chans[i].closes == 1 && d.chans[i].queue == [] && d.chans[i].log == [])
  }

  lemma OnlyLateStep(c: Broker, d: Broker, op: Op)
    requires Inv(d) && OnlyLate(c, d)
    ensures OnlyLate(c, Step(d, op))
  {
    if op.Subscribe? {
      ReplayIsHistorySuffix(d.history, d.ringCap, op.since);
    }
  }

  lemma {:induction false} OnlyLateRun(c: Broker, d: Broker, ops: seq<Op>)
    requires Inv(d) && OnlyLate(c, d)
    ensures OnlyLate(c, Run(d, ops))
    decreases |ops|
  {
    if ops != [] {
      OnlyLateStep(c, d, ops[0]);
      StepKeepsInv(d, ops[0]);
      OnlyLateRun(c, Step(d, ops[0]), ops[1..]);
    }
  }

  /** Closing closes every channel still open, each once. From then on, whatever is tried, the
      ring, the history and the counters stay as they are and nobody is registered: every
      write is rejected unchanged, and late subscribers get the whole replay and a closed
      channel. */
  lemma CloseIsFinal(b: Broker, ops: seq<Op>, more: seq<Op>)
    requires Inv(b)
    ensures var c := AfterClose(Run(b, ops));
            Inv(c) && c.subs == {} && OnlyLate(c, Run(c, more))
            && forall i :: 0 <= i < |c.chans| ==> c.chans[i].closes == 1
  {
    var c := AfterClose(Run(b, ops));
    CloseClears(Run(b, ops));
    OnlyLateRun(c, c, more);
  }

  lemma CloseClears(b: Broker)
    requires Inv(b)
    ensures var c := AfterClose(b);
            && Inv(c) && c.subs == {} && OnlyLate(c, c)
            && forall i :: 0 <= i < |c.chans| ==> c.chans[i].closes == 1
  {
    CloseKeepsInv(b);
  }

  /** A subscriber gets the replay for its offset whether or not the broker is closed, and
      disturbs no other channel; on a closed broker its channel is closed already and it is
      never registered. */
  lemma LateSubscriber(b: Broker, ops: seq<Op>, depth: int, since: int)
    requires Inv(b)
    ensures var c := Run(b, ops);
            var late := AfterSubscribe(c, depth, since);
            var s := late.chans[|c.chans|];
            && s.replay == c.history[ReplayStart(c.ringCap, |c.history|, since)..]
            && s.closes == (if c.closed then 1 else 0)
            && late.subs == (if c.closed then {} else c.subs + {|c.chans|})
            && late.chans[..|c.chans|] == c.chans
            && |c.chans| !in c.subs
  {
    var c := Run(b, ops);
    ReplayIsHistorySuffix(c.history, c.ringCap, since);
  }
}
