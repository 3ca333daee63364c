/** How much a subscriber may leave unread, and how much a late one can still be told, from the
    arguments alone: the depth asked for, or else the broker's, or else the default. */
module BrokerDepth {
  import opened Common
  import opened BrokerSpec
  import opened BrokerTheorems

  /** The chunks that reach subscribers: the non-empty writes, in order. */
  function Chunks(ops: seq<Op>): seq<seq<byte>>
    decreases |ops|
  {
    if ops == [] then []
    else (if ops[0].Write? && ops[0].p != [] then [ops[0].p] else []) + Chunks(ops[1..])
  }

  /** Nobody reads from channel i or ends its subscription. */
  predicate LeavesAlone(op: Op, i: nat) {
    op != Receive(i) && op != Cancel(i) && !op.Close?
  }

  /** What fits of the chunks into a queue with room for n more. */
  function Fitting(ws: seq<seq<byte>>, n: int): seq<seq<byte>> {
    ws[..Max(0, Min(|ws|, n))]
  }

  function Rest(ws: seq<seq<byte>>, n: int): seq<seq<byte>> {
    ws[Max(0, Min(|ws|, n))..]
  }

  /** The queue took what fitted and the rest was dropped. */
  ghost predicate Took(was: Sub, now: Sub, ws: seq<seq<byte>>) {
    && now.depth == was.depth && now.received == was.received
    && now.queue == was.queue + Fitting(ws, was.depth - |was.queue|)
    && DroppedBytes(now.log) == DroppedBytes(was.log) + |Flatten(Rest(ws, was.depth - |was.queue|))|
  }

  lemma UnreadStep(b: Broker, op: Op, i: nat)
    requires Inv(b) && i in b.subs && LeavesAlone(op, i)
    ensures i in b.subs && i < |b.chans| && i in Step(b, op).subs && i < |Step(b, op).chans|
    ensures var s, s' := b.chans[i], Step(b, op).chans[i];
            if op.Write? && op.p != [] then s' == OfferTo(s, |b.history|, op.p) else s' == s
  {
    hide SubOk, SumDrops, AppendRing, ComputeReplay, FullSubs, Times, OfferTo;
  }

  lemma OfferTook(s: Sub, at: nat, p: seq<byte>)
    requires p != []
    ensures Took(s, OfferTo(s, at, p), [p])
  {
    hide Accepted, DroppedBytes, Flatten;
    AcceptedSnoc(s.log, Offer(at, p, |s.queue| < s.depth));
    FlattenOne(p);
    if |s.queue| < s.depth {
      assert Fitting([p], s.depth - |s.queue|) == [p] && Rest([p], s.depth - |s.queue|) == [];
    } else {
      assert Fitting([p], s.depth - |s.queue|) == [] && Rest([p], s.depth - |s.queue|) == [p];
      assert s.queue + [] == s.queue;
    }
  }

  lemma FlattenOne(p: seq<byte>)
    ensures Flatten([p]) == p && Flatten<byte>([]) == []
  {
    FlattenSnoc([], p);
    assert [] + [p] == [p];
  }

  lemma TookNone(s: Sub)
    ensures Took(s, s, [])
  {
    assert s.queue + [] == s.queue;
  }

  lemma TookBoth(a: Sub, b: Sub, c: Sub, w: seq<byte>, ws: seq<seq<byte>>)
    requires Took(a, b, [w]) && Took(b, c, ws)
    ensures Took(a, c, [w] + ws)
  {
    var n := a.depth - |a.queue|;
    if n > 0 {
      assert Fitting([w], n) == [w] && Rest([w], n) == [];
      assert Fitting([w] + ws, n) == [w] + Fitting(ws, n - 1);
      assert Rest([w] + ws, n) == Rest(ws, n - 1);
    } else {
      assert Fitting([w], n) == [] && Rest([w], n) == [w] && Fitting(ws, n) == [] && Rest(ws, n) == ws;
      assert Fitting([w] + ws, n) == [] && Rest([w] + ws, n) == [w] + ws;
      FlattenConcat([w], ws);
    }
  }

  lemma {:induction false} UnreadRun(b: Broker, ops: seq<Op>, i: nat)
    requires Inv(b) && i in b.subs && i < |b.chans| && forall op :: op in ops ==> LeavesAlone(op, i)
    ensures i in Run(b, ops).subs && i < |Run(b, ops).chans|
    ensures Took(b.chans[i], Run(b, ops).chans[i], Chunks(ops))
    decreases |ops|
  {
    hide Step, Took, OfferTo, LifecycleInv, SubsInv, SumDrops;
    if ops == [] {
      TookNone(b.chans[i]);
    } else {
      assert ops[0] in ops;
      UnreadStep(b, ops[0], i);
      StepKeepsInv(b, ops[0]);
      var s, s' := b.chans[i], Step(b, ops[0]).chans[i];
      UnreadRun(Step(b, ops[0]), ops[1..], i);
      if ops[0].Write? && ops[0].p != [] {
        OfferTook(s, |b.history|, ops[0].p);
        TookBoth(s, s', Run(b, ops).chans[i], ops[0].p, Chunks(ops[1..]));
      } else {
        assert [] + Chunks(ops[1..]) == Chunks(ops[1..]);
      }
    }
  }

  lemma {:induction false} OpenUntilClose(b: Broker, ops: seq<Op>)
    requires Inv(b)
    ensures Run(b, ops).closed <==> b.closed || Close in ops
    ensures Run(b, ops).chanCap == b.chanCap && Run(b, ops).ringCap == b.ringCap
    decreases |ops|
  {
    if ops != [] {
      StepKeepsInv(b, ops[0]);
      StepHistory(b, ops[0]);
      CapsKept(b, ops[0]);
      OpenUntilClose(Step(b, ops[0]), ops[1..]);
    }
  }

  lemma CapsKept(b: Broker, op: Op)
    requires Inv(b)
    ensures Step(b, op).chanCap == b.chanCap && Step(b, op).ringCap == b.ringCap
  {
    hide SubOk, SumDrops, AppendRing, ComputeReplay, FullSubs, Times, OfferTo;
  }

  lemma {:induction false} RunConcat(b: Broker, first: seq<Op>, second: seq<Op>)
    requires Inv(b)
    ensures Run(b, first + second) == Run(Run(b, first), second)
    decreases |first|
  {
    if first == [] {
      assert first + second == second;
    } else {
      assert (first + second)[1..] == first[1..] + second;
      StepKeepsInv(b, first[0]);
      RunConcat(Step(b, first[0]), first[1..], second);
    }
  }

  /** A subscription whose channel nobody reads holds the first D chunks written since it began,
      and drops exactly the rest: it loses nothing as long as they number at most D, and that
      is the depth asked for if it is positive, else the broker's if that is positive, else
      64. So the default is what a caller that asks for no depth gets. */
  lemma UnreadHoldsItsDepth(ringBytes: int, subscriberDepth: int, before: seq<Op>, depth: int, since: int, after: seq<Op>)
    requires Close !in before
    requires var i := |Run(New(ringBytes, subscriberDepth), before).chans|; forall op :: op in after ==> LeavesAlone(op, i)
    ensures var i := |Run(New(ringBytes, subscriberDepth), before).chans|;
            var c := Run(New(ringBytes, subscriberDepth), before + ([Subscribe(depth, since)] + after));
            var D := if depth > 0 then depth else if subscriberDepth > 0 then subscriberDepth else 64;
            var ws := Chunks(after);
            && i < |c.chans| && i in c.subs
            && c.chans[i].queue == (if |ws| <= D then ws else ws[..D])
            && DroppedBytes(c.chans[i].log) == |Flatten(if |ws| <= D then [] else ws[D..])|
            && (|ws| <= D ==> DroppedBytes(c.chans[i].log) == 0)
            && (|ws| > D ==> DroppedBytes(c.chans[i].log) > 0)
  {
    hide Run, Step, Inv, Chunks, Took, Fitting, Rest, Flatten, DroppedBytes;
    var b0 := New(ringBytes, subscriberDepth);
    var b := Run(b0, before);
    OpenUntilClose(b0, before);
    RunConcat(b0, before, [Subscribe(depth, since)] + after);
    var b1 := Subscribed(b, depth, since, after);
    UnreadRun(b1, after, |b.chans|);
    NoEmptyChunk(after);
    TookFromEmpty(b1.chans[|b.chans|], Run(b1, after).chans[|b.chans|], Chunks(after));
  }

  lemma Subscribed(b: Broker, depth: int, since: int, after: seq<Op>) returns (b1: Broker)
    requires Inv(b) && !b.closed
    ensures Inv(b1) && Run(b, [Subscribe(depth, since)] + after) == Run(b1, after)
    ensures |b.chans| in b1.subs && |b.chans| < |b1.chans|
    ensures var s := b1.chans[|b.chans|];
            s.depth == (if depth > 0 then depth else b.chanCap) && s.queue == [] && DroppedBytes(s.log) == 0
  {
    StepKeepsInv(b, Subscribe(depth, since));
    assert ([Subscribe(depth, since)] + after)[1..] == after;
    b1 := Step(b, Subscribe(depth, since));
    hide Run, Inv;
  }

  lemma TookFromEmpty(was: Sub, now: Sub, ws: seq<seq<byte>>)
    requires Took(was, now, ws) && was.queue == [] && DroppedBytes(was.log) == 0 && [] !in ws
    ensures var D := was.depth;
            && now.queue == (if |ws| <= D then ws else ws[..D])
            && DroppedBytes(now.log) == |Flatten(if |ws| <= D then [] else ws[D..])|
            && (|ws| <= D ==> DroppedBytes(now.log) == 0) && (|ws| > D ==> DroppedBytes(now.log) > 0)
  {
    var D := was.depth;
    assert [] + Fitting(ws, D) == if |ws| <= D then ws else ws[..D];
    assert Rest(ws, D) == if |ws| <= D then [] else ws[D..];
    if |ws| > D {
      NonEmptyFlat(ws[D..]);
    }
  }

  lemma {:induction false} NoEmptyChunk(ops: seq<Op>)
    ensures [] !in Chunks(ops)
    decreases |ops|
  {
    if ops != [] {
      NoEmptyChunk(ops[1..]);
    }
  }

  lemma NonEmptyFlat(ws: seq<seq<byte>>)
    requires ws != [] && [] !in ws
    ensures |Flatten(ws)| > 0
  {
    assert ws[|ws| - 1] in ws;
  }

  // ------------------------------------------------- reading

  lemma ReceiveOne(b: Broker, i: nat)
    requires Inv(b) && i < |b.chans| && b.chans[i].queue != []
    ensures var s := b.chans[i];
            Step(b, Receive(i)) == b.(chans := b.chans[i := s.(queue := s.queue[1..], received := s.received + 1)])
    ensures Inv(Step(b, Receive(i)))
  {
    StepKeepsInv(b, Receive(i));
    hide LifecycleInv, SubsInv, SumDrops;
  }

  /** A reader takes the oldest chunks first, one at a time, and its reading changes nothing but
      its own channel: after n receives the queue has lost its first n chunks. */
  lemma {:induction false} ReadsInOrder(b: Broker, i: nat, n: nat)
    requires Inv(b) && i < |b.chans| && n <= |b.chans[i].queue|
    ensures var s := b.chans[i];
            Run(b, seq(n, _ => Receive(i))) == b.(chans := b.chans[i := s.(queue := s.queue[n..], received := s.received + n)])
    decreases n
  {
    hide Step, LifecycleInv, SubsInv, SumDrops;
    var ops := seq(n, _ => Receive(i));
    var s := b.chans[i];
    if n == 0 {
      assert ops == [] && s.queue[0..] == s.queue && b.chans[i := s] == b.chans;
    } else {
      ReceiveOne(b, i);
      assert ops[1..] == seq(n - 1, _ => Receive(i));
      ReadsInOrder(Step(b, Receive(i)), i, n - 1);
      assert s.queue[1..][n - 1..] == s.queue[n..];
    }
  }
}
