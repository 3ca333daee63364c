/** A client that attaches, copies the stream to its writer, disconnects at any point and
    resumes with the number of bytes it holds, any number of times, while the broker goes on
    serving everyone else. */
module ResumeClient {
  import opened Common
  import opened BrokerSpec
  import opened BrokerTheorems

  datatype Phase = Replaying | Live | Ended

  /** One attachment: its channel, whether its resume point had been evicted, how far the copy
      has got and what it has written. */
  datatype Conn = Conn(idx: nat, evicted: bool, phase: Phase, got: seq<byte>)

  /** `seen` is what the writer holds over all attachments; `pos` records, for the proof, the
      position in the history of each of those bytes. `clean` says that so far no replay came
      from an evicted resume point and no chunk was delivered after a dropped one. */
  datatype State = State(b: Broker, conn: Option<Conn>, seen: seq<byte>, pos: seq<nat>, clean: bool)

  datatype Act =
    | Env(op: Op)              // anything the broker does for others
    | Connect(depth: int)
    | CopyReplay(k: nat)       // the writer accepts k bytes of the replay; fewer than all is an error
    | CopyChunk(k: nat)        // likewise for the next chunk
    | Leave                    // context done, or the channel drained and closed

  predicate Attached(s: State) {
    s.conn.Some? && !s.conn.value.phase.Ended? && s.conn.value.idx < |s.b.chans|
  }

  function Chan(s: State): Sub
    requires s.conn.Some? && s.conn.value.idx < |s.b.chans|
  {
    s.b.chans[s.conn.value.idx]
  }

  predicate Enabled(s: State, a: Act) {
    match a
    case Env(op) =>
      !(Attached(s) && (op == Receive(s.conn.value.idx) || op == Cancel(s.conn.value.idx)))
    case Connect(_) => !Attached(s)
    case CopyReplay(k) => Attached(s) && s.conn.value.phase.Replaying? && k <= |Chan(s).replay|
    case CopyChunk(k) =>
      Attached(s) && s.conn.value.phase.Live? && Chan(s).queue != [] && k <= |Chan(s).queue[0]|
      && Chan(s).received < |Accepted(Chan(s).log)|
    case Leave => Attached(s)
  }

  /** Nothing was dropped from the subscription before its n-th accepted chunk. */
  predicate NoDropBefore(log: seq<Offer>, n: nat) {
    n < |log| && forall j :: 0 <= j <= n ==> log[j].accepted
  }

  function Apply(s: State, a: Act): State
    requires Inv(s.b) && Enabled(s, a)
  {
    match a
    case Env(op) => s.(b := Step(s.b, op))
    case Connect(depth) =>
      s.(b := AfterSubscribe(s.b, depth, |s.seen|),
         conn := Some(Conn(|s.b.chans|, |s.seen| < |s.b.history| - s.b.ringCap, Replaying, [])))
    case CopyReplay(k) =>
      var c, r := s.conn.value, Chan(s).replay;
      var start := Chan(s).from - |r|;
      s.(seen := s.seen + r[..k],
         pos := s.pos + Iota(Max(0, start), k),
         clean := s.clean && (k == 0 || !c.evicted),
         conn := Some(c.(phase := if k == |r| then Live else Ended, got := r[..k])))
    case CopyChunk(k) =>
      var c, ch := s.conn.value, Chan(s);
      var chunk := ch.queue[0];
      s.(b := AfterReceive(s.b, c.idx),
         seen := s.seen + chunk[..k],
         pos := s.pos + Iota(Accepted(ch.log)[ch.received].at, k),
         clean := s.clean && (k == 0 || NoDropBefore(ch.log, ch.received)),
         conn := Some(c.(phase := if k == |chunk| then Live else Ended, got := c.got + chunk[..k])))
    case Leave => s.(conn := Some(s.conn.value.(phase := Ended)))
  }

  // ------------------------------------------------- facts about one subscription's log

  /** Where the n-th offered chunk starts, or where the next one will. */
  function NextAt(log: seq<Offer>, n: nat, end: nat): nat {
    if n < |log| then log[n].at else end
  }

  lemma {:induction false} TilesAdjacent(log: seq<Offer>, from: nat, to: nat, h: seq<byte>, j: nat)
    requires Tiles(log, from, to, h)
    ensures j < |log| ==> log[j].at + |log[j].bytes| == NextAt(log, j + 1, to)
    ensures NextAt(log, 0, to) == from
    decreases |log|
  {
    if log != [] {
      var n := |log| - 1;
      TilesAdjacent(log[..n], from, log[n].at, h, j);
    }
  }

  lemma {:induction false} AcceptedConcat(a: seq<Offer>, b: seq<Offer>)
    ensures Accepted(a + b) == Accepted(a) + Accepted(b)
    decreases |b|
  {
    if b == [] {
      assert a + b == a;
    } else {
      var front, last := b[..|b| - 1], b[|b| - 1];
      assert a + b == (a + front) + [last];
      AcceptedConcat(a, front);
      AcceptedSnoc(a + front, last);
    }
  }

  lemma {:induction false} AllAccepted(log: seq<Offer>)
    requires forall j :: 0 <= j < |log| ==> log[j].accepted
    ensures Accepted(log) == log
    decreases |log|
  {
    if log != [] {
      AllAccepted(log[..|log| - 1]);
      assert log == log[..|log| - 1] + [log[|log| - 1]];
    }
  }

  lemma {:induction false} AcceptedInLog(log: seq<Offer>, i: nat)
    requires i < |Accepted(log)|
    ensures Accepted(log)[i] in log
    decreases |log|
  {
    if log != [] && i < |Accepted(log[..|log| - 1])| {
      AcceptedInLog(log[..|log| - 1], i);
    }
  }

  lemma {:induction false} TilesSorted(log: seq<Offer>, from: nat, to: nat, h: seq<byte>, i: nat, j: nat)
    requires Tiles(log, from, to, h) && i < j < |log|
    ensures log[i].at < log[j].at
    decreases |log|
  {
    var front, last := log[..|log| - 1], log[|log| - 1];
    if j < |front| {
      TilesSorted(front, from, last.at, h, i, j);
    } else {
      TilesNonEmpty(front, from, last.at, h);
      assert front[i] in front;
    }
  }

  /** Without drops among the first n offers, the accepted chunks begin with those offers; the
      next accepted chunk starts right after them exactly when the next offer is accepted. */
  lemma AcceptedPrefix(log: seq<Offer>, from: nat, to: nat, h: seq<byte>, n: nat)
    requires Tiles(log, from, to, h)
    requires n <= |log| && forall j :: 0 <= j < n ==> log[j].accepted
    ensures |Accepted(log)| >= n
    ensures |Accepted(log)| > n ==> n < |log| && log[n].at <= Accepted(log)[n].at
    ensures |Accepted(log)| > n ==> (Accepted(log)[n].at == log[n].at <==> log[n].accepted)
    ensures |Accepted(log)| > n && log[n].accepted ==> Accepted(log)[n] == log[n]
  {
    hide Accepted, Tiles;
    AllAccepted(log[..n]);
    if n < |log| {
      AcceptedSplit(log, n);
      if !log[n].accepted && |Accepted(log)| > n {
        AcceptedInLog(log[n + 1..], 0);
        var k :| 0 <= k < |log[n + 1..]| && log[n + 1..][k] == Accepted(log)[n];
        TilesSorted(log, from, to, h, n, n + 1 + k);
      }
    } else {
      assert log[..n] == log;
    }
  }

  lemma AcceptedSplit(log: seq<Offer>, n: nat)
    requires n < |log|
    ensures Accepted(log) == Accepted(log[..n]) + (if log[n].accepted then [log[n]] else []) + Accepted(log[n + 1..])
  {
    hide Accepted;
    SplitAt(log, n);
    AcceptedMiddle(log[..n], log[n], log[n + 1..]);
  }

  lemma AcceptedMiddle(a: seq<Offer>, o: Offer, b: seq<Offer>)
    ensures Accepted(a + [o] + b) == Accepted(a) + (if o.accepted then [o] else []) + Accepted(b)
  {
    AcceptedSnoc(a, o);
    AcceptedConcat(a + [o], b);
  }

  // ------------------------------------------------- the invariant

  /** Each byte held is the history byte at its recorded position. */
  ghost predicate Located(s: State) {
    && |s.pos| == |s.seen|
    && (forall i :: 0 <= i < |s.pos| ==> s.pos[i] < |s.b.history| && s.seen[i] == s.b.history[s.pos[i]])
  }

  ghost predicate Gapless(pos: seq<nat>) {
    forall i :: 0 <= i < |pos| ==> pos[i] == i
  }

  /** While clean, the next byte this attachment can deliver without a gap is byte |seen|. */
  ghost predicate OnTrack(s: State) {
    s.clean && Attached(s) ==>
      var c, ch := s.conn.value, Chan(s);
      && |s.seen| <= |s.b.history|
      && (c.phase.Replaying? ==> ch.since == |s.seen| <= ch.from)
      && (c.phase.Live? ==>
            && ch.received <= |ch.log|
            && (forall j :: 0 <= j < ch.received ==> ch.log[j].accepted)
            && |s.seen| == NextAt(ch.log, ch.received, End(s.b, ch)))
  }

  /** What the attachment has written is a prefix of its replay followed by its chunks. */
  ghost predicate CopyInOrder(s: State) {
    s.conn.Some? ==>
      var c := s.conn.value;
      && c.idx < |s.b.chans|
      && (c.phase.Replaying? ==>
            && c.got == [] && Chan(s).received == 0 && Chan(s).since == |s.seen|
            && (c.evicted <==> |s.seen| < Chan(s).from - s.b.ringCap))
      && (c.phase.Live? ==>
            && Chan(s).received <= |Accepted(Chan(s).log)|
            && c.got == Chan(s).replay + Flatten(Bodies(Accepted(Chan(s).log)[..Chan(s).received])))
      && c.got <= Chan(s).replay + Flatten(Bodies(Accepted(Chan(s).log)))
  }

  ghost predicate Good(s: State) {
    && Inv(s.b) && Located(s) && OnTrack(s) && CopyInOrder(s)
    && (s.clean <==> Gapless(s.pos))
  }

  // ------------------------------------------------- the broker's own steps

  /** How a channel may change while the client looks away: chunks are offered to it at the
      head of the history, or it is closed; its offers keep tiling up to where the next one
      will start. */
  ghost predicate Extends(b: Broker, b': Broker, s: Sub, s': Sub) {
    && b.history <= b'.history && b'.ringCap == b.ringCap
    && s'.since == s.since && s'.from == s.from && s'.replay == s.replay && s'.received == s.received
    && s.log <= s'.log && Accepted(s.log) <= Accepted(s'.log)
    && (forall n :: 0 <= n <= |s.log| ==> NextAt(s'.log, n, End(b', s')) == NextAt(s.log, n, End(b, s)))
  }

  lemma OfferExtends(b: Broker, p: seq<byte>, i: nat)
    requires Inv(b) && i in b.subs && i < |b.chans| && p != [] && !b.closed
    ensures Extends(b, AfterWrite(b, p), b.chans[i], AfterWrite(b, p).chans[i])
  {
    var s := b.chans[i];
    assert AfterWrite(b, p).chans[i] == OfferTo(s, |b.history|, p);
    AcceptedSnoc(s.log, Offer(|b.history|, p, |s.queue| < s.depth));
  }

  lemma SameLogExtends(b: Broker, b': Broker, s: Sub, s': Sub)
    requires b.history <= b'.history && b'.ringCap == b.ringCap
    requires s'.(until := None, closes := 0) == s.(until := None, closes := 0)
    requires End(b', s') == End(b, s)
    ensures Extends(b, b', s, s')
  {
  }

  lemma EnvOnChannel(b: Broker, op: Op, i: nat)
    requires Inv(b) && i < |b.chans| && op != Receive(i)
    ensures |b.chans| <= |Step(b, op).chans| && Extends(b, Step(b, op), b.chans[i], Step(b, op).chans[i])
  {
    hide SubOk, SumDrops, Extends, Accepted, AppendRing, ComputeReplay, FullSubs, Times;
    if op.Write? && i in b.subs && op.p != [] && !b.closed {
      OfferExtends(b, op.p, i);
    } else {
      SameLogExtends(b, Step(b, op), b.chans[i], Step(b, op).chans[i]);
    }
  }

  lemma BodiesPrefix(a: seq<Offer>, b: seq<Offer>)
    requires a <= b
    ensures Flatten(Bodies(a)) <= Flatten(Bodies(b))
  {
    assert Bodies(b) == Bodies(a) + Bodies(b[|a|..]);
    FlattenConcat(Bodies(a), Bodies(b[|a|..]));
  }

  lemma ExtendsKeepsOrder(s: State, b': Broker)
    requires CopyInOrder(s) && s.conn.Some? && s.conn.value.idx < |b'.chans|
    requires Extends(s.b, b', Chan(s), b'.chans[s.conn.value.idx])
    ensures CopyInOrder(s.(b := b'))
  {
    var l, l' := Chan(s).log, b'.chans[s.conn.value.idx].log;
    BodiesPrefix(Accepted(l), Accepted(l'));
    if s.conn.value.phase.Live? {
      var n := Chan(s).received;
      assert Accepted(l)[..n] == Accepted(l')[..n];
    }
  }

  lemma ExtendsKeepsTrack(s: State, b': Broker)
    requires OnTrack(s) && s.conn.Some? && s.conn.value.idx < |s.b.chans| <= |b'.chans|
    requires Extends(s.b, b', Chan(s), b'.chans[s.conn.value.idx])
    ensures OnTrack(s.(b := b'))
  {
  }

  lemma GrowKeepsLocated(s: State, b': Broker)
    requires Located(s) && s.b.history <= b'.history
    ensures Located(s.(b := b'))
  {
  }

  lemma EnvKeeps(s: State, op: Op)
    requires Good(s) && Enabled(s, Env(op))
    ensures Good(Apply(s, Env(op)))
  {
    var b' := Step(s.b, op);
    StepKeepsInv(s.b, op);
    StepHistory(s.b, op);
    GrowKeepsLocated(s, b');
    if s.conn.Some? {
      if op == Receive(s.conn.value.idx) {
        ReceiveOnEnded(s, s.conn.value.idx);
      } else {
        EnvOnChannel(s.b, op, s.conn.value.idx);
        ExtendsKeepsOrder(s, b');
        ExtendsKeepsTrack(s, b');
      }
    }
  }

  lemma ReceiveOnEnded(s: State, i: nat)
    requires Good(s) && s.conn.Some? && s.conn.value.idx == i && s.conn.value.phase.Ended?
    ensures Good(s.(b := AfterReceive(s.b, i)))
  {
    ReceiveKeepsInv(s.b, i);
  }

  // ------------------------------------------------- the client's steps

  lemma ConnectKeeps(s: State, depth: int)
    requires Good(s) && Enabled(s, Connect(depth))
    ensures Good(Apply(s, Connect(depth)))
  {
    SubscribeKeepsInv(s.b, depth, |s.seen|);
    GaplessBound(s);
  }

  /** Gapless positions are positions of the history. */
  lemma GaplessBound(s: State)
    requires Located(s)
    ensures Gapless(s.pos) ==> |s.seen| <= |s.b.history|
  {
    if |s.pos| > 0 {
      assert s.pos[|s.pos| - 1] < |s.b.history|;
    }
  }

  /** Copying k bytes that start at position `at`. */
  lemma CopyLocated(s: State, data: seq<byte>, at: nat, k: nat)
    requires Located(s) && k <= |data| && at + |data| <= |s.b.history|
    requires data == s.b.history[at..at + |data|]
    ensures Located(s.(seen := s.seen + data[..k], pos := s.pos + Iota(at, k)))
    ensures Gapless(s.pos + Iota(at, k)) <==> Gapless(s.pos) && (k == 0 || at == |s.seen|)
  {
    var pos := s.pos + Iota(at, k);
    if Gapless(pos) {
      forall i | 0 <= i < |s.pos|
        ensures s.pos[i] == i
      {
        assert pos[i] == i;
      }
      assert k > 0 ==> pos[|s.pos|] == at;
    }
  }

  lemma ReplayCopies(s: State, k: nat)
    requires Good(s) && Enabled(s, CopyReplay(k))
    ensures CopyInOrder(Apply(s, CopyReplay(k)))
  {
    var ch := Chan(s);
    assert SubOk(s.b.ringCap, s.b.history, ch);
    assert ch.replay[..|ch.replay|] == ch.replay;
    assert Accepted(ch.log)[..0] == [] && Bodies([]) == [];
    assert ch.replay[..k] <= ch.replay + Flatten(Bodies(Accepted(ch.log)));
  }

  lemma ReplayLocated(s: State, k: nat)
    requires Good(s) && Enabled(s, CopyReplay(k))
    ensures Located(Apply(s, CopyReplay(k)))
    ensures var ch := Chan(s);
            Gapless(Apply(s, CopyReplay(k)).pos)
            <==> Gapless(s.pos) && (k == 0 || ReplayStart(s.b.ringCap, ch.from, ch.since) == |s.seen|)
  {
    var ch := Chan(s);
    var start := ReplayStart(s.b.ringCap, ch.from, ch.since);
    assert SubOk(s.b.ringCap, s.b.history, ch);
    assert |ch.replay| == ch.from - start;
    CopyLocated(s, ch.replay, start, k);
  }

  /** A replay from a point that is not evicted starts right where the client stands. */
  lemma ReplayStartsHere(s: State)
    requires Good(s) && Attached(s) && s.conn.value.phase.Replaying? && s.clean && Chan(s).replay != []
    ensures var ch := Chan(s);
            !s.conn.value.evicted <==> ReplayStart(s.b.ringCap, ch.from, ch.since) == |s.seen|
  {
    assert SubOk(s.b.ringCap, s.b.history, Chan(s));
  }

  lemma ReplayOnTrack(s: State, k: nat)
    requires Good(s) && Enabled(s, CopyReplay(k))
    ensures OnTrack(Apply(s, CopyReplay(k)))
  {
    var ch := Chan(s);
    assert SubOk(s.b.ringCap, s.b.history, ch);
    TilesAdjacent(ch.log, ch.from, End(s.b, ch), s.b.history, 0);
  }

  lemma ReplayKeeps(s: State, k: nat)
    requires Good(s) && Enabled(s, CopyReplay(k))
    ensures Good(Apply(s, CopyReplay(k)))
  {
    ReplayLocated(s, k);
    ReplayCopies(s, k);
    ReplayOnTrack(s, k);
    if s.clean && k > 0 {
      ReplayStartsHere(s);
    }
  }

  /** The head of the queue is the next accepted chunk, a non-empty piece of the history. */
  lemma NextChunk(s: State)
    requires Good(s) && Attached(s) && s.conn.value.phase.Live? && Chan(s).queue != []
    ensures var ch := Chan(s);
            && ch.received < |Accepted(ch.log)|
            && var o := Accepted(ch.log)[ch.received];
               ch.queue[0] == o.bytes != [] && o.at + |o.bytes| <= |s.b.history| && o.bytes == s.b.history[o.at..o.at + |o.bytes|]
  {
    var ch := Chan(s);
    assert SubOk(s.b.ringCap, s.b.history, ch);
    AcceptedInLog(ch.log, ch.received);
    TilesNonEmpty(ch.log, ch.from, End(s.b, ch), s.b.history);
  }

  lemma ChunkLocated(s: State, k: nat)
    requires Good(s) && Enabled(s, CopyChunk(k))
    ensures Located(Apply(s, CopyChunk(k)))
    ensures var ch := Chan(s);
            Gapless(Apply(s, CopyChunk(k)).pos)
            <==> Gapless(s.pos) && (k == 0 || Accepted(ch.log)[ch.received].at == |s.seen|)
  {
    NextChunk(s);
    var o := Accepted(Chan(s).log)[Chan(s).received];
    CopyLocated(s, o.bytes, o.at, k);
  }

  /** While clean, the next chunk starts where the client stands exactly when nothing was
      dropped before it. */
  lemma ChunkStartsHere(s: State)
    requires Good(s) && Attached(s) && s.conn.value.phase.Live? && Chan(s).queue != [] && s.clean
    ensures var ch := Chan(s);
            && ch.received < |Accepted(ch.log)|
            && (Accepted(ch.log)[ch.received].at == |s.seen| <==> NoDropBefore(ch.log, ch.received))
            && (NoDropBefore(ch.log, ch.received) ==>
                  |s.seen| + |ch.queue[0]| == NextAt(ch.log, ch.received + 1, End(s.b, ch)))
  {
    var ch := Chan(s);
    NextChunk(s);
    assert SubOk(s.b.ringCap, s.b.history, ch);
    AcceptedPrefix(ch.log, ch.from, End(s.b, ch), s.b.history, ch.received);
    TilesAdjacent(ch.log, ch.from, End(s.b, ch), s.b.history, ch.received);
  }

  lemma ChunkOnTrack(s: State, k: nat)
    requires Good(s) && Enabled(s, CopyChunk(k))
    ensures OnTrack(Apply(s, CopyChunk(k)))
  {
    var t := Apply(s, CopyChunk(k));
    NextChunk(s);
    if t.clean && Attached(t) {
      ChunkStartsHere(s);
      ChunkLocated(s, k);
      GaplessBound(t);
    }
  }

  lemma AppendChunk(replay: seq<byte>, acc: seq<Offer>, r: nat, got: seq<byte>, k: nat)
    requires r < |acc| && k <= |acc[r].bytes| && got == replay + Flatten(Bodies(acc[..r]))
    ensures got + acc[r].bytes == replay + Flatten(Bodies(acc[..r + 1]))
    ensures got + acc[r].bytes[..k] <= replay + Flatten(Bodies(acc))
  {
    var chunk := acc[r].bytes;
    assert acc[..r + 1] == acc[..r] + [acc[r]];
    assert Bodies(acc[..r + 1]) == Bodies(acc[..r]) + [chunk];
    FlattenSnoc(Bodies(acc[..r]), chunk);
    Assoc(replay, Flatten(Bodies(acc[..r])), chunk);
    BodiesPrefix(acc[..r + 1], acc);
    PrefixOfSum(got, chunk, k, replay + Flatten(Bodies(acc)));
  }

  lemma ChunkCopies(s: State, k: nat)
    requires Good(s) && Enabled(s, CopyChunk(k))
    ensures CopyInOrder(Apply(s, CopyChunk(k)))
  {
    hide Inv, Located, OnTrack, Accepted, Flatten, Bodies;
    NextChunk(s);
    var ch := Chan(s);
    AppendChunk(ch.replay, Accepted(ch.log), ch.received, s.conn.value.got, k);
    assert ch.queue[0][..|ch.queue[0]|] == ch.queue[0];
  }

  lemma PrefixOfSum(a: seq<byte>, b: seq<byte>, k: nat, whole: seq<byte>)
    requires k <= |b| && a + b <= whole
    ensures a + b[..k] <= whole
  {
  }

  lemma ChunkKeeps(s: State, k: nat)
    requires Good(s) && Enabled(s, CopyChunk(k))
    ensures Good(Apply(s, CopyChunk(k)))
  {
    ReceiveKeepsInv(s.b, s.conn.value.idx);
    ChunkLocated(s, k);
    ChunkOnTrack(s, k);
    ChunkCopies(s, k);
    if s.clean {
      ChunkStartsHere(s);
    }
  }

  lemma ActKeeps(s: State, a: Act)
    requires Good(s) && Enabled(s, a)
    ensures Good(Apply(s, a))
  {
    match a
    case Env(op) => EnvKeeps(s, op);
    case Connect(depth) => ConnectKeeps(s, depth);
    case CopyReplay(k) => ReplayKeeps(s, k);
    case CopyChunk(k) => ChunkKeeps(s, k);
    case Leave =>
  }

  /** The state after a sequence of acts, or None if one of them is not possible. */
  ghost function Exec(s: State, acts: seq<Act>): (r: Option<State>)
    requires Good(s)
    ensures r.Some? ==> Good(r.value)
    decreases |acts|
  {
    if acts == [] then Some(s)
    else if !Enabled(s, acts[0]) then None
    else
      ActKeeps(s, acts[0]);
      Exec(Apply(s, acts[0]), acts[1..])
  }

  function Start(ringBytes: int, depth: int): (s: State)
    ensures Good(s)
  {
    State(New(ringBytes, depth), None, [], [], true)
  }

  // ------------------------------------------------- the theorems

  /** Any number of disconnects and resumes, each passing the byte count held so far, with
      anything else going on at the broker: as long as no replay came from an evicted resume
      point and no chunk was delivered after a dropped one, the writer holds exactly a prefix
      of the output history. In general the byte at index i is the history byte at its
      recorded position, and those positions run 0, 1, 2, ... without gap or duplicate exactly
      when the run has been clean. */
  lemma ResumeIsExact(ringBytes: int, depth: int, acts: seq<Act>)
    requires Exec(Start(ringBytes, depth), acts).Some?
    ensures var s := Exec(Start(ringBytes, depth), acts).value;
            && (s.clean ==> s.seen <= s.b.history)
            && |s.pos| == |s.seen|
            && (forall i :: 0 <= i < |s.pos| ==> s.pos[i] < |s.b.history| && s.seen[i] == s.b.history[s.pos[i]])
            && (s.clean <==> Gapless(s.pos))
  {
    var s := Exec(Start(ringBytes, depth), acts).value;
    GaplessBound(s);
  }

  /** At any moment, and in particular wherever the attachment is cut off, what it has written
      is a prefix of its replay followed by the chunks its channel accepted, in order. */
  lemma CutAnywhere(ringBytes: int, depth: int, acts: seq<Act>)
    requires Exec(Start(ringBytes, depth), acts).Some?
    requires Exec(Start(ringBytes, depth), acts).value.conn.Some?
    ensures var s := Exec(Start(ringBytes, depth), acts).value;
            && s.conn.value.idx < |s.b.chans|
            && s.conn.value.got <= Chan(s).replay + Flatten(Bodies(Accepted(Chan(s).log)))
  {
  }
}
