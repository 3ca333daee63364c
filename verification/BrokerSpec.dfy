/** The attach broker as a function of the operations applied to it, beside the full history
    it abbreviates. `AttachBroker` implements these transitions in place. */
module BrokerSpec {
  import opened Common

  const DEFAULT_RING_BYTES: nat := 64 * 1024
  const DEFAULT_SUBSCRIBER_DEPTH: nat := 64

  /** One chunk as offered to one subscriber: its position in the history, and whether the
      subscriber's queue had room. */
  datatype Offer = Offer(at: nat, bytes: seq<byte>, accepted: bool)

  /** One subscriber channel ever created. `queue` is the channel's buffer; the rest is the
      record of what happened to it: what was asked for and replayed, every chunk offered
      while subscribed, how many were received, where the subscription ended, and how often
      the channel was closed. */
  datatype Sub = Sub(depth: nat, from: nat, since: int, replay: seq<byte>,
                     queue: seq<seq<byte>>, log: seq<Offer>, received: nat,
                     until: Option<nat>, closes: nat)

  datatype Broker = Broker(ringCap: nat, chanCap: nat, ring: seq<byte>, totalWritten: nat, dropCnt: nat,
                           subs: set<nat>, subNext: nat, closed: bool,
                           history: seq<byte>, chans: seq<Sub>)

  datatype Op = Write(p: seq<byte>) | Subscribe(depth: int, since: int) | Cancel(i: nat) | Close | Receive(i: nat)

  function New(ringBytes: int, subscriberDepth: int): (b: Broker)
    ensures Inv(b)
  {
    Broker(if ringBytes <= 0 then DEFAULT_RING_BYTES else ringBytes,
           if subscriberDepth <= 0 then DEFAULT_SUBSCRIBER_DEPTH else subscriberDepth,
           [], 0, 0, {}, 0, false, [], [])
  }

  // ------------------------------------------------- the operations

  function AppendRing(ring: seq<byte>, ringCap: nat, p: seq<byte>): seq<byte>
    requires |ring| <= ringCap
  {
    if |p| >= ringCap then
      p[|p| - ringCap..]
    else
      var spare := ringCap - |ring|;
      (if |p| > spare then ring[|p| - spare..] else ring) + p
  }

  function ComputeReplay(ring: seq<byte>, totalWritten: int, sinceSeq: int): seq<byte> {
    if sinceSeq <= 0 || |ring| == 0 then ring
    else if sinceSeq >= totalWritten then []
    else
      var ringStartSeq := totalWritten - |ring|;
      if sinceSeq < ringStartSeq then ring else ring[sinceSeq - ringStartSeq..]
  }

  /** A chunk reaches a subscriber if its queue has room and is dropped otherwise. */
  function OfferTo(s: Sub, at: nat, p: seq<byte>): Sub {
    if |s.queue| < s.depth
    then s.(queue := s.queue + [p], log := s.log + [Offer(at, p, true)])
    else s.(log := s.log + [Offer(at, p, false)])
  }

  function OfferAll(b: Broker, p: seq<byte>): (r: seq<Sub>)
    ensures |r| == |b.chans|
  {
    seq(|b.chans|, i requires 0 <= i < |b.chans| => if i in b.subs then OfferTo(b.chans[i], |b.history|, p) else b.chans[i])
  }

  predicate Full(s: Sub) {
    |s.queue| >= s.depth
  }

  /** The subscribers, among the first n channels, whose queue is full. */
  function FullSubs(b: Broker, n: nat): set<nat> {
    set i | i in b.subs && i < n && i < |b.chans| && Full(b.chans[i])
  }

  /** n added to itself k times. */
  function Times(k: nat, n: nat): nat {
    if k == 0 then 0 else Times(k - 1, n) + n
  }

  function CloseChan(s: Sub, now: nat): Sub {
    s.(until := Some(now), closes := s.closes + 1)
  }

  function CloseSome(b: Broker, ids: set<nat>): (r: seq<Sub>)
    ensures |r| == |b.chans|
  {
    seq(|b.chans|, i requires 0 <= i < |b.chans| => if i in ids then CloseChan(b.chans[i], |b.history|) else b.chans[i])
  }

  /** The state after a write; an empty or rejected write changes nothing. */
  function AfterWrite(b: Broker, p: seq<byte>): Broker
    requires |b.ring| <= b.ringCap
  {
    if p == [] || b.closed then b
    else b.(ring := AppendRing(b.ring, b.ringCap, p), totalWritten := b.totalWritten + |p|,
            history := b.history + p, chans := OfferAll(b, p),
            dropCnt := b.dropCnt + Times(|FullSubs(b, |b.chans|)|, |p|))
  }

  function NewSub(b: Broker, depth: int, since: int): Sub {
    Sub(if depth <= 0 then b.chanCap else depth, |b.history|, since,
        ComputeReplay(b.ring, b.totalWritten, since), [], [], 0, None, 0)
  }

  function AfterSubscribe(b: Broker, depth: int, since: int): Broker {
    if b.closed
    then b.(chans := b.chans + [CloseChan(NewSub(b, depth, since), |b.history|)])
    else b.(chans := b.chans + [NewSub(b, depth, since)], subs := b.subs + {b.subNext}, subNext := b.subNext + 1)
  }

  function AfterCancel(b: Broker, i: nat): Broker {
    if i in b.subs then b.(subs := b.subs - {i}, chans := CloseSome(b, {i})) else b
  }

  function AfterClose(b: Broker): Broker {
    if b.closed then b else b.(closed := true, subs := {}, chans := CloseSome(b, b.subs))
  }

  function AfterReceive(b: Broker, i: nat): Broker {
    if i < |b.chans| && b.chans[i].queue != []
    then b.(chans := b.chans[i := b.chans[i].(queue := b.chans[i].queue[1..], received := b.chans[i].received + 1)])
    else b
  }

  function Step(b: Broker, op: Op): Broker
    requires |b.ring| <= b.ringCap
  {
    match op
    case Write(p) => AfterWrite(b, p)
    case Subscribe(depth, since) => AfterSubscribe(b, depth, since)
    case Cancel(i) => AfterCancel(b, i)
    case Close => AfterClose(b)
    case Receive(i) => AfterReceive(b, i)
  }

  // ------------------------------------------------- what the records mean

  function Accepted(log: seq<Offer>): seq<Offer> {
    if log == [] then []
    else
      var front, last := log[..|log| - 1], log[|log| - 1];
      Accepted(front) + (if last.accepted then [last] else [])
  }

  function Bodies(log: seq<Offer>): (r: seq<seq<byte>>)
    ensures |r| == |log| && forall i :: 0 <= i < |log| ==> r[i] == log[i].bytes
  {
    seq(|log|, i requires 0 <= i < |log| => log[i].bytes)
  }

  function DroppedBytes(log: seq<Offer>): nat {
    if log == [] then 0
    else DroppedBytes(log[..|log| - 1]) + (if log[|log| - 1].accepted then 0 else |log[|log| - 1].bytes|)
  }

  function AcceptedBytes(log: seq<Offer>): nat {
    if log == [] then 0
    else AcceptedBytes(log[..|log| - 1]) + (if log[|log| - 1].accepted then |log[|log| - 1].bytes| else 0)
  }

  function SumDrops(chans: seq<Sub>): nat {
    if chans == [] then 0 else SumDrops(chans[..|chans| - 1]) + DroppedBytes(chans[|chans| - 1].log)
  }

  /** The offers tile the history from `from` to `to`: non-empty, adjacent, and equal to what
      was written there. */
  predicate Tiles(log: seq<Offer>, from: nat, to: nat, h: seq<byte>) {
    if log == [] then from == to
    else
      var last := log[|log| - 1];
      && last.bytes != [] && last.at + |last.bytes| == to <= |h| && h[last.at..to] == last.bytes
      && Tiles(log[..|log| - 1], from, last.at, h)
  }

  /** Where a replay requested from `since` starts in a history of length n. */
  function ReplayStart(ringCap: nat, n: nat, since: int): nat {
    Min(n, Max(since, Max(0, n - ringCap)))
  }

  function End(b: Broker, s: Sub): nat {
    if s.until.Some? then s.until.value else |b.history|
  }

  // ------------------------------------------------- the invariant

  predicate RingInv(b: Broker) {
    && b.ringCap >= 1 && b.chanCap >= 1
    && b.totalWritten == |b.history|
    && b.ring == LastN(b.history, b.ringCap)
  }

  /** Ids are allocated in order; a channel is open exactly while its id is registered, and
      was closed exactly once otherwise; a closed broker has no subscribers. */
  ghost predicate LifecycleInv(b: Broker) {
    && b.subNext <= |b.chans|
    && (forall i :: i in b.subs ==> i < b.subNext)
    && (!b.closed ==> b.subNext == |b.chans|)
    && (b.closed ==> b.subs == {})
    && (forall i :: 0 <= i < |b.chans| ==>
          && b.chans[i].closes == (if i in b.subs then 0 else 1)
          && (b.chans[i].until.Some? <==> i !in b.subs))
  }

  predicate SubOk(ringCap: nat, h: seq<byte>, s: Sub) {
    var end := if s.until.Some? then s.until.value else |h|;
    && s.depth >= 1 && |s.queue| <= s.depth
    && s.from <= end <= |h|
    && s.replay == h[ReplayStart(ringCap, s.from, s.since)..s.from]
    && s.received <= |Accepted(s.log)|
    && s.queue == Bodies(Accepted(s.log))[s.received..]
    && Tiles(s.log, s.from, end, h)
  }

  ghost predicate SubsInv(b: Broker) {
    forall i :: 0 <= i < |b.chans| ==> SubOk(b.ringCap, b.history, b.chans[i])
  }

  ghost predicate Inv(b: Broker) {
    RingInv(b) && LifecycleInv(b) && SubsInv(b) && b.dropCnt == SumDrops(b.chans)
  }
}
