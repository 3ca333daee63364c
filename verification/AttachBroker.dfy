/** The attach broker in place: a byte slice over a backing array, a map of live channels, and
    counters, each operation proved equal to the transition of `BrokerSpec`. */
module AttachBroker {
  import opened Common
  import opened BrokerSpec
  import BrokerTheorems

  /** A buffered channel of chunks. Sending on or closing a closed channel panics in the
      source, so both demand an open channel here. */
  class Channel {
    const depth: nat
    var queue: seq<seq<byte>>
    var isClosed: bool
    ghost var record: Sub

    ghost predicate Valid()
      reads this
    {
      record.queue == queue && record.depth == depth && (isClosed <==> record.closes > 0)
    }

    constructor (depth: nat, ghost record: Sub)
      requires record.depth == depth && record.queue == [] && record.closes == 0
      ensures Valid() && this.record == record && this.depth == depth
    {
      this.depth := depth;
      queue := [];
      isClosed := false;
      this.record := record;
    }

    /** The non-blocking send of a select with a default arm. */
    method TrySend(p: seq<byte>, ghost at: nat) returns (ok: bool)
      requires Valid() && !isClosed
      modifies this
      ensures Valid() && record == OfferTo(old(record), at, p) && isClosed == old(isClosed)
      ensures ok == !Full(old(record))
    {
      ok := |queue| < depth;
      if ok {
        queue := queue + [p];
      }
      record := OfferTo(record, at, p);
    }

    method CloseIt(ghost now: nat)
      requires Valid() && !isClosed
      modifies this
      ensures Valid() && record == CloseChan(old(record), now)
    {
      isClosed := true;
      record := CloseChan(record, now);
    }

    /** A receive: the next chunk, or `ok` false when the channel is drained and closed. It
        would block when the channel is empty and open. */
    method Receive() returns (chunk: seq<byte>, ok: bool)
      requires Valid() && (queue != [] || isClosed)
      modifies this
      ensures Valid() && isClosed == old(isClosed)
      ensures ok == (old(record.queue) != [])
      ensures ok ==> chunk == old(record.queue)[0]
      ensures ok ==> record == old(record).(queue := old(record).queue[1..], received := old(record).received + 1)
      ensures !ok ==> record == old(record) && chunk == []
    {
      if queue == [] {
        return [], false;
      }
      chunk, ok := queue[0], true;
      queue := queue[1..];
      record := record.(queue := record.queue[1..], received := record.received + 1);
    }
  }

  ghost function Records(all: seq<Channel>): (r: seq<Sub>)
    reads all
    ensures |r| == |all| && forall i :: 0 <= i < |all| ==> r[i] == all[i].record
  {
    seq(|all|, i requires 0 <= i < |all| reads all => all[i].record)
  }

  lemma SliceOfSlice(s: seq<byte>, off: nat, len: nat, drop: nat)
    requires off + len <= |s| && drop <= len
    ensures s[off + drop..off + drop + (len - drop)] == s[off..off + len][drop..]
  {
  }

  lemma SplitSlice(before: seq<byte>, after: seq<byte>, off: nat, start: nat, p: seq<byte>)
    requires off <= start && start + |p| <= |before| == |after|
    requires forall k :: off <= k < start ==> after[k] == before[k]
    requires forall k :: 0 <= k < |p| ==> after[start + k] == p[k]
    ensures after[off..start + |p|] == before[off..start] + p
  {
  }

  class Broker {
    const ringCap: nat
    const chanCap: nat
    var dropCnt: nat
    var totalWritten: nat
    var buf: array<byte>             // the slice b.ring: buf[off..off + len]
    var off: nat
    var len: nat
    var subs: map<nat, Channel>
    var subNext: nat
    var closed: bool
    ghost var history: seq<byte>
    ghost var all: seq<Channel>      // every channel ever created

    function Ring(): seq<byte>
      requires off + len <= buf.Length
      reads `buf, `off, `len, buf
    {
      buf[off..off + len]
    }

    ghost function Model(): BrokerSpec.Broker
      requires off + len <= buf.Length
      reads this, buf, all
    {
      BrokerSpec.Broker(ringCap, chanCap, Ring(), totalWritten, dropCnt, subs.Keys, subNext, closed, history, Records(all))
    }

    ghost predicate Shape()
      reads this, all
    {
      && off + len <= buf.Length && Linked()
      && (forall i :: 0 <= i < |all| ==> all[i].Valid())
    }

    /** Distinct channels, and the live ones are filed under their index. */
    ghost predicate Linked()
      reads `all, `subs
    {
      && (forall i, j :: 0 <= i < j < |all| ==> all[i] != all[j])
      && (forall i :: i in subs ==> i < |all| && subs[i] == all[i])
    }

    ghost predicate Valid()
      reads this, buf, all
    {
      Shape() && Inv(Model())
    }

    constructor (ringBytes: int, subscriberDepth: int)
      ensures Valid() && fresh(buf) && all == []
      ensures Model() == New(ringBytes, subscriberDepth)
    {
      ringCap := if ringBytes <= 0 then DEFAULT_RING_BYTES else ringBytes;
      chanCap := if subscriberDepth <= 0 then DEFAULT_SUBSCRIBER_DEPTH else subscriberDepth;
      dropCnt, totalWritten, off, len := 0, 0, 0, 0;
      subs, subNext, closed := map[], 0, false;
      history, all := [], [];
      new;
      buf := new byte[ringCap];
    }

    /** Room for n more bytes after the slice, moving it to a larger array if need be. */
    method Reserve(n: nat)
      requires off + len <= buf.Length
      modifies this`buf, this`off
      ensures off + len + n <= buf.Length && Ring() == old(Ring())
      ensures buf == old(buf) || fresh(buf)
    {
      if off + len + n > buf.Length {
        var bigger := new byte[2 * (len + n)];
        forall k | 0 <= k < len {
          bigger[k] := buf[off + k];
        }
        assert bigger[0..len] == Ring();
        buf, off := bigger, 0;
      }
    }

    /** Go's append on the slice: in place while the backing array has room after the slice,
        otherwise into a larger array. */
    method Append(p: seq<byte>)
      requires off + len <= buf.Length
      modifies this`buf, this`off, this`len, buf
      ensures off + len <= buf.Length && Ring() == old(Ring()) + p
      ensures buf == old(buf) || fresh(buf)
    {
      Reserve(|p|);
      ghost var before := buf[..];
      var start := off + len;
      forall k | 0 <= k < |p| {
        buf[start + k] := p[k];
      }
      len := len + |p|;
      SplitSlice(before, buf[..], off, start, p);
    }

    /** Reslicing past the oldest bytes. */
    method DropFront(drop: nat)
      requires off + len <= buf.Length && drop <= len
      modifies this`off, this`len
      ensures off + len <= buf.Length && len == old(len) - drop && Ring() == old(Ring())[drop..]
    {
      SliceOfSlice(buf[..], off, len, drop);
      off, len := off + drop, len - drop;
    }

    method AppendRingInPlace(p: seq<byte>)
      requires off + len <= buf.Length && len <= ringCap
      modifies this`buf, this`off, this`len, buf
      ensures off + len <= buf.Length && Ring() == AppendRing(old(Ring()), ringCap, p)
      ensures buf == old(buf) || fresh(buf)
    {
      if |p| >= ringCap {
        len := 0;
        Append(p[|p| - ringCap..]);
        return;
      }
      var spare := ringCap - len;
      if |p| > spare {
        DropFront(|p| - spare);
      }
      Append(p);
    }

    method Store(p: seq<byte>)
      requires off + len <= buf.Length && len <= ringCap
      modifies this`buf, this`off, this`len, this`totalWritten, buf
      ensures off + len <= buf.Length && Ring() == AppendRing(old(Ring()), ringCap, p)
      ensures totalWritten == old(totalWritten) + |p|
      ensures buf == old(buf) || fresh(buf)
    {
      AppendRingInPlace(p);
      totalWritten := totalWritten + |p|;
    }

    /** Every channel outside `todo` has been offered the chunk, the others not yet. */
    ghost predicate OfferedSoFar(b: BrokerSpec.Broker, p: seq<byte>, todo: set<nat>)
      reads `all, `subs, `history, all
    {
      && Linked() && |b.chans| == |all| && b.subs == subs.Keys && b.history == history
      && (forall i :: i in b.subs ==> i < |b.chans| && b.chans[i].closes == 0)
      && (forall i :: 0 <= i < |all| ==> all[i].Valid() && all[i].record == Offered(b, p, todo, i))
    }

    /** The select of the write loop: send without blocking, or count the chunk as dropped. */
    method OfferOne(i: nat, p: seq<byte>, ghost b: BrokerSpec.Broker, ghost todo: set<nat>)
      requires OfferedSoFar(b, p, todo) && i in todo && todo <= b.subs
      modifies subs[i], `dropCnt
      ensures OfferedSoFar(b, p, todo - {i}) && unchanged(buf)
      ensures dropCnt == old(dropCnt) + (if Full(b.chans[i]) then |p| else 0)
    {
      var ch := subs[i];
      assert ch == all[i] && Offered(b, p, todo, i).closes == 0;
      var ok := ch.TrySend(p, |history|);
      if !ok {
        dropCnt := dropCnt + |p|;
      }
      forall j | 0 <= j < |all|
        ensures all[j].Valid() && all[j].record == Offered(b, p, todo - {i}, j)
      {
        if j != i {
          assert all[j] != ch;
        }
      }
    }

    /** Offers the chunk to every live channel, in whatever order the map yields them. */
    method PublishLoop(p: seq<byte>, ghost b: BrokerSpec.Broker)
      requires OfferedSoFar(b, p, b.subs)
      modifies this`dropCnt, all
      ensures OfferedSoFar(b, p, {}) && unchanged(buf)
      ensures dropCnt == old(dropCnt) + Times(|FullSubs(b, |b.chans|)|, |p|)
    {
      var todo := subs.Keys;
      assert FullDone(b, todo) == {};
      while todo != {}
        invariant todo <= b.subs && OfferedSoFar(b, p, todo) && unchanged(buf)
        invariant dropCnt == old(dropCnt) + Times(|FullDone(b, todo)|, |p|)
        decreases todo
      {
        var i :| i in todo;
        OfferOne(i, p, b, todo);
        FullDoneStep(b, todo, i, |p|);
        todo := todo - {i};
      }
      assert FullDone(b, {}) == FullSubs(b, |b.chans|);
    }

    lemma AllOffered(b: BrokerSpec.Broker, p: seq<byte>)
      requires OfferedSoFar(b, p, {})
      ensures Records(all) == OfferAll(b, p)
    {
    }

    method PublishLocked(p: seq<byte>)
      requires Shape() && forall i :: i in subs ==> subs[i].record.closes == 0
      modifies this`dropCnt, this`history, all
      ensures Shape()
      ensures Model() == old(Model()).(chans := OfferAll(old(Model()), p), history := old(history) + p,
                                       dropCnt := old(dropCnt) + Times(|FullSubs(old(Model()), |all|)|, |p|))
    {
      hide OfferTo, FullSubs, Times;
      ghost var before := Model();
      PublishLoop(p, before);
      AllOffered(before, p);
      history := history + p;
    }

    /** The ring has no part in publishing. */
    static lemma RingAside(b: BrokerSpec.Broker, ring: seq<byte>, total: nat, p: seq<byte>)
      ensures var b' := b.(ring := ring, totalWritten := total);
              OfferAll(b', p) == OfferAll(b, p) && FullSubs(b', |b'.chans|) == FullSubs(b, |b.chans|)
    {
    }

    method WriteLocked(p: seq<byte>)
      requires Ready() && p != [] && !closed
      modifies this, buf, all
      ensures Shape() && all == old(all) && (buf == old(buf) || fresh(buf))
      ensures Model() == AfterWrite(old(Model()), p)
    {
      hide OfferAll, FullSubs, Times, AppendRing;
      ghost var before := Model();
      Store(p);
      RingAside(before, AppendRing(before.ring, ringCap, p), totalWritten, p);
      assert Model() == before.(ring := AppendRing(before.ring, ringCap, p), totalWritten := totalWritten);
      PublishLocked(p);
    }

    /** What the invariant gives an operation about the heap. */
    ghost predicate Ready()
      reads this, all
    {
      && Shape() && len <= ringCap
      && (forall i :: i in subs ==> subs[i].record.closes == 0)
      && (!closed ==> subNext == |all|)
    }

    lemma ValidIsReady()
      requires Valid()
      ensures Ready()
    {
      forall i | i in subs
        ensures subs[i].record.closes == 0
      {
        assert Model().chans[i].closes == 0;
      }
      assert |Ring()| <= ringCap;
    }

    /** Write: never blocks; an empty write does nothing and a closed broker rejects the rest. */
    method Write(p: seq<byte>) returns (n: nat, ok: bool)
      requires Valid()
      modifies this, buf, all
      ensures Valid() && all == old(all) && (buf == old(buf) || fresh(buf))
      ensures Model() == AfterWrite(old(Model()), p)
      ensures ok == (p == [] || !old(closed)) && n == if ok then |p| else 0
    {
      if |p| == 0 {
        return 0, true;
      }
      if closed {
        return 0, false;
      }
      ValidIsReady();
      BrokerTheorems.WriteKeepsInv(Model(), p);
      WriteLocked(p);
      return |p|, true;
    }

    method MakeChannel(depth: int, since: int) returns (replay: seq<byte>, ch: Channel)
      requires Shape()
      modifies this`all
      ensures Shape() && fresh(ch) && all == old(all) + [ch]
      ensures ch.Valid() && ch.record == NewSub(old(Model()), depth, since) && !ch.isClosed
      ensures replay == ch.record.replay
      ensures Records(old(all)) == old(Records(all))
    {
      replay := ComputeReplay(Ring(), totalWritten, since);
      ch := new Channel(if depth <= 0 then chanCap else depth, NewSub(Model(), depth, since));
      all := all + [ch];
    }

    /** A subscriber of an open broker is registered under the next id. */
    method SubscribeOpen(depth: int, since: int) returns (replay: seq<byte>, ch: Channel, id: nat)
      requires Ready() && !closed
      modifies this`all, this`subs, this`subNext
      ensures Shape() && fresh(ch) && all == old(all) + [ch]
      ensures Model() == AfterSubscribe(old(Model()), depth, since)
      ensures replay == ComputeReplay(old(Ring()), old(totalWritten), since) && id == |old(all)|
    {
      ghost var before := Model();
      replay, ch := MakeChannel(depth, since);
      assert Records(all) == before.chans + [NewSub(before, depth, since)];
      id := subNext;
      subs := subs[subNext := ch];
      subNext := subNext + 1;
    }

    /** A late subscriber gets its replay and a channel that is closed at once. */
    method SubscribeLate(depth: int, since: int) returns (replay: seq<byte>, ch: Channel)
      requires Ready() && closed
      modifies this`all
      ensures Shape() && fresh(ch) && all == old(all) + [ch]
      ensures Model() == AfterSubscribe(old(Model()), depth, since)
      ensures replay == ComputeReplay(old(Ring()), old(totalWritten), since)
    {
      ghost var before := Model();
      replay, ch := MakeChannel(depth, since);
      ch.CloseIt(|history|);
      assert Records(all) == before.chans + [CloseChan(NewSub(before, depth, since), |history|)];
    }

    /** Subscribe from a byte offset. The id names the subscription for Cancel; a subscriber of
        a closed broker gets a closed channel and nothing to cancel. */
    method SubscribeSince(depth: int, since: int) returns (replay: seq<byte>, ch: Channel, id: Option<nat>)
      requires Valid()
      modifies this
      ensures Valid() && fresh(ch) && all == old(all) + [ch] && buf == old(buf)
      ensures Model() == AfterSubscribe(old(Model()), depth, since)
      ensures replay == ComputeReplay(old(Ring()), old(totalWritten), since)
      ensures id == if old(closed) then None else Some(|old(all)|)
    {
      ValidIsReady();
      BrokerTheorems.SubscribeKeepsInv(Model(), depth, since);
      if closed {
        replay, ch := SubscribeLate(depth, since);
        id := None;
      } else {
        var i: nat;
        replay, ch, i := SubscribeOpen(depth, since);
        id := Some(i);
      }
    }

    method CancelLocked(i: nat)
      requires Ready() && i in subs
      modifies this`subs, subs[i]
      ensures Shape()
      ensures Model() == AfterCancel(old(Model()), i)
    {
      ghost var before := Model();
      var ch := subs[i];
      subs := subs - {i};
      assert ch == all[i];
      ch.CloseIt(|history|);
      forall j | 0 <= j < |all|
        ensures all[j].Valid() && all[j].record == CloseSome(before, {i})[j]
      {
        if j != i {
          assert all[j] != ch;
        }
      }
      assert Records(all) == CloseSome(before, {i});
    }

    /** The cancel function of subscription i. */
    method Cancel(i: nat)
      requires Valid()
      modifies this, all
      ensures Valid() && all == old(all) && buf == old(buf)
      ensures Model() == AfterCancel(old(Model()), i)
    {
      hide Inv, CloseSome;
      if i in subs {
        ValidIsReady();
        BrokerTheorems.CancelKeepsInv(Model(), i);
        assert subs[i] == all[i];
        CancelLocked(i);
      }
    }

    /** Channel i's record when the ids in b.subs outside subs have been closed. */
    ghost function ClosedRecord(b: BrokerSpec.Broker, left: set<nat>, i: nat): Sub
      requires i < |b.chans|
    {
      if i in b.subs && i !in left then CloseChan(b.chans[i], |b.history|) else b.chans[i]
    }

    /** The channels still registered are untouched, the others of b closed. */
    ghost predicate ClosedSoFar(b: BrokerSpec.Broker)
      reads `all, `subs, `history, all
    {
      && Linked() && |b.chans| == |all| && subs.Keys <= b.subs && b.history == history
      && (forall i :: i in b.subs ==> i < |b.chans| && b.chans[i].closes == 0)
      && (forall i :: 0 <= i < |all| ==> all[i].Valid() && all[i].record == ClosedRecord(b, subs.Keys, i))
    }

    method CloseOne(i: nat, ghost b: BrokerSpec.Broker)
      requires ClosedSoFar(b) && i in subs
      modifies this`subs, subs[i]
      ensures ClosedSoFar(b) && subs.Keys == old(subs.Keys) - {i}
    {
      var ch := subs[i];
      assert ch == all[i] && ch.record == ClosedRecord(b, subs.Keys, i);
      ch.CloseIt(|history|);
      subs := subs - {i};
      forall j | 0 <= j < |all|
        ensures all[j].Valid() && all[j].record == ClosedRecord(b, subs.Keys, j)
      {
        if j != i {
          assert all[j] != ch;
        }
      }
    }

    method CloseLoop(ghost b: BrokerSpec.Broker)
      requires ClosedSoFar(b) && subs.Keys == b.subs
      modifies this`subs, all
      ensures ClosedSoFar(b) && subs.Keys == {}
    {
      while subs.Keys != {}
        invariant ClosedSoFar(b)
        decreases subs.Keys
      {
        var i :| i in subs.Keys;
        assert subs[i] == all[i];
        CloseOne(i, b);
      }
    }

    lemma AllClosed(b: BrokerSpec.Broker)
      requires ClosedSoFar(b) && subs.Keys == {}
      ensures Records(all) == CloseSome(b, b.subs)
    {
    }

    method CloseLocked()
      requires Ready() && !closed
      modifies this`closed, this`subs, all
      ensures Shape()
      ensures Model() == AfterClose(old(Model()))
    {
      ghost var before := Model();
      closed := true;
      CloseLoop(before);
      AllClosed(before);
    }

    /** Close: every live channel is closed and dropped; a second close does nothing. */
    method Close()
      requires Valid()
      modifies this, all
      ensures Valid() && all == old(all) && buf == old(buf)
      ensures Model() == AfterClose(old(Model()))
    {
      if closed {
        return;
      }
      ValidIsReady();
      BrokerTheorems.CloseKeepsInv(Model());
      CloseLocked();
    }
  }

  /** The full subscribers already dealt with. */
  ghost function FullDone(b: BrokerSpec.Broker, todo: set<nat>): set<nat> {
    set i | i in b.subs && i !in todo && i < |b.chans| && Full(b.chans[i])
  }

  lemma FullDoneStep(b: BrokerSpec.Broker, todo: set<nat>, i: nat, n: nat)
    requires i in todo && todo <= b.subs && i < |b.chans|
    ensures Times(|FullDone(b, todo - {i})|, n) == Times(|FullDone(b, todo)|, n) + (if Full(b.chans[i]) then n else 0)
  {
    if Full(b.chans[i]) {
      assert FullDone(b, todo - {i}) == FullDone(b, todo) + {i};
    } else {
      assert FullDone(b, todo - {i}) == FullDone(b, todo);
    }
  }

  /** Channel i's record while the ids in `todo` are still to be offered the chunk. */
  ghost function Offered(b: BrokerSpec.Broker, p: seq<byte>, todo: set<nat>, i: nat): Sub
    requires i < |b.chans|
  {
    if i in b.subs && i !in todo then OfferTo(b.chans[i], |b.history|, p) else b.chans[i]
  }
}
