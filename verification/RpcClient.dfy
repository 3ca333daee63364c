/** The client state in place: the pending map of response channels, its lock regions, and the
    reader loop. Each lock region is tied to the transition `RpcProtocol` interleaves; the
    reader loop is proved against the functions of `RpcRouting`. */
module RpcClient {
  import opened Common
  import opened RpcProtocol
  import opened RpcRouting

  /** A one-slot channel. A send on a full slot would block, and a send or close on a closed
      channel panics, so each demands that this is not so. */
  class ResponseChannel {
    ghost const call: nat            // which call made it
    var slot: Option<Response>
    var isClosed: bool

    constructor (ghost call: nat)
      ensures this.call == call && Untouched()
    {
      this.call := call;
      slot := None;
      isClosed := false;
    }

    predicate Untouched()
      reads this
    {
      slot == None && !isClosed
    }

    /** Sent on with r and closed. */
    predicate Settled(r: Response)
      reads this
    {
      slot == Some(r) && isClosed
    }

    method Send(r: Response)
      requires Untouched()
      modifies `slot
      ensures slot == Some(r)
    {
      slot := Some(r);
    }

    method CloseIt()
      requires !isClosed
      modifies `isClosed
      ensures isClosed
    {
      isClosed := true;
    }

    /** A receive that does not block: the buffered response, or the zero value once the
        channel is closed and empty. */
    method Receive() returns (r: Response)
      requires slot.Some? || isClosed
      modifies `slot
      ensures r == if old(slot).Some? then old(slot).value else ZERO
      ensures slot == None
    {
      r := if slot.Some? then slot.value else ZERO;
      slot := None;
    }
  }

  function Channels(pending: map<int, ResponseChannel>): (r: set<ResponseChannel>)
    ensures forall id :: id in pending ==> pending[id] in r
    ensures forall ch :: ch in r ==> exists id :: id in pending && pending[id] == ch
  {
    set id | id in pending :: pending[id]
  }

  /** Which call each registered id belongs to. */
  ghost function Index(pending: map<int, ResponseChannel>): map<int, nat> {
    map id | id in pending :: pending[id].call
  }

  ghost predicate Sound(pending: map<int, ResponseChannel>, nextID: int)
    reads Channels(pending)
  {
    && (forall id :: id in pending ==> 1 <= id <= nextID && pending[id].Untouched())
    && (forall id, other :: id in pending && other in pending && id != other ==> pending[id] != pending[other])
  }

  lemma SomeMember(s: set<int>)
    ensures s == {} || exists n :: n in s
  {
    if forall n :: n !in s {
      assert s == {};
    }
  }

  class Client {
    const hooked: bool               // a request hook is configured
    const listening: bool            // a notification hook is configured
    var alive: bool
    var nextID: int
    var pending: map<int, ResponseChannel>
    var stdin: seq<Answer>           // the reader's writes to the child
    var notified: seq<(string, string)>
    var log: seq<Line>
    ghost var calls: nat             // calls registered so far

    ghost predicate Valid()
      reads this, Channels(pending)
    {
      nextID >= 0 && Sound(pending, nextID)
    }

    constructor (hooked: bool, listening: bool)
      ensures Valid() && pending == map[] && nextID == 0 && alive && stdin == [] && notified == [] && log == []
      ensures this.hooked == hooked && this.listening == listening
    {
      this.hooked, this.listening := hooked, listening;
      alive, nextID, pending := true, 0, map[];
      stdin, notified, log, calls := [], [], [], 0;
    }

    /** The opening of Call: refused once stopped, else a new id and a new channel, filed
        under it. */
    method Begin() returns (r: Option<(int, ResponseChannel)>)
      requires Valid()
      modifies `nextID, `pending, `calls
      ensures Valid()
      ensures r.None? <==> !alive
      ensures r.None? ==> pending == old(pending) && nextID == old(nextID)
      ensures r.Some? ==> fresh(r.value.1) && r.value.1.Untouched() && r.value.0 == nextID == old(nextID) + 1
      ensures r.Some? ==> r.value.0 !in old(pending) && pending == old(pending)[r.value.0 := r.value.1]
      ensures r.Some? ==> Index(pending) == Index(old(pending))[old(nextID) + 1 := old(calls)]
    {
      if !alive {
        return None;
      }
      nextID := nextID + 1;
      var ch := new ResponseChannel(calls);
      pending, calls := pending[nextID := ch], calls + 1;
      r := Some((nextID, ch));
    }

    /** A caller takes its own entry back; harmless when someone else was first. */
    method Cleanup(id: int)
      requires Valid()
      modifies `pending
      ensures Valid() && pending == old(pending) - {id} && Index(pending) == Index(old(pending)) - {id}
    {
      pending := pending - {id};
    }

    /** A response frame: whoever waits on its id is taken out of the map, sent the response
        and its channel closed; no other channel is touched, and an unknown, late or
        non-integer id changes nothing. */
    method DeliverResponse(id: Id, r: Response, ghost s: State)
      requires Valid() && s.pending == Index(pending)
      modifies `pending, Channels(pending)
      ensures Valid()
      ensures Index(pending) == Route(s, Inbound(if id.IntId? then Some(id.n) else None, r)).pending
      ensures forall n :: n in old(pending) && id == IntId(n) ==>
                Route(s, Inbound(Some(n), r)).readerHands == Hands(map[old(pending)[n].call := r], None)
      ensures forall n :: n in old(pending) && id == IntId(n) ==> old(pending[n]).Settled(r)
      ensures forall n :: n in old(pending) && id != IntId(n) ==> n in pending && pending[n] == old(pending[n])
      ensures forall n :: n in pending ==> n in old(pending) && id != IntId(n)
      ensures forall ch: ResponseChannel :: ch in old(Channels(pending)) && !(id.IntId? && id.n in old(pending) && ch == old(pending[id.n]))
                ==> unchanged(ch)
    {
      if id.RawId? || id.n !in pending {
        return;
      }
      var ch := pending[id.n];
      pending := pending - {id.n};
      ch.Send(r);
      ch.CloseIt();
    }

    /** Swap the map for an empty one and settle every channel that was in it. */
    method FailPending(r: Response, ghost s: State)
      requires Valid() && s.pending == Index(pending)
      modifies `pending, Channels(pending)
      ensures Valid() && pending == map[]
      ensures forall n :: n in old(pending) ==> old(pending[n]).Settled(r)
      ensures forall c :: c in Take(s.pending, r).jobs <==> exists n :: n in old(pending) && old(pending)[n].call == c
      ensures forall c :: c in Take(s.pending, r).jobs ==> Take(s.pending, r).jobs[c] == r
    {
      var taken := pending;
      pending := map[];
      SettleAll(taken, nextID, r);
      assert forall n :: n in taken <==> n in s.pending;
      assert forall n :: n in taken ==> s.pending[n] == taken[n].call;
    }

    /** The loop over the swapped-out map, in whatever order it is walked: every send finds an
        empty slot and every close an open channel. */
    static method SettleAll(taken: map<int, ResponseChannel>, ghost last: int, r: Response)
      requires Sound(taken, last)
      modifies Channels(taken)
      ensures forall n :: n in taken ==> taken[n].Settled(r)
    {
      var left := taken.Keys;
      while left != {}
        invariant left <= taken.Keys
        invariant forall n :: n in left ==> taken[n].Untouched()
        invariant forall n :: n in taken && n !in left ==> taken[n].Settled(r)
        decreases |left|
      {
        assert exists n :: n in left by { SomeMember(left); }
        var n :| n in left;
        taken[n].Send(r);
        taken[n].CloseIt();
        left := left - {n};
      }
    }

    // ---------------------------------------------- the reader

    /** Answer a server request, if the response encodes and there is a stdin. */
    method RespondToServerRequest(t: Turn)
      requires Classify(t.line) == ServerRequest
      modifies `stdin
      ensures stdin == old(stdin) + Written(t, hooked)
    {
      var f := t.line.frame;
      var body: Body;
      if hooked {
        body := if t.err.Some? then Failure(t.err.value) else Result(t.result);
      } else {
        body := Failure(RpcError(METHOD_NOT_FOUND, NO_HOOK + f.name));
      }
      if !t.encodes {
        return;
      }
      if t.live {
        stdin := stdin + [Answer(f.id.value, body)];
      }
    }

    /** One line: logged, and then at most one of answered, forwarded or delivered. */
    method HandleLine(t: Turn)
      requires Valid()
      modifies `pending, `stdin, `notified, `log, Channels(pending)
      ensures Valid() && log == old(log) + [t.line]
      ensures stdin == old(stdin) + Written(t, hooked)
      ensures notified == old(notified) + if listening then Notified(t) else []
      ensures forall n :: n in old(pending) && Answers(t, n) ==> old(pending[n]).Settled(t.line.frame.response)
      ensures forall n :: n in old(pending) && !Answers(t, n) ==> n in pending && pending[n] == old(pending[n])
      ensures forall n :: n in pending ==> n in old(pending) && !Answers(t, n)
    {
      hide AnswerTo;
      log := log + [t.line];
      if t.line.NotJson? {
        return;
      }
      var f := t.line.frame;
      if f.name != "" && f.id.Some? {
        RespondToServerRequest(t);
      } else if f.name != "" {
        if listening {
          notified := notified + [(f.name, f.params)];
        }
      } else if f.id.Some? {
        DeliverResponse(f.id.value, f.response, INIT.(pending := Index(pending)));
      }
    }

    /** Where the loop stands after the lines in `seen`, relative to the state it began in. */
    ghost predicate Scanned(before: map<int, ResponseChannel>, stdin0: seq<Answer>,
                            notified0: seq<(string, string)>, log0: seq<Line>, seen: seq<Turn>)
      reads this, Channels(pending), Channels(before)
    {
      && Valid() && Progress(before, pending, seen)
      && log == log0 + Lines(seen)
      && stdin == stdin0 + AllWritten(seen, hooked)
      && notified == notified0 + if listening then AllNotified(seen) else []
    }

    /** HandleLine, seen from the calls that were waiting when the loop began. */
    method ScanLine(t: Turn, ghost before: map<int, ResponseChannel>, ghost seen: seq<Turn>)
      requires Valid() && Progress(before, pending, seen)
      modifies `pending, `stdin, `notified, `log, Channels(pending)
      ensures Valid() && log == old(log) + [t.line]
      ensures stdin == old(stdin) + Written(t, hooked)
      ensures notified == old(notified) + if listening then Notified(t) else []
      ensures Progress(before, pending, seen + [t]) && Channels(pending) <= Channels(before)
    {
      hide Written, Notified, Classify;
      assert (seen + [t])[..|seen|] == seen;
      HandleLine(t);
      forall n | n in before && FirstAnswer(seen + [t], n).Some?
        ensures before[n].Settled(FirstAnswer(seen + [t], n).value)
      {
        if FirstAnswer(seen, n).Some? {
          assert before[n] !in old(Channels(pending));
        }
      }
    }

    method ScanNext(t: Turn, ghost before: map<int, ResponseChannel>, ghost stdin0: seq<Answer>,
                    ghost notified0: seq<(string, string)>, ghost log0: seq<Line>, ghost seen: seq<Turn>)
      requires Scanned(before, stdin0, notified0, log0, seen)
      modifies `pending, `stdin, `notified, `log, Channels(pending)
      ensures Scanned(before, stdin0, notified0, log0, seen + [t]) && Channels(pending) <= Channels(before)
    {
      NextLine(seen, t, hooked, listening, stdin0, notified0, log0);
      ScanLine(t, before, seen);
    }

    /** The scan loop and the drain behind it. Every call that was waiting when it began gets
        the first response that carries its id, or the reader's farewell if there is none. */
    method RunReaderLoop(turns: seq<Turn>)
      requires Valid()
      modifies `pending, `stdin, `notified, `log, Channels(pending)
      ensures Valid() && pending == map[]
      ensures log == old(log) + Lines(turns)
      ensures stdin == old(stdin) + AllWritten(turns, hooked)
      ensures notified == old(notified) + if listening then AllNotified(turns) else []
      ensures forall n :: n in old(pending) ==> old(pending[n]).Settled(LastWord(turns, n))
    {
      ghost var before := pending;
      ScanAll(turns);
      Farewell(turns, before);
    }

    lemma NothingScanned()
      requires Valid()
      ensures Scanned(pending, stdin, notified, log, [])
    {
    }

    method ScanAll(turns: seq<Turn>)
      requires Valid()
      modifies `pending, `stdin, `notified, `log, Channels(pending)
      ensures Scanned(old(pending), old(stdin), old(notified), old(log), turns)
      ensures Channels(pending) <= old(Channels(pending))
    {
      ghost var before, stdin0, notified0, log0 := pending, stdin, notified, log;
      ghost var seen: seq<Turn> := [];
      var i := 0;
      hide *;
      NothingScanned();
      while i < |turns|
        invariant 0 <= i <= |turns| && seen == turns[..i]
        invariant Channels(pending) <= Channels(before)
        invariant Scanned(before, stdin0, notified0, log0, seen)
      {
        ScanNext(turns[i], before, stdin0, notified0, log0, seen);
        seen := seen + [turns[i]];
        i := i + 1;
      }
      assert seen == turns;
    }

    method Farewell(turns: seq<Turn>, ghost before: map<int, ResponseChannel>)
      requires Valid() && Progress(before, pending, turns)
      modifies `pending, Channels(pending)
      ensures Valid() && pending == map[]
      ensures forall n :: n in before ==> before[n].Settled(LastWord(turns, n))
    {
      FailPending(READER_GONE, INIT.(pending := Index(pending)));
      forall n | n in before
        ensures before[n].Settled(LastWord(turns, n))
      {
        if FirstAnswer(turns, n).Some? {
          assert before[n] !in old(Channels(pending));
        }
      }
    }
  }

  lemma NextLine(seen: seq<Turn>, t: Turn, hooked: bool, listening: bool,
                 stdin: seq<Answer>, notified: seq<(string, string)>, log: seq<Line>)
    ensures log + Lines(seen + [t]) == log + Lines(seen) + [t.line]
    ensures stdin + AllWritten(seen + [t], hooked) == stdin + AllWritten(seen, hooked) + Written(t, hooked)
    ensures notified + (if listening then AllNotified(seen + [t]) else [])
            == notified + (if listening then AllNotified(seen) else []) + if listening then Notified(t) else []
  {
    var all := seen + [t];
    assert all[..|seen|] == seen && Lines(all) == Lines(seen) + [t.line];
    Assoc(stdin, AllWritten(seen, hooked), Written(t, hooked));
    Assoc(notified, AllNotified(seen), Notified(t));
  }

  /** What a call that waits on id hears by the time the reader is gone. */
  function LastWord(turns: seq<Turn>, id: int): Response {
    if FirstAnswer(turns, id).Some? then FirstAnswer(turns, id).value else READER_GONE
  }

  /** Of the entries in `before`, those some line of `turns` answers are settled with the first
      such response, and exactly the others are still in `now`. */
  ghost predicate Progress(before: map<int, ResponseChannel>, now: map<int, ResponseChannel>, turns: seq<Turn>)
    reads Channels(before)
  {
    && (forall n, m :: n in before && m in before && n != m ==> before[n] != before[m])
    && (forall n :: n in now ==> n in before && now[n] == before[n] && FirstAnswer(turns, n) == None)
    && (forall n :: n in before && FirstAnswer(turns, n) == None ==> n in now)
    && (forall n :: n in before && FirstAnswer(turns, n).Some? ==> before[n].Settled(FirstAnswer(turns, n).value))
  }
}
