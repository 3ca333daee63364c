/** What the JSON-RPC client guarantees in every interleaving. */
module RpcTheorems {
  import opened Common
  import opened RpcProtocol
  import opened RpcInvariant

  // ------------------------------------------------- channel discipline

  /** Each response channel has at most one remover, which finds it open and empty when it
      sends, so no send blocks or panics; it is closed once, only after its send; and a call
      blocked in its select never reads the zero value of a closed, empty channel. */
  lemma ChannelDiscipline(run: seq<Action>)
    requires Exec(INIT, run).Some?
    ensures var s := Exec(INIT, run).value;
            && |s.chans| == |s.calls|
            && (forall who, c: nat :: Enabled(s, Send(who, c)) ==> s.chans[c] == FRESH && !Held(s, Other(who), c))
            && (forall who, c: nat :: Enabled(s, CloseChan(who, c)) ==> s.chans[c].sends == 1 && s.chans[c].closes == 0 && !s.chans[c].closed)
            && (forall c :: 0 <= c < |s.chans| ==> s.chans[c].closes <= s.chans[c].sends <= 1)
            && (forall c :: 0 <= c < |s.chans| && s.calls[c].pc == Waiting && s.chans[c].closed ==> s.chans[c].slot.Some?)
  {
    InitInv();
    InvRun(INIT, run);
    var s := Exec(INIT, run).value;
    forall who, c: nat | Enabled(s, Send(who, c))
      ensures s.chans[c] == FRESH && !Held(s, Other(who), c)
    {
      assert JobOk(s, who, c);
    }
    forall who, c: nat | Enabled(s, CloseChan(who, c))
      ensures s.chans[c].sends == 1 && s.chans[c].closes == 0 && !s.chans[c].closed
    {
      assert JobOk(s, who, c);
    }
    forall c | 0 <= c < |s.chans|
      ensures s.chans[c].closes <= s.chans[c].sends <= 1
      ensures s.calls[c].pc == Waiting && s.chans[c].closed ==> s.chans[c].slot.Some?
    {
      assert CallOk(s, c);
    }
  }

  // ------------------------------------------------- response correlation

  /** The step brings r for the call with this id: a response frame with the id, or one of the
      two drains with its error. */
  predicate Brings(a: Action, id: int, r: Response) {
    || a == Frame(Inbound(Some(id), r))
    || (a == ReaderExit && r == READER_GONE)
    || (a == StopSweep && r == STOPPED)
  }

  /** r was brought to call c, which has this id, after it registered. */
  predicate Told(run: seq<Action>, c: nat, id: int, r: Response) {
    exists i, j :: 0 <= i < j < |run| && run[i] == Register(c) && Brings(run[j], id, r)
  }

  lemma ToldGrows(run: seq<Action>, a: Action, c: nat, id: int, r: Response)
    requires Told(run, c, id, r)
    ensures Told(run + [a], c, id, r)
  {
    var i, j :| 0 <= i < j < |run| && run[i] == Register(c) && Brings(run[j], id, r);
    assert (run + [a])[i] == run[i] && (run + [a])[j] == run[j];
  }

  lemma ToldNow(run: seq<Action>, a: Action, c: nat, id: int, r: Response)
    requires Register(c) in run && Brings(a, id, r)
    ensures Told(run + [a], c, id, r)
  {
    var i :| 0 <= i < |run| && run[i] == Register(c);
    assert (run + [a])[i] == Register(c) && (run + [a])[|run|] == a;
  }

  ghost predicate HandsTold(run: seq<Action>, s: State, who: Who) {
    forall c: nat :: c in HandsOf(s, who).jobs ==> c < |s.calls| && Told(run, c, s.calls[c].id, HandsOf(s, who).jobs[c])
  }

  /** Whatever has reached a remover's hands, a channel or a caller was brought by the run. */
  ghost predicate Provenance(run: seq<Action>, s: State)
    requires |s.calls| == |s.chans|
  {
    && (forall c: nat :: c < |s.calls| && !Unregistered(s.calls[c].pc) ==> Register(c) in run)
    && HandsTold(run, s, Reader) && HandsTold(run, s, Stopper)
    && (forall c: nat :: c < |s.calls| && s.chans[c].slot.Some? ==> Told(run, c, s.calls[c].id, s.chans[c].slot.value))
    && (forall c: nat :: c < |s.calls| && s.calls[c].pc.Returned? && s.calls[c].pc.how.Answered? ==>
          Told(run, c, s.calls[c].id, s.calls[c].pc.how.response))
  }

  /** A registered call keeps its id and stays registered. */
  lemma CallKept(s: State, a: Action, c: nat)
    requires Inv(s) && Enabled(s, a) && c < |s.calls| && !Unregistered(s.calls[c].pc)
    ensures c < |Apply(s, a).calls| && !Unregistered(Apply(s, a).calls[c].pc)
    ensures Apply(s, a).calls[c].id == s.calls[c].id
  {
  }

  lemma RegisteredBy(s: State, a: Action, c: nat)
    requires Enabled(s, a) && c < |Apply(s, a).calls| && !Unregistered(Apply(s, a).calls[c].pc)
    ensures a == Register(c) || (c < |s.calls| && !Unregistered(s.calls[c].pc))
  {
  }

  /** A remover gets a job by routing a frame or by a drain, and no job changes. */
  lemma JobOrigin(s: State, a: Action, who: Who, c: nat)
    requires Inv(s) && Enabled(s, a) && c in HandsOf(Apply(s, a), who).jobs
    ensures var r := HandsOf(Apply(s, a), who).jobs[c];
            || (Held(s, who, c) && r == HandsOf(s, who).jobs[c])
            || (InPending(s, c) && !Unregistered(s.calls[c].pc) && Brings(a, s.calls[c].id, r))
  {
    if !Held(s, who, c) {
      if a.Frame? {
        assert EntryOk(s, a.frame.id.value, c);
      } else {
        Removable(s, c);
      }
    }
  }

  lemma JobTold(run: seq<Action>, s: State, a: Action, who: Who, c: nat)
    requires Inv(s) && Provenance(run, s) && Enabled(s, a) && Inv(Apply(s, a))
    requires c in HandsOf(Apply(s, a), who).jobs
    ensures c < |Apply(s, a).calls| && Told(run + [a], c, Apply(s, a).calls[c].id, HandsOf(Apply(s, a), who).jobs[c])
  {
    var r := HandsOf(Apply(s, a), who).jobs[c];
    JobOrigin(s, a, who, c);
    assert HandsTold(run, s, who);
    if Held(s, who, c) && r == HandsOf(s, who).jobs[c] {
      assert JobOk(s, who, c);
      CallKept(s, a, c);
      ToldGrows(run, a, c, s.calls[c].id, r);
    } else {
      CallKept(s, a, c);
      ToldNow(run, a, c, s.calls[c].id, r);
    }
  }

  lemma SlotOrigin(s: State, a: Action, c: nat)
    requires Inv(s) && Enabled(s, a) && c < |Apply(s, a).chans| && Apply(s, a).chans[c].slot.Some?
    ensures c < |s.calls| && |s.calls| == |s.chans|
    ensures if a.Send? && a.c == c then Apply(s, a).chans[c].slot == Some(HandsOf(s, a.who).jobs[c])
            else Apply(s, a).chans[c].slot == s.chans[c].slot
  {
  }

  lemma SlotTold(run: seq<Action>, s: State, a: Action, c: nat)
    requires Inv(s) && Provenance(run, s) && Enabled(s, a)
    requires c < |Apply(s, a).calls| == |Apply(s, a).chans| && Apply(s, a).chans[c].slot.Some?
    ensures Told(run + [a], c, Apply(s, a).calls[c].id, Apply(s, a).chans[c].slot.value)
  {
    SlotOrigin(s, a, c);
    assert CallOk(s, c);
    if a.Send? && a.c == c {
      assert JobOk(s, a.who, c) && HandsTold(run, s, a.who);
    }
    CallKept(s, a, c);
    ToldGrows(run, a, c, s.calls[c].id, Apply(s, a).chans[c].slot.value);
  }

  lemma AnswerOrigin(s: State, a: Action, c: nat)
    requires Inv(s) && Enabled(s, a)
    requires c < |Apply(s, a).calls| && Apply(s, a).calls[c].pc.Returned? && Apply(s, a).calls[c].pc.how.Answered?
    ensures c < |s.calls| && c < |s.chans|
    ensures if a == Receive(c) then s.chans[c].slot == Some(Apply(s, a).calls[c].pc.how.response)
            else s.calls[c].pc == Apply(s, a).calls[c].pc
  {
    assert c < |s.calls| ==> CallOk(s, c);
  }

  lemma AnswerTold(run: seq<Action>, s: State, a: Action, c: nat)
    requires Inv(s) && Provenance(run, s) && Enabled(s, a)
    requires c < |Apply(s, a).calls| && Apply(s, a).calls[c].pc.Returned? && Apply(s, a).calls[c].pc.how.Answered?
    ensures Told(run + [a], c, Apply(s, a).calls[c].id, Apply(s, a).calls[c].pc.how.response)
  {
    assert c < |s.calls| ==> CallOk(s, c);
    AnswerOrigin(s, a, c);
    CallKept(s, a, c);
    ToldGrows(run, a, c, s.calls[c].id, Apply(s, a).calls[c].pc.how.response);
  }

  lemma ProvenanceStep(run: seq<Action>, s: State, a: Action)
    requires Inv(s) && Provenance(run, s) && Enabled(s, a) && Inv(Apply(s, a))
    ensures Provenance(run + [a], Apply(s, a))
  {
    var t := Apply(s, a);
    forall c: nat | c < |t.calls| && !Unregistered(t.calls[c].pc)
      ensures Register(c) in run + [a]
    {
      RegisteredBy(s, a, c);
    }
    forall who | who == Reader || who == Stopper
      ensures HandsTold(run + [a], t, who)
    {
      forall c: nat | c in HandsOf(t, who).jobs
        ensures c < |t.calls| && Told(run + [a], c, t.calls[c].id, HandsOf(t, who).jobs[c])
      {
        JobTold(run, s, a, who, c);
      }
    }
    forall c: nat | c < |t.calls| && t.chans[c].slot.Some?
      ensures Told(run + [a], c, t.calls[c].id, t.chans[c].slot.value)
    {
      SlotTold(run, s, a, c);
    }
    forall c: nat | c < |t.calls| && t.calls[c].pc.Returned? && t.calls[c].pc.how.Answered?
      ensures Told(run + [a], c, t.calls[c].id, t.calls[c].pc.how.response)
    {
      AnswerTold(run, s, a, c);
    }
  }

  lemma {:induction false} ProvenanceRun(run: seq<Action>)
    requires Exec(INIT, run).Some?
    ensures Inv(Exec(INIT, run).value) && Provenance(run, Exec(INIT, run).value)
    decreases |run|
  {
    InitInv();
    if run != [] {
      var front, a := run[..|run| - 1], run[|run| - 1];
      ExecLast(INIT, run);
      ProvenanceRun(front);
      InvStep(Exec(INIT, front).value, a);
      ProvenanceStep(front, Exec(INIT, front).value, a);
      assert run == front + [a];
    }
  }

  /** A call that returns a response returns one that the run brought to it after it registered:
      that of a response frame with the id it allocated, whatever the arrival order and across
      any number of respawns, or the error of a drain, which says which drain it was. A result
      without an error came from such a frame; and no two calls share an id, so no two share a
      frame. */
  lemma AnswersAreCorrelated(run: seq<Action>, c: nat)
    requires Exec(INIT, run).Some? && c < |Exec(INIT, run).value.calls|
    requires var pc := Exec(INIT, run).value.calls[c].pc; pc.Returned? && pc.how.Answered?
    ensures var s := Exec(INIT, run).value;
            var id, r := s.calls[c].id, s.calls[c].pc.how.response;
            && (exists i, j :: 0 <= i < j < |run| && run[i] == Register(c) && Brings(run[j], id, r))
            && (r.err == None ==> exists i, j :: 0 <= i < j < |run| && run[i] == Register(c) && run[j] == Frame(Inbound(Some(id), r)))
            && (forall d :: 0 <= d < |s.calls| && d != c && !s.calls[d].pc.Entered? ==> s.calls[d].id != id)
  {
    ProvenanceRun(run);
    var s := Exec(INIT, run).value;
    assert Told(run, c, s.calls[c].id, s.calls[c].pc.how.response);
  }

  /** What each drain takes and with which words: every call in the map, and no others. */
  lemma DrainTakes(run: seq<Action>, c: nat)
    requires Exec(INIT, run).Some?
    ensures var s := Exec(INIT, run).value;
            && (Enabled(s, ReaderExit) ==>
                  var h := Apply(s, ReaderExit).readerHands;
                  && Apply(s, ReaderExit).pending == map[] && (c in h.jobs <==> InPending(s, c))
                  && (c in h.jobs ==> h.jobs[c] == Response(None, Some(RpcError(-32000, "agentsessions: jsonrpc reader exited before response")))))
            && (Enabled(s, StopSweep) ==>
                  var h := Apply(s, StopSweep).stopHands;
                  && Apply(s, StopSweep).pending == map[] && (c in h.jobs <==> InPending(s, c))
                  && (c in h.jobs ==> h.jobs[c] == Response(None, Some(RpcError(-32000, "agentsessions: session stopped")))))
  {
    InitInv();
    InvRun(INIT, run);
    var s := Exec(INIT, run).value;
    if c in Owners(s.pending) {
      Removable(s, c);
    }
  }

  /** The call has returned, or its channel has been sent on. */
  predicate Settled(s: State, c: nat)
    requires c < |s.calls|
  {
    s.calls[c].pc.Returned? || (c < |s.chans| && s.chans[c].sends > 0)
  }

  /** A frame leaves the client as it was if and only if its id does not decode, or no call
      with that id is in the map; and a call is out of the map exactly when it has not
      registered yet, is settled, or is held by a remover that will settle it. So unknown,
      early, late and duplicate responses are all ignored, and no others. */
  lemma StrayFrameIgnored(run: seq<Action>, f: Inbound)
    requires Exec(INIT, run).Some? && Exec(INIT, run).value.reader == Scanning && Exec(INIT, run).value.readerHands == NO_JOBS
    ensures Enabled(Exec(INIT, run).value, Frame(f))
    ensures var s := Exec(INIT, run).value;
            Apply(s, Frame(f)) == s
            <==> f.id == None || forall c :: 0 <= c < |s.calls| && s.calls[c].id == f.id.value ==> !InPending(s, c)
    ensures var s := Exec(INIT, run).value;
            forall c :: 0 <= c < |s.calls| ==>
              (InPending(s, c) <==> !Unregistered(s.calls[c].pc) && !Settled(s, c) && !Held(s, Reader, c) && !Held(s, Stopper, c))
  {
    InitInv();
    InvRun(INIT, run);
    var s := Exec(INIT, run).value;
    if f.id.Some? && f.id.value in s.pending {
      assert EntryOk(s, f.id.value, s.pending[f.id.value]);
      assert f.id.value !in Apply(s, Frame(f)).pending;
    }
    forall c | 0 <= c < |s.calls|
      ensures InPending(s, c) <==> !Unregistered(s.calls[c].pc) && !Settled(s, c) && !Held(s, Reader, c) && !Held(s, Stopper, c)
    {
      InMapIffUnsettled(s, c);
    }
  }

  lemma InMapIffUnsettled(s: State, c: nat)
    requires Inv(s) && c < |s.calls|
    ensures InPending(s, c) <==> !Unregistered(s.calls[c].pc) && !Settled(s, c) && !Held(s, Reader, c) && !Held(s, Stopper, c)
  {
    assert CallOk(s, c);
    if InPending(s, c) {
      assert EntryOk(s, s.calls[c].id, c);
    }
  }

  // ------------------------------------------------- a matching frame

  lemma FrameTaken(s: State, f: Inbound, c: nat)
    requires s.reader == Scanning && s.readerHands == NO_JOBS && InPending(s, c) && f.id == Some(s.calls[c].id)
    ensures Enabled(s, Frame(f)) && Apply(s, Frame(f)) == s.(pending := s.pending - {s.calls[c].id},
                                     readerHands := Hands(map[c := f.response], None))
  {
  }

  lemma ReaderSends(s: State, c: nat, r: Response)
    requires s.readerHands == Hands(map[c := r], None) && c < |s.chans|
    ensures Enabled(s, Send(Reader, c))
    ensures Apply(s, Send(Reader, c)) == s.(readerHands := Hands(map[c := r], Some(c)),
                                            chans := s.chans[c := s.chans[c].(slot := Some(r), sends := s.chans[c].sends + 1)])
  {
  }

  lemma ReaderCloses(s: State, c: nat, r: Response)
    requires s.readerHands == Hands(map[c := r], Some(c)) && c < |s.chans|
    ensures Enabled(s, CloseChan(Reader, c))
    ensures Apply(s, CloseChan(Reader, c)) == s.(readerHands := NO_JOBS,
                                                 chans := s.chans[c := s.chans[c].(closed := true, closes := s.chans[c].closes + 1)])
  {
    assert map[c := r] - {c} == map[];
  }

  lemma ExecThree(s: State, a: Action, b: Action, c: Action)
    requires Enabled(s, a) && Enabled(Apply(s, a), b) && Enabled(Apply(Apply(s, a), b), c)
    ensures Exec(s, [a, b, c]) == Some(Apply(Apply(Apply(s, a), b), c))
  {
    hide Enabled, Apply;
    var s1 := Apply(s, a);
    var s2 := Apply(s1, b);
    assert [a, b, c][1..] == [b, c] && [b, c][1..] == [c] && [c][1..] == [];
    assert Exec(s2, [c]) == Some(Apply(s2, c));
    assert Exec(s1, [b, c]) == Some(Apply(s2, c));
  }

  /** A frame with the id of a registered call is for that call: the reader can take it through
      to the end by its own three steps, and then the channel holds the frame's payload and is
      closed, the entry is gone and every other entry untouched. */
  lemma MatchingFrameDelivers(run: seq<Action>, f: Inbound, c: nat)
    requires Exec(INIT, run).Some?
    requires var s := Exec(INIT, run).value;
             s.reader == Scanning && s.readerHands == NO_JOBS && InPending(s, c) && f.id == Some(s.calls[c].id)
    ensures var s := Exec(INIT, run).value;
            var t := Exec(s, [Frame(f), Send(Reader, c), CloseChan(Reader, c)]);
            && t.Some? && c < |t.value.chans|
            && t.value.chans[c] == Chan(Some(f.response), true, 1, 1) && t.value.readerHands == NO_JOBS
            && t.value.pending == s.pending - {s.calls[c].id}
  {
    InitInv();
    InvRun(INIT, run);
    var s := Exec(INIT, run).value;
    assert EntryOk(s, s.calls[c].id, c);
    hide Apply, Enabled, Inv;
    FrameTaken(s, f, c);
    var s1 := Apply(s, Frame(f));
    ReaderSends(s1, c, f.response);
    var s2 := Apply(s1, Send(Reader, c));
    ReaderCloses(s2, c, f.response);
    ExecThree(s, Frame(f), Send(Reader, c), CloseChan(Reader, c));
  }

  /** The payload r is on its way to call c: in the reader's hands, which are about to send it,
      or sent and in the channel, or returned by the call. */
  predicate Carried(s: State, c: nat, r: Response) {
    && c < |s.calls| && c < |s.chans|
    && if s.chans[c].sends == 0 then s.readerHands == Hands(map[c := r], None)
       else s.chans[c].slot == Some(r) || s.calls[c].pc == Returned(Answered(r))
  }

  lemma CarriedStep(s: State, a: Action, c: nat, r: Response)
    requires Inv(s) && Carried(s, c, r) && Enabled(s, a)
    ensures Carried(Apply(s, a), c, r)
  {
    assert CallOk(s, c);
    if s.chans[c].sends == 0 {
      assert c in s.readerHands.jobs && JobOk(s, Reader, c);
      hide Inv, JobOk, CallOk, HandsInv, IdInv, PendingInv, CallsInv;
      InHandsStep(s, a, c, r);
    } else {
      if a.Send? {
        assert JobOk(s, a.who, a.c);
      }
      hide Inv, JobOk, CallOk, HandsInv, IdInv, PendingInv, CallsInv;
      SentOnStep(s, a, c, r);
    }
  }

  lemma InHandsStep(s: State, a: Action, c: nat, r: Response)
    requires Carried(s, c, r) && Enabled(s, a) && s.chans[c] == FRESH && !Held(s, Stopper, c)
    ensures Carried(Apply(s, a), c, r)
  {
    assert c in s.readerHands.jobs && forall d :: d in s.readerHands.jobs ==> d == c;
  }

  lemma SentOnStep(s: State, a: Action, c: nat, r: Response)
    requires Carried(s, c, r) && Enabled(s, a) && s.chans[c].sends == 1 && (a.Send? ==> a.c != c)
    ensures Carried(Apply(s, a), c, r)
  {
  }

  lemma {:induction false} CarriedRun(s: State, more: seq<Action>, c: nat, r: Response)
    requires Inv(s) && Carried(s, c, r) && Exec(s, more).Some?
    ensures Carried(Exec(s, more).value, c, r)
    decreases |more|
  {
    if more != [] {
      CarriedStep(s, more[0], c, r);
      InvStep(s, more[0]);
      CarriedRun(Apply(s, more[0]), more[1..], c, r);
    }
  }

  /** Whatever the callers, Stop and the respawner do meanwhile: ever after the frame was
      routed, the reader's send of its payload is still possible, or that payload has been
      sent and is in the channel, or the call has returned it. */
  lemma MatchingFrameArrives(run: seq<Action>, f: Inbound, c: nat, more: seq<Action>)
    requires Exec(INIT, run).Some?
    requires var s := Exec(INIT, run).value;
             s.reader == Scanning && s.readerHands == NO_JOBS && InPending(s, c) && f.id == Some(s.calls[c].id)
    requires Exec(Apply(Exec(INIT, run).value, Frame(f)), more).Some?
    ensures var u := Exec(Apply(Exec(INIT, run).value, Frame(f)), more).value;
            && c < |u.calls| && c < |u.chans|
            && ((Enabled(u, Send(Reader, c)) && u.readerHands.jobs[c] == f.response)
                || u.chans[c].slot == Some(f.response) || u.calls[c].pc == Returned(Answered(f.response)))
  {
    InitInv();
    InvRun(INIT, run);
    var s := Exec(INIT, run).value;
    assert EntryOk(s, s.calls[c].id, c);
    FrameTaken(s, f, c);
    InvStep(s, Frame(f));
    CarriedRun(Apply(s, Frame(f)), more, c, f.response);
  }

  /** An id in the map was allocated, and the only call it belongs to is unanswered and has not
      returned. */
  lemma EntryIsLive(s: State, id: int)
    requires Inv(s) && id in s.pending
    ensures 1 <= id <= s.nextID
    ensures forall c :: 0 <= c < |s.calls| && s.calls[c].id == id ==> !Settled(s, c)
  {
    assert EntryOk(s, id, s.pending[id]);
  }
}
