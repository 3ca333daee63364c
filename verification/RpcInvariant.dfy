/** Every step of the JSON-RPC client keeps the invariant. */
module RpcInvariant {
  import opened Common
  import opened RpcProtocol

  /** Steps that move one call forward without touching map or channels, and steps of the
      lifecycle around the client. */
  predicate Quiet(a: Action) {
    a.EncodeFail? || a.Snapshot? || a.WriteOk? || a.WriteFail? || a.Cancel?
    || a.StopMark? || a.StopSnap? || a.StopShut? || a.WaitClear? || a.WaitShut? || a.Respawn? || a.Die?
  }

  lemma QuietEntry(s: State, a: Action, id: int)
    requires Inv(s) && Enabled(s, a) && Quiet(a) && id in Apply(s, a).pending
    ensures EntryOk(Apply(s, a), id, Apply(s, a).pending[id])
  {
    if id in s.pending {
      assert EntryOk(s, id, s.pending[id]);
    }
  }

  lemma QuietJob(s: State, a: Action, who: Who, c: nat)
    requires Inv(s) && Enabled(s, a) && Quiet(a) && c in HandsOf(Apply(s, a), who).jobs
    ensures JobOk(Apply(s, a), who, c)
  {
    if Held(s, who, c) {
      assert JobOk(s, who, c);
    }
  }

  /** The lifecycle around the client touches no call, channel or entry. */
  predicate Outside(a: Action) {
    a.StopMark? || a.StopSnap? || a.StopShut? || a.WaitClear? || a.WaitShut? || a.Respawn? || a.Die?
  }

  lemma OutsideCall(s: State, a: Action, c: nat)
    requires Enabled(s, a) && Outside(a) && c < |s.calls| == |s.chans| && CallOk(s, c)
    ensures |Apply(s, a).calls| == |Apply(s, a).chans| == |s.calls| && CallOk(Apply(s, a), c)
  {
  }

  lemma QuietCall(s: State, a: Action, c: nat)
    requires Inv(s) && Enabled(s, a) && Quiet(a) && c < |Apply(s, a).calls| == |Apply(s, a).chans|
    ensures CallOk(Apply(s, a), c)
  {
    assert c < |s.calls| ==> CallOk(s, c);
    if Outside(a) {
      OutsideCall(s, a, c);
    } else {
      InsideCall(s, a, c);
    }
  }

  lemma InsideCall(s: State, a: Action, c: nat)
    requires Enabled(s, a) && Quiet(a) && !Outside(a) && |s.calls| == |s.chans| && c < |Apply(s, a).calls|
    requires c < |s.calls| ==> CallOk(s, c)
    ensures c < |Apply(s, a).calls| == |Apply(s, a).chans| && CallOk(Apply(s, a), c)
  {
  }

  /** Steps by which a call appears, registers, reads its channel or withdraws. */
  predicate Caller(a: Action) {
    a.Enter? || a.Allocate? || a.Register? || a.Receive? || a.Cleanup?
  }

  lemma CallerEntry(s: State, a: Action, id: int)
    requires Inv(s) && Enabled(s, a) && Caller(a) && id in Apply(s, a).pending
    ensures EntryOk(Apply(s, a), id, Apply(s, a).pending[id])
  {
    if id in s.pending {
      assert EntryOk(s, id, s.pending[id]);
    }
    if a.Register? {
      assert CallOk(s, a.c);
    }
  }

  lemma CallerJob(s: State, a: Action, who: Who, c: nat)
    requires Inv(s) && Enabled(s, a) && Caller(a) && c in HandsOf(Apply(s, a), who).jobs
    ensures JobOk(Apply(s, a), who, c)
  {
    if Held(s, who, c) {
      assert JobOk(s, who, c);
    }
  }

  lemma CallerCall(s: State, a: Action, c: nat)
    requires Inv(s) && Enabled(s, a) && Caller(a) && c < |Apply(s, a).calls| == |Apply(s, a).chans|
    ensures CallOk(Apply(s, a), c)
  {
    if c < |s.calls| {
      assert CallOk(s, c);
    }
  }

  /** Whatever a removal takes was registered under its own id, with an untouched channel. */
  lemma Removable(s: State, c: nat)
    requires Inv(s) && c in Owners(s.pending)
    ensures InPending(s, c) && InFlight(s.calls[c].pc) && c < |s.chans| && s.chans[c] == FRESH
  {
    var id :| id in s.pending && s.pending[id] == c;
    assert EntryOk(s, id, c);
  }

  /** The three removals that take channels out of the map. */
  predicate Remove(a: Action) {
    a.Frame? || a.ReaderExit? || a.StopSweep?
  }

  lemma RemoveEntry(s: State, a: Action, id: int)
    requires Inv(s) && Enabled(s, a) && Remove(a) && id in Apply(s, a).pending
    ensures EntryOk(Apply(s, a), id, Apply(s, a).pending[id])
  {
    if a.Frame? && a.frame.id.Some? && a.frame.id.value in s.pending {
      assert EntryOk(s, a.frame.id.value, s.pending[a.frame.id.value]);
    }
    if id in s.pending {
      assert EntryOk(s, id, s.pending[id]);
    }
  }

  lemma RemoveJob(s: State, a: Action, who: Who, c: nat)
    requires Inv(s) && Enabled(s, a) && Remove(a) && c in HandsOf(Apply(s, a), who).jobs
    ensures JobOk(Apply(s, a), who, c)
  {
    if a.Frame? && a.frame.id.Some? && a.frame.id.value in s.pending {
      assert EntryOk(s, a.frame.id.value, s.pending[a.frame.id.value]);
    }
    if c in Owners(s.pending) {
      Removable(s, c);
    }
    if Held(s, who, c) {
      assert JobOk(s, who, c);
    }
  }

  lemma RemoveCall(s: State, a: Action, c: nat)
    requires Inv(s) && Enabled(s, a) && Remove(a) && c < |Apply(s, a).calls| == |Apply(s, a).chans|
    ensures CallOk(Apply(s, a), c)
  {
    if a.Frame? && a.frame.id.Some? && a.frame.id.value in s.pending {
      assert EntryOk(s, a.frame.id.value, s.pending[a.frame.id.value]);
    }
    if c in Owners(s.pending) {
      Removable(s, c);
    }
    if c < |s.calls| {
      assert CallOk(s, c);
    }
  }

  /** The send that follows a removal. */
  predicate Deliver(a: Action) {
    a.Send?
  }

  lemma DeliverEntry(s: State, a: Action, id: int)
    requires Inv(s) && Enabled(s, a) && Deliver(a) && id in Apply(s, a).pending
    ensures EntryOk(Apply(s, a), id, Apply(s, a).pending[id])
  {
    if id in s.pending {
      assert EntryOk(s, id, s.pending[id]);
    }
  }

  lemma DeliverJob(s: State, a: Action, who: Who, c: nat)
    requires Inv(s) && Enabled(s, a) && Deliver(a) && c in HandsOf(Apply(s, a), who).jobs
    ensures JobOk(Apply(s, a), who, c)
  {
    assert JobOk(s, a.who, a.c);
    if Held(s, who, c) {
      assert JobOk(s, who, c);
    }
  }

  lemma DeliverCall(s: State, a: Action, c: nat)
    requires Inv(s) && Enabled(s, a) && Deliver(a) && c < |Apply(s, a).calls| == |Apply(s, a).chans|
    ensures CallOk(Apply(s, a), c)
  {
    assert JobOk(s, a.who, a.c);
    if c < |s.calls| {
      assert CallOk(s, c);
    }
  }

  /** The close that follows the send. */
  predicate Shut(a: Action) {
    a.CloseChan?
  }

  lemma ShutEntry(s: State, a: Action, id: int)
    requires Inv(s) && Enabled(s, a) && Shut(a) && id in Apply(s, a).pending
    ensures EntryOk(Apply(s, a), id, Apply(s, a).pending[id])
  {
    if id in s.pending {
      assert EntryOk(s, id, s.pending[id]);
    }
  }

  lemma ShutJob(s: State, a: Action, who: Who, c: nat)
    requires Inv(s) && Enabled(s, a) && Shut(a) && c in HandsOf(Apply(s, a), who).jobs
    ensures JobOk(Apply(s, a), who, c)
  {
    if Held(s, who, c) {
      assert JobOk(s, who, c);
    }
  }

  lemma ShutCall(s: State, a: Action, c: nat)
    requires Inv(s) && Enabled(s, a) && Shut(a) && c < |Apply(s, a).calls| == |Apply(s, a).chans|
    ensures CallOk(Apply(s, a), c)
  {
    assert CallOk(s, c);
    assert JobOk(s, a.who, a.c);
    if a.c == c {
      ShutOwn(s, a.who, c);
    } else {
      ShutOther(s, a, c);
    }
  }

  lemma ShutOwn(s: State, who: Who, c: nat)
    requires Enabled(s, CloseChan(who, c)) && JobOk(s, who, c) && |s.calls| == |s.chans| && CallOk(s, c)
    ensures |Apply(s, CloseChan(who, c)).calls| == |Apply(s, CloseChan(who, c)).chans| == |s.calls|
    ensures CallOk(Apply(s, CloseChan(who, c)), c)
  {
    hide InPending;
    var t := Apply(s, CloseChan(who, c));
    assert InPending(t, c) == InPending(s, c) by {
      InPendingKept(s, t, c);
    }
  }

  lemma InPendingKept(s: State, t: State, c: nat)
    requires t.pending == s.pending && t.calls == s.calls
    ensures InPending(t, c) == InPending(s, c)
  {
  }

  lemma ShutOther(s: State, a: Action, c: nat)
    requires Enabled(s, a) && Shut(a) && a.c != c && c < |s.calls| == |s.chans| && CallOk(s, c)
    ensures |Apply(s, a).calls| == |Apply(s, a).chans| == |s.calls|
    ensures CallOk(Apply(s, a), c)
  {
  }

  /** Only Allocate changes ids, and only Enter and Allocate change who has one. */
  lemma IdsKept(s: State, a: Action, c: nat)
    requires Inv(s) && Enabled(s, a) && !a.Allocate? && c < |s.calls|
    ensures c < |Apply(s, a).calls| == |Apply(s, a).chans| && Apply(s, a).nextID == s.nextID
    ensures Apply(s, a).calls[c].id == s.calls[c].id && (Apply(s, a).calls[c].pc.Entered? <==> s.calls[c].pc.Entered?)
    ensures |Apply(s, a).calls| == |s.calls| + (if a.Enter? then 1 else 0)
  {
  }

  lemma IdStep(s: State, a: Action)
    requires Inv(s) && Enabled(s, a)
    ensures IdInv(Apply(s, a))
    ensures a.Allocate? ==> a.c < |Apply(s, a).calls| && Apply(s, a).calls[a.c].id == s.nextID + 1 == Apply(s, a).nextID
    ensures a.Allocate? ==> a.c < |Apply(s, a).calls| && forall d :: 0 <= d < |s.calls| ==> s.calls[d].id < Apply(s, a).calls[a.c].id
  {
    if !a.Allocate? {
      forall c | 0 <= c < |s.calls| {
        IdsKept(s, a, c);
      }
      if |s.calls| > 0 {
        IdsKept(s, a, 0);
      }
    }
  }

  lemma SentStep(s: State, a: Action, who: Who)
    requires Inv(s) && Enabled(s, a)
    ensures HandsOf(Apply(s, a), who).sent.Some? ==> HandsOf(Apply(s, a), who).sent.value in HandsOf(Apply(s, a), who).jobs
    ensures !Apply(s, a).stop.Swept? ==> Apply(s, a).stopHands == NO_JOBS
  {
  }

  lemma InvStep(s: State, a: Action)
    requires Inv(s) && Enabled(s, a)
    ensures Inv(Apply(s, a))
  {
    var t := Apply(s, a);
    IdStep(s, a);
    forall id | id in t.pending
      ensures EntryOk(t, id, t.pending[id])
    {
      if Quiet(a) { QuietEntry(s, a, id); } else if Caller(a) { CallerEntry(s, a, id); }
      else if Remove(a) { RemoveEntry(s, a, id); } else if Deliver(a) { DeliverEntry(s, a, id); } else { ShutEntry(s, a, id); }
    }
    forall who, c | c in HandsOf(t, who).jobs
      ensures JobOk(t, who, c)
    {
      if Quiet(a) { QuietJob(s, a, who, c); } else if Caller(a) { CallerJob(s, a, who, c); }
      else if Remove(a) { RemoveJob(s, a, who, c); } else if Deliver(a) { DeliverJob(s, a, who, c); } else { ShutJob(s, a, who, c); }
    }
    forall c | 0 <= c < |t.calls|
      ensures CallOk(t, c)
    {
      if Quiet(a) { QuietCall(s, a, c); } else if Caller(a) { CallerCall(s, a, c); }
      else if Remove(a) { RemoveCall(s, a, c); } else if Deliver(a) { DeliverCall(s, a, c); } else { ShutCall(s, a, c); }
    }
    SentStep(s, a, Reader);
    SentStep(s, a, Stopper);
  }

  lemma {:induction false} InvRun(s: State, run: seq<Action>)
    requires Inv(s) && Exec(s, run).Some?
    ensures Inv(Exec(s, run).value)
    decreases |run|
  {
    if run != [] {
      InvStep(s, run[0]);
      InvRun(Apply(s, run[0]), run[1..]);
    }
  }

  lemma InitInv()
    ensures Inv(INIT)
  {
  }
}
