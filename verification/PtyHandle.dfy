/** The PTY master handle shared by senders, the waiter and the respawner, as a state machine
    over the steps they take between and inside the lock regions. Writes to the master happen
    in any number of partial steps while the lock is held. */
module PtyHandle {
  import opened Common

  const NEWLINE: byte := 10

  /** A send terminates its data with a newline unless it already ends in one. */
  function Frame(data: seq<byte>): seq<byte> {
    if |data| == 0 || data[|data| - 1] != NEWLINE then data + [NEWLINE] else data
  }

  datatype Pc =
    | Ready                                       // past the alive check
    | Locked(ticket: nat)                         // holds the lock, about to look at the handle
    | Writing(ticket: nat, master: nat, sent: nat)
    | Sent(ticket: nat, master: nat)
    | Failed(ticket: nat, master: nat, sent: nat) // the write reported an error
    | Refused                                     // the handle was nil

  /** `raw` marks the boot prompt, which is written without a terminating newline. */
  datatype Sender = Sender(data: seq<byte>, raw: bool, pc: Pc)

  function Payload(s: Sender): seq<byte> {
    if s.raw then s.data else Frame(s.data)
  }

  datatype Holder = Free | BySender(i: nat) | ByWaiter | BySpawner

  datatype Waiter = Running | Clearing | Cleared | Reaped | Starting | Installing

  /** What one sender left on a master: its whole payload, or a prefix when the write failed. */
  datatype Segment = Segment(sender: nat, ticket: nat, bytes: seq<byte>, whole: bool)

  datatype State = State(
    alive: bool,
    lock: Holder,
    ptmx: Option<nat>,
    open: set<nat>,
    senders: seq<Sender>,
    waiter: Waiter,
    logs: seq<seq<byte>>,           // bytes received by each master ever created
    segments: seq<seq<Segment>>,    // history: completed writes per master
    tickets: nat)                   // history: lock acquisitions by senders

  datatype Action =
    | Begin(data: seq<byte>, raw: bool) | Lock(i: nat) | Look(i: nat) | Write(i: nat, n: nat) | Done(i: nat) | Fail(i: nat)
    | Stop | WaitLock | WaitClear | WaitClose | PtyStart | SpawnLock | SpawnInstall

  /** Start: the first master is open and installed. */
  const INIT := State(true, Free, Some(0), {0}, [], Running, [[]], [[]], 0)

  function Current(s: State): nat
    requires |s.logs| > 0
  {
    |s.logs| - 1
  }

  predicate Enabled(s: State, a: Action) {
    match a
    case Begin(_, _) => s.alive
    case Lock(i) => i < |s.senders| && s.senders[i].pc.Ready? && s.lock.Free?
    case Look(i) => i < |s.senders| && s.senders[i].pc.Locked?
    case Write(i, n) =>
      && i < |s.senders| && s.senders[i].pc.Writing? && s.senders[i].pc.master < |s.logs|
      && 1 <= n <= |Payload(s.senders[i])| - s.senders[i].pc.sent
    case Done(i) =>
      && i < |s.senders| && s.senders[i].pc.Writing? && s.senders[i].pc.master < |s.segments|
      && s.senders[i].pc.sent == |Payload(s.senders[i])|
    case Fail(i) =>
      && i < |s.senders| && s.senders[i].pc.Writing? && s.senders[i].pc.master < |s.segments|
      && s.senders[i].pc.sent < |Payload(s.senders[i])|
    case Stop => true
    case WaitLock => s.waiter.Running? && s.lock.Free?
    case WaitClear => s.waiter.Clearing?
    case WaitClose => s.waiter.Cleared? && |s.logs| > 0
    case PtyStart => s.waiter.Reaped?
    case SpawnLock => s.waiter.Starting? && s.lock.Free?
    case SpawnInstall => s.waiter.Installing? && |s.logs| > 0
  }

  function SetPc(s: State, i: nat, pc: Pc): State
    requires i < |s.senders|
  {
    s.(senders := s.senders[i := s.senders[i].(pc := pc)])
  }

  function AddSegment(s: State, m: nat, g: Segment): State
    requires m < |s.segments|
  {
    s.(segments := s.segments[m := s.segments[m] + [g]])
  }

  function Apply(s: State, a: Action): State
    requires Enabled(s, a)
  {
    match a
    case Begin(data, raw) => s.(senders := s.senders + [Sender(data, raw, Ready)])
    case Lock(i) => SetPc(s, i, Locked(s.tickets)).(lock := BySender(i), tickets := s.tickets + 1)
    case Look(i) =>
      if s.ptmx == None then SetPc(s, i, Refused).(lock := Free)
      else SetPc(s, i, Writing(s.senders[i].pc.ticket, s.ptmx.value, 0))
    case Write(i, n) =>
      var pc := s.senders[i].pc;
      var chunk := Payload(s.senders[i])[pc.sent..pc.sent + n];
      SetPc(s, i, Writing(pc.ticket, pc.master, pc.sent + n)).(logs := s.logs[pc.master := s.logs[pc.master] + chunk])
    case Done(i) =>
      var pc := s.senders[i].pc;
      AddSegment(SetPc(s, i, Sent(pc.ticket, pc.master)), pc.master,
                 Segment(i, pc.ticket, Payload(s.senders[i]), true)).(lock := Free)
    case Fail(i) =>
      var pc := s.senders[i].pc;
      AddSegment(SetPc(s, i, Failed(pc.ticket, pc.master, pc.sent)), pc.master,
                 Segment(i, pc.ticket, Payload(s.senders[i])[..pc.sent], false)).(lock := Free)
    case Stop => s.(alive := false)
    case WaitLock => s.(lock := ByWaiter, waiter := Clearing)
    case WaitClear => s.(ptmx := None, lock := Free, waiter := Cleared)
    case WaitClose => s.(open := s.open - {Current(s)}, waiter := Reaped)
    case PtyStart =>
      s.(open := s.open + {|s.logs|}, logs := s.logs + [[]], segments := s.segments + [[]], waiter := Starting)
    case SpawnLock => s.(lock := BySpawner, waiter := Installing)
    case SpawnInstall => s.(ptmx := Some(Current(s)), lock := Free, waiter := Running)
  }

  function Exec(s: State, run: seq<Action>): Option<State>
    decreases |run|
  {
    if run == [] then Some(s)
    else if Enabled(s, run[0]) then Exec(Apply(s, run[0]), run[1..])
    else None
  }

  // ------------------------------------------------- the invariant

  predicate Holds(pc: Pc) {
    pc.Locked? || pc.Writing?
  }

  /** The lock has one holder, and only that holder is inside its region. */
  ghost predicate LockInv(s: State) {
    && (forall i :: 0 <= i < |s.senders| ==> (Holds(s.senders[i].pc) <==> s.lock == BySender(i)))
    && (s.lock.BySender? ==> s.lock.i < |s.senders|)
    && (s.lock == ByWaiter <==> s.waiter == Clearing)
    && (s.lock == BySpawner <==> s.waiter == Installing)
  }

  /** The handle field is nil or the current master, which is then open; a sender that found a
      master still sees it in the field. */
  ghost predicate HandleInv(s: State) {
    && |s.logs| == |s.segments| > 0
    && (s.ptmx == if s.waiter.Running? || s.waiter.Clearing? then Some(Current(s)) else None)
    && s.open == (if s.waiter.Reaped? then {} else {Current(s)})
    && (forall i :: 0 <= i < |s.senders| && s.senders[i].pc.Writing? ==>
          && s.ptmx == Some(s.senders[i].pc.master)
          && s.senders[i].pc.sent <= |Payload(s.senders[i])|)
  }

  function BytesOf(g: seq<Segment>): seq<byte> {
    if g == [] then [] else BytesOf(g[..|g| - 1]) + g[|g| - 1].bytes
  }

  /** The bytes the current lock holder has put on master m so far. */
  function InFlight(s: State, m: nat): seq<byte>
    requires s.lock.BySender? ==> s.lock.i < |s.senders|
  {
    if s.lock.BySender? && s.senders[s.lock.i].pc.Writing? && s.senders[s.lock.i].pc.master == m
       && s.senders[s.lock.i].pc.sent <= |Payload(s.senders[s.lock.i])|
    then Payload(s.senders[s.lock.i])[..s.senders[s.lock.i].pc.sent]
    else []
  }

  ghost predicate LogInv(s: State)
    requires |s.logs| == |s.segments| && (s.lock.BySender? ==> s.lock.i < |s.senders|)
  {
    forall m :: 0 <= m < |s.logs| ==> s.logs[m] == BytesOf(s.segments[m]) + InFlight(s, m)
  }

  predicate SegmentMatches(s: State, m: nat, g: Segment) {
    && g.sender < |s.senders|
    && g.ticket < s.tickets
    && (if g.whole then s.senders[g.sender].pc == Sent(g.ticket, m) && g.bytes == Payload(s.senders[g.sender])
        else s.senders[g.sender].pc == Failed(g.ticket, m, |g.bytes|) && g.bytes <= Payload(s.senders[g.sender]))
  }

  /** Segments describe finished senders. */
  ghost predicate SegmentsMatch(s: State) {
    forall m, k :: 0 <= m < |s.segments| && 0 <= k < |s.segments[m]| ==> SegmentMatches(s, m, s.segments[m][k])
  }

  /** Segments appear in lock order, all older than the current holder. */
  ghost predicate SegmentsOrdered(s: State) {
    && (forall m, k, l :: 0 <= m < |s.segments| && 0 <= k < l < |s.segments[m]| ==>
          s.segments[m][k].ticket < s.segments[m][l].ticket)
    && (s.lock.BySender? && s.lock.i < |s.senders| && Holds(s.senders[s.lock.i].pc) ==>
          s.senders[s.lock.i].pc.ticket == s.tickets - 1
          && forall m, k :: 0 <= m < |s.segments| && 0 <= k < |s.segments[m]| ==> s.segments[m][k].ticket < s.tickets - 1)
  }

  predicate Finished(pc: Pc) {
    pc.Sent? || pc.Failed?
  }

  ghost predicate HasSegment(s: State, i: nat, m: nat) {
    m < |s.segments| && exists k :: 0 <= k < |s.segments[m]| && s.segments[m][k].sender == i
  }

  /** Every sender whose write finished or failed is recorded on its master. */
  ghost predicate SendersRecorded(s: State) {
    forall i :: 0 <= i < |s.senders| && Finished(s.senders[i].pc) ==> HasSegment(s, i, s.senders[i].pc.master)
  }

  ghost predicate Inv(s: State) {
    LockInv(s) && HandleInv(s) && LogInv(s) && SegmentsMatch(s) && SegmentsOrdered(s) && SendersRecorded(s)
  }

  lemma LockPreserved(s: State, a: Action)
    requires Inv(s) && Enabled(s, a)
    ensures LockInv(Apply(s, a))
  {
  }

  lemma HandlePreserved(s: State, a: Action)
    requires Inv(s) && Enabled(s, a)
    ensures HandleInv(Apply(s, a))
  {
  }

  lemma BytesOfSnoc(g: seq<Segment>, x: Segment)
    ensures BytesOf(g + [x]) == BytesOf(g) + x.bytes
  {
    assert (g + [x])[..|g|] == g;
  }

  predicate Writes(a: Action) {
    a.Write? || a.Done? || a.Fail?
  }

  lemma LogQuiet(s: State, a: Action, m: nat)
    requires Inv(s) && Enabled(s, a) && !Writes(a)
    requires LockInv(Apply(s, a)) && HandleInv(Apply(s, a)) && m < |Apply(s, a).logs|
    ensures Apply(s, a).logs[m] == BytesOf(Apply(s, a).segments[m]) + InFlight(Apply(s, a), m)
  {
    var t := Apply(s, a);
    assert InFlight(t, m) == if m < |s.logs| then InFlight(s, m) else [];
  }

  lemma WriteStep(s: State, i: nat, n: nat)
    requires Inv(s) && Enabled(s, Write(i, n))
    ensures var t := Apply(s, Write(i, n));
            var pc := s.senders[i].pc;
            && s.lock == t.lock == BySender(i) && pc.master < |s.logs|
            && t.segments == s.segments && Payload(t.senders[i]) == Payload(s.senders[i])
            && InFlight(s, pc.master) == Payload(s.senders[i])[..pc.sent]
            && InFlight(t, pc.master) == Payload(s.senders[i])[..pc.sent + n]
  {
  }

  lemma LogWrite(s: State, i: nat, n: nat, m: nat)
    requires Inv(s) && Enabled(s, Write(i, n)) && m < |s.logs|
    ensures Apply(s, Write(i, n)).logs[m] == BytesOf(s.segments[m]) + InFlight(Apply(s, Write(i, n)), m)
  {
    WriteStep(s, i, n);
    var pc := s.senders[i].pc;
    var p := Payload(s.senders[i]);
    if m == pc.master {
      assert p[..pc.sent] + p[pc.sent..pc.sent + n] == p[..pc.sent + n];
      Assoc(BytesOf(s.segments[m]), p[..pc.sent], p[pc.sent..pc.sent + n]);
    }
  }

  lemma LogFinish(s: State, a: Action, m: nat)
    requires Inv(s) && (a.Done? || a.Fail?) && Enabled(s, a) && m < |s.logs|
    ensures var t := Apply(s, a);
            t.logs[m] == BytesOf(t.segments[m]) + InFlight(t, m)
  {
    var t := Apply(s, a);
    var pc := s.senders[a.i].pc;
    var p := Payload(s.senders[a.i]);
    assert s.lock == BySender(a.i);
    if m == pc.master {
      var g := Segment(a.i, pc.ticket, if a.Done? then p else p[..pc.sent], a.Done?);
      assert t.segments[m] == s.segments[m] + [g];
      BytesOfSnoc(s.segments[m], g);
      assert g.bytes == p[..pc.sent];
      assert InFlight(s, m) == p[..pc.sent];
    }
  }

  lemma LogPreserved(s: State, a: Action)
    requires Inv(s) && Enabled(s, a)
    requires LockInv(Apply(s, a)) && HandleInv(Apply(s, a))
    ensures LogInv(Apply(s, a))
  {
    forall m | 0 <= m < |Apply(s, a).logs|
      ensures Apply(s, a).logs[m] == BytesOf(Apply(s, a).segments[m]) + InFlight(Apply(s, a), m)
    {
      if a.Write? {
        WriteStep(s, a.i, a.n);
        LogWrite(s, a.i, a.n, m);
      } else if Writes(a) {
        LogFinish(s, a, m);
      } else {
        LogQuiet(s, a, m);
      }
    }
  }

  /** How one step changes the segments. */
  lemma SegmentsAfter(s: State, a: Action)
    requires HandleInv(s) && Enabled(s, a)
    ensures var t := Apply(s, a);
            if a.Done? || a.Fail? then
              var m := s.senders[a.i].pc.master;
              && m < |s.segments| == |t.segments| && |t.segments[m]| == |s.segments[m]| + 1
              && t.segments[m][..|s.segments[m]|] == s.segments[m]
              && t.segments[m][|s.segments[m]|].sender == a.i
              && forall k :: 0 <= k < |s.segments| && k != m ==> t.segments[k] == s.segments[k]
            else
              && |t.segments| >= |s.segments| && t.segments[..|s.segments|] == s.segments
              && forall k :: |s.segments| <= k < |t.segments| ==> t.segments[k] == []
  {
  }

  lemma MatchOne(s: State, a: Action, m: nat, g: Segment)
    requires Inv(s) && Enabled(s, a) && SegmentMatches(s, m, g)
    ensures SegmentMatches(Apply(s, a), m, g)
  {
  }

  lemma MatchNew(s: State, a: Action)
    requires Inv(s) && Enabled(s, a) && (a.Done? || a.Fail?)
    ensures var t := Apply(s, a);
            var m := s.senders[a.i].pc.master;
            m < |s.segments| == |t.segments| && |t.segments[m]| == |s.segments[m]| + 1
            && SegmentMatches(t, m, t.segments[m][|s.segments[m]|])
  {
    assert s.lock == BySender(a.i);
  }

  lemma MatchPreserved(s: State, a: Action)
    requires Inv(s) && Enabled(s, a)
    ensures SegmentsMatch(Apply(s, a))
  {
    var t := Apply(s, a);
    SegmentsAfter(s, a);
    if a.Done? || a.Fail? {
      MatchNew(s, a);
    }
    forall m, k | 0 <= m < |t.segments| && 0 <= k < |t.segments[m]|
      ensures SegmentMatches(t, m, t.segments[m][k])
    {
      if m < |s.segments| && k < |s.segments[m]| {
        assert t.segments[m][k] == s.segments[m][k];
        MatchOne(s, a, m, s.segments[m][k]);
      }
    }
  }

  lemma OrderPreserved(s: State, a: Action)
    requires Inv(s) && Enabled(s, a)
    ensures SegmentsOrdered(Apply(s, a))
  {
    var t := Apply(s, a);
    forall m, k | 0 <= m < |s.segments| && 0 <= k < |s.segments[m]|
      ensures s.segments[m][k].ticket < s.tickets
    {
      assert SegmentMatches(s, m, s.segments[m][k]);
    }
    if a.Done? || a.Fail? {
      assert s.lock == BySender(a.i);
    }
  }

  lemma RecordOne(s: State, a: Action, i: nat, m: nat)
    requires Inv(s) && Enabled(s, a) && HasSegment(s, i, m)
    ensures HasSegment(Apply(s, a), i, m)
  {
    SegmentsAfter(s, a);
    var k :| 0 <= k < |s.segments[m]| && s.segments[m][k].sender == i;
    assert Apply(s, a).segments[m][k] == s.segments[m][k];
  }

  lemma FinishedAfter(s: State, a: Action, i: nat)
    requires Inv(s) && Enabled(s, a) && i < |Apply(s, a).senders| && Finished(Apply(s, a).senders[i].pc)
    ensures i < |s.senders| && Apply(s, a).senders[i].pc.master == s.senders[i].pc.master
    ensures Finished(s.senders[i].pc) || ((a.Done? || a.Fail?) && a.i == i)
  {
  }

  lemma RecordPreserved(s: State, a: Action)
    requires Inv(s) && Enabled(s, a)
    ensures SendersRecorded(Apply(s, a))
  {
    var t := Apply(s, a);
    forall i | 0 <= i < |t.senders| && Finished(t.senders[i].pc)
      ensures HasSegment(t, i, t.senders[i].pc.master)
    {
      FinishedAfter(s, a, i);
      if Finished(s.senders[i].pc) {
        RecordOne(s, a, i, s.senders[i].pc.master);
      } else {
        SegmentsAfter(s, a);
      }
    }
  }

  lemma InvPreserved(s: State, a: Action)
    requires Inv(s) && Enabled(s, a)
    ensures Inv(Apply(s, a))
  {
    LockPreserved(s, a);
    HandlePreserved(s, a);
    LogPreserved(s, a);
    MatchPreserved(s, a);
    OrderPreserved(s, a);
    RecordPreserved(s, a);
  }

  lemma {:induction false} InvAlways(s: State, run: seq<Action>)
    requires Inv(s) && Exec(s, run).Some?
    ensures Inv(Exec(s, run).value)
    decreases |run|
  {
    if run != [] {
      InvPreserved(s, run[0]);
      InvAlways(Apply(s, run[0]), run[1..]);
    }
  }

  lemma InitInv()
    ensures Inv(INIT)
  {
  }

  // ------------------------------------------------- the theorems

  /** In every interleaving: the handle field is nil or an open master, every write goes to the
      open master the field still names, and whatever reached a master is a sequence of whole
      payloads and failed prefixes, in lock order, followed by what the lock holder has
      written so far. */
  lemma HandleIsSafe(run: seq<Action>, m: nat)
    requires Exec(INIT, run).Some? && m < |Exec(INIT, run).value.logs|
    ensures var s := Exec(INIT, run).value;
            && (s.ptmx.Some? ==> s.ptmx.value in s.open)
            && (forall i :: 0 <= i < |s.senders| && s.senders[i].pc.Writing? ==>
                  s.ptmx == Some(s.senders[i].pc.master) && s.senders[i].pc.master in s.open)
            && |s.segments| == |s.logs| && LockInv(s) && SegmentsMatch(s) && SegmentsOrdered(s) && SendersRecorded(s)
            && s.logs[m] == BytesOf(s.segments[m]) + InFlight(s, m)
  {
    InitInv();
    InvAlways(INIT, run);
  }

  lemma StopStep(s: State, a: Action)
    requires Enabled(s, a)
    ensures Apply(s, a).alive <==> s.alive && a != Stop
    ensures |Apply(s, a).senders| == |s.senders| + (if a.Begin? then 1 else 0) && (a.Begin? ==> s.alive)
  {
  }

  lemma {:induction false} StopRun(s: State, run: seq<Action>)
    requires Exec(s, run).Some?
    ensures Exec(s, run).value.alive <==> s.alive && Stop !in run
    ensures |Exec(s, run).value.senders| >= |s.senders|
    ensures !s.alive ==> |Exec(s, run).value.senders| == |s.senders|
    decreases |run|
  {
    if run != [] {
      StopStep(s, run[0]);
      StopRun(Apply(s, run[0]), run[1..]);
      assert run == [run[0]] + run[1..];
    }
  }

  /** A send may begin exactly until Stop, and none does afterwards, whatever else happens. */
  lemma NoSendAfterStop(run: seq<Action>, more: seq<Action>, data: seq<byte>, raw: bool)
    requires Exec(INIT, run).Some? && Exec(Exec(INIT, run).value, more).Some?
    ensures Enabled(Exec(INIT, run).value, Begin(data, raw)) <==> Stop !in run
    ensures Stop in run ==> |Exec(Exec(INIT, run).value, more).value.senders| == |Exec(INIT, run).value.senders|
  {
    StopRun(INIT, run);
    StopRun(Exec(INIT, run).value, more);
  }
}
