/** What the supervised loop guarantees over every environment. */
module SupervisedTheorems {
  import opened Common
  import opened Backoff
  import opened ExitStatus
  import opened SupervisedRun

  // ------------------------------------------------- an independent account of a legal session

  datatype Phase = Begin | Live | Reaped | Closed | Joined | Between | Paused | Announced | Broken | Finished

  /** An observer that reads the trace one event at a time and objects to anything illegal:
      one child at a time, reaped once, its master closed, its reader joined and its attempt
      cleaned up before the next spawn; backoff, then OnRestart with the next number and an
      unclaimed crash, then the respawn with the right resume id; one result, published last.
      `id` is the last non-empty session id parsed so far (initially the preset), `stopChild`
      the child of the moment when Stop came, and the two `late` counters count what happens
      after it. */
  datatype Observer = Observer(phase: Phase, child: nat, restarts: nat, id: string, slept: int,
                               stopped: bool, stopChild: nat, lateSpawns: nat, lateRestarts: nat)

  function One(b: bool): nat {
    if b then 1 else 0
  }

  function Observe(cfg: Config, env: Environment, o: Observer, e: Event): Option<Observer> {
    match e
    case StopCalled =>
      if o.stopped || o.phase.Finished? then None else Some(Halt(o, true))
    case Spawned(k, resume) =>
      if (o.phase.Begin? && k == 0 && resume == cfg.preset)
         || (o.phase.Announced? && k == o.child + 1 && resume == ResumeId(cfg, o.id))
      then Some(o.(phase := Live, child := k, lateSpawns := o.lateSpawns + One(o.stopped)))
      else None
    case SpawnFailed(k) =>
      if o.phase.Announced? && k == o.child + 1 then Some(o.(phase := Broken)) else None
    case Parsed(id) =>
      if o.phase.Live? || o.phase.Reaped? || o.phase.Closed?
      then Some(o.(id := if id == "" then o.id else id))
      else None
    case Waited(k) => Advance(o, Live, Reaped, k)
    case MasterClosed(k) => Advance(o, Reaped, Closed, k)
    case ReaderJoined(k) => Advance(o, Closed, Joined, k)
    case CleanedUp(k) => Advance(o, Joined, Between, k)
    case BackedOff(d) =>
      if o.phase.Between? && o.child < 0x7fff_ffff_ffff_ffff
         && d == ComputeRestartBackoff((o.child + 1) as int64, cfg.maxBackoff)
      then Some(o.(phase := Paused, slept := o.slept + d as int))
      else None
    case Restarting(n, prev) =>
      if o.phase.Paused? && n == o.child + 1 && Some(prev) == ExitOf(env(o.child)) && RestartEligible(Some(prev))
      then Some(o.(phase := Announced, restarts := n, lateRestarts := o.lateRestarts + One(o.stopped)))
      else None
    case Published(_) =>
      if o.phase.Between? || o.phase.Broken? then Some(o.(phase := Finished)) else None
  }

  /** Stop comes now, or not. */
  function Halt(o: Observer, now: bool): Observer {
    if now then o.(stopped := true, stopChild := o.child) else o
  }

  function Advance(o: Observer, from: Phase, to: Phase, k: nat): Option<Observer> {
    if o.phase == from && o.child == k then Some(o.(phase := to)) else None
  }

  function Follow(cfg: Config, env: Environment, o: Observer, t: seq<Event>): Option<Observer>
    decreases |t|
  {
    if t == [] then Some(o)
    else
      var next := Observe(cfg, env, o, t[0]);
      if next == None then None else Follow(cfg, env, next.value, t[1..])
  }

  function AtBegin(cfg: Config): Observer {
    Observer(Begin, 0, 0, cfg.preset, 0, false, 0, 0, 0)
  }

  lemma {:induction false} FollowConcat(cfg: Config, env: Environment, o: Observer, a: seq<Event>, b: seq<Event>)
    requires Follow(cfg, env, o, a).Some?
    ensures Follow(cfg, env, o, a + b) == Follow(cfg, env, Follow(cfg, env, o, a).value, b)
    decreases |a|
  {
    if a == [] {
      assert a + b == b;
    } else {
      assert (a + b)[1..] == a[1..] + b;
      FollowConcat(cfg, env, Observe(cfg, env, o, a[0]).value, a[1..], b);
    }
  }

  lemma FollowOne(cfg: Config, env: Environment, o: Observer, e: Event)
    ensures Follow(cfg, env, o, [e]) == Observe(cfg, env, o, e)
  {
    assert [e][1..] == [];
  }

  lemma FollowTwo(cfg: Config, env: Environment, o: Observer, e: Event, f: Event)
    requires Observe(cfg, env, o, e).Some?
    ensures Follow(cfg, env, o, [e, f]) == Observe(cfg, env, Observe(cfg, env, o, e).value, f)
  {
    assert [e, f][1..] == [f];
    FollowOne(cfg, env, Observe(cfg, env, o, e).value, f);
  }

  // ------------------------------------------------- the pieces of one round

  lemma {:induction false} FollowParsed(cfg: Config, env: Environment, o: Observer, ids: seq<string>)
    requires o.phase.Live? || o.phase.Closed?
    ensures Follow(cfg, env, o, ParsedEvents(ids)) == Some(o.(id := LastId(o.id, ids)))
    decreases |ids|
  {
    if ids != [] {
      var o' := o.(id := if ids[0] == "" then o.id else ids[0]);
      assert Observe(cfg, env, o, ParsedEvents(ids)[0]) == Some(o');
      assert ParsedEvents(ids)[1..] == ParsedEvents(ids[1..]);
      FollowParsed(cfg, env, o', ids[1..]);
    }
  }

  lemma FollowStop(cfg: Config, env: Environment, o: Observer, now: bool)
    requires !o.phase.Finished? && (now ==> !o.stopped)
    ensures Follow(cfg, env, o, StopEvent(now)) == Some(Halt(o, now))
  {
    FollowOne(cfg, env, o, StopCalled);
  }

  /** Chaining five pieces. */
  lemma Chain(cfg: Config, env: Environment, o: Observer, a: seq<Event>, b: seq<Event>, c: seq<Event>, d: seq<Event>, e: seq<Event>,
              oa: Observer, ob: Observer, oc: Observer, od: Observer)
    requires Follow(cfg, env, o, a) == Some(oa) && Follow(cfg, env, oa, b) == Some(ob)
    requires Follow(cfg, env, ob, c) == Some(oc) && Follow(cfg, env, oc, d) == Some(od)
    ensures Follow(cfg, env, o, a + b + c + d + e) == Follow(cfg, env, od, e)
  {
    FollowConcat(cfg, env, o, a, b);
    FollowConcat(cfg, env, o, a + b, c);
    FollowConcat(cfg, env, o, a + b + c, d);
    FollowConcat(cfg, env, o, a + b + c + d, e);
  }

  /** Where attempt `a` leaves the observer. */
  function AfterAttempt(o: Observer, a: Attempt): Observer {
    Halt(o.(phase := Between, id := NextLast(a, o.id)), !o.stopped && (a.stopInWait || a.stopBeforeCheck))
  }

  lemma FollowAttempt(cfg: Config, env: Environment, o: Observer, k: nat, a: Attempt)
    requires o.phase.Live? && o.child == k
    ensures Follow(cfg, env, o, AttemptTrace(k, a, o.stopped)) == Some(AfterAttempt(o, a))
  {
    var oa := o.(id := LastId(o.id, a.ids));
    var ob := Halt(oa, !o.stopped && a.stopInWait);
    var oc := ob.(phase := Closed);
    var od := oc.(id := NextLast(a, o.id));
    FollowParsed(cfg, env, o, a.ids);
    FollowStop(cfg, env, oa, !o.stopped && a.stopInWait);
    FollowTwo(cfg, env, ob, Waited(k), MasterClosed(k));
    FollowParsed(cfg, env, oc, a.lateIds);
    FollowTwo(cfg, env, od, ReaderJoined(k), CleanedUp(k));
    Chain(cfg, env, o, ParsedEvents(a.ids), StopEvent(!o.stopped && a.stopInWait), [Waited(k), MasterClosed(k)],
          ParsedEvents(a.lateIds), [ReaderJoined(k), CleanedUp(k)], oa, ob, oc, od);
    var body := ParsedEvents(a.ids) + StopEvent(!o.stopped && a.stopInWait) + [Waited(k), MasterClosed(k)]
                + ParsedEvents(a.lateIds) + [ReaderJoined(k), CleanedUp(k)];
    var late := !o.stopped && !a.stopInWait && a.stopBeforeCheck;
    FollowConcat(cfg, env, o, body, StopEvent(late));
    FollowStop(cfg, env, od.(phase := Between), late);
  }

  lemma FollowRestart(cfg: Config, env: Environment, o: Observer, k: nat, a: Attempt, prev: Exit)
    requires k < MaxRestarts(cfg) && Some(prev) == ExitOf(env(k)) && RestartEligible(Some(prev))
    requires o.phase.Between? && o.child == k && !o.stopped
    ensures Follow(cfg, env, o, RestartTrace(cfg, k, a, prev))
         == Some(Halt(o.(phase := Announced, restarts := k + 1,
                         slept := o.slept + ComputeRestartBackoff((k + 1) as int64, cfg.maxBackoff) as int,
                         lateRestarts := o.lateRestarts + One(a.stopInBackoff)),
                      a.stopInBackoff || a.stopBeforeSpawn))
  {
    var d := ComputeRestartBackoff((k + 1) as int64, cfg.maxBackoff);
    var oa := Halt(o, a.stopInBackoff);
    var ob := oa.(phase := Announced, restarts := k + 1, slept := o.slept + d as int,
                  lateRestarts := o.lateRestarts + One(a.stopInBackoff));
    FollowStop(cfg, env, o, a.stopInBackoff);
    FollowTwo(cfg, env, oa, BackedOff(d), Restarting(k + 1, prev));
    FollowStop(cfg, env, ob, !a.stopInBackoff && a.stopBeforeSpawn);
    FollowConcat(cfg, env, o, StopEvent(a.stopInBackoff), [BackedOff(d), Restarting(k + 1, prev)]);
    FollowConcat(cfg, env, o, StopEvent(a.stopInBackoff) + [BackedOff(d), Restarting(k + 1, prev)],
                 StopEvent(!a.stopInBackoff && a.stopBeforeSpawn));
  }

  lemma ChainRound(cfg: Config, env: Environment, o: Observer, w: seq<Event>, r: seq<Event>, s: Event, rest: seq<Event>, ow: Observer, or: Observer)
    requires Follow(cfg, env, o, w) == Some(ow) && Follow(cfg, env, ow, r) == Some(or) && Observe(cfg, env, or, s).Some?
    ensures Follow(cfg, env, o, w + r + [s] + rest) == Follow(cfg, env, Observe(cfg, env, or, s).value, rest)
    ensures Follow(cfg, env, o, w + r + [s]) == Observe(cfg, env, or, s)
  {
    FollowOne(cfg, env, or, s);
    FollowConcat(cfg, env, o, w, r);
    FollowConcat(cfg, env, o, w + r, [s]);
    FollowConcat(cfg, env, o, w + r + [s], rest);
  }

  // ------------------------------------------------- the whole loop

  /** How many children are spawned after a Stop that comes while child k's attempt or the
      restart after it is under way: none if the check after the attempt sees it, if the
      backoff select does, or if the respawn fails; otherwise one. */
  function SpawnsAfterStop(a: Attempt): nat {
    One(!a.stopInWait && !a.stopBeforeCheck && (a.stopInBackoff ==> a.timerWins) && a.spawnError == None)
  }

  /** One more OnRestart exactly when Stop comes during backoff and the timer wins. */
  function RestartsAfterStop(a: Attempt): nat {
    One(!a.stopInWait && !a.stopBeforeCheck && a.stopInBackoff && a.timerWins)
  }

  /** The late counters are what the attempt Stop fell into says. */
  predicate LateOk(env: Environment, o: Observer) {
    && o.lateSpawns == (if o.stopped then SpawnsAfterStop(env(o.stopChild)) else 0)
    && o.lateRestarts == (if o.stopped then RestartsAfterStop(env(o.stopChild)) else 0)
  }

  /** Every attempt before this one crashed and nobody claimed it. */
  ghost predicate CrashedBefore(env: Environment, n: nat) {
    forall j: nat :: j < n ==> RestartEligible(ExitOf(env(j)))
  }

  /** What holds of the observer at the top of every attempt. */
  ghost predicate AtTop(cfg: Config, env: Environment, o: Observer) {
    && o.phase.Live? && o.child <= MaxRestarts(cfg) && o.restarts == o.child
    && o.slept == TotalBackoff(o.child, cfg.maxBackoff)
    && LateOk(env, o) && CrashedBefore(env, o.child)
  }

  /** What holds when the loop ends, and how the result is classified: nil exactly for a clean
      last attempt; restart_exhausted exactly when the respawn failed or a crash used up the
      budget with Stop unobserved; otherwise the last attempt's own exit. A crash with budget
      left ends the loop only because of Stop. */
  ghost predicate AtEnd(cfg: Config, env: Environment, o: Observer, exit: Option<Exit>) {
    var last := ExitOf(env(o.child));
    && (o.phase.Between? || o.phase.Broken?)
    && o.child <= MaxRestarts(cfg)
    && o.restarts == o.child + One(o.phase.Broken?) <= MaxRestarts(cfg)
    && o.slept == TotalBackoff(o.restarts, cfg.maxBackoff)
    && LateOk(env, o) && CrashedBefore(env, o.child)
    && (exit == None <==> CleanExit(env(o.child).waitErr, FirstClaim(env(o.child).claims)))
    && (exit.Some? && exit.value.cause == RestartExhausted
        <==> o.phase.Broken? || (o.child == MaxRestarts(cfg) && RestartEligible(last) && !o.stopped))
    && (o.phase.Between? && exit.Some? ==> last.Some? && exit.value.(cause := last.value.cause) == last.value)
    && (exit.Some? && exit.value.cause != RestartExhausted ==> exit == last)
    && (o.phase.Between? && RestartEligible(last) && o.child < MaxRestarts(cfg) ==> o.stopped)
    && (o.phase.Broken? ==> RestartEligible(last) && exit == Some(Exit(-1, 0, false, RestartExhausted, env(o.child).spawnError)))
    && (o.phase.Between? && exit.Some? && exit.value.cause == RestartExhausted ==>
          exit == Some(last.value.(cause := RestartExhausted)))
  }

  lemma {:induction false} FollowRun(cfg: Config, env: Environment, o: Observer)
    requires AtTop(cfg, env, o)
    ensures var run := RunFrom(cfg, env, o.child, o.id, o.stopped);
            var end := Follow(cfg, env, o, run.trace);
            end.Some? && AtEnd(cfg, env, end.value, run.exit)
    decreases MaxRestarts(cfg) - o.child
  {
    var k := o.child;
    var a := env(k);
    var w := AttemptTrace(k, a, o.stopped);
    var ow := AfterAttempt(o, a);
    FollowAttempt(cfg, env, o, k, a);
    if Retries(cfg, k, a, o.stopped) {
      FollowRound(cfg, env, o, w, ow);
    } else if !ow.stopped && RestartEligible(ExitOf(a)) && k < MaxRestarts(cfg) {
      FollowConcat(cfg, env, o, w, [StopCalled]);
      FollowOne(cfg, env, ow, StopCalled);
    }
  }

  lemma {:induction false} FollowRound(cfg: Config, env: Environment, o: Observer, w: seq<Event>, ow: Observer)
    requires AtTop(cfg, env, o) && Retries(cfg, o.child, env(o.child), o.stopped)
    requires w == AttemptTrace(o.child, env(o.child), o.stopped) && Follow(cfg, env, o, w) == Some(ow)
    requires ow == o.(phase := Between, id := NextLast(env(o.child), o.id))
    ensures var run := RunFrom(cfg, env, o.child, o.id, o.stopped);
            var end := Follow(cfg, env, o, run.trace);
            end.Some? && AtEnd(cfg, env, end.value, run.exit)
    decreases MaxRestarts(cfg) - o.child, 0
  {
    hide AtEnd, Observe, LateOk, CrashedBefore, AttemptTrace, RestartTrace;
    var k := o.child;
    var a := env(k);
    var prev := ExitOf(a).value;
    var r := RestartTrace(cfg, k, a, prev);
    FollowRestart(cfg, env, ow, k, a, prev);
    var or := Announce(cfg, o, a);
    if a.spawnError.Some? {
      RespawnFails(cfg, env, o, or);
      ChainRound(cfg, env, o, w, r, SpawnFailed(k + 1), [], ow, or);
      RunFromFailure(cfg, env, k, o.id);
    } else {
      var s := Spawned(k + 1, ResumeId(cfg, NextLast(a, o.id)));
      var top := RespawnSucceeds(cfg, env, o, or);
      RunFromRound(cfg, env, k, o.id);
      ChainRound(cfg, env, o, w, r, s, NextRun(cfg, env, k, o.id).trace, ow, or);
      FollowRun(cfg, env, top);
    }
  }

  /** The observer once OnRestart has been called after attempt `a`. */
  function Announce(cfg: Config, o: Observer, a: Attempt): Observer
    requires o.child < MaxRestarts(cfg)
  {
    Halt(o.(phase := Announced, id := NextLast(a, o.id), restarts := o.child + 1,
            slept := o.slept + ComputeRestartBackoff((o.child + 1) as int64, cfg.maxBackoff) as int,
            lateRestarts := o.lateRestarts + One(a.stopInBackoff)),
         a.stopInBackoff || a.stopBeforeSpawn)
  }

  lemma RespawnFails(cfg: Config, env: Environment, o: Observer, or: Observer)
    requires AtTop(cfg, env, o) && Retries(cfg, o.child, env(o.child), o.stopped) && env(o.child).spawnError.Some?
    requires or == Announce(cfg, o, env(o.child))
    ensures Observe(cfg, env, or, SpawnFailed(o.child + 1)) == Some(or.(phase := Broken))
    ensures AtEnd(cfg, env, or.(phase := Broken), Some(Exit(-1, 0, false, RestartExhausted, env(o.child).spawnError)))
  {
  }

  lemma RespawnSucceeds(cfg: Config, env: Environment, o: Observer, or: Observer) returns (top: Observer)
    requires AtTop(cfg, env, o) && Retries(cfg, o.child, env(o.child), o.stopped) && env(o.child).spawnError == None
    requires or == Announce(cfg, o, env(o.child))
    ensures Observe(cfg, env, or, Spawned(o.child + 1, ResumeId(cfg, NextLast(env(o.child), o.id)))) == Some(top)
    ensures AtTop(cfg, env, top) && top.child == o.child + 1 && top.id == NextLast(env(o.child), o.id)
    ensures top.stopped == (env(o.child).stopInBackoff || env(o.child).stopBeforeSpawn)
  {
    top := or.(phase := Live, child := o.child + 1, lateSpawns := or.lateSpawns + One(or.stopped));
  }

  /** Every run of every session satisfies the observer from the first spawn to the one
      published result, with the restart budget, the resume ids, the backoff schedule and the
      final classification all as described. */
  lemma SupervisedRunIsLegal(cfg: Config, env: Environment)
    ensures var end := Follow(cfg, env, AtBegin(cfg), FullTrace(cfg, env));
            && end.Some? && end.value.phase == Finished
            && (AtEnd(cfg, env, end.value.(phase := Between), WholeRun(cfg, env).exit)
                || AtEnd(cfg, env, end.value.(phase := Broken), WholeRun(cfg, env).exit))
  {
    hide AtEnd, AtTop, Observe, Follow;
    var run := WholeRun(cfg, env);
    var first := Spawned(0, cfg.preset);
    var top := Spawning(cfg, env);
    FollowOne(cfg, env, AtBegin(cfg), first);
    FollowRun(cfg, env, top);
    var end := Follow(cfg, env, top, run.trace).value;
    Publishing(cfg, env, end, run.exit);
    FollowOne(cfg, env, end, Published(run.exit));
    FollowConcat(cfg, env, AtBegin(cfg), [first], run.trace);
    FollowConcat(cfg, env, AtBegin(cfg), [first] + run.trace, [Published(run.exit)]);
  }

  /** The first spawn. */
  lemma Spawning(cfg: Config, env: Environment) returns (top: Observer)
    ensures Observe(cfg, env, AtBegin(cfg), Spawned(0, cfg.preset)) == Some(top)
    ensures AtTop(cfg, env, top) && top.child == 0 && top.id == cfg.preset && !top.stopped
  {
    top := AtBegin(cfg).(phase := Live);
  }

  /** The one result. */
  lemma Publishing(cfg: Config, env: Environment, end: Observer, exit: Option<Exit>)
    requires AtEnd(cfg, env, end, exit)
    ensures Observe(cfg, env, end, Published(exit)) == Some(end.(phase := Finished))
    ensures AtEnd(cfg, env, end.(phase := Between), exit) || AtEnd(cfg, env, end.(phase := Broken), exit)
  {
    assert end.(phase := Between) == end || end.(phase := Broken) == end;
  }

  // ------------------------------------------------- what the observer implies about a trace

  function Spawns(t: seq<Event>): nat {
    if t == [] then 0 else One(t[0].Spawned?) + Spawns(t[1..])
  }

  function Waits(t: seq<Event>): nat {
    if t == [] then 0 else One(t[0].Waited?) + Waits(t[1..])
  }

  function Cleanups(t: seq<Event>): nat {
    if t == [] then 0 else One(t[0].CleanedUp?) + Cleanups(t[1..])
  }

  function Publications(t: seq<Event>): nat {
    if t == [] then 0 else One(t[0].Published?) + Publications(t[1..])
  }

  /** The restart numbers handed to OnRestart, in order. */
  function RestartNumbers(t: seq<Event>): seq<nat> {
    if t == [] then []
    else if t[0].Restarting? then [t[0].number] + RestartNumbers(t[1..])
    else RestartNumbers(t[1..])
  }

  function Born(o: Observer): nat {
    if o.phase.Begin? then 0 else o.child + 1
  }

  function Unreaped(o: Observer): nat {
    One(o.phase.Live?)
  }

  function Uncleaned(o: Observer): nat {
    One(o.phase.Live? || o.phase.Reaped? || o.phase.Closed? || o.phase.Joined?)
  }

  /** An observer state reachable from the beginning. */
  predicate Coherent(o: Observer) {
    && (!o.stopped ==> o.lateSpawns == 0 && o.lateRestarts == 0)
    && if o.phase.Begin? then o.restarts == 0
    else o.phase.Finished? || o.restarts == o.child + One(o.phase.Announced? || o.phase.Broken?)
  }

  lemma ObserveCount(cfg: Config, env: Environment, o: Observer, e: Event)
    requires Coherent(o) && Observe(cfg, env, o, e).Some?
    ensures var q := Observe(cfg, env, o, e).value;
            && Coherent(q)
            && One(e.Spawned?) + Born(o) == Born(q)
            && One(e.Waited?) + Unreaped(q) + Born(o) == Born(q) + Unreaped(o)
            && One(e.CleanedUp?) + Uncleaned(q) + Born(o) == Born(q) + Uncleaned(o)
            && One(e.Published?) + One(o.phase.Finished?) == One(q.phase.Finished?)
  {
  }

  lemma {:induction false} ObservedCounts(cfg: Config, env: Environment, o: Observer, t: seq<Event>)
    requires Coherent(o) && Follow(cfg, env, o, t).Some?
    ensures var q := Follow(cfg, env, o, t).value;
            && Coherent(q)
            && Spawns(t) + Born(o) == Born(q)
            && Waits(t) + Unreaped(q) + Born(o) == Born(q) + Unreaped(o)
            && Cleanups(t) + Uncleaned(q) + Born(o) == Born(q) + Uncleaned(o)
            && Publications(t) + One(o.phase.Finished?) == One(q.phase.Finished?)
    decreases |t|
  {
    if t != [] {
      ObserveCount(cfg, env, o, t[0]);
      ObservedCounts(cfg, env, Observe(cfg, env, o, t[0]).value, t[1..]);
    }
  }

  lemma ObserveNumber(cfg: Config, env: Environment, o: Observer, e: Event)
    requires Coherent(o) && Observe(cfg, env, o, e).Some?
    ensures var q := Observe(cfg, env, o, e).value;
            Coherent(q) && q.restarts == o.restarts + One(e.Restarting?) && (e.Restarting? ==> e.number == q.restarts)
  {
  }

  lemma IotaCons(a: nat, n: nat)
    requires n > 0
    ensures Iota(a, n) == [a] + Iota(a + 1, n - 1)
  {
  }

  lemma {:induction false} ObservedNumbers(cfg: Config, env: Environment, o: Observer, t: seq<Event>)
    requires Coherent(o) && Follow(cfg, env, o, t).Some?
    ensures var q := Follow(cfg, env, o, t).value;
            o.restarts <= q.restarts && RestartNumbers(t) == Iota(o.restarts + 1, q.restarts - o.restarts)
    decreases |t|
  {
    if t != [] {
      hide Observe;
      var o', q := Observe(cfg, env, o, t[0]).value, Follow(cfg, env, o, t).value;
      ObserveNumber(cfg, env, o, t[0]);
      ObservedNumbers(cfg, env, o', t[1..]);
      assert Follow(cfg, env, o', t[1..]).value == q;
      if t[0].Restarting? {
        IotaCons(o.restarts + 1, q.restarts - o.restarts);
        assert RestartNumbers(t) == [t[0].number] + RestartNumbers(t[1..]);
      }
    }
  }

  /** Over every environment: at most max(0, RestartOnCrash) + 1 children are spawned; at every
      moment at most one is unreaped and at most one awaits cleanup; each is reaped once and
      cleaned up once; OnRestart receives 1, 2, ..., n in order, where all n restarts but
      possibly a failed last one led to a spawn; the result is published exactly once. */
  lemma SpawnAccounting(cfg: Config, env: Environment, i: nat)
    requires i <= |FullTrace(cfg, env)|
    ensures var t := FullTrace(cfg, env);
            var n := |RestartNumbers(t)|;
            && Waits(t[..i]) <= Spawns(t[..i]) <= Waits(t[..i]) + 1
            && Cleanups(t[..i]) <= Spawns(t[..i]) <= Cleanups(t[..i]) + 1
            && Waits(t) == Spawns(t) == Cleanups(t) <= Max(0, cfg.restartOnCrash as int) + 1
            && Spawns(t) <= n + 1 <= Spawns(t) + 1
            && RestartNumbers(t) == Iota(1, n)
            && Publications(t) == 1
  {
    var t := FullTrace(cfg, env);
    SupervisedRunIsLegal(cfg, env);
    ObservedCounts(cfg, env, AtBegin(cfg), t);
    ObservedNumbers(cfg, env, AtBegin(cfg), t);
    PrefixIsLegal(cfg, env, AtBegin(cfg), t, i);
    ObservedCounts(cfg, env, AtBegin(cfg), t[..i]);
  }

  lemma {:induction false} PrefixIsLegal(cfg: Config, env: Environment, o: Observer, t: seq<Event>, i: nat)
    requires i <= |t| && Follow(cfg, env, o, t).Some?
    ensures Follow(cfg, env, o, t[..i]).Some?
    decreases i
  {
    if i > 0 {
      assert t[..i][1..] == t[1..][..i - 1];
      PrefixIsLegal(cfg, env, Observe(cfg, env, o, t[0]).value, t[1..], i - 1);
    }
  }

  // ------------------------------------------------- how many children there are

  /** Attempt j is followed by another child, the budget allowing: its child crashed unclaimed, no
      Stop was seen before the check or cut the backoff short, none had come earlier, and the
      respawn worked. */
  predicate Goes(env: Environment, j: nat) {
    var a := env(j);
    && RestartEligible(ExitOf(a)) && !a.stopInWait && !a.stopBeforeCheck && (a.stopInBackoff ==> a.timerWins)
    && a.spawnError == None && (j > 0 ==> !env(j - 1).stopInBackoff && !env(j - 1).stopBeforeSpawn)
  }

  lemma {:induction false} SpawnsConcat(a: seq<Event>, b: seq<Event>)
    ensures Spawns(a + b) == Spawns(a) + Spawns(b)
    decreases |a|
  {
    if a == [] {
      assert a + b == b;
    } else {
      assert (a + b)[1..] == a[1..] + b;
      SpawnsConcat(a[1..], b);
    }
  }

  lemma {:induction false} NoSpawns(t: seq<Event>)
    requires forall i :: 0 <= i < |t| ==> !t[i].Spawned?
    ensures Spawns(t) == 0
    decreases |t|
  {
    if t != [] {
      NoSpawns(t[1..]);
    }
  }

  lemma RoundSpawns(cfg: Config, k: nat, a: Attempt, last: string)
    requires k < MaxRestarts(cfg) && RestartEligible(ExitOf(a))
    ensures Spawns(RoundTrace(cfg, k, a, last)) == 1
  {
    var quiet := AttemptTrace(k, a, false) + RestartTrace(cfg, k, a, ExitOf(a).value);
    var born := Spawned(k + 1, ResumeId(cfg, NextLast(a, last)));
    NoSpawns(quiet);
    SpawnsConcat(quiet, [born]);
    assert [born][1..] == [];
  }

  lemma {:induction false} SpawnsFrom(cfg: Config, env: Environment, k: nat, last: string, stopped: bool)
    requires k <= MaxRestarts(cfg)
    requires stopped <==> k > 0 && (env(k - 1).stopInBackoff || env(k - 1).stopBeforeSpawn)
    ensures var n := k + Spawns(RunFrom(cfg, env, k, last, stopped).trace);
            n <= MaxRestarts(cfg) && (forall j :: k <= j < n ==> Goes(env, j)) && (n < MaxRestarts(cfg) ==> !Goes(env, n))
    decreases MaxRestarts(cfg) - k
  {
    hide AttemptTrace, RestartTrace, RoundTrace, Spawns, RunFrom;
    var a := env(k);
    if Retries(cfg, k, a, stopped) && a.spawnError == None {
      RunFromRound(cfg, env, k, last);
      RoundSpawns(cfg, k, a, last);
      SpawnsConcat(RoundTrace(cfg, k, a, last), NextRun(cfg, env, k, last).trace);
      SpawnsFrom(cfg, env, k + 1, NextLast(a, last), a.stopInBackoff || a.stopBeforeSpawn);
    } else {
      LastRound(cfg, env, k, last, stopped);
    }
  }

  lemma LastRound(cfg: Config, env: Environment, k: nat, last: string, stopped: bool)
    requires k <= MaxRestarts(cfg) && !(Retries(cfg, k, env(k), stopped) && env(k).spawnError == None)
    ensures Spawns(RunFrom(cfg, env, k, last, stopped).trace) == 0
  {
    NoSpawns(RunFrom(cfg, env, k, last, stopped).trace);
  }

  /** The number of children, exactly: restarts go on as long as attempts call for one, up to the
      budget max(0, RestartOnCrash), and not a step further or less far. */
  lemma SpawnsExactly(cfg: Config, env: Environment)
    ensures var n := Spawns(FullTrace(cfg, env)) - 1;
            && 0 <= n <= Max(0, cfg.restartOnCrash as int)
            && (forall j :: 0 <= j < n ==> Goes(env, j))
            && (n < Max(0, cfg.restartOnCrash as int) ==> !Goes(env, n))
  {
    var first, run := Spawned(0, cfg.preset), WholeRun(cfg, env);
    SpawnsFrom(cfg, env, 0, cfg.preset, false);
    SpawnsConcat([first] + run.trace, [Published(run.exit)]);
    SpawnsConcat([first], run.trace);
    assert [first][1..] == [] && [Published(run.exit)][1..] == [];
  }

  /** If every attempt calls for another, the whole budget is used: one child more than that,
      OnRestart called with 1, 2, ..., max(0, RestartOnCrash), and restart_exhausted with the
      last child's exit. */
  lemma CrashesUseTheBudget(cfg: Config, env: Environment)
    requires forall j: nat :: Goes(env, j)
    ensures var B, t, exit := Max(0, cfg.restartOnCrash as int), FullTrace(cfg, env), WholeRun(cfg, env).exit;
            && Spawns(t) == B + 1 && RestartNumbers(t) == Iota(1, B)
            && ExitOf(env(B)).Some? && exit == Some(ExitOf(env(B)).value.(cause := RestartExhausted))
  {
    SpawnsExactly(cfg, env);
    SpawnAccounting(cfg, env, 0);
    RestartsWithinBudget(cfg, env);
    ExhaustedFrom(cfg, env, 0, cfg.preset);
  }

  lemma {:induction false} ExhaustedFrom(cfg: Config, env: Environment, k: nat, last: string)
    requires k <= MaxRestarts(cfg) && forall j: nat :: Goes(env, j)
    ensures ExitOf(env(MaxRestarts(cfg))).Some?
    ensures RunFrom(cfg, env, k, last, false).exit
         == Some(ExitOf(env(MaxRestarts(cfg))).value.(cause := RestartExhausted))
    decreases MaxRestarts(cfg) - k
  {
    assert Goes(env, k) && Goes(env, k + 1) && Goes(env, MaxRestarts(cfg));
    if k < MaxRestarts(cfg) {
      RunFromRound(cfg, env, k, last);
      ExhaustedFrom(cfg, env, k + 1, NextLast(env(k), last));
    }
  }

  lemma RestartsWithinBudget(cfg: Config, env: Environment)
    ensures |RestartNumbers(FullTrace(cfg, env))| <= MaxRestarts(cfg)
  {
    SupervisedRunIsLegal(cfg, env);
    ObservedNumbers(cfg, env, AtBegin(cfg), FullTrace(cfg, env));
  }


  // ------------------------------------------------- how the run is classified

  function SpawnFailures(t: seq<Event>): nat {
    if t == [] then 0 else One(t[0].SpawnFailed?) + SpawnFailures(t[1..])
  }

  function Stops(t: seq<Event>): nat {
    if t == [] then 0 else One(t[0].StopCalled?) + Stops(t[1..])
  }

  lemma ObserveOutcome(cfg: Config, env: Environment, o: Observer, e: Event)
    requires Observe(cfg, env, o, e).Some?
    ensures var q := Observe(cfg, env, o, e).value;
            && !o.phase.Finished? && One(q.stopped) == One(o.stopped) + One(e.StopCalled?)
            && (q.phase.Finished? || One(q.phase.Broken?) == One(o.phase.Broken?) + One(e.SpawnFailed?))
  {
  }

  lemma {:induction false} ObservedOutcome(cfg: Config, env: Environment, o: Observer, t: seq<Event>)
    requires Follow(cfg, env, o, t).Some? && !Follow(cfg, env, o, t).value.phase.Finished?
    ensures var q := Follow(cfg, env, o, t).value;
            && One(q.stopped) == One(o.stopped) + Stops(t)
            && One(q.phase.Broken?) == One(o.phase.Broken?) + SpawnFailures(t)
    decreases |t|
  {
    if t != [] {
      ObserveOutcome(cfg, env, o, t[0]);
      ObservedOutcome(cfg, env, Observe(cfg, env, o, t[0]).value, t[1..]);
    }
  }

  /** The whole run's classification, read off its trace: what is published last is nil exactly
      when the last attempt was clean; restart_exhausted exactly when a respawn failed, or the
      last attempt crashed with the budget used up and Stop never seen; and otherwise it is
      the last attempt's own exit. An exhausted budget keeps everything else of that exit; a
      failed respawn carries its own error and the code -1. A crash that nobody claimed is published as such only after
      a Stop: without one it is always followed by another attempt, until the budget is gone. */
  lemma ExitClassification(cfg: Config, env: Environment)
    ensures var t, exit := FullTrace(cfg, env), WholeRun(cfg, env).exit;
            var k := Spawns(t) - 1;
            && k >= 0 && t[|t| - 1] == Published(exit)
            && (exit == None <==> CleanExit(env(k).waitErr, FirstClaim(env(k).claims)))
            && (exit.Some? && exit.value.cause == RestartExhausted <==>
                SpawnFailures(t[..|t| - 1]) > 0
                || (k == Max(0, cfg.restartOnCrash as int) && RestartEligible(ExitOf(env(k))) && Stops(t[..|t| - 1]) == 0))
            && (SpawnFailures(t[..|t| - 1]) > 0 ==> exit == Some(Exit(-1, 0, false, RestartExhausted, env(k).spawnError)))
            && (SpawnFailures(t[..|t| - 1]) == 0 && exit.Some? && exit.value.cause == RestartExhausted ==>
                  ExitOf(env(k)).Some? && exit == Some(ExitOf(env(k)).value.(cause := RestartExhausted)))
            && (exit.Some? && exit.value.cause != RestartExhausted ==> exit == ExitOf(env(k)))
            && (RestartEligible(exit) ==> Stops(t[..|t| - 1]) > 0)
  {
    var body, exit := [Spawned(0, cfg.preset)] + WholeRun(cfg, env).trace, WholeRun(cfg, env).exit;
    var t := FullTrace(cfg, env);
    assert t == body + [Published(exit)] && t[..|t| - 1] == body;
    var o := BodyEnds(cfg, env, body);
    SpawnsLast(body, Published(exit));
  }

  /** Where the observer stands when the loop is over, in terms of the trace so far. */
  lemma BodyEnds(cfg: Config, env: Environment, body: seq<Event>) returns (o: Observer)
    requires body == [Spawned(0, cfg.preset)] + WholeRun(cfg, env).trace
    ensures AtEnd(cfg, env, o, WholeRun(cfg, env).exit) && Spawns(body) == o.child + 1
    ensures Stops(body) == One(o.stopped) && SpawnFailures(body) == One(o.phase.Broken?)
  {
    var first, run := Spawned(0, cfg.preset), WholeRun(cfg, env);
    var top := AtBegin(cfg).(phase := Live);
    FollowOne(cfg, env, AtBegin(cfg), first);
    FollowRun(cfg, env, top);
    FollowConcat(cfg, env, AtBegin(cfg), [first], run.trace);
    o := Follow(cfg, env, AtBegin(cfg), body).value;
    hide Observe;
    ObservedOutcome(cfg, env, AtBegin(cfg), body);
    ObservedCounts(cfg, env, AtBegin(cfg), body);
  }

  /** What the caller of Wait learns. If every attempt ended as `fate` says, the published error
      is nil exactly when the last child succeeded unclaimed, and otherwise, unless a respawn
      failed, it gives back what became of that child; every child before it crashed with
      nobody claiming it, and so did the last one if a respawn failed. */
  lemma PublishedExitTellsTheFate(cfg: Config, env: Environment, fate: nat -> Fate)
    requires forall k :: Possible(fate(k)) && (env(k).ps, env(k).waitErr) == Report(fate(k))
    ensures var t, exit := FullTrace(cfg, env), WholeRun(cfg, env).exit;
            var k := Spawns(t) - 1;
            var failed := SpawnFailures(t[..|t| - 1]) > 0;
            && k >= 0
            && (exit == None <==> fate(k) == Exited(0) && env(k).claims == [])
            && (exit.Some? && !failed ==> FateOf(exit.value) == fate(k))
            && (forall j: nat :: j < k || (j == k && failed) ==> Crashed(fate(j)) && env(j).claims == [])
  {
    var body, exit := [Spawned(0, cfg.preset)] + WholeRun(cfg, env).trace, WholeRun(cfg, env).exit;
    var t := FullTrace(cfg, env);
    assert t == body + [Published(exit)] && t[..|t| - 1] == body;
    var o := BodyEnds(cfg, env, body);
    SpawnsLast(body, Published(exit));
    forall j: nat
      ensures RestartEligible(ExitOf(env(j))) <==> Crashed(fate(j)) && env(j).claims == []
    {
      assert Possible(fate(j)) && (env(j).ps, env(j).waitErr) == Report(fate(j));
      FateRecovered(fate(j), FirstClaim(env(j).claims));
    }
    FateRecovered(fate(o.child), FirstClaim(env(o.child).claims));
  }

  lemma {:induction false} SpawnsLast(t: seq<Event>, e: Event)
    requires !e.Spawned?
    ensures Spawns(t + [e]) == Spawns(t)
    decreases |t|
  {
    if t == [] {
      assert t + [e] == [e];
    } else {
      assert (t + [e])[1..] == t[1..] + [e];
      SpawnsLast(t[1..], e);
    }
  }

  /** The last non-empty session id among the Parsed events of a trace. */
  function LastParsed(last: string, t: seq<Event>): string
    decreases |t|
  {
    if t == [] then last
    else LastParsed(if t[0].Parsed? && t[0].id != "" then t[0].id else last, t[1..])
  }

  lemma {:induction false} ObservedId(cfg: Config, env: Environment, o: Observer, t: seq<Event>)
    requires Follow(cfg, env, o, t).Some?
    ensures Follow(cfg, env, o, t).value.id == LastParsed(o.id, t)
    decreases |t|
  {
    if t != [] {
      ObservedId(cfg, env, Observe(cfg, env, o, t[0]).value, t[1..]);
    }
  }

  /** Restart keeps the conversation: with the capability declared, every respawn resumes with
      the last non-empty id parsed in all earlier attempts, including what the reader of the
      previous attempt drained after the child was reaped, or the preset if there is none.
      Without the capability, and for the first spawn, the preset is used. */
  lemma ResumeKeepsConversation(cfg: Config, env: Environment, i: nat)
    requires i < |FullTrace(cfg, env)| && FullTrace(cfg, env)[i].Spawned?
    ensures var t := FullTrace(cfg, env);
            t[i].resume ==
            (if t[i].child > 0 && cfg.keepsSession && LastParsed("", t[..i]) != "" then LastParsed("", t[..i]) else cfg.preset)
  {
    SupervisedRunIsLegal(cfg, env);
    ResumeInLegalTrace(cfg, env, FullTrace(cfg, env), i);
  }

  lemma ResumeInLegalTrace(cfg: Config, env: Environment, t: seq<Event>, i: nat)
    requires Follow(cfg, env, AtBegin(cfg), t).Some? && i < |t| && t[i].Spawned?
    ensures t[i].resume ==
            (if t[i].child > 0 && cfg.keepsSession && LastParsed("", t[..i]) != "" then LastParsed("", t[..i]) else cfg.preset)
  {
    PrefixIsLegal(cfg, env, AtBegin(cfg), t, i + 1);
    PrefixIsLegal(cfg, env, AtBegin(cfg), t, i);
    assert t[..i + 1] == t[..i] + [t[i]];
    var o := Follow(cfg, env, AtBegin(cfg), t[..i]).value;
    FollowConcat(cfg, env, AtBegin(cfg), t[..i], [t[i]]);
    FollowOne(cfg, env, o, t[i]);
    ObservedId(cfg, env, AtBegin(cfg), t[..i]);
    LastParsedDefault(cfg.preset, t[..i]);
  }

  lemma {:induction false} LastParsedDefault(last: string, t: seq<Event>)
    ensures LastParsed(last, t) == if LastParsed("", t) == "" then last else LastParsed("", t)
    decreases |t|
  {
    if t != [] {
      if t[0].Parsed? && t[0].id != "" {
        LastParsedDefault(t[0].id, t[1..]);
      } else {
        LastParsedDefault(last, t[1..]);
      }
    }
  }

  lemma {:induction false} ObservedLate(cfg: Config, env: Environment, o: Observer, t: seq<Event>)
    requires o.stopped && Follow(cfg, env, o, t).Some?
    ensures var q := Follow(cfg, env, o, t).value;
            && q.stopped && q.stopChild == o.stopChild
            && q.lateSpawns == o.lateSpawns + Spawns(t)
            && q.lateRestarts == o.lateRestarts + |RestartNumbers(t)|
            && StopCalled !in t
    decreases |t|
  {
    if t != [] {
      ObservedLate(cfg, env, Observe(cfg, env, o, t[0]).value, t[1..]);
    }
  }

  /** What follows a Stop or cancellation, wherever in the run it falls, is decided by the
      attempt it falls into: no further spawn if and only if the check after the attempt sees
      it, or the backoff select does, or the respawn fails, and otherwise one; and one more
      OnRestart if and only if it comes during backoff and the timer wins. */
  lemma StopEndsTheLoop(cfg: Config, env: Environment, before: seq<Event>, after: seq<Event>)
    requires FullTrace(cfg, env) == before + [StopCalled] + after
    ensures Spawns(before) > 0 && StopCalled !in after
    ensures Spawns(after) == SpawnsAfterStop(env(Spawns(before) - 1)) <= 1
    ensures |RestartNumbers(after)| == RestartsAfterStop(env(Spawns(before) - 1)) <= 1
  {
    var t := FullTrace(cfg, env);
    SupervisedRunIsLegal(cfg, env);
    var o := AtStop(cfg, env, t, before, after);
    assert t[0] == Spawned(0, cfg.preset) && before != [] && before[0] == t[0];
    ObservedLate(cfg, env, Halt(o, true), after);
  }

  lemma AtStop(cfg: Config, env: Environment, t: seq<Event>, before: seq<Event>, after: seq<Event>) returns (o: Observer)
    requires t == before + [StopCalled] + after && Follow(cfg, env, AtBegin(cfg), t).Some?
    ensures !o.stopped && o.lateSpawns == 0 && o.lateRestarts == 0 && Spawns(before) == Born(o)
    ensures Follow(cfg, env, Halt(o, true), after) == Follow(cfg, env, AtBegin(cfg), t)
  {
    PrefixIsLegal(cfg, env, AtBegin(cfg), t, |before| + 1);
    assert t[..|before| + 1] == before + [StopCalled];
    PrefixIsLegal(cfg, env, AtBegin(cfg), t, |before|);
    assert t[..|before|] == before;
    o := Follow(cfg, env, AtBegin(cfg), before).value;
    ObservedCounts(cfg, env, AtBegin(cfg), before);
    FollowConcat(cfg, env, AtBegin(cfg), before, [StopCalled]);
    FollowOne(cfg, env, o, StopCalled);
    FollowConcat(cfg, env, AtBegin(cfg), before + [StopCalled], after);
  }

  function Always(a: Attempt): Environment {
    (k: nat) => a
  }

  /** A child that exits with code 1, with Stop arriving during backoff and losing the race. */
  const CRASH := Attempt([], [], [], Some(ProcessState(1, None)), Some(ExitFailure(1)), false, false, true, true, false, None)

  /** The bound is tight: Stop during backoff can lose the race with the timer, and then one
      more child is announced and spawned. */
  lemma StopCanLoseTheBackoffRace() returns (before: seq<Event>, after: seq<Event>)
    ensures FullTrace(Config(1, 0, false, ""), Always(CRASH)) == before + [StopCalled] + after
    ensures Spawns(after) == |RestartNumbers(after)| == 1
  {
    var cfg := Config(1, 0, false, "");
    var env := Always(CRASH);
    var t := FullTrace(cfg, env);
    var w := AttemptTrace(0, CRASH, false);
    var r := RestartTrace(cfg, 0, CRASH, ExitOf(CRASH).value);
    RunFromRound(cfg, env, 0, "");
    assert RoundTrace(cfg, 0, CRASH, "") == w + r + [Spawned(1, "")];
    var i := 1 + |w|;
    assert t[i] == r[0] == StopCalled;
    before, after := t[..i], t[i + 1..];
    StopEndsTheLoop(cfg, env, before, after);
  }
}
