/** The polling supervisors: a ticker fires every quarter threshold (at least 100 ms) and the
    attempt is claimed at the first tick whose idle time reaches the threshold. Times are
    nanoseconds; the ticker is ideal, firing at start + j * period. Two of them, for idleness
    and for the watchdog, share one activity log and one cause cell. */
module IdleTimer {
  import opened Common
  import opened ExitStatus

  const MIN_TICK: int := 100_000_000

  function Period(threshold: int): int
    requires threshold > 0
  {
    Max(threshold / 4, MIN_TICK)
  }

  /** The activity log of an attempt: the reset at attempt start, then every later tick of the
      tracker, in time order. */
  predicate Schedule(acts: seq<int>) {
    && |acts| > 0
    && (forall i, j :: 0 <= i < j < |acts| ==> acts[i] <= acts[j])
  }

  /** The most recent activity at or before time t. */
  function LastActivity(acts: seq<int>, t: int): int
    requires Schedule(acts) && acts[0] <= t
  {
    if acts[|acts| - 1] <= t then acts[|acts| - 1] else LastActivity(acts[..|acts| - 1], t)
  }

  lemma {:induction false} LastActivityIsLatest(acts: seq<int>, t: int)
    requires Schedule(acts) && acts[0] <= t
    ensures LastActivity(acts, t) in acts && LastActivity(acts, t) <= t
    ensures forall a :: a in acts && a <= t ==> a <= LastActivity(acts, t)
    decreases |acts|
  {
    var n := |acts| - 1;
    if acts[n] <= t {
    } else {
      LastActivityIsLatest(acts[..n], t);
      assert acts == acts[..n] + [acts[n]];
    }
  }

  /** The idle time a supervisor observes at time t. */
  function IdleAt(acts: seq<int>, t: int): int
    requires Schedule(acts) && acts[0] <= t
  {
    t - LastActivity(acts, t)
  }

  /** No tick of the ticker in (start, t) claims the attempt. */
  ghost predicate QuietBefore(threshold: int, start: int, acts: seq<int>, j: nat)
    requires threshold > 0 && Schedule(acts) && acts[0] <= start
  {
    forall i :: 0 < i < j ==> IdleAt(acts, Tick(threshold, start, i)) < threshold
  }

  function Tick(threshold: int, start: int, j: nat): (t: int)
    requires threshold > 0
    ensures t >= start
  {
    start + j * Period(threshold)
  }

  lemma TickStep(threshold: int, start: int, j: nat)
    requires threshold > 0
    ensures Tick(threshold, start, j + 1) == Tick(threshold, start, j) + Period(threshold)
  {
  }

  /** Tick j is the first to find the attempt idle for the whole threshold. */
  ghost predicate FirstIdleTick(threshold: int, start: int, acts: seq<int>, j: nat)
    requires threshold > 0 && Schedule(acts) && acts[0] <= start
  {
    && j > 0
    && QuietBefore(threshold, start, acts, j)
    && IdleAt(acts, Tick(threshold, start, j)) >= threshold
  }

  /** What one supervisor run may return: the time of the first idle tick, provided the child
      had not exited before it, or None when the child exited before any idle tick. */
  ghost predicate Outcome(threshold: int, start: int, acts: seq<int>, exitAt: Option<int>, claim: Option<int>)
    requires threshold > 0 && Schedule(acts) && acts[0] <= start
  {
    match claim
    case Some(t) =>
      && (exitAt.Some? ==> t <= exitAt.value)
      && (exists j: nat :: FirstIdleTick(threshold, start, acts, j) && t == Tick(threshold, start, j))
    case None =>
      && exitAt.Some?
      && (exists j: nat :: j > 0 && QuietBefore(threshold, start, acts, j) && exitAt.value <= Tick(threshold, start, j))
  }

  /** Another supervisor claimed the attempt before a claim at t. */
  predicate Beaten(t: int, rival: Option<int>, rivalFirst: bool) {
    rival.Some? && (rival.value < t || (rival.value == t && rivalFirst))
  }

  /** The supervisor loop. `exitAt` is the time the child exits, if it does; when the exit and
      a tick coincide the select may take either, which `tickFirst` decides. `rival` is the time
      the other supervisor claims the attempt, if it does, and `rivalFirst` decides a tie. The
      results are the time this supervisor tries to claim, or None when the exit is seen first,
      and whether it succeeds and signals the child. The loop ends even if the child never
      exits. */
  method SuperviseIdle(threshold: int, start: int, acts: seq<int>, exitAt: Option<int>, tickFirst: bool,
                       rival: Option<int>, rivalFirst: bool)
    returns (claim: Option<int>, acted: bool)
    requires threshold > 0 && Schedule(acts) && acts[0] <= start
    ensures Outcome(threshold, start, acts, exitAt, claim)
    ensures acted <==> claim.Some? && !Beaten(claim.value, rival, rivalFirst)
  {
    var j: nat := 1;
    ghost var last := acts[|acts| - 1];
    while true
      invariant j > 0
      invariant QuietBefore(threshold, start, acts, j)
      decreases Max(last + threshold + Period(threshold) - Tick(threshold, start, j), 0)
    {
      var t := Tick(threshold, start, j);
      if exitAt.Some? && (exitAt.value < t || (exitAt.value == t && !tickFirst)) {
        return None, false;
      }
      if IdleAt(acts, t) >= threshold {
        assert FirstIdleTick(threshold, start, acts, j);
        return Some(t), !Beaten(t, rival, rivalFirst);
      }
      LatestIsLast(acts, t);
      TickStep(threshold, start, j);
      j := j + 1;
    }
  }

  lemma LatestIsLast(acts: seq<int>, t: int)
    requires Schedule(acts) && acts[0] <= t
    ensures LastActivity(acts, t) <= acts[|acts| - 1]
  {
    LastActivityIsLatest(acts, t);
    var k :| 0 <= k < |acts| && acts[k] == LastActivity(acts, t);
    assert acts[k] <= acts[|acts| - 1];
  }

  /** Consecutive activities are closer together than the threshold. */
  predicate GapsBelow(acts: seq<int>, threshold: int) {
    forall i :: 0 < i < |acts| ==> acts[i] - acts[i - 1] < threshold
  }

  lemma {:induction false} IdleInsideGap(acts: seq<int>, threshold: int, t: int)
    requires Schedule(acts) && GapsBelow(acts, threshold) && acts[0] <= t < acts[|acts| - 1]
    ensures IdleAt(acts, t) < threshold
    decreases |acts|
  {
    var n := |acts| - 1;
    if t < acts[n - 1] {
      IdleInsideGap(acts[..n], threshold, t);
    } else {
      assert acts[..n][n - 1] == acts[n - 1];
      assert LastActivity(acts, t) == acts[n - 1];
    }
  }

  /** No kill while every gap is shorter than the threshold, counting from the attempt start
      up to the exit of the child. */
  lemma NoKillWhileActive(threshold: int, start: int, acts: seq<int>, exitAt: Option<int>, claim: Option<int>)
    requires threshold > 0 && Schedule(acts) && acts[0] <= start
    requires Outcome(threshold, start, acts, exitAt, claim)
    requires GapsBelow(acts, threshold)
    requires exitAt.Some? && exitAt.value < acts[|acts| - 1] + threshold
    ensures claim == None
  {
    if claim.Some? {
      if claim.value < acts[|acts| - 1] {
        IdleInsideGap(acts, threshold, claim.value);
      }
      assert false;
    }
  }

  /** Every claim lands within one period after the threshold has elapsed since the last
      activity that precedes it. */
  lemma ClaimWindow(threshold: int, start: int, acts: seq<int>, exitAt: Option<int>, t: int)
    requires threshold > 0 && Schedule(acts) && acts[0] <= start < acts[0] + threshold
    requires Outcome(threshold, start, acts, exitAt, Some(t))
    ensures var L := LastActivity(acts, t);
            L + threshold <= t < L + threshold + Period(threshold)
  {
    var j: nat :| FirstIdleTick(threshold, start, acts, j) && t == Tick(threshold, start, j);
    var L := LastActivity(acts, t);
    LastActivityIsLatest(acts, t);
    assert acts[0] in acts && acts[0] <= L;
    if j > 1 {
      var before := Tick(threshold, start, j - 1);
      TickStep(threshold, start, j - 1);
      LastActivityIsLatest(acts, before);
    }
  }

  /** If activity stops for good at L and the child outlives the window, the attempt is
      claimed in [L + threshold, L + threshold + period). */
  lemma ClaimedInTime(threshold: int, start: int, acts: seq<int>, exitAt: Option<int>, claim: Option<int>)
    requires threshold > 0 && Schedule(acts) && acts[0] <= start < acts[0] + threshold
    requires Outcome(threshold, start, acts, exitAt, claim)
    requires GapsBelow(acts, threshold)
    requires exitAt.Some? ==> exitAt.value >= acts[|acts| - 1] + threshold + Period(threshold)
    ensures claim.Some?
    ensures var L := acts[|acts| - 1];
            L + threshold <= claim.value < L + threshold + Max(threshold / 4, 100_000_000)
  {
    var L := acts[|acts| - 1];
    if claim == None {
      var j: nat :| j > 0 && QuietBefore(threshold, start, acts, j) && exitAt.value <= Tick(threshold, start, j);
      TickStep(threshold, start, j - 1);
      var before := Tick(threshold, start, j - 1);
      if j > 1 {
        LatestIsLast(acts, before);
      }
      assert false;
    } else {
      ClaimWindow(threshold, start, acts, exitAt, claim.value);
      if claim.value < L {
        IdleInsideGap(acts, threshold, claim.value);
      }
    }
  }

  // ------------------------------------------------- the two supervisors of one attempt

  /** The claims on the cause cell in the order they are made. */
  function Claims(idle: Option<int>, watchdog: Option<int>, idleFirst: bool): seq<Kill> {
    if idle == None && watchdog == None then []
    else if watchdog == None then [IdleKill]
    else if idle == None then [WatchdogFired]
    else if Beaten(watchdog.value, idle, idleFirst) then [IdleKill, WatchdogFired]
    else [WatchdogFired, IdleKill]
  }

  /** If one threshold exceeds the other by that one's polling period, its supervisor is always
      second: by the time it finds the attempt idle, the other has claimed it. Each ticker has
      a start of its own. */
  lemma ShorterClaimsFirst(short: int, long: int, shortStart: int, longStart: int, acts: seq<int>, exitAt: Option<int>,
                           first: Option<int>, second: Option<int>)
    requires 0 < short && short + Period(short) <= long
    requires Schedule(acts) && acts[0] <= shortStart < acts[0] + short && acts[0] <= longStart
    requires Outcome(short, shortStart, acts, exitAt, first) && Outcome(long, longStart, acts, exitAt, second)
    ensures second.Some? ==> first.Some? && first.value < second.value
  {
    if second.Some? {
      var t := second.value;
      var L := LastActivity(acts, t);
      LastActivityIsLatest(acts, t);
      assert acts[0] in acts;
      var j := FirstTickFrom(short, shortStart, L + short);
      var u := Tick(short, shortStart, j);
      LastActivityIsLatest(acts, u);
      assert IdleAt(acts, u) >= short;
      if first == None {
        var n: nat :| n > 0 && QuietBefore(short, shortStart, acts, n) && exitAt.value <= Tick(short, shortStart, n);
        if j >= n {
          TickOrder(short, shortStart, n, j);
        }
        assert false;
      } else {
        var n: nat :| FirstIdleTick(short, shortStart, acts, n) && first.value == Tick(short, shortStart, n);
        assert n <= j;
        TickOrder(short, shortStart, n, j);
      }
    }
  }

  lemma TickOrder(threshold: int, start: int, i: nat, j: nat)
    requires threshold > 0 && i <= j
    ensures Tick(threshold, start, i) <= Tick(threshold, start, j)
  {
    assert i * Period(threshold) <= j * Period(threshold);
  }

  /** The first tick at or after time t. */
  lemma {:induction false} FirstTickFrom(threshold: int, start: int, t: int) returns (j: nat)
    requires threshold > 0 && t > start
    ensures j > 0 && t <= Tick(threshold, start, j) < t + Period(threshold)
    decreases t - start
  {
    TickStep(threshold, start, 0);
    if t <= start + Period(threshold) {
      j := 1;
    } else {
      var i := FirstTickFrom(threshold, start, t - Period(threshold));
      TickStep(threshold, start, i);
      j := i + 1;
    }
  }

  /** One attempt under both supervisors: one activity log, tickers started at any time within
      the thresholds, and what each does. */
  ghost predicate Supervised(idleKill: int, timeout: int, idleStart: int, watchStart: int, acts: seq<int>, exitAt: Option<int>,
                             idle: Option<int>, watchdog: Option<int>) {
    && idleKill > 0 && timeout > 0 && Schedule(acts)
    && acts[0] <= idleStart < acts[0] + idleKill && acts[0] <= watchStart < acts[0] + timeout
    && Outcome(idleKill, idleStart, acts, exitAt, idle) && Outcome(timeout, watchStart, acts, exitAt, watchdog)
  }

  /** Which cause an attempt gets from the two supervisors: none if neither finds it idle; else
      that of the earlier claim, and whoever made it is the one who signals the child. */
  lemma CauseOfTwo(idleKill: int, timeout: int, idleStart: int, watchStart: int, acts: seq<int>, exitAt: Option<int>,
                   idle: Option<int>, watchdog: Option<int>, idleFirst: bool)
    requires Supervised(idleKill, timeout, idleStart, watchStart, acts, exitAt, idle, watchdog)
    ensures var cause := FirstClaim(Claims(idle, watchdog, idleFirst));
            && (cause == NoCause <==> idle == None && watchdog == None)
            && (cause == IdleTimeout <==> idle.Some? && !Beaten(idle.value, watchdog, !idleFirst))
            && (cause == WatchdogKill <==> watchdog.Some? && !Beaten(watchdog.value, idle, idleFirst))
            && (idleKill + Period(idleKill) <= timeout ==> cause != WatchdogKill)
            && (timeout + Period(timeout) <= idleKill ==> cause != IdleTimeout)
  {
    if idleKill + Period(idleKill) <= timeout {
      ShorterClaimsFirst(idleKill, timeout, idleStart, watchStart, acts, exitAt, idle, watchdog);
    }
    if timeout + Period(timeout) <= idleKill {
      ShorterClaimsFirst(timeout, idleKill, watchStart, idleStart, acts, exitAt, watchdog, idle);
    }
  }

  /** No attempt under these thresholds gets this supervisor's cause. */
  ghost predicate Impossible(kill: Kill, idleKill: int, timeout: int) {
    forall idleStart, watchStart, acts, exitAt, idle, watchdog, idleFirst ::
      Supervised(idleKill, timeout, idleStart, watchStart, acts, exitAt, idle, watchdog) ==>
        FirstClaim(Claims(idle, watchdog, idleFirst)) != CauseOf(kill)
  }

  /** A cause is impossible if and only if its threshold exceeds the other by the other one's
      polling period, which is a quarter of that threshold and at least 100 ms. */
  lemma WhichCauseIsImpossible(idleKill: int, timeout: int)
    requires idleKill > 0 && timeout > 0
    ensures Impossible(WatchdogFired, idleKill, timeout) <==> idleKill + Max(idleKill / 4, 100_000_000) <= timeout
    ensures Impossible(IdleKill, idleKill, timeout) <==> timeout + Max(timeout / 4, 100_000_000) <= idleKill
  {
    forall idleStart, watchStart, acts, exitAt, idle, watchdog, idleFirst
      | Supervised(idleKill, timeout, idleStart, watchStart, acts, exitAt, idle, watchdog)
      ensures var cause := FirstClaim(Claims(idle, watchdog, idleFirst));
              && (idleKill + Period(idleKill) <= timeout ==> cause != WatchdogKill)
              && (timeout + Period(timeout) <= idleKill ==> cause != IdleTimeout)
    {
      CauseOfTwo(idleKill, timeout, idleStart, watchStart, acts, exitAt, idle, watchdog, idleFirst);
    }
    if timeout < idleKill + Period(idleKill) {
      var acts, idle, watchdog := SecondCanCome(idleKill, timeout);
      assert Supervised(idleKill, timeout, 0, 0, acts, None, Some(idle), Some(watchdog));
      assert FirstClaim(Claims(Some(idle), Some(watchdog), false)) == WatchdogKill;
    }
    if idleKill < timeout + Period(timeout) {
      var acts, watchdog, idle := SecondCanCome(timeout, idleKill);
      assert Supervised(idleKill, timeout, 0, 0, acts, None, Some(idle), Some(watchdog));
      assert FirstClaim(Claims(Some(idle), Some(watchdog), true)) == IdleTimeout;
    }
  }

  // ------------------------------------------------- a smaller difference is never enough

  /** Activity at every nanosecond from 0 to last. */
  function Dense(last: nat): (acts: seq<int>)
    ensures Schedule(acts)
  {
    seq(last + 1, i requires 0 <= i => i)
  }

  lemma {:induction false} DenseLast(last: nat, t: int)
    requires t >= 0
    ensures LastActivity(Dense(last), t) == Min(t, last)
    decreases last
  {
    if last > t {
      assert Dense(last)[..last] == Dense(last - 1);
      DenseLast(last - 1, t);
    }
  }

  /** Tick j comes within a period after the threshold has elapsed since the last activity, so it
      is the first that claims. */
  lemma ClaimsAt(threshold: int, last: nat, j: nat)
    requires threshold > 0 && j > 0
    requires last + threshold <= Tick(threshold, 0, j) < last + threshold + Period(threshold)
    ensures Outcome(threshold, 0, Dense(last), None, Some(Tick(threshold, 0, j)))
  {
    var acts := Dense(last);
    forall i | 0 < i < j
      ensures IdleAt(acts, Tick(threshold, 0, i)) < threshold
    {
      TickOrder(threshold, 0, i, j - 1);
      TickStep(threshold, 0, j - 1);
      DenseLast(last, Tick(threshold, 0, i));
    }
    DenseLast(last, Tick(threshold, 0, j));
    assert FirstIdleTick(threshold, 0, acts, j);
  }

  /** A time at which both tickers are due, beyond one threshold. */
  lemma BothDue(a: int, b: int) returns (i: nat, j: nat)
    requires a > 0 && b > 0
    ensures i > 0 && j > 0 && Tick(a, 0, i) == Tick(b, 0, j) >= b
  {
    var p, q := Period(a), Period(b);
    i, j := 5 * q, 5 * p;
    assert i * p == j * q;
    assert p * q >= q by {
      assert (p - 1) * q >= 0;
    }
    assert j * q == 5 * (p * q);
  }

  /** Unless b exceeds a by a's polling period, the supervisor with threshold b can be first, or
      due at the same moment: both tickers start together, and activity stops b before they
      are both due, so that a's ticker finds the attempt not yet idle a period earlier. */
  lemma SecondCanCome(a: int, b: int) returns (acts: seq<int>, first: int, second: int)
    requires a > 0 && b > 0 && b < a + Period(a)
    ensures Schedule(acts) && acts[0] == 0
    ensures Outcome(a, 0, acts, None, Some(first)) && Outcome(b, 0, acts, None, Some(second))
    ensures second <= first
  {
    var i, j := BothDue(a, b);
    second := Tick(b, 0, j);
    var last: nat := second - b;
    acts := Dense(last);
    ClaimsAt(b, last, j);
    var k := FirstTickFrom(a, 0, last + a);
    first := Tick(a, 0, k);
    ClaimsAt(a, last, k);
    if k < i {
      TickOrder(a, 0, k, i - 1);
      TickStep(a, 0, i - 1);
      assert false;
    }
    TickOrder(a, 0, i, k);
  }
}
