/** How often results are given out, and to whom, in every run: what a duplicate live id does to
    the closes and to the waiters. */
module ManagerDuplicates {
  import opened Common
  import opened ManagerProtocol
  import opened ManagerInvariant
  import opened ManagerEveryRun
  import opened ManagerIds
  import opened ManagerHistory

  // ------------------------------------------------- sums

  function Sum(xs: seq<nat>): nat {
    if xs == [] then 0 else Sum(xs[..|xs| - 1]) + xs[|xs| - 1]
  }

  lemma {:induction false} SumAddOne(xs: seq<nat>, i: nat)
    requires i < |xs|
    ensures Sum(xs[i := xs[i] + 1]) == Sum(xs) + 1
    decreases |xs|
  {
    var n := |xs| - 1;
    if i == n {
      assert xs[i := xs[i] + 1][..n] == xs[..n];
    } else {
      assert xs[i := xs[i] + 1][..n] == xs[..n][i := xs[i] + 1];
      SumAddOne(xs[..n], i);
    }
  }

  lemma SumSnoc(xs: seq<nat>, x: nat)
    ensures Sum(xs + [x]) == Sum(xs) + x
  {
    assert (xs + [x])[..|xs|] == xs;
  }

  /** Of two rows with one sum, the smaller at every place is equal at every place. */
  lemma {:induction false} SameSum(xs: seq<nat>, ys: seq<nat>)
    requires |xs| == |ys| && forall i :: 0 <= i < |xs| ==> xs[i] <= ys[i]
    ensures Sum(xs) <= Sum(ys)
    ensures Sum(xs) == Sum(ys) ==> xs == ys
    decreases |xs|
  {
    if xs != [] {
      var n := |xs| - 1;
      SameSum(xs[..n], ys[..n]);
      if Sum(xs) == Sum(ys) {
        assert xs == xs[..n] + [xs[n]] && ys == ys[..n] + [ys[n]];
      }
    }
  }

  // ------------------------------------------------- deliveries and the watches that made them

  /** How often each Start's own result has been given out. */
  function Closes(tokens: seq<Token>): (r: seq<nat>)
    ensures |r| == |tokens| && forall t :: 0 <= t < |r| ==> r[t] == tokens[t].deliveries
  {
    seq(|tokens|, t requires 0 <= t < |tokens| => tokens[t].deliveries)
  }

  /** 1 for each Start whose watch has given a result out. */
  function Givers(tokens: seq<Token>): (r: seq<nat>)
    ensures |r| == |tokens| && forall t :: 0 <= t < |r| ==> r[t] == if ResultOut(tokens[t].phase) then 1 else 0
  {
    seq(|tokens|, t requires 0 <= t < |tokens| => if ResultOut(tokens[t].phase) then 1 else 0)
  }

  /** A registered id has a result, a watch past its lock region holds one, and the results given
      out are those of the watches that gave one. */
  predicate HeldOk(s: State, t: nat)
    requires t < |s.tokens|
  {
    var tok := s.tokens[t];
    && (tok.phase.Watched? ==> tok.id in s.results)
    && (tok.phase.Watched? && !Live(tok.phase) ==> tok.captured.Some?)
  }

  ghost predicate Balanced(s: State) {
    && (forall t :: 0 <= t < |s.tokens| ==> HeldOk(s, t))
    && Sum(Closes(s.tokens)) == Sum(Givers(s.tokens))
  }

  lemma HeldRegister(s: State, a: Action, t: nat)
    requires Enabled(s, a) && a.Register? && t < |s.tokens| && HeldOk(s, t)
    ensures t < |Apply(s, a).tokens| && HeldOk(Apply(s, a), t)
  {
  }

  lemma HeldRemove(s: State, a: Action, t: nat)
    requires Enabled(s, a) && a.Remove? && t < |s.tokens| && HeldOk(s, t)
    ensures t < |Apply(s, a).tokens| && HeldOk(Apply(s, a), t)
  {
  }

  lemma HeldFrame(s: State, u: State, a: Action, t: nat)
    requires t < |s.tokens| && t < |u.tokens| && HeldOk(s, t) && Framed(a, t, s.tokens[t], u.tokens[t])
    requires u.results == s.results && !a.Register? && !a.Remove?
    ensures HeldOk(u, t)
  {
  }

  lemma HeldStep(s: State, a: Action, t: nat)
    requires Enabled(s, a) && t < |Apply(s, a).tokens| && (t < |s.tokens| ==> HeldOk(s, t))
    ensures HeldOk(Apply(s, a), t)
  {
    if t >= |s.tokens| {
      NewTokenOk(s, a);
    } else if a.Register? {
      HeldRegister(s, a, t);
    } else if a.Remove? {
      HeldRemove(s, a, t);
    } else {
      MapsFrame(s, a);
      TokenFrame(s, a, t);
      HeldFrame(s, Apply(s, a), a, t);
    }
  }

  lemma OneMoreClose(a: seq<Token>, b: seq<Token>, r: nat)
    requires r < |a| == |b|
    requires forall t :: 0 <= t < |a| ==> b[t].deliveries == a[t].deliveries + if t == r then 1 else 0
    ensures Sum(Closes(b)) == Sum(Closes(a)) + 1
  {
    assert Closes(b) == Closes(a)[r := Closes(a)[r] + 1];
    SumAddOne(Closes(a), r);
  }

  lemma OneMoreGiver(a: seq<Token>, b: seq<Token>, d: nat)
    requires d < |a| == |b| && !ResultOut(a[d].phase)
    requires forall t :: 0 <= t < |a| ==> ResultOut(b[t].phase) == (t == d || ResultOut(a[t].phase))
    ensures Sum(Givers(b)) == Sum(Givers(a)) + 1
  {
    assert Givers(b) == Givers(a)[d := Givers(a)[d] + 1];
    SumAddOne(Givers(a), d);
  }

  /** Deliver adds one to the result its watch holds and one to the watches that have given. */
  lemma DeliverBalance(s: State, a: Action)
    requires Filed(s) && Balanced(s) && Enabled(s, a) && a.Deliver?
    ensures Sum(Closes(Apply(s, a).tokens)) == Sum(Givers(Apply(s, a).tokens))
  {
    hide Apply, Sum, Closes, Givers;
    DeliverShape(s, a);
    assert HeldOk(s, a.t) && TakenOk(s, a.t);
    var r := s.tokens[a.t].captured.value;
    hide Filed, TakenOk, HeldOk;
    OneMoreClose(s.tokens, Apply(s, a).tokens, r);
    OneMoreGiver(s.tokens, Apply(s, a).tokens, a.t);
  }

  lemma DeliverShape(s: State, a: Action)
    requires Enabled(s, a) && a.Deliver?
    ensures |Apply(s, a).tokens| == |s.tokens| && a.t < |s.tokens| && !ResultOut(s.tokens[a.t].phase)
    ensures forall t :: 0 <= t < |s.tokens| ==>
              && Apply(s, a).tokens[t].deliveries == s.tokens[t].deliveries + (if s.tokens[a.t].captured == Some(t) then 1 else 0)
              && ResultOut(Apply(s, a).tokens[t].phase) == (t == a.t || ResultOut(s.tokens[t].phase))
  {
    assert Apply(s, a) == DeliverStep(s, a.t);
    hide Apply;
  }

  /** No other step gives anything out. */
  lemma OtherBalance(s: State, a: Action)
    requires Balanced(s) && Enabled(s, a) && !a.Deliver?
    ensures Sum(Closes(Apply(s, a).tokens)) == Sum(Givers(Apply(s, a).tokens))
  {
    var u := Apply(s, a);
    MapsFrame(s, a);
    forall t | 0 <= t < |s.tokens|
      ensures u.tokens[t].deliveries == s.tokens[t].deliveries && ResultOut(u.tokens[t].phase) == ResultOut(s.tokens[t].phase)
    {
      DeliveriesStep(s, a, t);
      TokenFrame(s, a, t);
    }
    if |u.tokens| > |s.tokens| {
      NewTokenOk(s, a);
      hide Apply;
      assert Closes(u.tokens) == Closes(s.tokens) + [0] && Givers(u.tokens) == Givers(s.tokens) + [0];
      SumSnoc(Closes(s.tokens), 0);
      SumSnoc(Givers(s.tokens), 0);
    } else {
      hide Apply;
      assert Closes(u.tokens) == Closes(s.tokens) && Givers(u.tokens) == Givers(s.tokens);
    }
  }

  lemma BalancedStep(s: State, a: Action)
    requires Filed(s) && Balanced(s) && Enabled(s, a)
    ensures Balanced(Apply(s, a))
  {
    forall t | 0 <= t < |Apply(s, a).tokens|
      ensures HeldOk(Apply(s, a), t)
    {
      HeldStep(s, a, t);
    }
    if a.Deliver? {
      DeliverBalance(s, a);
    } else {
      OtherBalance(s, a);
    }
  }

  lemma {:induction false} BalancedRun(s: State, run: seq<Action>)
    requires Filed(s) && Balanced(s) && Exec(s, run).Some?
    ensures Filed(Exec(s, run).value) && Balanced(Exec(s, run).value)
    decreases |run|
  {
    if run != [] {
      FiledKept(s, run[0]);
      BalancedStep(s, run[0]);
      BalancedRun(Apply(s, run[0]), run[1..]);
    }
  }

  /** Some result has been closed a second time, which panics in the source. */
  ghost predicate ClosedTwice(s: State) {
    exists t :: 0 <= t < |s.tokens| && s.tokens[t].deliveries >= 2
  }

  /** When every watch has signed off, some result has been closed twice if and only if a live id
      was registered again. */
  lemma ClosedTwiceIffDuplicate(run: seq<Action>)
    requires Exec(INIT, run).Some? && AllFinished(Exec(INIT, run).value)
    ensures ClosedTwice(Exec(INIT, run).value) <==> !DistinctRun(INIT, run)
  {
    var u := Exec(INIT, run).value;
    DeliveredIffDistinct(run);
    BalancedRun(INIT, run);
    forall t | 0 <= t < |u.tokens|
      ensures Closes(u.tokens)[t] > 0 ==> Givers(u.tokens)[t] == 1
      ensures u.tokens[t].phase.Watched? ==> Givers(u.tokens)[t] == 1
      ensures u.tokens[t].deliveries > 0 ==> u.tokens[t].phase.Watched?
    {
      assert TakenOk(u, t);
    }
    if !ClosedTwice(u) {
      SameSum(Closes(u.tokens), Givers(u.tokens));
      forall t | 0 <= t < |u.tokens| && u.tokens[t].phase.Watched?
        ensures u.tokens[t].deliveries == 1
      {
        assert Closes(u.tokens)[t] == Givers(u.tokens)[t];
      }
    }
  }

  // ------------------------------------------------- waiters

  /** Watch d has given its session's end out in r's result. */
  predicate Gave(s: State, d: nat, r: nat, end: End) {
    && d < |s.tokens| && s.tokens[d].captured == Some(r) && ResultOut(s.tokens[d].phase) && s.tokens[d].exit == Some(end)
  }

  /** A result given out once holds the end that some watch gave. */
  ghost predicate GivenOk(s: State, r: nat)
    requires r < |s.tokens|
  {
    s.tokens[r].deliveries == 1 ==>
      s.tokens[r].given.Some? && exists d: nat :: Gave(s, d, r, s.tokens[r].given.value)
  }

  /** A waiter that has its answer has what stands in the result, unless that was closed again. */
  predicate GotOk(s: State, w: Wait) {
    w.pc.Got? ==>
      && w.token < |s.tokens| && s.tokens[w.token].deliveries > 0
      && (s.tokens[w.token].deliveries == 1 ==> s.tokens[w.token].given == Some(w.pc.end))
  }

  ghost predicate Answered(s: State) {
    && (forall r :: 0 <= r < |s.tokens| ==> GivenOk(s, r))
    && (forall k :: 0 <= k < |s.waits| ==> GotOk(s, s.waits[k]))
  }

  lemma GaveStep(s: State, a: Action, d: nat, r: nat, end: End)
    requires EveryRun(s) && Enabled(s, a) && Gave(s, d, r, end)
    ensures Gave(Apply(s, a), d, r, end)
  {
    TokenFrame(s, a, d);
    if a.Deliver? {
      DeliverShape(s, a);
    }
    ExitMoves(s, a, d);
    CapturedStep(s, a, d);
  }

  /** What stands in a result changes only when a watch that holds it delivers. */
  lemma GivenStep(s: State, a: Action, r: nat)
    requires Enabled(s, a) && r < |s.tokens|
    ensures r < |Apply(s, a).tokens|
    ensures Apply(s, a).tokens[r].given
            == if a.Deliver? && s.tokens[a.t].captured == Some(r) then s.tokens[a.t].exit else s.tokens[r].given
  {
    if a.Deliver? {
      assert Apply(s, a) == DeliverStep(s, a.t);
      hide Apply;
    } else {
      TokenFrame(s, a, r);
    }
  }

  lemma GivenKept(s: State, a: Action, r: nat)
    requires EveryRun(s) && Enabled(s, a) && r < |Apply(s, a).tokens| && (r < |s.tokens| ==> GivenOk(s, r))
    ensures GivenOk(Apply(s, a), r)
  {
    var u := Apply(s, a);
    if r >= |s.tokens| {
      NewTokenOk(s, a);
    } else {
      DeliveriesStep(s, a, r);
      GivenStep(s, a, r);
      if a.Deliver? && s.tokens[a.t].captured == Some(r) {
        DeliverShape(s, a);
        CapturedStep(s, a, a.t);
        ExitMoves(s, a, a.t);
        assert Gave(u, a.t, r, s.tokens[a.t].exit.value);
      } else if s.tokens[r].deliveries == 1 {
        var d: nat :| Gave(s, d, r, s.tokens[r].given.value);
        GaveStep(s, a, d, r, s.tokens[r].given.value);
      }
    }
  }

  lemma GotKept(s: State, a: Action, k: nat)
    requires Enabled(s, a) && k < |Apply(s, a).waits|
    requires k < |s.waits| ==> GotOk(s, s.waits[k])
    ensures GotOk(Apply(s, a), Apply(s, a).waits[k])
  {
    if a.WaitLook? || a.WaitGet? || a.WaitCancel? {
    } else {
      MapsFrame(s, a);
      if s.waits[k].pc.Got? {
        DeliveriesStep(s, a, s.waits[k].token);
        GivenStep(s, a, s.waits[k].token);
      }
    }
  }

  lemma {:induction false} AnsweredRun(s: State, run: seq<Action>)
    requires EveryRun(s) && Answered(s) && Exec(s, run).Some?
    ensures EveryRun(Exec(s, run).value) && Answered(Exec(s, run).value)
    decreases |run|
  {
    if run != [] {
      var u := Apply(s, run[0]);
      EveryStep(s, run[0]);
      forall r | 0 <= r < |u.tokens|
        ensures GivenOk(u, r)
      {
        GivenKept(s, run[0], r);
      }
      forall k | 0 <= k < |u.waits|
        ensures GotOk(u, u.waits[k])
      {
        GotKept(s, run[0], k);
      }
      AnsweredRun(u, run[1..]);
    }
  }

  /** In every run, until a result is closed a second time: any two WaitSession calls that return
      for one session return the same code and error, and these are the end of a session under
      the same id whose watch has recorded it and closed its broker. Only with a duplicate
      live id can that be another session than the one waited for. */
  lemma WaitersAgreeInEveryRun(run: seq<Action>, j: nat, k: nat)
    requires Exec(INIT, run).Some?
    requires var ws := Exec(INIT, run).value.waits;
             j < |ws| && k < |ws| && ws[j].pc.Got? && ws[k].pc.Got? && ws[j].token == ws[k].token
    ensures var s := Exec(INIT, run).value;
            var r := s.waits[j].token;
            && r < |s.tokens|
            && (s.tokens[r].deliveries <= 1 ==>
                  && s.waits[j].pc == s.waits[k].pc
                  && exists d: nat :: Gave(s, d, r, s.waits[j].pc.end)
                                      && s.tokens[d].id == s.tokens[r].id && |s.tokens[d].trace| == 3
                                      && s.tokens[d].brokerCloses == if s.tokens[d].attach then 1 else 0)
  {
    hide *;
    InitEveryRun();
    InitAnswered();
    AnsweredRun(INIT, run);
    BalancedRun(INIT, run);
    WaitersAgreeIn(Exec(INIT, run).value, j, k);
  }

  lemma InitAnswered()
    ensures Answered(INIT) && Filed(INIT) && Balanced(INIT)
  {
  }

  lemma WaitersAgreeIn(s: State, j: nat, k: nat)
    requires EveryRun(s) && Answered(s) && Filed(s) && j < |s.waits| && k < |s.waits|
    requires s.waits[j].pc.Got? && s.waits[k].pc.Got? && s.waits[j].token == s.waits[k].token
    ensures var r := s.waits[j].token;
            && r < |s.tokens|
            && (s.tokens[r].deliveries <= 1 ==>
                  && s.waits[j].pc == s.waits[k].pc
                  && exists d: nat :: Gave(s, d, r, s.waits[j].pc.end)
                                      && s.tokens[d].id == s.tokens[r].id && |s.tokens[d].trace| == 3
                                      && s.tokens[d].brokerCloses == if s.tokens[d].attach then 1 else 0)
  {
    hide MapsInv, AttachInv, WgInv, FiledOk;
    var r := s.waits[j].token;
    assert GotOk(s, s.waits[j]) && GotOk(s, s.waits[k]);
    if s.tokens[r].deliveries <= 1 {
      assert GivenOk(s, r);
      var d: nat :| Gave(s, d, r, s.tokens[r].given.value);
      assert RecordOk(s.tokens[d]) && TakenOk(s, d);
    }
  }
}
