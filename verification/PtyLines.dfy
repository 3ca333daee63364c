/** What the child reads when it splits its terminal input on newlines: when each input arrives
    as a line of its own, and what becomes of one that follows a raw boot prompt or a failed
    write. */
module PtyLines {
  import opened Common
  import opened PtyHandle
  import PtyInput

  // ------------------------------------------------- lines of a byte stream

  /** The newline-terminated lines of a byte stream, without their terminators. */
  function Lines(s: seq<byte>): seq<seq<byte>> {
    LinesFrom([], s)
  }

  function LinesFrom(line: seq<byte>, s: seq<byte>): seq<seq<byte>>
    decreases |s|
  {
    if s == [] then []
    else if s[0] == NEWLINE then [line] + LinesFrom([], s[1..])
    else LinesFrom(line + [s[0]], s[1..])
  }

  /** The unfinished line a stream ends in. */
  function Tail(s: seq<byte>): seq<byte> {
    TailFrom([], s)
  }

  function TailFrom(line: seq<byte>, s: seq<byte>): seq<byte>
    decreases |s|
  {
    if s == [] then line
    else TailFrom(if s[0] == NEWLINE then [] else line + [s[0]], s[1..])
  }

  predicate OneLine(data: seq<byte>) {
    NEWLINE !in data
  }

  /** Nothing yet, or the last line is finished. */
  predicate Clean(s: seq<byte>) {
    s == [] || s[|s| - 1] == NEWLINE
  }

  /** The stream of framed payloads. */
  function Framed(ds: seq<seq<byte>>): seq<byte>
    decreases |ds|
  {
    if ds == [] then [] else Frame(ds[0]) + Framed(ds[1..])
  }

  lemma {:induction false} LinesConcat(line: seq<byte>, p: seq<byte>, q: seq<byte>)
    ensures LinesFrom(line, p + q) == LinesFrom(line, p) + LinesFrom(TailFrom(line, p), q)
    decreases |p|
  {
    if p == [] {
      assert p + q == q;
    } else {
      assert (p + q)[1..] == p[1..] + q;
      LinesConcat(if p[0] == NEWLINE then [] else line + [p[0]], p[1..], q);
    }
  }

  lemma {:induction false} TailIsEmpty(line: seq<byte>, s: seq<byte>)
    ensures TailFrom(line, s) == [] <==> if s == [] then line == [] else Clean(s)
    decreases |s|
  {
    if s != [] {
      TailIsEmpty(if s[0] == NEWLINE then [] else line + [s[0]], s[1..]);
    }
  }

  lemma {:induction false} NoNewlines(line: seq<byte>, s: seq<byte>)
    requires OneLine(line)
    ensures OneLine(TailFrom(line, s)) && forall l :: l in LinesFrom(line, s) ==> OneLine(l)
    decreases |s|
  {
    if s != [] {
      NoNewlines(if s[0] == NEWLINE then [] else line + [s[0]], s[1..]);
    }
  }

  lemma {:induction false} OneLineEnds(line: seq<byte>, d: seq<byte>)
    requires OneLine(d)
    ensures LinesFrom(line, d + [NEWLINE]) == [line + d] && TailFrom(line, d + [NEWLINE]) == []
    decreases |d|
  {
    var s := d + [NEWLINE];
    if d == [] {
      assert s[1..] == [] && line + d == line;
    } else {
      assert s[1..] == d[1..] + [NEWLINE] && s[0] == d[0] && d[0] in d;
      OneLineEnds(line + [d[0]], d[1..]);
      assert line + [d[0]] + d[1..] == line + d;
    }
  }

  /** An input without the newline it may end in. */
  function Body(d: seq<byte>): seq<byte> {
    if d != [] && d[|d| - 1] == NEWLINE then d[..|d| - 1] else d
  }

  /** A send puts the input's body and one newline on the master: it adds a newline exactly if
      the input has none at its end, and sends one that has it as it is. */
  lemma FrameIsBody(d: seq<byte>)
    ensures Frame(d) == Body(d) + [NEWLINE]
    ensures Frame(d) == d <==> d != [] && d[|d| - 1] == NEWLINE
    ensures Body(d + [NEWLINE]) == d && (OneLine(d) ==> Body(d) == d)
  {
    assert (d + [NEWLINE])[..|d|] == d;
    assert d != [] ==> d[|d| - 1] in d && d[..|d| - 1] + [d[|d| - 1]] == d;
  }

  /** One more line: whatever is unfinished becomes its beginning. */
  lemma NextLine(before: seq<byte>, b: seq<byte>)
    requires OneLine(b)
    ensures Lines(before + (b + [NEWLINE])) == Lines(before) + [Tail(before) + b]
  {
    LinesConcat([], before, b + [NEWLINE]);
    OneLineEnds(Tail(before), b);
  }

  /** A newline-free input makes the same line with or without a newline of its own. */
  lemma OwnNewlineIsEnough(before: seq<byte>, d: seq<byte>)
    requires OneLine(d)
    ensures Lines(before + Frame(d)) == Lines(before) + [Tail(before) + d]
    ensures Lines(before + Frame(d + [NEWLINE])) == Lines(before) + [Tail(before) + d]
    ensures Frame(d) == Frame(d + [NEWLINE]) == d + [NEWLINE]
  {
    FrameIsBody(d);
    FrameIsBody(d + [NEWLINE]);
    NextLine(before, d);
  }

  /** The stream of lines with their terminators. */
  function Terminated(bs: seq<seq<byte>>): seq<byte>
    decreases |bs|
  {
    if bs == [] then [] else bs[0] + [NEWLINE] + Terminated(bs[1..])
  }

  function Bodies(ds: seq<seq<byte>>): (r: seq<seq<byte>>)
    ensures |r| == |ds| && forall i :: 0 <= i < |r| ==> r[i] == Body(ds[i])
  {
    seq(|ds|, i requires 0 <= i < |ds| => Body(ds[i]))
  }

  lemma {:induction false} FramedIsTerminated(ds: seq<seq<byte>>)
    ensures Framed(ds) == Terminated(Bodies(ds))
    decreases |ds|
  {
    if ds != [] {
      FrameIsBody(ds[0]);
      FramedIsTerminated(ds[1..]);
      assert Bodies(ds)[1..] == Bodies(ds[1..]);
    }
  }

  lemma {:induction false} LinesRecover(bs: seq<seq<byte>>)
    requires forall b :: b in bs ==> OneLine(b)
    ensures Lines(Terminated(bs)) == bs
    decreases |bs|
  {
    if bs != [] {
      assert bs[0] in bs;
      LinesConcat([], bs[0] + [NEWLINE], Terminated(bs[1..]));
      OneLineEnds([], bs[0]);
      LinesRecover(bs[1..]);
      assert [] + bs[0] == bs[0] && bs == [bs[0]] + bs[1..];
    }
  }

  lemma MoreLines(p: seq<byte>, q: seq<byte>)
    ensures Lines(p) <= Lines(p + q)
  {
    LinesConcat([], p, q);
  }

  lemma TailIffClean(p: seq<byte>)
    ensures Tail(p) == [] <==> Clean(p)
  {
    TailIsEmpty([], p);
  }

  lemma LinesHaveNoNewline(s: seq<byte>)
    ensures forall l :: l in Lines(s) ==> OneLine(l)
  {
    NoNewlines([], s);
  }

  /** Splitting a stream and then terminated lines on newlines gives the lines back exactly when
      the stream ended in a newline (or was nothing) and none of them contains one. */
  lemma RecoverExactly(p: seq<byte>, bs: seq<seq<byte>>)
    ensures Lines(p + Terminated(bs)) == Lines(p) + bs <==> bs == [] || (Clean(p) && forall b :: b in bs ==> OneLine(b))
  {
    LinesConcat([], p, Terminated(bs));
    TailIsEmpty([], p);
    NoNewlines([], p);
    SameTail(Lines(p), LinesFrom(Tail(p), Terminated(bs)), bs);
    if bs == [] {
      assert Terminated(bs) == [];
    } else if forall b :: b in bs ==> OneLine(b) {
      if Clean(p) {
        LinesRecover(bs);
      } else {
        assert bs[0] in bs;
        LinesConcat(Tail(p), bs[0] + [NEWLINE], Terminated(bs[1..]));
        OneLineEnds(Tail(p), bs[0]);
        assert |Tail(p) + bs[0]| != |bs[0]|;
        assert LinesFrom(Tail(p), Terminated(bs))[0] == Tail(p) + bs[0];
      }
    } else {
      NoNewlines(Tail(p), Terminated(bs));
    }
  }

  /** Splitting what a master received on newlines gives, after the lines of whatever came
      first, the inputs without the newlines they end in, exactly when what came first ended in
      a newline (or was nothing) and no input has another newline; and it gives the inputs
      themselves exactly when they have none at all. */
  lemma LinesRecoverExactly(p: seq<byte>, ds: seq<seq<byte>>)
    ensures Lines(p + Framed(ds)) == Lines(p) + Bodies(ds) <==> ds == [] || (Clean(p) && forall d :: d in ds ==> OneLine(Body(d)))
    ensures Lines(p + Framed(ds)) == Lines(p) + ds <==> ds == [] || (Clean(p) && forall d :: d in ds ==> OneLine(d))
  {
    FramedIsTerminated(ds);
    RecoverExactly(p, Bodies(ds));
    BodiesOneLine(ds);
    LinesHaveNoNewline(p + Framed(ds));
    if Lines(p + Framed(ds)) == Lines(p) + ds {
      forall d | d in ds
        ensures OneLine(d)
      {
        assert d in Lines(p) + ds;
      }
    }
  }

  lemma BodiesOneLine(ds: seq<seq<byte>>)
    ensures (forall b :: b in Bodies(ds) ==> OneLine(b)) <==> forall d :: d in ds ==> OneLine(Body(d))
    ensures (forall d :: d in ds ==> OneLine(d)) ==> Bodies(ds) == ds
  {
    forall d | d in ds
      ensures Body(d) in Bodies(ds) && (OneLine(d) ==> Body(d) == d)
    {
      var i :| 0 <= i < |ds| && ds[i] == d;
      assert Bodies(ds)[i] == Body(d);
      FrameIsBody(d);
    }
    if forall d :: d in ds ==> OneLine(d) {
      assert forall i :: 0 <= i < |ds| ==> ds[i] in ds;
    }
  }

  lemma SameTail<T>(a: seq<T>, b: seq<T>, c: seq<T>)
    ensures a + b == a + c <==> b == c
  {
    if a + b == a + c {
      assert (a + b)[|a|..] == b && (a + c)[|a|..] == c;
    }
  }

  // ------------------------------------------------- inputs on a master

  lemma {:induction false} BytesOfConcat(a: seq<Segment>, b: seq<Segment>)
    ensures BytesOf(a + b) == BytesOf(a) + BytesOf(b)
    decreases |b|
  {
    if b == [] {
      assert a + b == a;
    } else {
      hide BytesOf;
      var front, last := b[..|b| - 1], b[|b| - 1];
      assert b == front + [last] && a + b == (a + front) + [last];
      BytesOfConcat(a, front);
      BytesOfSnoc(front, last);
      BytesOfSnoc(a + front, last);
    }
  }

  /** A send that succeeded and was not a raw boot prompt. */
  predicate WholeInput(s: State, g: Segment) {
    g.whole && g.sender < |s.senders| && !s.senders[g.sender].raw
  }

  /** What was on master m when the j-th of its finished writes began. */
  function Before(s: State, m: nat, j: nat): seq<byte>
    requires m < |s.segments| && j <= |s.segments[m]|
  {
    BytesOf(s.segments[m][..j])
  }

  /** A master's bytes and the finished writes behind them. */
  lemma LogOf(run: seq<Action>, m: nat)
    requires Exec(INIT, run).Some? && m < |Exec(INIT, run).value.logs|
    ensures var s := Exec(INIT, run).value;
            && |s.segments| == |s.logs| && (s.lock.BySender? ==> s.lock.i < |s.senders|)
            && s.logs[m] == BytesOf(s.segments[m]) + InFlight(s, m)
            && forall k :: 0 <= k < |s.segments[m]| ==> SegmentMatches(s, m, s.segments[m][k])
  {
    hide Enabled, Apply, Exec, SegmentMatches, InFlight, BytesOf;
    HandleIsSafe(run, m);
  }

  /** In every reachable state, and whatever else happened on the master: an input that was
      sent successfully, but for a newline at its end, is the line the child reads next, after
      the lines that were complete when it began, if and only if it contains no other newline
      and no line was left unfinished. If one was, it arrives as the end of that line. */
  lemma InputIsOneLine(run: seq<Action>, m: nat, j: nat)
    requires Exec(INIT, run).Some?
    requires var s := Exec(INIT, run).value;
             m < |s.logs| == |s.segments| && j < |s.segments[m]| && WholeInput(s, s.segments[m][j])
    ensures var s := Exec(INIT, run).value;
            var before, b := Before(s, m, j), Body(s.senders[s.segments[m][j].sender].data);
            && (Lines(before) + [b] <= Lines(s.logs[m]) <==> OneLine(b) && Clean(before))
            && (OneLine(b) ==> Lines(before) + [Tail(before) + b] <= Lines(s.logs[m]))
  {
    hide Enabled, Apply, Exec, InFlight, BytesOf, Lines, Tail;
    var s := Exec(INIT, run).value;
    var g := s.segments[m];
    LogOf(run, m);
    assert SegmentMatches(s, m, g[j]);
    BytesAround(g, j);
    var before, d, rest := Before(s, m, j), s.senders[g[j].sender].data, BytesOf(g[j + 1..]) + InFlight(s, m);
    FrameIsBody(d);
    assert s.logs[m] == before + (Body(d) + [NEWLINE]) + rest;
    OneInput(before, Body(d), rest);
  }

  lemma BytesOfMiddle(a: seq<Segment>, g: Segment, b: seq<Segment>)
    ensures BytesOf(a + [g] + b) == BytesOf(a) + g.bytes + BytesOf(b)
  {
    hide BytesOf;
    BytesOfSnoc(a, g);
    BytesOfConcat(a + [g], b);
  }

  lemma BytesAround(g: seq<Segment>, j: nat)
    requires j < |g|
    ensures BytesOf(g) == BytesOf(g[..j]) + g[j].bytes + BytesOf(g[j + 1..])
  {
    hide BytesOf;
    SplitAt(g, j);
    BytesOfMiddle(g[..j], g[j], g[j + 1..]);
  }

  lemma OneInput(before: seq<byte>, b: seq<byte>, rest: seq<byte>)
    ensures var all := Lines(before + (b + [NEWLINE]) + rest);
            && (Lines(before) + [b] <= all <==> OneLine(b) && Clean(before))
            && (OneLine(b) ==> Lines(before) + [Tail(before) + b] <= all)
  {
    hide Lines, Tail;
    var all := before + (b + [NEWLINE]) + rest;
    MoreLines(before + (b + [NEWLINE]), rest);
    TailIffClean(before);
    if OneLine(b) {
      NextLine(before, b);
      LastOfPrefix(Lines(before), Tail(before) + b, b, Lines(all));
      assert |Tail(before) + b| == |Tail(before)| + |b|;
    } else if Lines(before) + [b] <= Lines(all) {
      assert (Lines(before) + [b])[|Lines(before)|] == b;
      assert b in Lines(all);
      LinesHaveNoNewline(all);
    }
  }

  lemma LastOfPrefix(a: seq<seq<byte>>, x: seq<byte>, y: seq<byte>, all: seq<seq<byte>>)
    requires a + [x] <= all
    ensures a + [y] <= all <==> x == y
  {
    assert (a + [x])[|a|] == x && (a + [y])[|a|] == y;
  }

  /** When a line is left unfinished: an input leaves none; a raw prompt or a failed write
      leaves one exactly when the last byte it put on the master is not a newline; and a
      write that put nothing there leaves things as they were. */
  lemma WhenClean(run: seq<Action>, m: nat, j: nat)
    requires Exec(INIT, run).Some?
    requires var s := Exec(INIT, run).value; m < |s.logs| == |s.segments| && j < |s.segments[m]|
    ensures var s := Exec(INIT, run).value;
            var g := s.segments[m][j];
            && Before(s, m, 0) == []
            && (WholeInput(s, g) ==> Clean(Before(s, m, j + 1)))
            && (Clean(Before(s, m, j + 1)) <==> if g.bytes == [] then Clean(Before(s, m, j)) else Clean(g.bytes))
  {
    hide Enabled, Apply, Exec, InFlight, BytesOf, Clean, Frame;
    var s := Exec(INIT, run).value;
    LogOf(run, m);
    assert SegmentMatches(s, m, s.segments[m][j]);
    CleanAfter(s.segments[m], j);
    if WholeInput(s, s.segments[m][j]) {
      FrameClean(s.senders[s.segments[m][j].sender].data);
    }
  }

  lemma CleanAfter(g: seq<Segment>, j: nat)
    requires j < |g|
    ensures BytesOf(g[..0]) == []
    ensures Clean(BytesOf(g[..j + 1])) <==> if g[j].bytes == [] then Clean(BytesOf(g[..j])) else Clean(g[j].bytes)
  {
    assert g[..j + 1] == g[..j] + [g[j]];
    BytesOfSnoc(g[..j], g[j]);
    var before, last := BytesOf(g[..j]), g[j].bytes;
    assert last == [] ==> before + last == before;
  }

  lemma FrameClean(d: seq<byte>)
    ensures Frame(d) != [] && Clean(Frame(d))
  {
  }

  /** The inputs of a list of segments, in order. */
  function Inputs(s: State, g: seq<Segment>): seq<seq<byte>>
    requires forall k :: 0 <= k < |g| ==> WholeInput(s, g[k])
  {
    if g == [] then []
    else
      assert WholeInput(s, g[|g| - 1]);
      Inputs(s, g[..|g| - 1]) + [s.senders[g[|g| - 1].sender].data]
  }

  lemma {:induction false} SegmentsAreFramed(s: State, m: nat, g: seq<Segment>)
    requires forall k :: 0 <= k < |g| ==> WholeInput(s, g[k])
    requires forall k :: 0 <= k < |g| ==> SegmentMatches(s, m, g[k])
    ensures BytesOf(g) == Framed(Inputs(s, g))
    decreases |g|
  {
    if g != [] {
      var front, last := g[..|g| - 1], g[|g| - 1];
      assert WholeInput(s, last) && SegmentMatches(s, m, last);
      SegmentsAreFramed(s, m, front);
      FramedSnoc(Inputs(s, front), s.senders[last.sender].data);
    }
  }

  lemma {:induction false} FramedSnoc(ds: seq<seq<byte>>, d: seq<byte>)
    ensures Framed(ds + [d]) == Framed(ds) + Frame(d)
    decreases |ds|
  {
    if ds == [] {
      assert [d][1..] == [];
    } else {
      assert (ds + [d])[1..] == ds[1..] + [d];
      FramedSnoc(ds[1..], d);
    }
  }

  lemma NothingInFlight(s: State, m: nat)
    requires s.lock == Free
    ensures InFlight(s, m) == []
  {
  }

  /** Whatever prompts and failed writes a master took first, once only inputs have followed
      and nobody is mid-write, the child reads the lines of the former and then the inputs in
      lock order, exactly when the former left no line unfinished and the inputs contain no
      newline; one newline at the end of an input makes no difference. */
  lemma InputsArriveWhole(run: seq<Action>, m: nat, j: nat)
    requires Exec(INIT, run).Some?
    requires var s := Exec(INIT, run).value;
             && m < |s.logs| == |s.segments| && s.lock == Free && j <= |s.segments[m]|
             && forall k :: 0 <= k < |s.segments[m][j..]| ==> WholeInput(s, s.segments[m][j..][k])
    ensures var s := Exec(INIT, run).value;
            var before, ds := Before(s, m, j), Inputs(s, s.segments[m][j..]);
            && (Lines(s.logs[m]) == Lines(before) + Bodies(ds)
                <==> ds == [] || (Clean(before) && forall d :: d in ds ==> OneLine(Body(d))))
            && (Lines(s.logs[m]) == Lines(before) + ds
                <==> ds == [] || (Clean(before) && forall d :: d in ds ==> OneLine(d)))
  {
    hide Enabled, Apply, Exec, InFlight, SegmentMatches, WholeInput, Lines, BytesOf, Framed, Inputs;
    var s := Exec(INIT, run).value;
    var g := s.segments[m];
    LogOf(run, m);
    assert InFlight(s, m) == [] by { NothingInFlight(s, m); }
    forall k | 0 <= k < |g[j..]|
      ensures SegmentMatches(s, m, g[j..][k])
    {
      assert g[j..][k] == g[j + k];
    }
    SegmentsAreFramed(s, m, g[j..]);
    BytesOfConcat(g[..j], g[j..]);
    assert g == g[..j] + g[j..];
    assert s.logs[m] == Before(s, m, j) + Framed(Inputs(s, g[j..]));
    LinesRecoverExactly(Before(s, m, j), Inputs(s, g[j..]));
  }

  // ------------------------------------------------- a prompt or a failed write, then an input

  /** What a write of `data` puts on the master when that takes `taken` bytes. */
  function Part(data: seq<byte>, raw: bool, taken: nat): seq<byte> {
    var p := Payload(Sender(data, raw, Ready));
    p[..Min(taken, |p|)]
  }

  /** A write that reaches the master in whole or in part, then an input that succeeds. */
  function PromptThenInput(s: State, data: seq<byte>, raw: bool, taken: nat, d: seq<byte>): seq<Action>
    requires Exec(s, PtyInput.SendRun(s, data, raw, taken)).Some?
  {
    var first := PtyInput.SendRun(s, data, raw, taken);
    first + PtyInput.SendRun(Exec(s, first).value, d, false, |Frame(d)|)
  }

  lemma {:induction false} ExecConcat(s: State, first: seq<Action>, second: seq<Action>)
    requires Exec(s, first).Some?
    ensures Exec(s, first + second) == Exec(Exec(s, first).value, second)
    decreases |first|
  {
    if first == [] {
      assert first + second == second;
    } else {
      assert (first + second)[1..] == first[1..] + second;
      ExecConcat(Apply(s, first[0]), first[1..], second);
    }
  }

  /** On a new session both writes go through, one after the other. */
  lemma PromptThenInputRuns(data: seq<byte>, raw: bool, taken: nat, d: seq<byte>)
    ensures Exec(INIT, PtyInput.SendRun(INIT, data, raw, taken)).Some?
    ensures var run := PromptThenInput(INIT, data, raw, taken, d);
            Exec(INIT, run).Some? && Exec(INIT, run).value.logs == [Part(data, raw, taken) + Frame(d)]
  {
    hide Enabled, Apply, Exec, Inv, PtyInput.SendRun, PtyInput.SendEnd;
    InitInv();
    PtyInput.SendSteps(INIT, data, raw, taken);
    var first := PtyInput.SendRun(INIT, data, raw, taken);
    var s1 := Exec(INIT, first).value;
    PtyInput.SendSteps(s1, d, false, |Frame(d)|);
    ExecConcat(INIT, first, PtyInput.SendRun(s1, d, false, |Frame(d)|));
    var p := Part(data, raw, taken);
    assert [] + p == p && Frame(d)[..|Frame(d)|] == Frame(d);
  }

  /** On a new session the run exists for every prompt and every failed write, and the input
      that follows reads as a line of its own exactly when what is already there ends in a
      newline or is empty; otherwise it reads as the end of the prompt's last line. */
  lemma RawPromptMerges(data: seq<byte>, raw: bool, taken: nat, d: seq<byte>)
    requires OneLine(d)
    ensures Exec(INIT, PtyInput.SendRun(INIT, data, raw, taken)).Some?
    ensures Exec(INIT, PromptThenInput(INIT, data, raw, taken, d)).Some?
    ensures var s, p := Exec(INIT, PromptThenInput(INIT, data, raw, taken, d)).value, Part(data, raw, taken);
            && |s.logs| == 1 && s.logs[0] == p + Frame(d)
            && Lines(s.logs[0]) == Lines(p) + [Tail(p) + d]
            && (Lines(s.logs[0]) == Lines(p) + [d] <==> Clean(p))
  {
    hide Exec, PromptThenInput, Part, Lines, Tail, Clean, Frame;
    PromptThenInputRuns(data, raw, taken, d);
    var p := Part(data, raw, taken);
    OwnNewlineIsEnough(p, d);
    TailIffClean(p);
    SameTail(Lines(p), [Tail(p) + d], [d]);
    assert [Tail(p) + d] == [d] <==> Tail(p) == [] by {
      assert |Tail(p) + d| == |Tail(p)| + |d|;
      assert [Tail(p) + d][0] == Tail(p) + d && [d][0] == d;
      assert Tail(p) == [] ==> Tail(p) + d == d;
    }
  }
}
