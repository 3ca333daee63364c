/** What the reader does with each line of the child's output, as functions of the lines: which
    frames it answers, forwards or hands to a waiting call, and which it ignores. */
module RpcRouting {
  import opened Common
  import opened RpcProtocol

  /** A frame's id as it stood on the wire. An id of `null` decodes to no id at all; IntId is
      one that decodes to an integer. */
  datatype Id = IntId(n: int) | RawId(raw: string)

  datatype Frame = Frame(name: string, id: Option<Id>, params: string, response: Response)

  /** A line of output: a decoded frame, or text that is not one. */
  datatype Line = NotJson | Parsed(frame: Frame)

  datatype Kind = ServerRequest | Notification | Reply | Ignored

  datatype Body = Result(value: Option<string>) | Failure(err: RpcError)

  /** A response frame written to the child. */
  datatype Answer = Answer(id: Id, body: Body)

  /** One line and what the world does while it is handled: what the request hook would
      return, whether the response encodes, and whether there is a stdin that takes it. */
  datatype Turn = Turn(line: Line, result: Option<string>, err: Option<RpcError>, encodes: bool, live: bool)

  const METHOD_NOT_FOUND := -32601
  const NO_HOOK := "agentsessions: no JsonRpcRequestHook configured for server-initiated request "

  /** The method decides first, then the id. */
  function Classify(line: Line): Kind {
    if line.NotJson? then Ignored
    else if line.frame.name != "" && line.frame.id.Some? then ServerRequest
    else if line.frame.name != "" then Notification
    else if line.frame.id.Some? then Reply
    else Ignored
  }

  function AnswerTo(t: Turn, hooked: bool): Answer
    requires Classify(t.line) == ServerRequest
  {
    var f := t.line.frame;
    var body :=
      if !hooked then
        Failure(RpcError(METHOD_NOT_FOUND, NO_HOOK + f.name))
      else if t.err.Some? then Failure(t.err.value)
      else Result(t.result);
    Answer(f.id.value, body)
  }

  /** What is written to stdin for one line. */
  function Written(t: Turn, hooked: bool): seq<Answer> {
    if Classify(t.line) == ServerRequest && t.encodes && t.live then [AnswerTo(t, hooked)] else []
  }

  function AllWritten(turns: seq<Turn>, hooked: bool): seq<Answer> {
    if turns == [] then [] else AllWritten(turns[..|turns| - 1], hooked) + Written(turns[|turns| - 1], hooked)
  }

  function Notified(t: Turn): seq<(string, string)> {
    if Classify(t.line) == Notification then [(t.line.frame.name, t.line.frame.params)] else []
  }

  function AllNotified(turns: seq<Turn>): seq<(string, string)> {
    if turns == [] then [] else AllNotified(turns[..|turns| - 1]) + Notified(turns[|turns| - 1])
  }

  function Lines(turns: seq<Turn>): seq<Line> {
    seq(|turns|, i requires 0 <= i < |turns| => turns[i].line)
  }

  /** The line carries the response for the call with this id. */
  predicate Answers(t: Turn, id: int) {
    Classify(t.line) == Reply && t.line.frame.id == Some(IntId(id))
  }

  /** The response a call waiting on `id` is handed: the first one for it. */
  function FirstAnswer(turns: seq<Turn>, id: int): Option<Response> {
    if turns == [] then None
    else
      var before := FirstAnswer(turns[..|turns| - 1], id);
      var last := turns[|turns| - 1];
      if before.Some? then before
      else if Answers(last, id) then Some(last.line.frame.response)
      else None
  }

  /** The turns of one kind, in order. */
  function Only(turns: seq<Turn>, k: Kind): seq<Turn> {
    if turns == [] then []
    else
      var last := turns[|turns| - 1];
      Only(turns[..|turns| - 1], k) + if Classify(last.line) == k then [last] else []
  }

  // ------------------------------------------------- theorems

  predicate Called(line: Line) {
    line.Parsed? && line.frame.name != ""
  }

  predicate Tagged(line: Line) {
    line.Parsed? && line.frame.id.Some?
  }

  /** What is written stays written, and nothing is written before its line has come. */
  lemma {:induction false} WrittenGrows(turns: seq<Turn>, i: nat, hooked: bool)
    requires i <= |turns|
    ensures AllWritten(turns[..i], hooked) <= AllWritten(turns, hooked)
    decreases |turns|
  {
    if i == |turns| {
      assert turns[..i] == turns;
    } else {
      var front := turns[..|turns| - 1];
      assert front[..i] == turns[..i];
      WrittenGrows(front, i, hooked);
    }
  }

  lemma NextInPlace<T>(told: seq<T>, x: T, all: seq<T>)
    requires told + [x] <= all
    ensures |told| < |all| && all[|told|] == x
  {
    assert (told + [x])[|told|] == x;
  }

  /** Where line i's answer stands in the output, if it gets one. */
  lemma AnswerInPlace(turns: seq<Turn>, i: nat, hooked: bool)
    requires i < |turns|
    ensures var t, told := turns[i], AllWritten(turns[..i], hooked);
            if Called(t.line) && Tagged(t.line) && Served(t)
            then |told| < |AllWritten(turns, hooked)| && AllWritten(turns, hooked)[|told|].id == t.line.frame.id.value
                 && AllWritten(turns[..i + 1], hooked) == told + [AllWritten(turns, hooked)[|told|]]
            else AllWritten(turns[..i + 1], hooked) == told
  {
    hide AllWritten;
    OneMore(turns, i, hooked, 0);
    WrittenGrows(turns, i + 1, hooked);
    if Written(turns[i], hooked) != [] {
      NextInPlace(AllWritten(turns[..i], hooked), AnswerTo(turns[i], hooked), AllWritten(turns, hooked));
    } else {
      assert AllWritten(turns[..i], hooked) + [] == AllWritten(turns[..i], hooked);
    }
  }

  /** Line i, by what is on it. A method and an id make it a request, answered at the next
      place in the output, under its id, if it is served; a method alone a notification,
      forwarded with its name and params; an id alone a response, which resolves the call with
      that id unless an earlier one did. No line has any other effect. */
  lemma LineEffect(turns: seq<Turn>, i: nat, hooked: bool, id: int)
    requires i < |turns|
    ensures var t, told := turns[i], AllWritten(turns[..i], hooked);
            if Called(t.line) && Tagged(t.line) && Served(t)
            then |told| < |AllWritten(turns, hooked)| && AllWritten(turns, hooked)[|told|].id == t.line.frame.id.value
                 && AllWritten(turns[..i + 1], hooked) == told + [AllWritten(turns, hooked)[|told|]]
            else AllWritten(turns[..i + 1], hooked) == told
    ensures var t := turns[i];
            AllNotified(turns[..i + 1])
            == AllNotified(turns[..i]) + if Called(t.line) && !Tagged(t.line) then [(t.line.frame.name, t.line.frame.params)] else []
    ensures var t, hit := turns[i], FirstAnswer(turns[..i], id);
            FirstAnswer(turns[..i + 1], id)
            == if hit.Some? then hit
               else if !Called(t.line) && Tagged(t.line) && t.line.frame.id.value == IntId(id) then Some(t.line.frame.response)
               else None
  {
    hide AllWritten, AllNotified, FirstAnswer;
    OneMore(turns, i, hooked, id);
    AnswerInPlace(turns, i, hooked);
  }

  /** The effects of the first i + 1 lines are those of the first i and of line i. */
  lemma OneMore(turns: seq<Turn>, i: nat, hooked: bool, id: int)
    requires i < |turns|
    ensures AllWritten(turns[..i + 1], hooked) == AllWritten(turns[..i], hooked) + Written(turns[i], hooked)
    ensures AllNotified(turns[..i + 1]) == AllNotified(turns[..i]) + Notified(turns[i])
    ensures var hit := FirstAnswer(turns[..i], id);
            FirstAnswer(turns[..i + 1], id)
            == if hit.Some? then hit else if Answers(turns[i], id) then Some(turns[i].line.frame.response) else None
  {
    assert turns[..i + 1][..i] == turns[..i];
  }

  predicate Served(t: Turn) {
    t.encodes && t.live
  }

  predicate ServedRequest(t: Turn) {
    Called(t.line) && Tagged(t.line) && Served(t)
  }

  predicate Note(line: Line) {
    Called(line) && !Tagged(line)
  }

  /** Something a line can do to the world. */
  datatype Effect = Writes | Forwards | Resolves(id: int)

  /** Handling line i has this effect. */
  predicate Has(turns: seq<Turn>, i: nat, hooked: bool, e: Effect)
    requires i < |turns|
  {
    match e
    case Writes => AllWritten(turns[..i + 1], hooked) != AllWritten(turns[..i], hooked)
    case Forwards => AllNotified(turns[..i + 1]) != AllNotified(turns[..i])
    case Resolves(id) => FirstAnswer(turns[..i + 1], id) != FirstAnswer(turns[..i], id)
  }

  /** A line has at most one effect, and resolves at most one call. It has none exactly when it
      is junk or carries neither method nor id; or is a request that is not served; or a
      response whose id is not an integer or has been answered before. */
  lemma RoutedExactlyOnce(turns: seq<Turn>, i: nat, hooked: bool)
    requires i < |turns|
    ensures forall e, f :: Has(turns, i, hooked, e) && Has(turns, i, hooked, f) ==> e == f
    ensures var t := turns[i];
            (forall e :: !Has(turns, i, hooked, e))
            <==> if Called(t.line) then Tagged(t.line) && !Served(t)
                 else Tagged(t.line) ==> t.line.frame.id.value.RawId?
                                         || FirstAnswer(turns[..i], t.line.frame.id.value.n).Some?
  {
    hide Has, AllWritten, AllNotified, FirstAnswer;
    var t := turns[i];
    forall e
      ensures Has(turns, i, hooked, e) <==>
              match e
              case Writes => Called(t.line) && Tagged(t.line) && Served(t)
              case Forwards => Called(t.line) && !Tagged(t.line)
              case Resolves(id) => FirstAnswer(turns[..i], id) == None && Answers(t, id)
    {
      EffectOfLine(turns, i, hooked, e);
    }
    if Called(t.line) {
      assert Has(turns, i, hooked, if Tagged(t.line) then Writes else Forwards) <==> Tagged(t.line) ==> Served(t);
    } else if Tagged(t.line) && t.line.frame.id.value.IntId? {
      assert Has(turns, i, hooked, Resolves(t.line.frame.id.value.n)) <==> FirstAnswer(turns[..i], t.line.frame.id.value.n) == None;
    }
  }

  lemma EffectOfLine(turns: seq<Turn>, i: nat, hooked: bool, e: Effect)
    requires i < |turns|
    ensures var t := turns[i];
            Has(turns, i, hooked, e) <==>
            match e
            case Writes => Called(t.line) && Tagged(t.line) && Served(t)
            case Forwards => Called(t.line) && !Tagged(t.line)
            case Resolves(id) => FirstAnswer(turns[..i], id) == None && Answers(t, id)
  {
    hide AllWritten, AllNotified, FirstAnswer;
    OneMore(turns, i, hooked, if e.Resolves? then e.id else 0);
    assert |AllWritten(turns[..i], hooked) + Written(turns[i], hooked)| == |AllWritten(turns[..i], hooked)| + |Written(turns[i], hooked)|;
    assert |AllNotified(turns[..i]) + Notified(turns[i])| == |AllNotified(turns[..i])| + |Notified(turns[i])|;
  }

  lemma {:induction false} NotifiedGrows(turns: seq<Turn>, i: nat)
    requires i <= |turns|
    ensures AllNotified(turns[..i]) <= AllNotified(turns)
    decreases |turns|
  {
    if i == |turns| {
      assert turns[..i] == turns;
    } else {
      var front := turns[..|turns| - 1];
      assert front[..i] == turns[..i];
      NotifiedGrows(front, i);
    }
  }

  lemma {:induction false} FirstAnswerStays(turns: seq<Turn>, i: nat, id: int)
    requires i <= |turns| && FirstAnswer(turns[..i], id).Some?
    ensures FirstAnswer(turns, id) == FirstAnswer(turns[..i], id)
    decreases |turns|
  {
    if i == |turns| {
      assert turns[..i] == turns;
    } else {
      var front := turns[..|turns| - 1];
      assert front[..i] == turns[..i];
      FirstAnswerStays(front, i, id);
    }
  }

  /** Where line i's notification stands among those forwarded, if it is one. */
  lemma NotedInPlace(turns: seq<Turn>, i: nat)
    requires i < |turns|
    ensures var f, told := turns[i].line, AllNotified(turns[..i]);
            && told <= AllNotified(turns[..i + 1]) <= AllNotified(turns)
            && (Called(f) && !Tagged(f) ==>
                  |told| < |AllNotified(turns[..i + 1])| && AllNotified(turns)[|told|] == (f.frame.name, f.frame.params))
  {
    hide AllNotified;
    OneMore(turns, i, false, 0);
    NotifiedGrows(turns, i + 1);
    if Notified(turns[i]) != [] {
      NextInPlace(AllNotified(turns[..i]), Notified(turns[i])[0], AllNotified(turns));
    }
  }

  /** Of two lines, what the earlier does comes first: its answer or its notification stands
      before the later one's in what is written or forwarded, and its response is the one a
      call with their common id is handed. */
  lemma RoutedInOrder(turns: seq<Turn>, i: nat, j: nat, hooked: bool)
    requires i < j < |turns|
    ensures var out := AllWritten(turns, hooked);
            ServedRequest(turns[i]) && ServedRequest(turns[j]) ==>
              exists p, q :: 0 <= p < q < |out| && Some(out[p].id) == turns[i].line.frame.id && Some(out[q].id) == turns[j].line.frame.id
    ensures var out := AllNotified(turns);
            Note(turns[i].line) && Note(turns[j].line) ==>
              exists p, q :: 0 <= p < q < |out| && out[p] == (turns[i].line.frame.name, turns[i].line.frame.params)
                                                && out[q] == (turns[j].line.frame.name, turns[j].line.frame.params)
    ensures forall id :: Answers(turns[i], id) ==>
              !Has(turns, j, hooked, Resolves(id)) && FirstAnswer(turns, id) == FirstAnswer(turns[..i + 1], id)
  {
    hide AllWritten, AllNotified, FirstAnswer;
    assert turns[..j][..i + 1] == turns[..i + 1];
    if ServedRequest(turns[i]) && ServedRequest(turns[j]) {
      AnswerInPlace(turns, i, hooked);
      AnswerInPlace(turns, j, hooked);
      WrittenGrows(turns[..j], i + 1, hooked);
      var p, q := |AllWritten(turns[..i], hooked)|, |AllWritten(turns[..j], hooked)|;
      assert p < q;
    }
    NotedInPlace(turns, i);
    NotedInPlace(turns, j);
    NotifiedGrows(turns[..j], i + 1);
    if Note(turns[i].line) && Note(turns[j].line) {
      var p, q := |AllNotified(turns[..i])|, |AllNotified(turns[..j])|;
      assert p < q;
    }
    forall id | Answers(turns[i], id)
      ensures !Has(turns, j, hooked, Resolves(id)) && FirstAnswer(turns, id) == FirstAnswer(turns[..i + 1], id)
    {
      OneMore(turns, i, hooked, id);
      FirstAnswerStays(turns, i + 1, id);
      FirstAnswerStays(turns[..j], i + 1, id);
      EffectOfLine(turns, j, hooked, Resolves(id));
    }
  }

  ghost predicate AllServed(ts: seq<Turn>) {
    forall i :: 0 <= i < |ts| ==> Served(ts[i])
  }

  lemma AllServedSnoc(ts: seq<Turn>, last: Turn)
    ensures AllServed(ts + [last]) <==> AllServed(ts) && Served(last)
  {
    var all := ts + [last];
    assert all[|ts|] == last && forall i :: 0 <= i < |ts| ==> all[i] == ts[i];
  }

  /** A request goes unanswered exactly when its response does not encode or stdin is gone. */
  lemma {:induction false} WrittenLength(turns: seq<Turn>, hooked: bool)
    ensures |AllWritten(turns, hooked)| <= |Only(turns, ServerRequest)|
    ensures |AllWritten(turns, hooked)| == |Only(turns, ServerRequest)| <==> AllServed(Only(turns, ServerRequest))
    decreases |turns|
  {
    if turns != [] {
      var front, last := turns[..|turns| - 1], turns[|turns| - 1];
      WrittenLength(front, hooked);
      var asked := Only(front, ServerRequest);
      if Classify(last.line) == ServerRequest {
        AllServedSnoc(asked, last);
        assert Only(turns, ServerRequest) == asked + [last];
      } else {
        assert Only(turns, ServerRequest) == asked;
      }
    }
  }

  lemma {:induction false} WrittenInOrder(turns: seq<Turn>, hooked: bool, i: nat)
    requires AllServed(Only(turns, ServerRequest)) && i < |Only(turns, ServerRequest)|
    ensures |AllWritten(turns, hooked)| == |Only(turns, ServerRequest)|
    ensures var asked := Only(turns, ServerRequest)[i];
            Classify(asked.line) == ServerRequest && AllWritten(turns, hooked)[i] == AnswerTo(asked, hooked)
    decreases |turns|
  {
    var front, last := turns[..|turns| - 1], turns[|turns| - 1];
    AllServedSnoc(Only(front, ServerRequest), last);
    WrittenLength(turns, hooked);
    WrittenLength(front, hooked);
    if i < |Only(front, ServerRequest)| {
      WrittenInOrder(front, hooked, i);
    }
  }

  /** While stdin is live and results encode, the reader's writes are one response per server
      request, in arrival order, each echoing its request's id, and carrying the hook's
      outcome, or method-not-found when there is no hook. */
  lemma OneAnswerPerRequest(turns: seq<Turn>, hooked: bool, i: nat)
    requires AllServed(Only(turns, ServerRequest)) && i < |Only(turns, ServerRequest)|
    ensures |AllWritten(turns, hooked)| == |Only(turns, ServerRequest)|
    ensures var asked, told := Only(turns, ServerRequest)[i], AllWritten(turns, hooked)[i];
            && asked.line.Parsed? && asked.line.frame.id == Some(told.id)
            && (!hooked ==> told.body == Failure(RpcError(-32601, NO_HOOK + asked.line.frame.name)))
            && (hooked ==> told.body == if asked.err.Some? then Failure(asked.err.value) else Result(asked.result))
  {
    hide AllWritten, Only, AllServed, Classify, AnswerTo;
    WrittenInOrder(turns, hooked, i);
    AnswerMeans(Only(turns, ServerRequest)[i], hooked);
  }

  lemma AnswerMeans(asked: Turn, hooked: bool)
    requires Classify(asked.line) == ServerRequest
    ensures var told := AnswerTo(asked, hooked);
            && asked.line.Parsed? && asked.line.frame.id == Some(told.id)
            && (!hooked ==> told.body == Failure(RpcError(-32601, NO_HOOK + asked.line.frame.name)))
            && (hooked ==> told.body == if asked.err.Some? then Failure(asked.err.value) else Result(asked.result))
  {
  }

  ghost predicate NoneAnswers(turns: seq<Turn>, id: int) {
    forall i :: 0 <= i < |turns| ==> !Answers(turns[i], id)
  }

  /** Line i is the first that answers this id. */
  ghost predicate FirstAt(turns: seq<Turn>, id: int, i: int) {
    0 <= i < |turns| && Answers(turns[i], id) && forall j :: 0 <= j < i ==> !Answers(turns[j], id)
  }

  /** The call is handed the response of the first frame that answers its id, and nothing if
      no frame does. */
  lemma {:induction false} FirstAnswerIsFirst(turns: seq<Turn>, id: int)
    ensures FirstAnswer(turns, id) == None <==> NoneAnswers(turns, id)
    ensures FirstAnswer(turns, id).Some? ==>
              exists i :: FirstAt(turns, id, i) && FirstAnswer(turns, id).value == turns[i].line.frame.response
    decreases |turns|
  {
    if turns != [] {
      var front := turns[..|turns| - 1];
      FirstAnswerIsFirst(front, id);
      assert forall i :: 0 <= i < |front| ==> front[i] == turns[i];
      if FirstAnswer(front, id).Some? {
        var i :| FirstAt(front, id, i) && FirstAnswer(front, id).value == front[i].line.frame.response;
        assert FirstAt(turns, id, i) && Answers(turns[i], id);
      } else if Answers(turns[|front|], id) {
        assert FirstAt(turns, id, |front|) && Answers(turns[|front|], id);
      }
    }
  }

  /** Requests, notifications and junk cannot resolve a call, whatever ids they carry. */
  lemma {:induction false} OnlyRepliesResolve(turns: seq<Turn>, id: int)
    ensures FirstAnswer(turns, id) == FirstAnswer(Only(turns, Reply), id)
    decreases |turns|
  {
    if turns != [] {
      var front, last := turns[..|turns| - 1], turns[|turns| - 1];
      OnlyRepliesResolve(front, id);
      if Classify(last.line) == Reply {
        var kept := Only(front, Reply) + [last];
        assert kept[..|kept| - 1] == Only(front, Reply);
      } else {
        assert Only(turns, Reply) == Only(front, Reply);
      }
    }
  }
}
