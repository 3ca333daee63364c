/** The pump from a subscription to a writer. */
module CopyStream {
  import opened Common

  /** What one select iteration picks: a chunk, the drained and closed channel, or the context. */
  datatype Pick = Chunk(bytes: seq<byte>) | Drained | ContextDone

  datatype Outcome = Eof | Cancelled | WriteError | Blocked

  /** The bytes of the chunks picked before anything else. */
  function Stream(picks: seq<Pick>): seq<byte>
    decreases |picks|
  {
    if picks == [] || !picks[0].Chunk? then [] else picks[0].bytes + Stream(picks[1..])
  }

  /** How a writer that never fails sees the stream end. */
  function Ending(picks: seq<Pick>): Outcome
    decreases |picks|
  {
    if picks == [] then Blocked
    else match picks[0]
      case Chunk(_) => Ending(picks[1..])
      case Drained => Eof
      case ContextDone => Cancelled
  }

  /** What a writer with room for `room` more bytes takes of p. */
  function Fits(p: seq<byte>, room: nat): seq<byte> {
    p[..Min(|p|, room)]
  }

  /** Replay first, then chunks in order, until the writer fails, the channel is drained or the
      context is done. The writer holds exactly as much of that stream as it has room for. */
  method CopyStream(replay: seq<byte>, picks: seq<Pick>, room: nat) returns (written: seq<byte>, out: Outcome)
    ensures written == Fits(replay + Stream(picks), room)
    ensures out == if room < |replay + Stream(picks)| then WriteError else Ending(picks)
  {
    ghost var whole := replay + Stream(picks);
    written := Fits(replay, room);
    if |replay| > room {
      return written, WriteError;
    }
    var i := 0;
    while i < |picks|
      invariant 0 <= i <= |picks| && |written| <= room
      invariant whole == written + Stream(picks[i..])
      invariant Ending(picks) == Ending(picks[i..])
    {
      assert picks[i..][1..] == picks[i + 1..];
      match picks[i] {
        case Drained =>
          return written, Eof;
        case ContextDone =>
          return written, Cancelled;
        case Chunk(chunk) =>
          Assoc(written, chunk, Stream(picks[i + 1..]));
          var taken := Fits(chunk, room - |written|);
          written := written + taken;
          if |taken| < |chunk| {
            return written, WriteError;
          }
      }
      i := i + 1;
    }
    out := Blocked;
  }

  /** The pump stops at the first pick that is not a chunk, and says why: end of stream exactly
      when that is the drained and closed channel, the context's error exactly when that is
      the context. What it writes before that is all the chunks in order. */
  lemma {:induction false} EndsAtFirstOther(chunks: seq<seq<byte>>, last: Pick, rest: seq<Pick>)
    requires !last.Chunk?
    ensures var picks := ChunkPicks(chunks) + [last] + rest;
            && Ending(picks) == (if last == ContextDone then Cancelled else Eof)
            && Stream(picks) == Flatten(chunks)
    ensures Ending(ChunkPicks(chunks)) == Blocked
    decreases |chunks|
  {
    var picks := ChunkPicks(chunks) + [last] + rest;
    if chunks == [] {
      assert picks[0] == last;
    } else {
      assert picks[0] == Chunk(chunks[0]);
      assert ChunkPicks(chunks)[1..] == ChunkPicks(chunks[1..]);
      assert picks[1..] == ChunkPicks(chunks[1..]) + [last] + rest;
      EndsAtFirstOther(chunks[1..], last, rest);
      FlattenConcat([chunks[0]], chunks[1..]);
      FlattenSnoc([], chunks[0]);
      assert chunks == [chunks[0]] + chunks[1..];
    }
  }

  function ChunkPicks(chunks: seq<seq<byte>>): (r: seq<Pick>)
    ensures |r| == |chunks| && forall i :: 0 <= i < |r| ==> r[i] == Chunk(chunks[i])
  {
    seq(|chunks|, i requires 0 <= i < |chunks| => Chunk(chunks[i]))
  }
}
