/** Reading a request body through a limit of one byte more than allowed. */
module BodyLimit {
  import opened Prelude

  /** How a body ends: properly, or with a transport error. */
  datatype End = Eof | Broken

  /**
   A body as the transport delivers it: any chunking, empty reads included. The end is reported by a
   read of its own, or, when joined, by the read that takes the last chunk.
   */
  datatype Body = Body(chunks: seq<bytes>, end: End, joined: bool)

  function Flatten(chunks: seq<bytes>): bytes {
    if chunks == [] then [] else chunks[0] + Flatten(chunks[1..])
  }

  predicate Trailing(chunks: seq<bytes>) {
    chunks != [] && chunks[|chunks| - 1] != []
  }

  lemma {:induction false} TrailingFlattens(chunks: seq<bytes>)
    requires Trailing(chunks)
    ensures Flatten(chunks) != []
  {
    if |chunks| > 1 {
      TrailingFlattens(chunks[1..]);
    }
  }

  class Reader {
    var chunks: seq<bytes>
    const end: End
    const joined: bool

    constructor (body: Body)
      ensures chunks == body.chunks && end == body.end && joined == body.joined
    {
      chunks := body.chunks;
      end := body.end;
      joined := body.joined;
    }

    /** Delivers at most room bytes; done means the end was reported, perhaps together with the last bytes. */
    method Read(room: nat) returns (data: bytes, done: bool)
      requires room > 0
      modifies this
      ensures |data| <= room && data + Flatten(chunks) == Flatten(old(chunks))
      ensures done ==> Flatten(chunks) == [] && (data == [] || (joined && Trailing(old(chunks))))
      ensures !done && joined ==> chunks != [] && Trailing(chunks) == Trailing(old(chunks))
      ensures !done ==>
                || |chunks| < |old(chunks)|
                || (|chunks| == |old(chunks)| && |Flatten(chunks)| < |Flatten(old(chunks))|)
    {
      if chunks == [] {
        return [], true;
      }
      if |chunks[0]| <= room {
        data := chunks[0];
        done := joined && |chunks| == 1;
        chunks := chunks[1..];
      } else {
        data, done := chunks[0][..room], false;
        var rest := chunks[0][room..];
        assert chunks[0] == data + rest;
        chunks := [rest] + chunks[1..];
        assert chunks[1..] == old(chunks)[1..];
      }
    }
  }

  datatype Outcome = Whole(data: bytes) | TooLarge | ReadError

  /** The transport error comes together with the body's last bytes. */
  predicate BreaksOnData(body: Body) {
    body.end.Broken? && body.joined && Trailing(body.chunks)
  }

  /** The one body longer than the limit that is reported as broken: the error rides on its byte limit + 1, the last. */
  predicate CutAtLimit(body: Body, limit: int) {
    BreaksOnData(body) && |Flatten(body.chunks)| == limit + 1
  }

  /** What the limit promises: refuse the bodies longer than the limit, else keep every byte. */
  function Judge(body: Body, limit: int): Outcome {
    var all := Flatten(body.chunks);
    if |all| > limit && !CutAtLimit(body, limit) then TooLarge
    else if body.end.Broken? then ReadError
    else Whole(all)
  }

  /**
   io.ReadAll over io.LimitReader: room is the free space ReadAll's buffer happens to have
   at each call (never zero). The limit is the int64 sum, which may have wrapped.
   */
  method ReadLimited(reader: Reader, budget: int) returns (data: bytes, failed: bool)
    modifies reader
    ensures var all := Flatten(old(reader.chunks));
            var seen := if budget < 0 then 0 else budget;
            && data == (if |all| > seen then all[..seen] else all)
            && failed == (&& reader.end.Broken?
                          && (|all| < seen || (|all| == seen > 0 && reader.joined && Trailing(old(reader.chunks)))))
  {
    data, failed := [], false;
    ghost var all := Flatten(reader.chunks);
    var left := budget;
    while left > 0
      invariant data + Flatten(reader.chunks) == all
      invariant budget < 0 ==> left == budget && data == []
      invariant budget >= 0 ==> left >= 0 && |data| + left == budget
      invariant reader.joined && data != [] ==> reader.chunks != []
      invariant reader.joined ==> Trailing(reader.chunks) == Trailing(old(reader.chunks))
      decreases |reader.chunks|, |Flatten(reader.chunks)|
    {
      var room: nat :| room > 0;
      if room > left {
        room := left;
      }
      var chunk, done := reader.Read(room);
      data := data + chunk;
      left := left - |chunk|;
      if done {
        failed := reader.end.Broken?;
        return;
      }
    }
    if Trailing(reader.chunks) {
      TrailingFlattens(reader.chunks);
    }
  }

  /** Step 2 of the push handler, with the int64 addition written out. */
  method ReadBody(body: Body, maxBody: int64) returns (r: Outcome)
    ensures r == ReadSpec(body, maxBody)
  {
    if Trailing(body.chunks) {
      TrailingFlattens(body.chunks);
    }
    var reader := new Reader(body);
    var data, failed := ReadLimited(reader, Wrap64(maxBody + 1));
    if failed {
      r := ReadError;
    } else if |data| > maxBody {
      r := TooLarge;
    } else {
      r := Whole(data);
    }
  }

  /** At the largest int64 the sum wraps, nothing is read, and an empty body is taken for the whole. */
  function ReadSpec(body: Body, maxBody: int64): Outcome {
    if maxBody == MAX64 then Whole([]) else Judge(body, maxBody)
  }

  /**
   Below the largest int64, size_exceeded is reported iff the body is longer than the limit, with one
   exact exception; and whatever is accepted is the whole body, properly ended and within the limit.
   */
  lemma TooLargeExactly(body: Body, maxBody: int64)
    requires maxBody < MAX64
    ensures (ReadSpec(body, maxBody).TooLarge? <==> |Flatten(body.chunks)| > maxBody) <==> !CutAtLimit(body, maxBody)
    ensures ReadSpec(body, maxBody).Whole? <==> body.end.Eof? && |Flatten(body.chunks)| <= maxBody
    ensures ReadSpec(body, maxBody).Whole? ==> ReadSpec(body, maxBody).data == Flatten(body.chunks)
  {
  }

  /** A body is accepted, with all its bytes, iff it ended properly within the limit. */
  predicate AcceptedRightly(body: Body, maxBody: int64) {
    var all := Flatten(body.chunks);
    ReadSpec(body, maxBody) == Whole(all) <==> body.end.Eof? && |all| <= maxBody
  }

  /** That holds of every body iff the limit is below the largest int64. */
  lemma LimitExactWhenBelowMax(maxBody: int64)
    ensures (forall body: Body :: AcceptedRightly(body, maxBody)) <==> maxBody < MAX64
  {
    if maxBody == MAX64 {
      var body := Body([[7]], Eof, false);
      assert Flatten(body.chunks) == [7] + Flatten([]);
      assert !AcceptedRightly(body, maxBody);
    } else {
      forall body: Body ensures AcceptedRightly(body, maxBody) {
        TooLargeExactly(body, maxBody);
      }
    }
  }

  /** The exception is real for every limit from zero on. */
  lemma CutAtLimitExists(limit: nat)
    ensures CutAtLimit(Body([seq(limit + 1, _ => 0)], Broken, true), limit)
  {
    var chunk := seq(limit + 1, _ => 0);
    assert Flatten([chunk]) == chunk + Flatten([]) == chunk;
  }
}
