/** The closures of one patched stream response (app/src/libcurl-transport-vendored.ts), with the variables they
    share. */
module StreamResponse {
  import opened Common
  import opened Framing
  import opened BodyPump

  class StreamResponse {
    const head: bool
    var stream: Stream
    var queue: seq<bytes>
    var readers: nat
    var enqueued: seq<bytes>
    var pending: seq<bytes>
    var headersReceived: bool
    var raw: string
    var aborted: bool
    var surfaced: bool
    ghost var received: seq<bytes>
    ghost var lost: bool

    ghost function Now(): State
      reads this
    {
      State(stream, queue, readers, enqueued, pending, headersReceived, raw, aborted, received, surfaced, lost, head)
    }

    /** While the stream accepts chunks it has, with what is parked, everything received, in order. */
    ghost predicate Valid()
      reads this
    {
      Faithful(Now())
    }

    constructor (isHead: bool)
      ensures Valid() && Now() == Fresh(isHead)
    {
      head := isHead;
      stream, queue, readers, enqueued, pending := Readable(false), [], 0, [], [];
      headersReceived, raw, aborted, surfaced := false, "", false, false;
      received, lost := [], false;
    }

    function Wanted(): int
      reads this
    {
      match stream
      case Readable(_) => HIGH_WATER - Size(queue)
      case Closed => 0
      case Errored => 1
    }

    /** False when the controller throws. */
    method Enqueue(chunk: bytes) returns (ok: bool)
      modifies this
      ensures ok == old(Accepting(Now()))
      ensures Now() == if ok then Enqueued(old(Now()), chunk) else old(Now())
    {
      if stream != Readable(false) {
        return false;
      }
      enqueued := enqueued + [chunk];
      if readers > 0 {
        readers := readers - 1;
      } else {
        queue := queue + [chunk];
      }
      ok := true;
    }

    method Close()
      modifies this
      ensures Now() == CloseStream(old(Now()))
    {
      if stream == Readable(false) {
        stream := if queue == [] then Closed else Readable(true);
      }
    }

    method Fail()
      modifies this
      ensures Now() == ErrorStream(old(Now()))
    {
      if stream.Readable? {
        stream, queue := Errored, [];
      }
    }

    method FlushPending(all: bool)
      requires Valid()
      modifies this
      ensures Valid() && Now() == Flushed(old(Now()), all)
      ensures ChunksMoved(old(Now()), Now(), all)
    {
      FlushKeeps(Now(), all);
      FlushMeets(Now(), all);
      hide Faithful, ChunksMoved, Enqueued;
      while pending != [] && (all || Wanted() > 0)
        invariant Flushed(Now(), all) == Flushed(old(Now()), all)
        decreases |pending|
      {
        var ok := Unpark();
        if !ok {
          pending := [];
          return;
        }
      }
    }

    /** The first parked chunk goes to the stream; false when the controller throws. */
    method Unpark() returns (ok: bool)
      requires pending != []
      modifies this
      ensures ok == old(Accepting(Now()))
      ensures Now() == if ok then Unparked(old(Now())) else old(Now())
    {
      ok := Enqueue(pending[0]);
      if ok {
        pending := pending[1..];
      }
    }

    method OnDataChunk(chunk: bytes, throws: bool)
      requires Valid()
      modifies this
      ensures Valid() && Now() == OnData(old(Now()), chunk, throws)
      ensures ChunkTaken(old(Now()), Now(), chunk, throws)
    {
      DataKeeps(Now(), chunk, throws);
      DataMeets(Now(), chunk, throws);
      hide Faithful, ChunkTaken;
      received := received + [chunk];
      if !headersReceived {
        headersReceived := true;
        if throws {
          lost := true;
          return;
        }
        surfaced := true;
      }
      Offer(chunk);
    }

    /** A chunk is parked behind others or while the page wants none; otherwise it goes to the stream, and one
        that the stream does not take ends the transfer. */
    method Offer(chunk: bytes)
      modifies this
      ensures Now() == var s := old(Now());
        if s.pending != [] || Desired(s) <= 0 then s.(pending := s.pending + [chunk])
        else if Accepting(s) then Enqueued(s, chunk)
        else s.(aborted := true)
    {
      hide Enqueued;
      if pending != [] || Wanted() <= 0 {
        pending := pending + [chunk];
        return;
      }
      var ok := Enqueue(chunk);
      if !ok {
        aborted := true;
      }
    }

    /** Header text alone gives the page a response exactly when it completes a block that can have no body and
        one of the two callbacks succeeds; the body is then over. It never touches a chunk. */
    method OnHeaderText(text: string, nullThrows: bool, streamThrows: bool)
      requires Valid()
      modifies this
      ensures Valid() && Now() == OnHeader(old(Now()), text, nullThrows, streamThrows)
      ensures headersReceived <==>
        old(headersReceived) || (Bodiless(old(raw) + text, head) && !(nullThrows && streamThrows))
      ensures headersReceived && old(!headersReceived) ==> !Accepting(Now())
      ensures enqueued == old(enqueued) && pending == old(pending) && received == old(received)
      ensures surfaced && old(!surfaced) ==> nullThrows && !streamThrows && old(!headersReceived)
      ensures old(headersReceived) ==> stream == old(stream)
    {
      hide Bodiless;
      raw := raw + text;
      if headersReceived || !Bodiless(raw, head) {
        return;
      }
      headersReceived := true;
      if nullThrows && streamThrows {
        headersReceived := false;
      } else {
        surfaced := surfaced || nullThrows;
        Close();
      }
    }

    method OnEndCode(error: int, throws: bool)
      requires Valid()
      modifies this
      ensures Valid() && Now() == OnEnd(old(Now()), error, throws)
      ensures EndSeen(old(Now()), Now(), error)
    {
      EndKeeps(Now(), error, throws);
      EndMeets(Now(), error, throws);
      hide Faithful, EndSeen;
      if !headersReceived && error == 56 && CloseDelimited(raw) {
        headersReceived := true;
        if !throws {
          surfaced := true;
        }
      }
      if !headersReceived && error == 0 {
        headersReceived := true;
        if throws {
          return;
        }
        surfaced := true;
      }
      if headersReceived && error != 0 && !(error == 56 && CloseDelimited(raw)) {
        Fail();
      } else {
        FlushPending(true);
        Close();
      }
    }

    method OnAbortSignal()
      requires Valid()
      modifies this
      ensures Valid() && Now() == OnAbort(old(Now()))
      ensures AbortSeen(old(Now()), Now())
    {
      StepKeeps(Now(), Abort);
      AbortMeets(Now());
      hide Faithful, AbortSeen;
      if aborted {
        return;
      }
      aborted := true;
      if headersReceived {
        Fail();
      }
      OnEndCode(-1, false);
    }

    /** A readable stream is closed and emptied, and what was parked for it is dropped with the transfer. */
    method OnPageCancel()
      requires Valid()
      modifies this
      ensures Valid() && Now() == OnCancel(old(Now()))
      ensures !stream.Readable? && (old(stream.Readable?) ==> stream == Closed && queue == [] && aborted)
      ensures old(stream.Readable? && !aborted) ==> pending == []
    {
      if !stream.Readable? {
        return;
      }
      stream, queue := Closed, [];
      if aborted {
        return;
      }
      aborted, pending := true, [];
    }
  }
}
