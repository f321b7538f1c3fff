/** The patched stream response (app/src/libcurl-transport-vendored.ts): the transport's callbacks fill a page
    stream, parking chunks while the page is slow. */
module BodyPump {
  import opened Common
  import opened Framing

  const HIGH_WATER := 65536

  /** The page's stream as the streams standard keeps it; `closing` is a close that waits for the queue. */
  datatype Stream = Readable(closing: bool) | Closed | Errored

  /** `received` is every chunk the transport delivered and `enqueued` every chunk the stream accepted.
      `surfaced` says the page was given the stream, `lost` that a throwing headers callback ate a chunk. */
  datatype State = State(
    stream: Stream, queue: seq<bytes>, readers: nat, enqueued: seq<bytes>, pending: seq<bytes>,
    headersReceived: bool, raw: string, aborted: bool, received: seq<bytes>, surfaced: bool, lost: bool, head: bool)

  function Fresh(head: bool): State {
    State(Readable(false), [], 0, [], [], false, "", false, [], false, false, head)
  }

  function Size(chunks: seq<bytes>): nat
    decreases |chunks|
  {
    if chunks == [] then 0 else |chunks[0]| + Size(chunks[1..])
  }

  // ----- the stream's controller -----

  predicate Accepting(s: State) {
    s.stream == Readable(false)
  }

  /** `desiredSize ?? 1`: an errored stream reports none. */
  function Desired(s: State): int {
    match s.stream
    case Readable(_) => HIGH_WATER - Size(s.queue)
    case Closed => 0
    case Errored => 1
  }

  function Joined(chunks: seq<bytes>): bytes
    decreases |chunks|
  {
    if chunks == [] then [] else chunks[0] + Joined(chunks[1..])
  }

  lemma {:induction false} SizeIsBytes(chunks: seq<bytes>)
    ensures Size(chunks) == |Joined(chunks)|
    decreases |chunks|
  {
    if chunks != [] {
      SizeIsBytes(chunks[1..]);
    }
  }

  /** A readable stream wants more as long as it queues less than 64 KiB; a closed one wants nothing, and what an
      errored one is given is refused, not parked. */
  lemma WantsMoreExactly(s: State)
    ensures Desired(s) > 0 <==> (s.stream.Readable? && |Joined(s.queue)| < 64 * 1024) || s.stream.Errored?
  {
    SizeIsBytes(s.queue);
  }

  /** A waiting read takes the chunk at once. */
  function Enqueued(s: State, chunk: bytes): State
    requires Accepting(s)
  {
    var t := s.(enqueued := s.enqueued + [chunk]);
    if s.readers > 0 then t.(readers := s.readers - 1) else t.(queue := s.queue + [chunk])
  }

  function CloseStream(s: State): State {
    if Accepting(s) then s.(stream := if s.queue == [] then Closed else Readable(true)) else s
  }

  function ErrorStream(s: State): State {
    if s.stream.Readable? then s.(stream := Errored, queue := []) else s
  }

  /** The page's stream ends as if the body were complete. */
  predicate Clean(s: State) {
    s.stream == Closed || s.stream == Readable(true)
  }

  // ----- the callbacks -----

  /** The first parked chunk goes to the stream, and only that changes. */
  function Unparked(s: State): (t: State)
    requires Accepting(s) && s.pending != []
    ensures t.(queue := s.queue, readers := s.readers, enqueued := s.enqueued, pending := s.pending) == s
    ensures t.pending == s.pending[1..]
  {
    Enqueued(s, s.pending[0]).(pending := s.pending[1..])
  }

  /** `flushPending`: while the page wants more, or regardless. */
  function Flushed(s: State, all: bool): State
    decreases |s.pending|
  {
    if s.pending == [] || !(all || Desired(s) > 0) then s
    else if !Accepting(s) then s.(pending := [])
    else Flushed(Unparked(s), all)
  }

  /** A chunk of the body; the headers callback runs before the first, and may throw. */
  function OnData(s: State, chunk: bytes, throws: bool): State {
    var r := s.(received := s.received + [chunk]);
    if !s.headersReceived && throws then r.(headersReceived := true, lost := true)
    else
      var t := if s.headersReceived then r else r.(headersReceived := true, surfaced := true);
      if t.pending != [] || Desired(t) <= 0 then t.(pending := t.pending + [chunk])
      else if Accepting(t) then Enqueued(t, chunk)
      else t.(aborted := true)
  }

  /** Raw header text; a complete bodiless block surfaces the headers with a null body, or with
      the stream, closed at once, for a build that wants one. */
  function OnHeader(s: State, text: string, nullThrows: bool, streamThrows: bool): State {
    var t := s.(raw := s.raw + text);
    if s.headersReceived || !Bodiless(t.raw, s.head) then t
    else if nullThrows && streamThrows then t
    else CloseStream(t.(headersReceived := true, surfaced := s.surfaced || nullThrows))
  }

  /** The closing decision of the end callback. */
  predicate Fails(s: State, error: int) {
    s.headersReceived && error != 0 && !(error == 56 && CloseDelimited(s.raw))
  }

  function Finished(s: State, error: int): State {
    if Fails(s, error) then ErrorStream(s) else CloseStream(Flushed(s, true))
  }

  /** The transfer ended with a code; the headers callback may still have to run, and may throw. */
  function OnEnd(s: State, error: int, throws: bool): State {
    if s.headersReceived then Finished(s, error)
    else if error == 56 && CloseDelimited(s.raw) then
      Finished(s.(headersReceived := true, surfaced := s.surfaced || !throws), error)
    else if error == 0 then
      if throws then s.(headersReceived := true) else Finished(s.(headersReceived := true, surfaced := true), error)
    else Finished(s, error)
  }

  function OnAbort(s: State): State {
    if s.aborted then s
    else
      var t := s.(aborted := true);
      OnEnd(if t.headersReceived then ErrorStream(t) else t, -1, false)
  }

  // ----- the page -----

  function OnPull(s: State): State {
    Flushed(s, false)
  }

  function OnRead(s: State): State {
    if s.queue == [] then (if Accepting(s) then s.(readers := s.readers + 1) else s)
    else
      var t := s.(queue := s.queue[1..]);
      if t.stream == Readable(true) && t.queue == [] then t.(stream := Closed) else t
  }

  /** The page cancels: the stream closes, and the transfer is told unless it already was. */
  function OnCancel(s: State): State {
    if !s.stream.Readable? then s
    else
      var t := s.(stream := Closed, queue := []);
      if s.aborted then t else t.(aborted := true, pending := [])
  }

  datatype Event =
    | Data(chunk: bytes, throws: bool) | Header(text: string, nullThrows: bool, streamThrows: bool)
    | End(error: int, throws: bool) | Abort | Pull | Read | Cancel

  function After(s: State, ev: Event): State {
    match ev
    case Data(chunk, throws) => OnData(s, chunk, throws)
    case Header(text, nullThrows, streamThrows) => OnHeader(s, text, nullThrows, streamThrows)
    case End(error, throws) => OnEnd(s, error, throws)
    case Abort => OnAbort(s)
    case Pull => OnPull(s)
    case Read => OnRead(s)
    case Cancel => OnCancel(s)
  }

  // ----- the invariant -----

  /** Nothing is lost, doubled or reordered: while the stream accepts chunks, what it has and what is parked
      are what was received; afterwards it has the first part of it. */
  predicate Faithful(s: State) {
    && (!s.lost ==> s.enqueued <= s.received && (Accepting(s) ==> s.enqueued + s.pending == s.received))
    && (s.lost ==> s.headersReceived && !s.surfaced)
    && (s.surfaced ==> s.headersReceived)
  }

  /** Flushing changes what is parked, what is queued and who waits, nothing else. */
  lemma {:induction false} FlushFrame(s: State, all: bool)
    ensures var t := Flushed(s, all);
      && t.stream == s.stream && t.received == s.received && t.lost == s.lost
      && t.surfaced == s.surfaced && t.headersReceived == s.headersReceived
      && t.aborted == s.aborted && t.raw == s.raw
      && (all && Accepting(s) ==> t.pending == [])
    decreases |s.pending|
  {
    if s.pending != [] && (all || Desired(s) > 0) && Accepting(s) {
      hide *;
      FlushFrame(Unparked(s), all);
    }
  }

  lemma UnparkKeeps(s: State)
    requires Faithful(s) && Accepting(s) && s.pending != []
    ensures Faithful(Unparked(s))
  {
    assert s.pending == [s.pending[0]] + s.pending[1..];
    assert s.enqueued + s.pending == (s.enqueued + [s.pending[0]]) + s.pending[1..];
  }

  lemma {:induction false} FlushKeeps(s: State, all: bool)
    requires Faithful(s)
    ensures Faithful(Flushed(s, all))
    decreases |s.pending|
  {
    hide Desired;
    if s.pending != [] && (all || Desired(s) > 0) && Accepting(s) {
      UnparkKeeps(s);
      hide Faithful;
      FlushKeeps(Unparked(s), all);
    }
  }

  lemma UnparkMoves(s: State)
    requires Accepting(s) && s.pending != []
    ensures Accepting(Unparked(s)) && Unparked(s).enqueued + Unparked(s).pending == s.enqueued + s.pending
  {
    assert s.pending == [s.pending[0]] + s.pending[1..];
    assert s.enqueued + s.pending == (s.enqueued + [s.pending[0]]) + s.pending[1..];
  }

  /** Flushing an open stream moves chunks across, oldest first, and stops only when the page is full. */
  predicate ChunksMoved(s: State, t: State, all: bool) {
    Accepting(s) ==>
      && Accepting(t) && t.enqueued + t.pending == s.enqueued + s.pending
      && (t.pending != [] ==> !all && Desired(t) <= 0)
  }

  lemma {:induction false} FlushMeets(s: State, all: bool)
    ensures ChunksMoved(s, Flushed(s, all), all)
    decreases |s.pending|
  {
    hide Desired;
    if s.pending != [] && (all || Desired(s) > 0) && Accepting(s) {
      UnparkMoves(s);
      FlushMeets(Unparked(s), all);
    }
  }

  lemma DataKeeps(s: State, chunk: bytes, throws: bool)
    requires Faithful(s)
    ensures Faithful(OnData(s, chunk, throws))
  {
    hide Desired;
    assert (s.enqueued + s.pending) + [chunk] == s.enqueued + (s.pending + [chunk]);
    if s.pending == [] {
      assert s.enqueued + s.pending == s.enqueued;
      assert (s.enqueued + [chunk]) + s.pending == s.enqueued + [chunk];
    }
  }

  /** The chunk goes behind all earlier ones, and straight to the page only when none is parked and the page
      has room. The first one gives the page its response, unless the headers callback throws: then this chunk
      is gone, and no response was given. A stream that is over gets nothing more, and one that would take it but
      throws ends the transfer. */
  predicate ChunkTaken(s: State, t: State, chunk: bytes, throws: bool) {
    && t.headersReceived && t.received == s.received + [chunk] && t.stream == s.stream
    && (!s.headersReceived ==> (t.lost <==> throws) && (t.surfaced <==> !throws))
    && (Accepting(s) && !t.lost ==> t.enqueued + t.pending == (s.enqueued + s.pending) + [chunk])
    && (t.enqueued != s.enqueued ==>
         t.enqueued == s.enqueued + [chunk] && s.pending == [] && Desired(s) > 0 && Accepting(s))
    && (t.aborted <==> s.aborted || ((s.headersReceived || !throws) && s.pending == [] && RefusesChunks(s)))
  }

  /** Errored, or about to close with room left: enqueuing throws. */
  predicate RefusesChunks(s: State) {
    s.stream.Errored? || (s.stream == Readable(true) && |Joined(s.queue)| < 64 * 1024)
  }

  lemma DataMeets(s: State, chunk: bytes, throws: bool)
    requires Faithful(s)
    ensures ChunkTaken(s, OnData(s, chunk, throws), chunk, throws)
  {
    if Accepting(s) {
      DataMoves(s, chunk, throws);
    }
    WantsMoreExactly(s);
    hide Desired, Joined;
  }

  lemma DataMoves(s: State, chunk: bytes, throws: bool)
    requires Accepting(s)
    ensures var t := OnData(s, chunk, throws);
      !t.lost ==> t.enqueued + t.pending == (s.enqueued + s.pending) + [chunk]
  {
    assert s.enqueued + (s.pending + [chunk]) == (s.enqueued + s.pending) + [chunk];
    hide Desired;
  }

  lemma FinishKeeps(s: State, error: int)
    requires Faithful(s)
    ensures var t := Finished(s, error);
      && Faithful(t) && t.surfaced == s.surfaced
      && (!Fails(s, error) && Accepting(s) && !s.lost ==>
           !Accepting(t) && !t.stream.Errored? && t.enqueued == s.received)
  {
    FlushFrame(s, true);
    FlushKeeps(s, true);
    hide Flushed, CloseDelimited;
  }

  lemma EndKeeps(s: State, error: int, throws: bool)
    requires Faithful(s)
    ensures Faithful(OnEnd(s, error, throws))
  {
    hide Finished, CloseDelimited;
    FinishKeeps(s, error);
    if !s.headersReceived {
      FinishKeeps(s.(headersReceived := true, surfaced := true), error);
      FinishKeeps(s.(headersReceived := true), error);
    }
  }

  /** A response that the page reads ends cleanly for a zero code, or for code 56 when the framing check
      passes, and is then complete; it ends with an error for any other code. Code 56 follows the framing of
      the final header block exactly when that block decides the check. */
  ghost predicate EndSeen(s: State, t: State, error: int) {
    s.surfaced && Accepting(s) ==>
      && (Clean(t) <==> error == 0 || (error == 56 && CloseDelimited(s.raw)))
      && (Clean(t) ==> t.enqueued == t.received) && (!Clean(t) ==> t.stream.Errored? && t.queue == [])
      && (error == 56 ==> ((Clean(t) <==> EndsWithClose(s.raw)) <==> FinalBlockDecides(s.raw)))
  }

  lemma EndMeets(s: State, error: int, throws: bool)
    requires Faithful(s)
    ensures EndSeen(s, OnEnd(s, error, throws), error)
  {
    CheckIsExact(s.raw);
    FinishKeeps(s, error);
    FlushFrame(s, true);
    hide Flushed, CloseDelimited, EndsWithClose, FinalBlockDecides;
  }

  /** The page's own abort errors a response that it still reads, adds nothing to it, and counts once. */
  predicate AbortSeen(s: State, t: State) {
    && t.aborted && (s.aborted ==> t == s)
    && (s.surfaced && Accepting(s) && !s.aborted ==> t.stream.Errored? && t.queue == [])
    && (s.surfaced ==> t.enqueued == s.enqueued && t.received == s.received)
  }

  lemma AbortMeets(s: State)
    requires Faithful(s)
    ensures AbortSeen(s, OnAbort(s))
  {
    var t := s.(aborted := true);
    var u := if t.headersReceived then ErrorStream(t) else t;
    FlushFrame(u, true);
    hide Flushed, CloseDelimited;
  }

  lemma StepKeeps(s: State, ev: Event)
    requires Faithful(s)
    ensures Faithful(After(s, ev))
  {
    match ev {
      case Data(chunk, throws) => DataKeeps(s, chunk, throws);
      case Header(_, _, _) => hide Bodiless;
      case End(error, throws) => EndKeeps(s, error, throws);
      case Abort =>
        hide OnEnd;
        EndKeeps(s.(aborted := true), -1, false);
        EndKeeps(ErrorStream(s.(aborted := true)), -1, false);
      case Pull => FlushKeeps(s, false);
      case Read =>
      case Cancel =>
    }
  }

  ghost predicate Run(ss: seq<State>, evs: seq<Event>) {
    && |ss| == |evs| + 1 && (ss[0] == Fresh(true) || ss[0] == Fresh(false))
    && forall i :: 0 <= i < |evs| ==> ss[i + 1] == After(ss[i], evs[i])
  }

  lemma {:induction false} RunKeeps(ss: seq<State>, evs: seq<Event>)
    requires Run(ss, evs)
    ensures Faithful(ss[|evs|])
    decreases |evs|
  {
    if evs != [] {
      var n := |evs| - 1;
      RunKeeps(ss[..n + 1], evs[..n]);
      assert ss[n + 1] == After(ss[n], evs[n]);
      hide Run, Faithful;
      StepKeeps(ss[n], evs[n]);
    }
  }

  /** Over every run the page that was given the stream sees a prefix of what was received. */
  lemma PageSeesAPrefix(ss: seq<State>, evs: seq<Event>)
    requires Run(ss, evs) && ss[|evs|].surfaced
    ensures ss[|evs|].enqueued <= ss[|evs|].received
  {
    RunKeeps(ss, evs);
  }

  /** Once a body-bearing response has surfaced, the end of the transfer closes the body exactly for a zero
      code, or for code 56 when the framing check passes, and then everything received is in the stream; any
      other code errors it. */
  lemma EndIsExact(ss: seq<State>, evs: seq<Event>, error: int, throws: bool)
    requires Run(ss, evs) && ss[|evs|].surfaced && Accepting(ss[|evs|])
    ensures var s, t := ss[|evs|], OnEnd(ss[|evs|], error, throws);
      && (Clean(t) <==> error == 0 || (error == 56 && CloseDelimited(s.raw)))
      && (Clean(t) ==> t.enqueued == s.received)
      && (t.stream.Errored? <==> !(error == 0 || (error == 56 && CloseDelimited(s.raw))))
  {
    RunKeeps(ss, evs);
    FinishKeeps(ss[|evs|], error);
    hide Flushed, CloseDelimited, Run;
    assert ss[|evs|].headersReceived;
  }

  /** A truncated body looks complete in no run whose final header block decides the check: code 56 then closes
      the body cleanly exactly when the final block says that the close of the connection ends it. In all other
      runs it does not do that. It looks complete exactly when no line declares a coding, the final block a length
      and some line a length of zero, and no other error code ever closes cleanly. */
  lemma TruncationIsNeverClean(ss: seq<State>, evs: seq<Event>, throws: bool)
    requires Run(ss, evs) && ss[|evs|].surfaced && Accepting(ss[|evs|])
    ensures var s := ss[|evs|];
      && ((Clean(OnEnd(s, 56, throws)) <==> EndsWithClose(s.raw)) <==> FinalBlockDecides(s.raw))
      && (FinalBlock(s.raw).Some? ==>
           (Clean(OnEnd(s, 56, throws)) && !EndsWithClose(s.raw) <==>
              !Coded(s.raw) && Sized(FinalBlock(s.raw).value) && Zeroed(s.raw)))
      && forall error :: error != 0 && error != 56 ==> OnEnd(s, error, throws).stream.Errored?
  {
    var s := ss[|evs|];
    EndIsExact(ss, evs, 56, throws);
    CheckIsExact(s.raw);
    if FinalBlock(s.raw).Some? {
      PassesWronglyExactly(s.raw);
    }
    forall error | error != 0 && error != 56 ensures OnEnd(s, error, throws).stream.Errored? {
      EndIsExact(ss, evs, error, throws);
    }
    hide *;
  }

  /** One octet of nine arrives, the connection breaks, and the page reads a complete body: an interim block
      had declared a zero length. */
  lemma TruncationLooksComplete() returns (ss: seq<State>, evs: seq<Event>)
    ensures Run(ss, evs) && evs == [Header(OUTWEIGHED, false, false), Data([0], false), End(56, false), Read]
    ensures ss[4].surfaced && ss[4].stream == Closed && ss[4].enqueued == [[0]]
    ensures !EndsWithClose(ss[4].raw)
  {
    ZeroOutweighs();
    OutweighedHasABody();
    hide CloseDelimited, EndsWithClose, Bodiless, OUTWEIGHED;
    var s0 := Fresh(false);
    var s1 := s0.(raw := "" + OUTWEIGHED);
    assert s1.raw == OUTWEIGHED;
    var s2 := s1.(received := [[0]], headersReceived := true, surfaced := true, queue := [[0]], enqueued := [[0]]);
    var s3 := s2.(stream := Readable(true));
    var s4 := s3.(stream := Closed, queue := []);
    ss, evs := [s0, s1, s2, s3, s4], [Header(OUTWEIGHED, false, false), Data([0], false), End(56, false), Read];
  }

  /** The first end of a body that never surfaced before, likewise. */
  lemma SurfacingEndIsWhole(ss: seq<State>, evs: seq<Event>, error: int)
    requires Run(ss, evs) && !ss[|evs|].headersReceived && Accepting(ss[|evs|])
    requires OnEnd(ss[|evs|], error, false).surfaced
    ensures var s, t := ss[|evs|], OnEnd(ss[|evs|], error, false);
      && (error == 0 || (error == 56 && CloseDelimited(s.raw)))
      && !t.stream.Errored? && !Accepting(t) && t.enqueued == s.received
  {
    RunKeeps(ss, evs);
    var s := ss[|evs|];
    FinishKeeps(s, error);
    FinishKeeps(s.(headersReceived := true, surfaced := true), error);
    FlushKeeps(s, true);
    hide CloseDelimited, Run;
  }

  /** An abort never leaves a surfaced body looking complete. */
  lemma AbortIsNeverClean(s: State)
    requires Faithful(s) && s.surfaced && Accepting(s) && !s.aborted
    ensures OnAbort(s).stream.Errored?
  {
    hide Flushed, CloseDelimited;
  }
}
