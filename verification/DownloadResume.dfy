/** Which downloads can be resumed, and from what (app/src/downloads.ts): from the size that is announced, through
    the stream and its failure, to the resume. */
module DownloadResume {
  import opened Common
  import opened Downloads
  import opened DownloadSteps
  import opened DownloadRuns
  import opened DownloadPromises
  import opened DownloadProofs

  /** The announced size is unknown, or at most 64 MiB. */
  predicate Small(size: int) {
    size == -1 || size <= 64 * 1024 * 1024
  }

  // ----- buffering, seen from another entry -----

  /** Only its status may change, and only to less. */
  predicate OnlyLess(e: Entry, f: Entry) {
    f.size == e.size && f.status == e.status && f.received == e.received && (f.resumable ==> e.resumable)
  }

  lemma {:induction false} ShedInfo(s: State, victims: seq<nat>, n: nat, budget: nat, id: nat)
    requires id in s.info
    ensures var t := Shed(s, victims, n, budget);
      && id in t.info && OnlyLess(s.info[id], t.info[id]) && (id !in victims ==> t.info[id] == s.info[id])
    decreases |victims|
  {
    hide Total;
    if Total(s.partials) + n > budget && victims != [] {
      ShedInfo(Drop(s, victims[0]), victims[1..], n, budget, id);
    }
  }

  lemma LessTwice(e: Entry, f: Entry, g: Entry)
    requires OnlyLess(e, f) && OnlyLess(f, g)
    ensures OnlyLess(e, g)
  {
  }

  lemma BufferedEntries(s: State, k: nat, chunk: bytes, budget: nat)
    ensures var b, t := Buffered(s, k, chunk, budget).info, Admitted(s, k, |chunk|, budget);
      b == s.info || (k in s.partials && (b == Drop(s, k).info || b == t.info || b == Drop(t, k).info))
  {
    hide Total, Admitted, Drop;
  }

  lemma BufferedInfo(s: State, k: nat, chunk: bytes, budget: nat, id: nat)
    requires id in s.info
    ensures var t := Buffered(s, k, chunk, budget);
      && id in t.info && OnlyLess(s.info[id], t.info[id]) && (id !in s.partials ==> t.info[id] == s.info[id])
  {
    var t := Admitted(s, k, |chunk|, budget);
    BufferedEntries(s, k, chunk, budget);
    ShedInfo(s, Victims(s, k), |chunk|, budget, id);
    assert id !in s.partials ==> id !in Victims(s, k);
    hide Total, Drop, Victims, Shed, Buffered;
    DropInfo(s, k, id);
    DropInfo(t, k, id);
    LessTwice(s.info[id], t.info[id], Drop(t, k).info[id]);
  }

  lemma DropInfo(s: State, v: nat, id: nat)
    requires id in s.info
    ensures var t := Drop(s, v);
      id in t.info && OnlyLess(s.info[id], t.info[id]) && (id != v ==> t.info[id] == s.info[id])
  {
  }

  /** With room enough the bytes are kept and nothing else changes but for the entry's own cap. */
  lemma BufferedWithRoom(s: State, k: nat, chunk: bytes, budget: nat)
    requires Total(s.partials) + |chunk| <= budget && k in s.info && s.info[k].resumable && k in s.partials
    ensures Buffered(s, k, chunk, budget) ==
      if s.partials[k].n + |chunk| > 64 * 1024 * 1024 then Drop(s, k)
      else s.(partials := s.partials[k := Partial(s.partials[k].chunks + [chunk], s.partials[k].n + |chunk|)])
  {
    hide Total, Victims;
  }

  // ----- the announced size decides -----

  /** A step on entry k keeps every entry's size, makes none resumable again, and changes no other entry that holds
      no buffer. */
  predicate Touched(s: State, t: State, k: nat) {
    forall id <- s.info.Keys ::
      && id in t.info && t.info[id].size == s.info[id].size && (t.info[id].resumable ==> s.info[id].resumable)
      && (id != k && id !in s.partials ==> t.info[id] == s.info[id])
  }

  lemma BufferedTouches(s: State, k: nat, chunk: bytes, budget: nat)
    ensures Touched(s, Buffered(s, k, chunk, budget), k)
  {
    forall id <- s.info.Keys
      ensures var t := Buffered(s, k, chunk, budget);
        && id in t.info && OnlyLess(s.info[id], t.info[id]) && (id !in s.partials ==> t.info[id] == s.info[id])
    {
      BufferedInfo(s, k, chunk, budget, id);
    }
    hide Buffered;
  }

  lemma CountedTouches(s: State, t: State, u: State, k: nat)
    requires Touched(s, t, k) && Touched(t, u, k) && t.partials == s.partials
    ensures Touched(s, u, k)
  {
  }

  lemma TransformedTouches(s: State, k: nat, chunk: bytes, budget: nat)
    requires FlowsAt(s, k)
    ensures Touched(s, Transformed(s, k, chunk, budget), k)
  {
    TransformedIs(s, k, chunk, budget);
    hide Transformed, Buffered;
    if Counts(s, k) {
      var t := Counted(s, k, |chunk|);
      BufferedTouches(t, k, chunk, budget);
      assert Touched(s, t, k) && t.partials == s.partials;
      hide Counted, Touched;
      CountedTouches(s, t, Buffered(t, k, chunk, budget), k);
    }
  }

  lemma PumpedTouches(s: State, k: nat, chunk: bytes, budget: nat)
    ensures Touched(s, Pumped(s, k, chunk, budget), k)
  {
    hide Buffered;
    if k in s.info {
      var t := Received(s, k, s.info[k].received + |chunk|);
      BufferedTouches(t, k, chunk, budget);
      assert Touched(s, t, k) && t.partials == s.partials;
      hide Received, Touched;
      CountedTouches(s, t, Buffered(t, k, chunk, budget), k);
    }
  }

  lemma WrappedTouches(s: State, k: nat)
    ensures Touched(s, Wrapped(s, k), k)
  {
  }

  lemma PausedTouches(s: State, k: nat)
    ensures Touched(s, PausedNow(s, k), k)
  {
  }

  lemma CancelledTouches(s: State, k: nat)
    ensures Touched(s, CancelledNow(s, k), k)
  {
  }

  lemma FlushedTouches(s: State, k: nat)
    requires FlowsAt(s, k)
    ensures Touched(s, Flushed(s, k), k)
  {
  }

  lemma CaughtTouches(s: State, k: nat)
    requires k in s.pipes && s.pipes[k].Broken?
    ensures Touched(s, Caught(s, k), k)
  {
  }

  lemma ResumedTouches(s: State, k: nat)
    ensures Touched(s, Resumed(s, k), k)
  {
  }

  lemma SeenTouches(s: State, k: nat)
    ensures Touched(s, Seen(s, k), k)
  {
  }

  lemma MissedTouches(s: State, k: nat)
    ensures Touched(s, Missed(s, k), k)
  {
  }

  lemma EndedTouches(s: State, k: nat, status: Status)
    ensures Touched(s, Ended(Marked(s, k, status), k), k)
  {
  }

  lemma AnsweredTouches(s: State, k: nat, status: int, start: Option<nat>)
    ensures Touched(s, Answered(s, k, status, start), k)
  {
    hide *;
    if status == 416 {
      GoneTouches(s, k, status, start);
    } else if status == 206 {
      RangeTouches(s, k, status, start);
    } else {
      RestartTouches(s, k, status, start);
    }
  }

  lemma GoneTouches(s: State, k: nat, status: int, start: Option<nat>)
    requires status == 416
    ensures Touched(s, Answered(s, k, status, start), k)
  {
  }

  lemma RangeTouches(s: State, k: nat, status: int, start: Option<nat>)
    requires status == 206
    ensures Touched(s, Answered(s, k, status, start), k)
  {
  }

  lemma RestartTouches(s: State, k: nat, status: int, start: Option<nat>)
    requires status != 416 && status != 206
    ensures Touched(s, Answered(s, k, status, start), k)
  {
  }

  predicate OnOne(ev: Event) {
    !ev.Begin? && !ev.Restart?
  }

  lemma StreamStepTouches(w: World, ev: Event, budget: nat)
    requires Enabled(w, ev) && StreamEvent(ev)
    ensures Touched(w.st, After(w, ev, budget).st, ev.id)
  {
    var st := w.st;
    match ev {
      case Wrap(k) => WrappedTouches(st, k);
      case Chunk(k, chunk) => TransformedTouches(st, k, chunk, budget);
      case Flush(k) => FlushedTouches(st, k);
      case Break(k) =>
      case Catch(k) => CaughtTouches(st, k);
      case Settle(k) =>
      case Pause(k) => PausedTouches(st, k);
      case Cancel(k) => CancelledTouches(st, k);
    }
    hide Transformed, Pumped, Answered, Wrapped, PausedNow, CancelledNow, Flushed, Caught, Resumed, Seen, Missed,
      Ended, Marked, Begun, Reborn, Flatten, With;
  }

  lemma ResumeStepTouches(w: World, ev: Event, budget: nat)
    requires Enabled(w, ev) && ResumeEvent(ev)
    ensures Touched(w.st, After(w, ev, budget).st, ev.id)
  {
    var st := w.st;
    match ev {
      case Resume(k) => ResumedTouches(st, k);
      case LoadHit(k) =>
      case LoadMiss(k) => MissedTouches(st, k);
      case LoadSeen(k) => SeenTouches(st, k);
      case Answer(k, status, start) => AnsweredTouches(st, k, status, start);
      case FetchThrows(k) => EndedTouches(st, k, Paused);
      case PumpChunk(k, chunk) => PumpedTouches(st, k, chunk, budget);
      case PumpEnds(k) => EndedTouches(st, k, if k in st.partials then Done else Failed);
      case PumpThrows(k) => EndedTouches(st, k, Paused);
    }
    hide Transformed, Pumped, Answered, Wrapped, PausedNow, CancelledNow, Flushed, Caught, Resumed, Seen, Missed,
      Ended, Marked, Begun, Reborn, Flatten, With;
  }

  lemma StepTouches(w: World, ev: Event, budget: nat)
    requires Enabled(w, ev) && OnOne(ev)
    ensures Touched(w.st, After(w, ev, budget).st, ev.id)
  {
    hide Touched;
    if StreamEvent(ev) {
      StreamStepTouches(w, ev, budget);
    } else if ResumeEvent(ev) {
      ResumeStepTouches(w, ev, budget);
    } else {
      NothingTouched(w.st, ev.id);
    }
  }

  lemma NothingTouched(s: State, k: nat)
    ensures Touched(s, s, k)
  {
  }

  // ----- what costs an entry its buffer -----

  /** A step on entry k leaves the buffers of the others alone; `kept` says that it leaves k one, too. */
  predicate Holding(s: State, t: State, k: nat, kept: bool) {
    && (forall id <- s.partials.Keys :: id != k ==> id in t.partials && t.partials[id] == s.partials[id])
    && (kept && k in s.partials ==> k in t.partials)
  }

  lemma WrappedHolds(s: State, k: nat)
    ensures Holding(s, Wrapped(s, k), k, true)
  {
  }

  lemma PausedHolds(s: State, k: nat)
    ensures Holding(s, PausedNow(s, k), k, true)
  {
  }

  lemma CancelledHolds(s: State, k: nat)
    ensures Holding(s, CancelledNow(s, k), k, false)
  {
  }

  lemma FlushedHolds(s: State, k: nat)
    requires FlowsAt(s, k)
    ensures Holding(s, Flushed(s, k), k, false)
  {
  }

  lemma CaughtHolds(s: State, k: nat)
    requires k in s.pipes && s.pipes[k].Broken?
    ensures Holding(s, Caught(s, k), k, true)
  {
  }

  lemma ResumedHolds(s: State, k: nat)
    ensures Holding(s, Resumed(s, k), k, true)
  {
  }

  lemma SeenHolds(s: State, k: nat)
    ensures Holding(s, Seen(s, k), k, true)
  {
  }

  lemma MissedHolds(s: State, k: nat)
    ensures Holding(s, Missed(s, k), k, true)
  {
  }

  lemma EndedHolds(s: State, k: nat, status: Status)
    ensures Holding(s, Ended(Marked(s, k, status), k), k, true)
  {
  }

  lemma AnsweredHolds(s: State, k: nat, status: int, start: Option<nat>)
    ensures Holding(s, Answered(s, k, status, start), k, status != 416)
  {
  }

  /** The bytes fit under the entry's own 64 MiB. */
  predicate OwnFits(s: State, k: nat, n: nat) {
    k in s.partials ==> s.partials[k].n + n <= 64 * 1024 * 1024
  }

  lemma BufferedHolds(s: State, k: nat, chunk: bytes, budget: nat)
    requires Total(s.partials) + |chunk| <= budget
    ensures Holding(s, Buffered(s, k, chunk, budget), k, OwnFits(s, k, |chunk|))
  {
    if k in s.info && s.info[k].resumable && k in s.partials {
      BufferedWithRoom(s, k, chunk, budget);
    }
    hide Total, Admitted;
  }

  lemma TransformedHolds(s: State, k: nat, chunk: bytes, budget: nat)
    requires FlowsAt(s, k) && Total(s.partials) + |chunk| <= budget
    ensures Holding(s, Transformed(s, k, chunk, budget), k, OwnFits(s, k, |chunk|))
  {
    TransformedIs(s, k, chunk, budget);
    hide Transformed, Buffered, Total;
    if Counts(s, k) {
      BufferedHolds(Counted(s, k, |chunk|), k, chunk, budget);
    }
  }

  lemma PumpedHolds(s: State, k: nat, chunk: bytes, budget: nat)
    requires Total(s.partials) + |chunk| <= budget
    ensures Holding(s, Pumped(s, k, chunk, budget), k, OwnFits(s, k, |chunk|))
  {
    hide Buffered, Total;
    if k in s.info {
      BufferedHolds(Received(s, k, s.info[k].received + |chunk|), k, chunk, budget);
    }
  }

  /** What can cost an entry its buffer: bytes beyond its own 64 MiB, bytes that the budget has no room for, the end
      of its stream, a cancel, a range that is gone, its eviction from a full ring, and a restart. */
  ghost predicate CanLose(w: World, ev: Event, id: nat, budget: nat) {
    match ev
    case Chunk(k, chunk) => Total(w.st.partials) + |chunk| > budget || (k == id && !OwnFits(w.st, k, |chunk|))
    case PumpChunk(k, chunk) => Total(w.st.partials) + |chunk| > budget || (k == id && !OwnFits(w.st, k, |chunk|))
    case Flush(k) => k == id
    case Cancel(k) => k == id
    case Answer(k, status, _) => k == id && status == 416
    case Begin(_) => |w.st.order| >= 200 && Idle(w.st, id)
    case Restart => true
    case _ => false
  }

  lemma StreamHolds(w: World, ev: Event, budget: nat, id: nat)
    requires Enabled(w, ev) && StreamEvent(ev) && id in w.st.partials && !CanLose(w, ev, id, budget)
    ensures id in After(w, ev, budget).st.partials
  {
    var st := w.st;
    match ev {
      case Wrap(k) => WrappedHolds(st, k);
      case Chunk(k, chunk) => TransformedHolds(st, k, chunk, budget);
      case Flush(k) => FlushedHolds(st, k);
      case Break(k) =>
      case Catch(k) => CaughtHolds(st, k);
      case Settle(k) =>
      case Pause(k) => PausedHolds(st, k);
      case Cancel(k) => CancelledHolds(st, k);
    }
    hide Transformed, Pumped, Answered, Wrapped, PausedNow, CancelledNow, Flushed, Caught, Resumed, Seen, Missed,
      Ended, Marked, Begun, Reborn, Flatten, With, Total, Inv;
  }

  lemma LoadHolds(w: World, ev: Event, budget: nat, id: nat)
    requires Enabled(w, ev) && (ev.Resume? || ev.LoadHit? || ev.LoadMiss? || ev.LoadSeen?) && id in w.st.partials
    ensures id in After(w, ev, budget).st.partials
  {
    var st := w.st;
    match ev {
      case Resume(k) => ResumedHolds(st, k);
      case LoadHit(k) =>
      case LoadMiss(k) => MissedHolds(st, k);
      case LoadSeen(k) => SeenHolds(st, k);
    }
    hide Transformed, Pumped, Answered, Wrapped, PausedNow, CancelledNow, Flushed, Caught, Resumed, Seen, Missed,
      Ended, Marked, Begun, Reborn, Flatten, With, Total, Inv;
  }

  lemma PumpHolds(w: World, ev: Event, budget: nat, id: nat)
    requires Enabled(w, ev) && ResumeEvent(ev) && !(ev.Resume? || ev.LoadHit? || ev.LoadMiss? || ev.LoadSeen?)
    requires id in w.st.partials && !CanLose(w, ev, id, budget)
    ensures id in After(w, ev, budget).st.partials
  {
    var st := w.st;
    match ev {
      case Answer(k, status, start) => AnsweredHolds(st, k, status, start);
      case FetchThrows(k) => EndedHolds(st, k, Paused);
      case PumpChunk(k, chunk) => PumpedHolds(st, k, chunk, budget);
      case PumpEnds(k) => EndedHolds(st, k, if k in st.partials then Done else Failed);
      case PumpThrows(k) => EndedHolds(st, k, Paused);
    }
    hide Transformed, Pumped, Answered, Wrapped, PausedNow, CancelledNow, Flushed, Caught, Resumed, Seen, Missed,
      Ended, Marked, Begun, Reborn, Flatten, With, Total, Inv;
  }

  lemma ResumeHolds(w: World, ev: Event, budget: nat, id: nat)
    requires Enabled(w, ev) && ResumeEvent(ev) && id in w.st.partials && !CanLose(w, ev, id, budget)
    ensures id in After(w, ev, budget).st.partials
  {
    hide CanLose, After, Enabled;
    if ev.Resume? || ev.LoadHit? || ev.LoadMiss? || ev.LoadSeen? {
      LoadHolds(w, ev, budget, id);
    } else {
      PumpHolds(w, ev, budget, id);
    }
  }

  lemma BegunHolds(s: State, size: int, id: nat)
    requires id in s.partials && !(|s.order| >= 200 && Idle(s, id))
    ensures id in Begun(s, size).partials
  {
  }

  /** Nothing else costs it the buffer. */
  lemma LosesOnly(w: World, ev: Event, budget: nat, id: nat)
    requires Consistent(w) && Enabled(w, ev) && id in w.st.partials && id !in After(w, ev, budget).st.partials
    ensures CanLose(w, ev, id, budget)
  {
    hide Inv;
    if !CanLose(w, ev, id, budget) {
      if StreamEvent(ev) {
        StreamHolds(w, ev, budget, id);
      } else if ResumeEvent(ev) {
        ResumeHolds(w, ev, budget, id);
      } else if ev.Begin? {
        BegunHolds(w.st, ev.size, id);
      }
      assert false;
    }
  }

  // ----- from the announcement to the wrap -----

  /** The entry stands as it was announced, and its stream is not wrapped yet. */
  predicate Announced(s: State, id: nat, size: int) {
    && id in s.info && id !in s.wrapped && s.info[id].size == size && s.info[id].status != Paused
    && (s.info[id].resumable <==> Small(size))
  }

  lemma BeginAnnounces(w: World, size: int, budget: nat)
    requires Consistent(w)
    ensures Announced(After(w, Begin(size), budget).st, w.st.next, size)
  {
    assert EntryOk(w.st, w.log, w.st.next, 0, 0);
    hide Inv, FirstIdle, Flatten;
  }

  lemma {:induction false} ShedFrame(s: State, victims: seq<nat>, n: nat, budget: nat)
    ensures var t := Shed(s, victims, n, budget);
      t.order == s.order && t.pumps == s.pumps && t.pipes == s.pipes && t.streams == s.streams && t.wrapped == s.wrapped
      && t.next == s.next
    decreases |victims|
  {
    hide Total;
    if Total(s.partials) + n > budget && victims != [] {
      ShedFrame(Drop(s, victims[0]), victims[1..], n, budget);
    }
  }

  /** Buffering touches the entries and the buffers only. */
  lemma BufferedFrame(s: State, k: nat, chunk: bytes, budget: nat)
    ensures var t := Buffered(s, k, chunk, budget);
      t.order == s.order && t.pumps == s.pumps && t.pipes == s.pipes && t.streams == s.streams && t.wrapped == s.wrapped
      && t.next == s.next
  {
    hide Total, Shed, Victims;
    ShedFrame(s, Victims(s, k), |chunk|, budget);
  }

  lemma TransformedFrame(s: State, k: nat, chunk: bytes, budget: nat)
    requires FlowsAt(s, k)
    ensures var t := Transformed(s, k, chunk, budget);
      && t.order == s.order && t.pumps == s.pumps && t.streams == s.streams && t.wrapped == s.wrapped && t.next == s.next
      && t.pipes == s.pipes[k := s.pipes[k].(sent := s.pipes[k].sent + |chunk|)]
  {
    TransformedIs(s, k, chunk, budget);
    hide Transformed, Buffered;
    if Counts(s, k) {
      BufferedFrame(Counted(s, k, |chunk|), k, chunk, budget);
    }
  }

  lemma PumpedFrame(s: State, k: nat, chunk: bytes, budget: nat)
    ensures var t := Pumped(s, k, chunk, budget);
      && t.order == s.order && t.pumps == s.pumps && t.pipes == s.pipes && t.streams == s.streams
      && t.wrapped == s.wrapped && t.next == s.next
  {
    hide Buffered;
    if k in s.info {
      BufferedFrame(Received(s, k, s.info[k].received + |chunk|), k, chunk, budget);
    }
  }

  lemma ChunkFrames(w: World, ev: Event, budget: nat)
    requires Enabled(w, ev)
    ensures ev.Chunk? || ev.PumpChunk? ==>
      var t := After(w, ev, budget).st;
      && t.order == w.st.order && t.pumps == w.st.pumps && t.streams == w.st.streams && t.wrapped == w.st.wrapped
      && t.next == w.st.next
  {
    hide Transformed, Pumped;
    if ev.Chunk? {
      TransformedFrame(w.st, ev.id, ev.chunk, budget);
    } else if ev.PumpChunk? {
      PumpedFrame(w.st, ev.id, ev.chunk, budget);
    }
  }

  /** Only a wrap wraps. */
  lemma WrappedOnce(w: World, ev: Event, budget: nat, id: nat)
    requires Enabled(w, ev) && ev != Wrap(id)
    ensures id in After(w, ev, budget).st.wrapped <==> id in w.st.wrapped
  {
    ChunkFrames(w, ev, budget);
    hide Transformed, Pumped, Flatten, With, FirstIdle, Buffered;
  }

  /** An entry without a stream can only be cancelled or paused. */
  lemma UnwrappedIsQuiet(w: World, ev: Event, id: nat)
    requires Consistent(w) && Enabled(w, ev) && OnOne(ev) && ev.id == id && id !in w.st.wrapped
    requires id in w.st.info ==> w.st.info[id].status != Paused
    ensures ev.Wrap? || ev.Pause? || ev.Cancel? || ev.Lands? || ev.Erased?
  {
    assert EntryOk(w.st, w.log, id, 0, 0);
    hide Inv, BufferOk, FlowOk, PumpOk;
  }

  lemma CancelledAnnounced(s: State, id: nat, size: int)
    requires Announced(s, id, size)
    ensures Announced(CancelledNow(s, id), id, size)
  {
  }

  lemma RebornAnnounced(s: State, id: nat, size: int)
    requires Announced(s, id, size)
    ensures Announced(Reborn(s), id, size)
  {
  }

  lemma BegunAnnounced(s: State, n: int, id: nat, size: int)
    requires Announced(s, id, size) && id != s.next
    ensures Announced(Begun(s, n), id, size)
  {
    hide FirstIdle;
  }

  lemma TouchedAnnounced(s: State, t: State, k: nat, id: nat, size: int)
    requires Announced(s, id, size) && Touched(s, t, k) && id != k && id !in s.partials && id !in t.wrapped
    ensures Announced(t, id, size)
  {
  }

  lemma AnnouncedStays(w: World, ev: Event, budget: nat, id: nat, size: int)
    requires Consistent(w) && Enabled(w, ev) && Announced(w.st, id, size) && ev != Wrap(id) && ev != Pause(id)
    ensures Announced(After(w, ev, budget).st, id, size)
  {
    assert EntryOk(w.st, w.log, id, 0, 0);
    WrappedOnce(w, ev, budget, id);
    if OnOne(ev) {
      StepTouches(w, ev, budget);
      if ev.id == id {
        UnwrappedIsQuiet(w, ev, id);
        CancelledAnnounced(w.st, id, size);
      } else {
        assert id !in w.st.partials && Announced(w.st, id, size) && id !in After(w, ev, budget).st.wrapped;
        TouchedAnnounced(w.st, After(w, ev, budget).st, ev.id, id, size);
      }
    } else if ev.Restart? {
      RebornAnnounced(w.st, id, size);
    } else {
      BegunAnnounced(w.st, ev.size, id, size);
    }
    hide Inv, EntryOk, Announced, Touched, Transformed, Pumped, Answered, Wrapped, PausedNow, CancelledNow, Flushed, Caught,
      Resumed, Seen, Missed, Ended, Marked, Begun, Reborn, Flatten, With;
  }

  /** The announcement is at i, and up to j the entry is neither wrapped nor paused. */
  ghost predicate AnnouncedAt(ws: seq<World>, evs: seq<Event>, i: nat, j: nat, size: int)
    requires |ws| == |evs| + 1
  {
    && i < j <= |evs| && evs[i] == Begin(size)
    && forall k :: i < k < j ==> evs[k] != Wrap(ws[i].st.next) && evs[k] != Pause(ws[i].st.next)
  }

  lemma {:induction false} AnnouncedUntil(ws: seq<World>, evs: seq<Event>, budget: nat, i: nat, j: nat, size: int)
    requires Run(ws, evs, budget) && AnnouncedAt(ws, evs, i, j, size)
    ensures Announced(ws[j].st, ws[i].st.next, size)
    decreases j
  {
    var id := ws[i].st.next;
    var n := j - 1;
    RunIsConsistentAt(ws, evs, budget, n);
    assert Enabled(ws[n], evs[n]) && ws[n + 1] == After(ws[n], evs[n], budget);
    assert n > i ==> AnnouncedAt(ws, evs, i, n, size) && evs[n] != Wrap(id) && evs[n] != Pause(id);
    assert evs[i] == Begin(size);
    hide Run, Consistent, After, Enabled, Announced, AnnouncedAt;
    if n == i {
      BeginAnnounces(ws[i], size, budget);
    } else {
      AnnouncedUntil(ws, evs, budget, i, n, size);
      AnnouncedStays(ws[n], evs[n], budget, id, size);
    }
  }

  lemma WrapOpens(w: World, budget: nat, id: nat, size: int)
    requires Enabled(w, Wrap(id)) && Announced(w.st, id, size) && id !in w.st.partials
    ensures var v := After(w, Wrap(id), budget);
      && (id in v.st.partials <==> id in w.st.order && Small(size))
      && (id in v.st.partials ==> v.st.partials[id] == Partial([], 0))
      && v.log == w.log && v.st.info == w.st.info
  {
  }

  /** Over every run: a download whose announced size is unknown or at most 64 MiB, and that is in the ring when its
      stream is wrapped, holds a buffer from there on; any other holds none. */
  lemma BufferFromTheWrap(ws: seq<World>, evs: seq<Event>, budget: nat, i: nat, j: nat, size: int)
    requires Run(ws, evs, budget) && AnnouncedAt(ws, evs, i, j, size) && j < |evs|
    requires evs[j] == Wrap(ws[i].st.next)
    ensures var id := ws[i].st.next;
      && (id in ws[j + 1].st.partials <==> id in ws[j].st.order && (size == -1 || size <= 64 * 1024 * 1024))
      && (id in ws[j + 1].st.partials ==> ws[j + 1].st.partials[id].chunks == [])
  {
    var id := ws[i].st.next;
    AnnouncedUntil(ws, evs, budget, i, j, size);
    RunIsConsistentAt(ws, evs, budget, j);
    assert EntryOk(ws[j].st, ws[j].log, id, 0, 0);
    assert Enabled(ws[j], evs[j]) && ws[j + 1] == After(ws[j], evs[j], budget);
    hide Run, After, Enabled, Inv;
    WrapOpens(ws[j], budget, id, size);
  }

  /** What the size allows, the registry keeps: it never makes an entry resumable that the size does not. */
  predicate Sized(s: State, id: nat, size: int) {
    id in s.info && s.info[id].size == size && (s.info[id].resumable ==> Small(size))
  }

  lemma SizedStays(w: World, ev: Event, budget: nat, id: nat, size: int)
    requires Consistent(w) && Enabled(w, ev) && Sized(w.st, id, size)
    ensures Sized(After(w, ev, budget).st, id, size)
  {
    assert EntryOk(w.st, w.log, w.st.next, 0, 0);
    hide Inv, EntryOk, FirstIdle, Flatten, With;
    if OnOne(ev) {
      StepTouches(w, ev, budget);
      TouchedSized(w.st, After(w, ev, budget).st, ev.id, id, size);
    } else {
      WholeSized(w, ev, budget, id, size);
    }
  }

  lemma TouchedSized(s: State, t: State, k: nat, id: nat, size: int)
    requires Touched(s, t, k) && Sized(s, id, size)
    ensures Sized(t, id, size)
  {
  }

  lemma WholeSized(w: World, ev: Event, budget: nat, id: nat, size: int)
    requires Consistent(w) && Enabled(w, ev) && !OnOne(ev) && Sized(w.st, id, size)
    ensures Sized(After(w, ev, budget).st, id, size)
  {
    assert EntryOk(w.st, w.log, w.st.next, 0, 0) && EntryOk(w.st, w.log, id, 0, 0);
    hide Inv, FirstIdle, Flatten;
  }

  lemma {:induction false} SizedSince(ws: seq<World>, evs: seq<Event>, budget: nat, i: nat, n: nat, size: int)
    requires Run(ws, evs, budget) && i < n <= |evs| && evs[i] == Begin(size)
    ensures Sized(ws[n].st, ws[i].st.next, size)
    decreases n
  {
    assert i < |ws|;
    hide Run, Sized;
    if n - 1 == i {
      SizedAtFirst(ws, evs, budget, i, size);
    } else {
      SizedSince(ws, evs, budget, i, n - 1, size);
      SizedMore(ws, evs, budget, ws[i].st.next, size, n - 1);
    }
  }

  lemma SizedAtFirst(ws: seq<World>, evs: seq<Event>, budget: nat, i: nat, size: int)
    requires Run(ws, evs, budget) && i < |evs| && evs[i] == Begin(size)
    ensures Sized(ws[i + 1].st, ws[i].st.next, size)
  {
    RunIsConsistentAt(ws, evs, budget, i);
    assert ws[i + 1] == After(ws[i], evs[i], budget);
    hide Run, Consistent, After;
    BeginAnnounces(ws[i], size, budget);
  }

  lemma SizedMore(ws: seq<World>, evs: seq<Event>, budget: nat, id: nat, size: int, n: nat)
    requires Run(ws, evs, budget) && n < |evs| && Sized(ws[n].st, id, size)
    ensures Sized(ws[n + 1].st, id, size)
  {
    RunIsConsistentAt(ws, evs, budget, n);
    assert Enabled(ws[n], evs[n]) && ws[n + 1] == After(ws[n], evs[n], budget);
    hide *;
    SizedStays(ws[n], evs[n], budget, id, size);
  }

  /** Past 64 MiB there is never a buffer, nor a resume. */
  lemma BigIsNeverHeld(ws: seq<World>, evs: seq<Event>, budget: nat, i: nat, n: nat, size: int)
    requires Run(ws, evs, budget) && i < n <= |evs| && evs[i] == Begin(size) && size > 64 * 1024 * 1024
    ensures var id := ws[i].st.next; id !in ws[n].st.partials && !Enabled(ws[n], Resume(id))
  {
    SizedSince(ws, evs, budget, i, n, size);
    RunIsConsistentAt(ws, evs, budget, n);
    assert EntryOk(ws[n].st, ws[n].log, ws[i].st.next, 0, 0);
    hide Run, Inv;
  }

  // ----- a stream that is left alone -----

  lemma WrappedElsewhere(s: State, k: nat)
    ensures OthersStay(s, Wrapped(s, k), k)
  {
  }

  lemma PausedElsewhere(s: State, k: nat)
    ensures OthersStay(s, PausedNow(s, k), k)
  {
  }

  lemma CancelledElsewhere(s: State, k: nat)
    ensures OthersStay(s, CancelledNow(s, k), k)
  {
  }

  lemma FlushedElsewhere(s: State, k: nat)
    requires FlowsAt(s, k)
    ensures OthersStay(s, Flushed(s, k), k)
  {
  }

  lemma CaughtElsewhere(s: State, k: nat)
    requires k in s.pipes && s.pipes[k].Broken?
    ensures OthersStay(s, Caught(s, k), k)
  {
  }

  lemma ResumedElsewhere(s: State, k: nat)
    ensures OthersStay(s, Resumed(s, k), k)
  {
  }

  lemma SeenElsewhere(s: State, k: nat)
    ensures OthersStay(s, Seen(s, k), k)
  {
  }

  lemma MissedElsewhere(s: State, k: nat)
    ensures OthersStay(s, Missed(s, k), k)
  {
  }

  lemma EndedElsewhere(s: State, k: nat, status: Status)
    ensures OthersStay(s, Ended(Marked(s, k, status), k), k)
  {
  }

  lemma DrainedElsewhere(s: State, k: nat)
    ensures OthersStay(s, Drained(s, k), k)
  {
  }

  lemma ZeroElsewhere(s: State, k: nat)
    ensures OthersStay(s, FromZero(s, k), k)
  {
    var t := if k in s.partials then s.(partials := s.partials[k := Partial([], 0)]) else s;
    var r := Received(t, k, 0);
    assert OthersStay(s, r, k);
    DrainedElsewhere(r, k);
    hide OthersStay, Received, Drained;
    StayTwice(s, r, Drained(r, k), k);
  }

  lemma GoneElsewhere(s: State, k: nat)
    ensures OthersStay(s, Ended(Forget(Marked(s, k, Failed), k), k), k)
  {
  }

  lemma AnsweredElsewhere(s: State, k: nat, status: int, start: Option<nat>)
    ensures OthersStay(s, Answered(s, k, status, start), k)
  {
    GoneElsewhere(s, k);
    DrainedElsewhere(s, k);
    EndedElsewhere(s, k, Paused);
    ZeroElsewhere(s, k);
    hide OthersStay, Ended, Forget, Marked, Drained, FromZero;
  }

  lemma BufferedElsewhere(s: State, k: nat, chunk: bytes, budget: nat)
    requires Total(s.partials) + |chunk| <= budget
    ensures OthersStay(s, Buffered(s, k, chunk, budget), k)
  {
    if k in s.info && s.info[k].resumable && k in s.partials {
      BufferedWithRoom(s, k, chunk, budget);
    }
    hide Total, Admitted;
  }

  lemma StayTwice(s: State, t: State, u: State, k: nat)
    requires OthersStay(s, t, k) && OthersStay(t, u, k)
    ensures OthersStay(s, u, k)
  {
    forall i: nat | i != k ensures SameAt(s, u, i) {
      assert SameAt(s, t, i) && SameAt(t, u, i);
    }
  }

  lemma TransformedElsewhere(s: State, k: nat, chunk: bytes, budget: nat)
    requires FlowsAt(s, k) && Total(s.partials) + |chunk| <= budget
    ensures OthersStay(s, Transformed(s, k, chunk, budget), k)
  {
    TransformedIs(s, k, chunk, budget);
    hide Transformed, Buffered, Total;
    if Counts(s, k) {
      var t := Counted(s, k, |chunk|);
      BufferedElsewhere(t, k, chunk, budget);
      assert OthersStay(s, t, k);
      hide Counted, OthersStay;
      StayTwice(s, t, Buffered(t, k, chunk, budget), k);
    }
  }

  lemma PumpedElsewhere(s: State, k: nat, chunk: bytes, budget: nat)
    requires Total(s.partials) + |chunk| <= budget
    ensures OthersStay(s, Pumped(s, k, chunk, budget), k)
  {
    hide Buffered, Total;
    if k in s.info {
      var t := Received(s, k, s.info[k].received + |chunk|);
      BufferedElsewhere(t, k, chunk, budget);
      assert OthersStay(s, t, k);
      hide Received, OthersStay;
      StayTwice(s, t, Buffered(t, k, chunk, budget), k);
    }
  }

  /** The entry's stream runs or has just broken, and nothing has ended it; it holds a buffer when its size allows. */
  predicate Streaming(s: State, id: nat, size: int) {
    && Known(s, id) && s.info[id].size == size && s.info[id].status == Active
    && (s.info[id].resumable <==> Small(size)) && (Small(size) ==> id in s.partials)
    && id in s.pipes && !s.pipes[id].Finished? && s.pipes[id].tracked && id in s.streams && id !in s.pumps
  }

  /** An event that neither ends the stream or its failure nor meets a bound: the bytes of every stream and every
      resume find room under the budget, and those of this one under 64 MiB. */
  ghost predicate Calm(w: World, ev: Event, id: nat, budget: nat) {
    match ev
    case Chunk(k, chunk) => Total(w.st.partials) + |chunk| <= budget && (k == id ==> OwnFits(w.st, id, |chunk|))
    case PumpChunk(_, chunk) => Total(w.st.partials) + |chunk| <= budget
    case Flush(k) => k != id
    case Catch(k) => k != id
    case Pause(k) => k != id
    case Cancel(k) => k != id
    case Restart => false
    case _ => true
  }

  function Brought(ev: Event, id: nat): bytes {
    if ev.Chunk? && ev.id == id then ev.chunk else []
  }

  lemma StreamElsewhere(w: World, ev: Event, budget: nat, id: nat)
    requires Enabled(w, ev) && StreamEvent(ev) && ev.id != id && Calm(w, ev, id, budget)
    ensures SameAt(w.st, After(w, ev, budget).st, id) && After(w, ev, budget).log(id) == w.log(id)
  {
    var st := w.st;
    match ev {
      case Wrap(k) => WrappedElsewhere(st, k);
      case Chunk(k, chunk) => TransformedElsewhere(st, k, chunk, budget);
      case Flush(k) => FlushedElsewhere(st, k);
      case Break(k) =>
      case Catch(k) => CaughtElsewhere(st, k);
      case Settle(k) =>
      case Pause(k) => PausedElsewhere(st, k);
      case Cancel(k) => CancelledElsewhere(st, k);
    }
    hide Transformed, Pumped, Answered, Wrapped, PausedNow, CancelledNow, Flushed, Caught, Resumed, Seen, Missed,
      Ended, Marked, Begun, Reborn, Flatten, Total;
  }

  lemma ResumeElsewhere(w: World, ev: Event, budget: nat, id: nat)
    requires Enabled(w, ev) && ResumeEvent(ev) && ev.id != id && Calm(w, ev, id, budget)
    ensures SameAt(w.st, After(w, ev, budget).st, id) && After(w, ev, budget).log(id) == w.log(id)
  {
    var st := w.st;
    match ev {
      case Resume(k) => ResumedElsewhere(st, k);
      case LoadHit(k) =>
      case LoadMiss(k) => MissedElsewhere(st, k);
      case LoadSeen(k) => SeenElsewhere(st, k);
      case Answer(k, status, start) => AnsweredElsewhere(st, k, status, start);
      case FetchThrows(k) => EndedElsewhere(st, k, Paused);
      case PumpChunk(k, chunk) => PumpedElsewhere(st, k, chunk, budget);
      case PumpEnds(k) => EndedElsewhere(st, k, if k in st.partials then Done else Failed);
      case PumpThrows(k) => EndedElsewhere(st, k, Paused);
    }
    hide Transformed, Pumped, Answered, Wrapped, PausedNow, CancelledNow, Flushed, Caught, Resumed, Seen, Missed,
      Ended, Marked, Begun, Reborn, Flatten, Total;
  }

  lemma SameStreams(s: State, t: State, id: nat, size: int)
    requires Streaming(s, id, size) && SameAt(s, t, id)
    ensures Streaming(t, id, size)
  {
  }

  lemma BegunStreams(s: State, n: int, id: nat, size: int)
    requires Streaming(s, id, size) && id < s.next
    ensures Streaming(Begun(s, n), id, size)
  {
    var p := Pushed(s, n);
    var i := FirstIdle(p, 0);
    assert forall x :: x in s.order ==> x in p.order;
    if |p.order| > RING && i < |p.order| {
      assert p.order[i] != id;
      var k :| 0 <= k < |p.order| && p.order[k] == id;
      var e := p.order[..i] + p.order[i + 1..];
      assert if k < i then e[k] == id else e[k - 1] == id;
    }
    hide FirstIdle;
  }

  lemma OwnChunkStreams(s: State, id: nat, size: int, chunk: bytes, budget: nat)
    requires Streaming(s, id, size) && FlowsAt(s, id) && Total(s.partials) + |chunk| <= budget && OwnFits(s, id, |chunk|)
    ensures Streaming(Transformed(s, id, chunk, budget), id, size) && Counts(s, id)
  {
    TransformedIs(s, id, chunk, budget);
    var t := Counted(s, id, |chunk|);
    if Small(size) {
      BufferedWithRoom(t, id, chunk, budget);
    }
    hide Transformed, Admitted, Total;
  }

  lemma OwnEventStreams(w: World, ev: Event, budget: nat, id: nat, size: int)
    requires Consistent(w) && Enabled(w, ev) && OnOne(ev) && ev.id == id
    requires Streaming(w.st, id, size) && Calm(w, ev, id, budget)
    ensures Streaming(After(w, ev, budget).st, id, size)
    ensures After(w, ev, budget).log(id) == w.log(id) + Brought(ev, id)
  {
    assert EntryOk(w.st, w.log, id, 0, 0);
    if ev.Chunk? {
      OwnChunkStreams(w.st, id, size, ev.chunk, budget);
    }
    hide Inv, BufferOk, FlowOk, Transformed, Pumped, Answered, Wrapped, PausedNow, CancelledNow, Flushed, Caught, Resumed, Seen, Missed,
      Ended, Marked, Begun, Reborn, Flatten, Total;
  }

  lemma CalmStreams(w: World, ev: Event, budget: nat, id: nat, size: int)
    requires Consistent(w) && Enabled(w, ev) && Streaming(w.st, id, size) && Calm(w, ev, id, budget)
    ensures Streaming(After(w, ev, budget).st, id, size)
    ensures After(w, ev, budget).log(id) == w.log(id) + Brought(ev, id)
  {
    assert EntryOk(w.st, w.log, id, 0, 0);
    if OnOne(ev) && ev.id == id {
      OwnEventStreams(w, ev, budget, id, size);
    } else if ev.Begin? {
      BegunStreams(w.st, ev.size, id, size);
    } else {
      if StreamEvent(ev) {
        StreamElsewhere(w, ev, budget, id);
      } else if ResumeEvent(ev) {
        ResumeElsewhere(w, ev, budget, id);
      }
      assert SameAt(w.st, After(w, ev, budget).st, id);
      SameStreams(w.st, After(w, ev, budget).st, id, size);
    }
    hide Inv, BufferOk, FlowOk, PumpOk, UnwrappedOk, Streaming, SameAt, Transformed, Pumped, Answered, Wrapped, PausedNow, CancelledNow, Flushed, Caught, Resumed, Seen, Missed,
      Ended, Marked, Begun, Reborn, Flatten, Total;
  }

  // ----- a stream that fails -----

  /** The bytes that an entry's stream has sent. */
  function Sent(evs: seq<Event>, id: nat): bytes
    decreases |evs|
  {
    if evs == [] then [] else Sent(evs[..|evs| - 1], id) + Brought(evs[|evs| - 1], id)
  }

  lemma SentGrows(evs: seq<Event>, id: nat, a: nat, b: nat)
    requires a < b <= |evs|
    ensures Sent(evs[a..b], id) == Sent(evs[a..b - 1], id) + Brought(evs[b - 1], id)
  {
    assert evs[a..b][..b - a - 1] == evs[a..b - 1];
    assert evs[a..b][b - a - 1] == evs[b - 1];
  }

  lemma {:induction false} StreamedSoFar(ws: seq<World>, evs: seq<Event>, budget: nat, id: nat, size: int, a: nat, n: nat)
    requires Run(ws, evs, budget) && a <= n <= |evs| && Streaming(ws[a].st, id, size)
    requires forall k :: a <= k < n ==> Calm(ws[k], evs[k], id, budget)
    ensures Streaming(ws[n].st, id, size) && ws[n].log(id) == ws[a].log(id) + Sent(evs[a..n], id)
    decreases n
  {
    hide Run, Streaming, Calm;
    if a == n {
      assert evs[a..n] == [];
    } else {
      StreamedSoFar(ws, evs, budget, id, size, a, n - 1);
      StreamedMore(ws, evs, budget, id, size, n - 1);
      SentGrows(evs, id, a, n);
    }
  }

  lemma StreamedMore(ws: seq<World>, evs: seq<Event>, budget: nat, id: nat, size: int, n: nat)
    requires Run(ws, evs, budget) && n < |evs| && Streaming(ws[n].st, id, size) && Calm(ws[n], evs[n], id, budget)
    ensures Streaming(ws[n + 1].st, id, size) && ws[n + 1].log(id) == ws[n].log(id) + Brought(evs[n], id)
  {
    RunIsConsistentAt(ws, evs, budget, n);
    assert Enabled(ws[n], evs[n]) && ws[n + 1] == After(ws[n], evs[n], budget);
    hide *;
    CalmStreams(ws[n], evs[n], budget, id, size);
  }

  /** The entry waits for a resume with these bytes in hand, and asks for the rest. */
  ghost predicate Waits(w: World, id: nat, sent: bytes) {
    && Enabled(w, Resume(id)) && w.st.info[id].status == Paused && w.st.info[id].received == |sent|
    && id in w.st.partials && Flatten(w.st.partials[id].chunks) == sent
  }

  ghost predicate HasFailed(w: World, id: nat) {
    id in w.st.info && w.st.info[id].status == Failed && !Enabled(w, Resume(id))
  }

  lemma CatchStops(w: World, budget: nat, id: nat, size: int)
    requires Consistent(w) && Enabled(w, Catch(id)) && Streaming(w.st, id, size)
    ensures var v := After(w, Catch(id), budget);
      if Small(size) && w.log(id) != [] then Waits(v, id, w.log(id)) else HasFailed(v, id)
  {
    assert EntryOk(w.st, w.log, id, 0, 0);
    hide Inv, Flatten;
  }

  lemma WrapStreams(w: World, budget: nat, id: nat, size: int)
    requires Consistent(w) && Enabled(w, Wrap(id)) && Announced(w.st, id, size) && Known(w.st, id) && IsActive(w.st, id)
    ensures var v := After(w, Wrap(id), budget); Streaming(v.st, id, size) && FlowsAt(v.st, id) && v.log(id) == []
  {
    assert EntryOk(w.st, w.log, id, 0, 0);
    hide Inv, BufferOk, FlowOk, PumpOk;
  }

  /** The download announced at i was in the ring and active when it was wrapped at j, its stream fails with the last
      event, and meanwhile nothing ended it or met a bound. */
  ghost predicate FailsAtTheEnd(ws: seq<World>, evs: seq<Event>, budget: nat, i: nat, j: nat, size: int) {
    && |ws| == |evs| + 1
    && AnnouncedAt(ws, evs, i, j, size) && j + 1 < |evs|
    && var id := ws[i].st.next;
      && evs[j] == Wrap(id) && Known(ws[j].st, id) && IsActive(ws[j].st, id) && evs[|evs| - 1] == Catch(id)
      && forall k :: j < k < |evs| - 1 ==> Calm(ws[k], evs[k], id, budget)
  }

  lemma FailsParts(ws: seq<World>, evs: seq<Event>, budget: nat, i: nat, j: nat, size: int)
    requires FailsAtTheEnd(ws, evs, budget, i, j, size)
    ensures |ws| == |evs| + 1 && AnnouncedAt(ws, evs, i, j, size) && i < j && j + 1 < |evs|
    ensures var id := ws[i].st.next;
      && evs[j] == Wrap(id) && Known(ws[j].st, id) && IsActive(ws[j].st, id) && evs[|evs| - 1] == Catch(id)
      && forall k :: j < k < |evs| - 1 ==> Calm(ws[k], evs[k], id, budget)
  {
    hide Calm, Known, IsActive;
  }

  ghost predicate ResumableBySize(w: World, id: nat, size: int, sent: bytes) {
    if (size == -1 || size <= 64 * 1024 * 1024) && sent != [] then Waits(w, id, sent) else HasFailed(w, id)
  }

  /** Over every run: such a download can be resumed exactly when its announced size was unknown or at most 64 MiB and
      a byte was sent. It is then paused with every byte that was sent, and asks for the rest; otherwise it has
      failed. */
  lemma FailedStreamResumes(ws: seq<World>, evs: seq<Event>, budget: nat, i: nat, j: nat, size: int)
    requires Run(ws, evs, budget) && FailsAtTheEnd(ws, evs, budget, i, j, size)
    ensures ResumableBySize(ws[|evs|], ws[i].st.next, size, Sent(evs[j + 1..|evs| - 1], ws[i].st.next))
  {
    hide *;
    FailsParts(ws, evs, budget, i, j, size);
    WrapAt(ws, evs, budget, i, j, size);
    FailedFrom(ws, evs, budget, ws[i].st.next, size, j + 1);
  }

  lemma FailedFrom(ws: seq<World>, evs: seq<Event>, budget: nat, id: nat, size: int, a: nat)
    requires Run(ws, evs, budget) && a < |evs| && Streaming(ws[a].st, id, size) && ws[a].log(id) == []
    requires evs[|evs| - 1] == Catch(id) && forall k :: a <= k < |evs| - 1 ==> Calm(ws[k], evs[k], id, budget)
    ensures ResumableBySize(ws[|evs|], id, size, Sent(evs[a..|evs| - 1], id))
  {
    hide Run, Sent, Calm, Waits, HasFailed, Streaming;
    var n := |evs| - 1;
    StreamedSoFar(ws, evs, budget, id, size, a, n);
    assert [] + Sent(evs[a..n], id) == Sent(evs[a..n], id);
    CatchAt(ws, evs, budget, id, size, n);
  }

  lemma WrapAt(ws: seq<World>, evs: seq<Event>, budget: nat, i: nat, j: nat, size: int)
    requires Run(ws, evs, budget) && AnnouncedAt(ws, evs, i, j, size) && j < |evs|
    requires var id := ws[i].st.next; evs[j] == Wrap(id) && Known(ws[j].st, id) && IsActive(ws[j].st, id)
    ensures var id := ws[i].st.next; Streaming(ws[j + 1].st, id, size) && ws[j + 1].log(id) == []
  {
    AnnouncedUntil(ws, evs, budget, i, j, size);
    RunIsConsistentAt(ws, evs, budget, j);
    assert Enabled(ws[j], evs[j]) && ws[j + 1] == After(ws[j], evs[j], budget);
    hide *;
    WrapStreams(ws[j], budget, ws[i].st.next, size);
  }

  lemma CatchAt(ws: seq<World>, evs: seq<Event>, budget: nat, id: nat, size: int, n: nat)
    requires Run(ws, evs, budget) && n < |evs| && evs[n] == Catch(id) && Streaming(ws[n].st, id, size)
    ensures if Small(size) && ws[n].log(id) != [] then Waits(ws[n + 1], id, ws[n].log(id)) else HasFailed(ws[n + 1], id)
  {
    RunIsConsistentAt(ws, evs, budget, n);
    assert Enabled(ws[n], evs[n]) && ws[n + 1] == After(ws[n], evs[n], budget);
    hide *;
    CatchStops(ws[n], budget, id, size);
  }

  // ----- the same, alone in the registry -----

  lemma EmptyIsConsistent()
    ensures Run([EMPTY], [], 0) && Consistent(EMPTY)
  {
    RunIsConsistent([EMPTY], [], 0);
  }

  lemma LoneStart(size: int, budget: nat) returns (ws: seq<World>, evs: seq<Event>)
    ensures Run(ws, evs, budget) && evs == [Begin(size), Wrap(1)]
    ensures Streaming(ws[2].st, 1, size) && FlowsAt(ws[2].st, 1) && ws[2].st.partials.Keys <= {1} && ws[2].log(1) == []
  {
    ws, evs := [EMPTY], [];
    EmptyIsConsistent();
    BeginAnnounces(EMPTY, size, budget);
    LoneBegin(size, budget);
    var w := After(EMPTY, Begin(size), budget);
    hide After, FirstIdle, Announced;
    ws, evs := Extended(ws, evs, budget, Begin(size));
    RunIsConsistent(ws, evs, budget);
    hide Run, Consistent;
    WrapStreams(w, budget, 1, size);
    LoneWrap(w, budget);
    ws, evs := Extended(ws, evs, budget, Wrap(1));
  }

  lemma LoneBegin(size: int, budget: nat)
    ensures var w := After(EMPTY, Begin(size), budget);
      EMPTY.st.next == 1 && Known(w.st, 1) && IsActive(w.st, 1) && Enabled(w, Wrap(1)) && w.st.partials == map[]
  {
  }

  lemma LoneWrap(w: World, budget: nat)
    requires Enabled(w, Wrap(1)) && w.st.partials == map[]
    ensures After(w, Wrap(1), budget).st.partials.Keys <= {1}
  {
  }

  lemma LoneRoom(s: State, n: nat, budget: nat)
    requires s.partials.Keys <= {1} && (1 in s.partials ==> s.partials[1].n + n <= budget) && n <= budget
    ensures Total(s.partials) + n <= budget
  {
    if 1 in s.partials {
      TotalSplits(s.partials, 1);
      assert s.partials - {1} == map[];
    } else {
      assert s.partials == map[];
    }
  }

  lemma LoneChunk(w: World, chunk: bytes, budget: nat, size: int)
    requires Consistent(w) && Streaming(w.st, 1, size) && FlowsAt(w.st, 1) && w.st.partials.Keys <= {1}
    requires |w.log(1)| + |chunk| <= budget && |w.log(1)| + |chunk| <= 64 * 1024 * 1024
    ensures Enabled(w, Chunk(1, chunk)) && Calm(w, Chunk(1, chunk), 1, budget)
    ensures var v := After(w, Chunk(1, chunk), budget); FlowsAt(v.st, 1) && v.st.partials.Keys <= {1}
  {
    assert EntryOk(w.st, w.log, 1, 0, 0);
    assert 1 in w.st.partials ==> w.st.partials[1].n == |w.log(1)|;
    LoneRoom(w.st, |chunk|, budget);
    OwnChunkStreams(w.st, 1, size, chunk, budget);
    TransformedFrame(w.st, 1, chunk, budget);
    TransformedKeys(w.st, 1, chunk, budget);
    hide Inv, EntryOk, Transformed, Total;
  }

  lemma TransformedKeys(s: State, k: nat, chunk: bytes, budget: nat)
    requires FlowsAt(s, k) && Total(s.partials) + |chunk| <= budget
    ensures Transformed(s, k, chunk, budget).partials.Keys <= s.partials.Keys
  {
    TransformedIs(s, k, chunk, budget);
    hide Transformed, Total, Admitted;
    if Counts(s, k) {
      var t := Counted(s, k, |chunk|);
      if t.info[k].resumable && k in t.partials {
        BufferedWithRoom(t, k, chunk, budget);
      }
    }
  }

  function Chunks(chunks: seq<bytes>): seq<Event> {
    seq(|chunks|, k requires 0 <= k < |chunks| => Chunk(1, chunks[k]))
  }

  lemma ChunksSnoc(front: seq<bytes>, chunk: bytes)
    ensures Chunks(front + [chunk]) == Chunks(front) + [Chunk(1, chunk)]
  {
  }

  lemma {:induction false} LoneStream(size: int, chunks: seq<bytes>, budget: nat) returns (ws: seq<World>, evs: seq<Event>)
    requires |Flatten(chunks)| <= budget && |Flatten(chunks)| <= 64 * 1024 * 1024
    ensures Run(ws, evs, budget) && evs == [Begin(size), Wrap(1)] + Chunks(chunks)
    ensures var w := ws[|evs|];
      Streaming(w.st, 1, size) && FlowsAt(w.st, 1) && w.st.partials.Keys <= {1} && w.log(1) == Flatten(chunks)
    decreases |chunks|
  {
    if chunks == [] {
      ws, evs := LoneStart(size, budget);
    } else {
      var front, chunk := chunks[..|chunks| - 1], chunks[|chunks| - 1];
      assert Flatten(chunks) == Flatten(front) + chunk;
      assert chunks == front + [chunk];
      ChunksSnoc(front, chunk);
      hide Flatten, Streaming, Chunks;
      ws, evs := LoneStream(size, front, budget);
      ws, evs := OneMoreChunk(ws, evs, chunk, budget, size);
      assert [Begin(size), Wrap(1)] + Chunks(front) + [Chunk(1, chunk)] == [Begin(size), Wrap(1)] + Chunks(chunks);
    }
  }

  lemma OneMoreChunk(ws: seq<World>, evs: seq<Event>, chunk: bytes, budget: nat, size: int)
    returns (vs: seq<World>, es: seq<Event>)
    requires Run(ws, evs, budget)
    requires var w := ws[|evs|];
      && Streaming(w.st, 1, size) && FlowsAt(w.st, 1) && w.st.partials.Keys <= {1}
      && |w.log(1)| + |chunk| <= budget && |w.log(1)| + |chunk| <= 64 * 1024 * 1024
    ensures Run(vs, es, budget) && es == evs + [Chunk(1, chunk)]
    ensures var v := vs[|es|];
      && Streaming(v.st, 1, size) && FlowsAt(v.st, 1) && v.st.partials.Keys <= {1}
      && v.log(1) == ws[|evs|].log(1) + chunk
  {
    RunIsConsistent(ws, evs, budget);
    var w := ws[|evs|];
    hide Run, Consistent, Streaming, After, Enabled, Calm;
    LoneChunk(w, chunk, budget, size);
    CalmStreams(w, Chunk(1, chunk), budget, 1, size);
    vs, es := Extended(ws, evs, budget, Chunk(1, chunk));
  }

  lemma BreakBreaks(w: World, budget: nat, size: int)
    requires Streaming(w.st, 1, size) && FlowsAt(w.st, 1)
    ensures Enabled(w, Break(1)) && Calm(w, Break(1), 1, budget)
    ensures Enabled(After(w, Break(1), budget), Catch(1))
  {
  }

  /** A single download whose bytes fit the budget and 64 MiB: after any chunks its stream breaks, and it waits for a
      resume with all of them, or has failed. */
  lemma LoneDownload(size: int, chunks: seq<bytes>, budget: nat) returns (ws: seq<World>, evs: seq<Event>)
    requires |Flatten(chunks)| <= budget && |Flatten(chunks)| <= 64 * 1024 * 1024
    ensures Run(ws, evs, budget) && evs == [Begin(size), Wrap(1)] + Chunks(chunks) + [Break(1)] + [Catch(1)]
    ensures ResumableBySize(ws[|evs|], 1, size, Flatten(chunks))
  {
    hide Flatten, Waits, HasFailed, Streaming, After, Enabled, Consistent, Calm, Chunks;
    ws, evs := LoneStream(size, chunks, budget);
    RunIsConsistent(ws, evs, budget);
    var w := ws[|evs|];
    BreakBreaks(w, budget, size);
    CalmStreams(w, Break(1), budget, 1, size);
    assert w.log(1) + Brought(Break(1), 1) == w.log(1);
    ws, evs := Extended(ws, evs, budget, Break(1));
    RunIsConsistent(ws, evs, budget);
    hide Run;
    CatchStops(ws[|evs|], budget, 1, size);
    ws, evs := Extended(ws, evs, budget, Catch(1));
  }

  // ----- the other ends -----

  /** A stream that ends while its entry counts it leaves the entry done, with nothing held for a resume. */
  lemma EndedStreamIsDone(w: World, budget: nat, id: nat)
    requires Enabled(w, Flush(id))
    ensures var v := After(w, Flush(id), budget);
      && OthersStay(w.st, v.st, id) && !FlowsAt(v.st, id)
      && (Counts(w.st, id) ==>
           && id in v.st.info && v.st.info[id].status == Done && v.st.info[id].received == w.st.info[id].received
           && id !in v.st.partials)
      && (!Counts(w.st, id) ==> v.st.info == w.st.info && v.st.partials == w.st.partials)
  {
  }

  /** After a restart the ring is what it was, what was active has failed, and nothing streams, pumps or is held; what
      is in storage, or on its way there, stays. */
  lemma RestartInterrupts(w: World, budget: nat)
    ensures var v := After(w, Restart, budget);
      && v.st.order == w.st.order && v.st.info.Keys == w.st.info.Keys
      && v.st.partials == map[] && v.st.pumps == map[] && v.st.pipes == map[] && v.st.streams == {}
      && v.stored == w.stored && v.pending == w.pending
      && (forall id <- w.st.info.Keys ::
           v.st.info[id] == if w.st.info[id].status == Active then w.st.info[id].(status := Failed) else w.st.info[id])
  {
  }
}
