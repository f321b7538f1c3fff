/** Every step of the download registry (app/src/downloads.ts): the callbacks of a wrapped stream, the
    controls, the stages of a resume, the writes that reach storage later, and a worker restart. Nothing is
    assumed of the bytes that the streams and the answers carry. */
module DownloadSteps {
  import opened Common
  import opened Downloads

  /** What each entry was given and counted since it last started from zero or from storage. */
  type Log = nat -> bytes

  /** The registry, the stored partials, the partial writes still on their way, and what the entries were
      given. */
  datatype World = World(st: State, stored: map<nat, bytes>, pending: set<(nat, bytes)>, log: Log)

  function With(log: Log, id: nat, data: bytes): Log {
    (i: nat) => if i == id then data else log(i)
  }

  datatype Event =
    | Begin(size: int) | Wrap(id: nat)
    | Chunk(id: nat, chunk: bytes) | Flush(id: nat) | Break(id: nat) | Catch(id: nat) | Settle(id: nat)
    | Pause(id: nat) | Cancel(id: nat)
    | Resume(id: nat) | LoadHit(id: nat) | LoadMiss(id: nat) | LoadSeen(id: nat)
    | Answer(id: nat, status: int, start: Option<nat>) | FetchThrows(id: nat)
    | PumpChunk(id: nat, chunk: bytes) | PumpEnds(id: nat) | PumpThrows(id: nat)
    | Snapshot(id: nat) | Lands(id: nat, data: bytes) | Erased(id: nat) | Restart

  predicate Known(st: State, id: nat) {
    id in st.order && id in st.info
  }

  function Put(st: State, id: nat, e: Entry): State {
    st.(info := st.info[id := e])
  }

  function Marked(st: State, id: nat, status: Status): State {
    if id in st.info then Put(st, id, st.info[id].(status := status)) else st
  }

  function Received(st: State, id: nat, n: nat): State {
    if id in st.info then Put(st, id, st.info[id].(received := n)) else st
  }

  function Cut(pipes: map<nat, Pipe>, id: nat): map<nat, Pipe> {
    if id in pipes && pipes[id].Flowing? then pipes[id := Broken(pipes[id].tracked)] else pipes
  }

  /** The pipe loses its stream: pause and cancel sever it. */
  function Severed(st: State, id: nat): State {
    if id in st.streams then st.(streams := st.streams - {id}, pipes := Cut(st.pipes, id)) else st
  }

  function Wrapped(st: State, id: nat): State {
    var t := if Known(st, id) && st.info[id].resumable then st.(partials := st.partials[id := Partial([], 0)]) else st;
    t.(streams := t.streams + {id}, wrapped := t.wrapped + {id}, pipes := t.pipes[id := Flowing(0, Known(st, id))])
  }

  ghost function Transformed(st: State, id: nat, chunk: bytes, budget: nat): State
    requires id in st.pipes && st.pipes[id].Flowing?
  {
    var p := st.pipes[id];
    var t := st.(pipes := st.pipes[id := p.(sent := p.sent + |chunk|)]);
    if p.tracked && IsActive(t, id) then
      Buffered(Received(t, id, t.info[id].received + |chunk|), id, chunk, budget)
    else t
  }

  function Flushed(st: State, id: nat): State
    requires id in st.pipes && st.pipes[id].Flowing?
  {
    var t := st.(pipes := st.pipes[id := Finished]);
    if st.pipes[id].tracked && IsActive(st, id) then Forget(Marked(t, id, Done), id) else t
  }

  function Caught(st: State, id: nat): State
    requires id in st.pipes && st.pipes[id].Broken?
  {
    var t := st.(pipes := st.pipes[id := Finished]);
    if st.pipes[id].tracked && IsActive(st, id) then
      if st.info[id].resumable && id in st.partials && st.partials[id].n > 0
      then Marked(t, id, Paused) else Marked(t, id, Failed)
    else t
  }

  /** Only an active entry pauses, and without a buffer it stops being resumable. */
  function PauseInfo(st: State, id: nat): map<nat, Entry> {
    if Known(st, id) && st.info[id].status == Active then
      var e := st.info[id].(status := Paused);
      st.info[id := if e.resumable && id in st.partials then e else e.(resumable := false)]
    else st.info
  }

  function PauseMark(st: State, id: nat): State {
    st.(info := PauseInfo(st, id))
  }

  function PausedNow(st: State, id: nat): State {
    Severed(PauseMark(st, id), id)
  }

  function CancelMark(st: State, id: nat): State {
    if Known(st, id) && st.info[id].status == Active then Forget(Marked(st, id, Cancelled), id) else st
  }

  function CancelledNow(st: State, id: nat): State {
    Severed(CancelMark(st, id), id)
  }

  function Resumed(st: State, id: nat): State {
    if id in st.partials then Marked(st.(pumps := st.pumps[id := Fetching]), id, Active)
    else st.(pumps := st.pumps[id := Loading])
  }

  function Ended(st: State, id: nat): State {
    st.(pumps := st.pumps - {id})
  }

  /** The buffer a stored record gives back, as one chunk. */
  function Restored(data: bytes): Partial {
    Partial([data], |data|)
  }

  function Seen(st: State, id: nat): State {
    if id in st.partials then Marked(Received(st.(pumps := st.pumps[id := Fetching]), id, st.partials[id].n), id, Active)
    else Ended(st, id)
  }

  function Missed(st: State, id: nat): State {
    Marked(Received(st.(pumps := st.pumps[id := Fetching], partials := st.partials[id := Partial([], 0)]), id, 0), id, Active)
  }

  /** The answer's body is about to be drained, or its buffer is already gone. */
  function Drained(st: State, id: nat): State {
    if id in st.partials then st.(pumps := st.pumps[id := Pumping]) else Ended(Marked(st, id, Paused), id)
  }

  function FromZero(st: State, id: nat): State {
    var t := if id in st.partials then st.(partials := st.partials[id := Partial([], 0)]) else st;
    Drained(Received(t, id, 0), id)
  }

  /** 416 is the end; a 206 continues from where the entry stands or, from elsewhere, pauses; any other
      answer, an error page included, restarts from zero with its own body. */
  function Answered(st: State, id: nat, status: int, start: Option<nat>): State {
    if status == 416 then Ended(Forget(Marked(st, id, Failed), id), id)
    else if status == 206 then
      if id in st.info && start == Some(st.info[id].received) then Drained(st, id) else Ended(Marked(st, id, Paused), id)
    else FromZero(st, id)
  }

  ghost function Pumped(st: State, id: nat, chunk: bytes, budget: nat): State {
    if id in st.info then Buffered(Received(st, id, st.info[id].received + |chunk|), id, chunk, budget) else st
  }

  function PumpDone(st: State, id: nat): State {
    Ended(Marked(st, id, if id in st.partials then Done else Failed), id)
  }

  /** No stream, buffer or pump survives a restart; what was active is interrupted. */
  function Reborn(st: State): State {
    State(st.order,
          map id | id in st.info :: (if st.info[id].status == Active then st.info[id].(status := Failed) else st.info[id]),
          map[], {}, map[], map[], st.wrapped, st.next)
  }

  // ----- what can happen when -----

  predicate FlowsAt(st: State, id: nat) {
    id in st.pipes && st.pipes[id].Flowing?
  }

  predicate PumpAt(st: State, id: nat, at: Pump) {
    id in st.pumps && st.pumps[id] == at
  }

  /** The chunk will be counted. */
  predicate Counts(st: State, id: nat) {
    FlowsAt(st, id) && st.pipes[id].tracked && IsActive(st, id)
  }

  /** When an event can happen. What the streams and the answers carry is up to them. */
  ghost predicate Enabled(w: World, ev: Event) {
    var st := w.st;
    match ev
    case Begin(_) => true
    case Wrap(id) => id < st.next && id !in st.wrapped
    case Chunk(id, _) => FlowsAt(st, id)
    case Flush(id) => FlowsAt(st, id)
    case Break(id) => FlowsAt(st, id)
    case Catch(id) => id in st.pipes && st.pipes[id].Broken?
    case Settle(id) => id in st.pipes && st.pipes[id].Finished?
    case Pause(_) => true
    case Cancel(_) => true
    case Resume(id) => Known(st, id) && st.info[id].status == Paused && st.info[id].resumable && id !in st.pumps
    case LoadHit(id) => PumpAt(st, id, Loading) && id in w.stored && w.stored[id] != []
    case LoadMiss(id) => PumpAt(st, id, Loading)
    case LoadSeen(id) => PumpAt(st, id, Loaded)
    case Answer(id, _, _) => PumpAt(st, id, Fetching)
    case FetchThrows(id) => PumpAt(st, id, Fetching)
    case PumpChunk(id, _) => PumpAt(st, id, Pumping)
    case PumpEnds(id) => PumpAt(st, id, Pumping)
    case PumpThrows(id) => PumpAt(st, id, Pumping)
    case Snapshot(id) => id in st.partials && st.partials[id].n > 0
    case Lands(id, data) => (id, data) in w.pending
    case Erased(_) => true
    case Restart => true
  }

  ghost function After(w: World, ev: Event, budget: nat): World
    requires Enabled(w, ev)
  {
    var st, log := w.st, w.log;
    match ev
    case Begin(size) => w.(st := Begun(st, size))
    case Wrap(id) => w.(st := Wrapped(st, id))
    case Chunk(id, chunk) =>
      w.(st := Transformed(st, id, chunk, budget),
         log := if Counts(st, id) then With(log, id, log(id) + chunk) else log)
    case Flush(id) => w.(st := Flushed(st, id))
    case Break(id) => w.(st := st.(pipes := st.pipes[id := Broken(st.pipes[id].tracked)]))
    case Catch(id) => w.(st := Caught(st, id))
    case Settle(id) => w.(st := st.(pipes := st.pipes - {id}, streams := st.streams - {id}))
    case Pause(id) => w.(st := PausedNow(st, id))
    case Cancel(id) => w.(st := CancelledNow(st, id))
    case Resume(id) => w.(st := Resumed(st, id))
    case LoadHit(id) =>
      w.(st := st.(partials := st.partials[id := Restored(w.stored[id])], pumps := st.pumps[id := Loaded]),
         log := With(log, id, w.stored[id]))
    case LoadMiss(id) => w.(st := Missed(st, id), log := With(log, id, []))
    case LoadSeen(id) => w.(st := Seen(st, id))
    case Answer(id, status, start) =>
      w.(st := Answered(st, id, status, start),
         log := if status == 416 || status == 206 then log else With(log, id, []))
    case FetchThrows(id) => w.(st := Ended(Marked(st, id, Paused), id))
    case PumpChunk(id, chunk) => w.(st := Pumped(st, id, chunk, budget), log := With(log, id, log(id) + chunk))
    case PumpEnds(id) => w.(st := PumpDone(st, id))
    case PumpThrows(id) => w.(st := Ended(Marked(st, id, Paused), id))
    case Snapshot(id) => w.(pending := w.pending + {(id, Flatten(st.partials[id].chunks))})
    case Lands(id, data) => w.(stored := w.stored[id := data])
    case Erased(id) => w.(stored := w.stored - {id})
    case Restart => w.(st := Reborn(st))
  }

  const EMPTY := World(State([], map[], map[], {}, map[], map[], {}, 1), map[], {}, (i: nat) => [])
}
