/** The registry object (app/src/downloads.ts): its fields, updated in place, and the loops that sum, shed and
    evict. Each method is one stretch of code between awaits. */
module DownloadTracker {
  import opened Common
  import opened Downloads
  import opened DownloadSteps
  import opened DownloadRuns
  import opened DownloadProofs
  import opened DownloadBudget
  import opened DownloadPromises

  datatype ResumeReply = Accepted | UnknownId | NotPaused | NotResumable | NoTransport | InFlight

  class DownloadTracker {
    const bufferBudget: nat
    var entries: seq<nat>
    var info: map<nat, Entry>
    var partials: map<nat, Partial>
    var streams: set<nat>
    var resumePumps: map<nat, Pump>
    var pipes: map<nat, Pipe>
    var wrapped: set<nat>
    var nextId: nat
    ghost var log: Log

    /** The state the steps speak of. */
    function Now(): State
      reads this
    {
      State(entries, info, partials, streams, resumePumps, pipes, wrapped, nextId)
    }

    /** Every buffer in hand is all that its entry was given, and the ring is within its size. */
    ghost predicate Valid()
      reads this
    {
      Inv(Now(), log, 0, 0)
    }

    /** The registry as the steps see it, with nothing in storage. */
    ghost function Here(): World
      reads this
    {
      World(Now(), map[], {}, log)
    }

    constructor (budget: nat)
      ensures Valid() && bufferBudget == budget && Now() == EMPTY.st
    {
      bufferBudget := budget;
      entries, info, partials, streams, resumePumps, pipes, wrapped := [], map[], map[], {}, map[], map[], {};
      nextId := 1;
      log := EMPTY.log;
      new;
      assert Run([EMPTY], [], budget);
      RunIsConsistent([EMPTY], [], budget);
    }

    method BufferedBytes() returns (total: nat)
      ensures total == Total(partials)
    {
      total := 0;
      var todo := partials;
      while todo != map[]
        invariant total + Total(todo) == Total(partials)
        decreases |todo|
      {
        var k :| k in todo;
        TotalSplits(todo, k);
        total := total + todo[k].n;
        todo := todo - {k};
      }
    }

    /** Release an entry's bytes and its resumability. */
    method DropBuffer(id: nat)
      modifies this
      ensures log == old(log) && Now() == Drop(old(Now()), id)
    {
      if id in entries && id in info {
        info := info[id := info[id].(resumable := false)];
      }
      partials := partials - {id};
    }

    /** Make room for n more bytes: idle holders go first, one by one, until they fit. */
    method AdmitBytes(id: nat, n: nat) returns (fits: bool)
      modifies this
      ensures log == old(log) && Now() == Admitted(old(Now()), id, n, bufferBudget)
      ensures fits == (Total(partials) + n <= bufferBudget)
    {
      hide Total, Drop, Victims;
      var held := BufferedBytes();
      if held + n <= bufferBudget {
        return true;
      }
      var victims := Victims(Now(), id);
      for i := 0 to |victims|
        invariant log == old(log) && Total(partials) + n > bufferBudget
        invariant Shed(Now(), victims[i..], n, bufferBudget) == Admitted(old(Now()), id, n, bufferBudget)
      {
        assert victims[i..][0] == victims[i] && victims[i..][1..] == victims[i + 1..];
        DropBuffer(victims[i]);
        held := BufferedBytes();
        if held + n <= bufferBudget {
          return true;
        }
      }
      fits := false;
    }

    /** Keep one chunk for a later resume, or drop the buffer when the entry cap or the budget refuses. */
    method BufferChunk(id: nat, chunk: bytes)
      modifies this
      ensures log == old(log) && Now() == Buffered(old(Now()), id, chunk, bufferBudget)
    {
      if id !in info || !info[id].resumable || id !in partials {
        return;
      }
      if partials[id].n + |chunk| > RESUME_MAX {
        DropBuffer(id);
        return;
      }
      var fits := AdmitBytes(id, |chunk|);
      if !fits {
        DropBuffer(id);
        return;
      }
      if id in partials {
        var p := partials[id];
        partials := partials[id := Partial(p.chunks + [chunk], p.n + |chunk|)];
      }
    }

    /** Register a download; past the ring's size the oldest idle entry makes room. */
    method Begin(size: int) returns (id: nat)
      requires Valid()
      modifies this
      ensures Valid() && log == old(log)
      ensures id == old(nextId) && Now() == Begun(old(Now()), size)
      ensures |entries| <= 200 && id in info && id !in old(info)
      ensures info[id].resumable <==> size == -1 || size <= 64 * 1024 * 1024
    {
      BeginMeets(Now(), log, size);
      hide Inv, FirstIdle, Idle, Pushed;
      id := nextId;
      nextId := nextId + 1;
      entries := entries + [id];
      info := info[id := Entry(size, 0, Active, size == -1 || size <= RESUME_MAX)];
      assert Now() == Pushed(old(Now()), size);
      if |entries| > RING {
        EvictIdle();
      }
    }

    method EvictIdle()
      modifies this
      ensures log == old(log)
      ensures Now() == var s, i := old(Now()), FirstIdle(old(Now()), 0); if i < |s.order| then Evicted(s, i) else s
    {
      var i := FindIdle();
      if i < |entries| {
        var gone := entries[i];
        entries := entries[..i] + entries[i + 1..];
        partials := partials - {gone};
      }
    }

    method FindIdle() returns (i: nat)
      ensures i == FirstIdle(Now(), 0)
    {
      i := 0;
      while i < |entries| && (entries[i] in streams || entries[i] in resumePumps)
        invariant i <= |entries| && FirstIdle(Now(), i) == FirstIdle(Now(), 0)
      {
        i := i + 1;
      }
    }

    /** Tee a response body: a resumable entry gets its buffer. */
    method Wrap(id: nat)
      requires Valid() && id < nextId && id !in wrapped
      modifies this
      ensures Valid() && log == old(log) && Now() == Wrapped(old(Now()), id)
      ensures id in partials <==> old(id in entries && id in info && info[id].resumable)
    {
      WrapStays(Now(), log, id);
      hide Inv;
      var tracked := id in entries && id in info;
      if tracked && info[id].resumable {
        partials := partials[id := Partial([], 0)];
      }
      streams, wrapped, pipes := streams + {id}, wrapped + {id}, pipes[id := Flowing(0, tracked)];
    }

    /** One chunk passes through: counted and buffered while the entry is active, forwarded in any case. */
    method Transform(id: nat, chunk: bytes) returns (forwarded: bytes)
      requires Valid() && id in pipes && pipes[id].Flowing?
      modifies this
      ensures Valid() && Now() == Transformed(old(Now()), id, chunk, bufferBudget) && forwarded == chunk
      ensures log == if old(Counts(Now(), id)) then With(old(log), id, old(log(id)) + chunk) else old(log)
      ensures old(Total(partials)) <= bufferBudget ==> Total(partials) <= bufferBudget
    {
      ChunkStays(Now(), log, id, chunk, bufferBudget);
      ChunkFits(Now(), id, chunk, bufferBudget);
      TransformedIs(Now(), id, chunk, bufferBudget);
      hide Inv, Total, Buffered, Transformed, Counted, Counts;
      var counted := Pass(id, |chunk|);
      if counted {
        BufferChunk(id, chunk);
        log := With(log, id, log(id) + chunk);
      }
      forwarded := chunk;
    }

    /** The bytes are on their way, and counted while the entry is active. */
    method Pass(id: nat, n: nat) returns (counted: bool)
      requires FlowsAt(Now(), id)
      modifies this
      ensures log == old(log) && counted == old(Counts(Now(), id))
      ensures Now() == if counted then Counted(old(Now()), id, n)
        else old(Now()).(pipes := old(pipes)[id := old(pipes)[id].(sent := old(pipes)[id].sent + n)])
    {
      var p := pipes[id];
      pipes := pipes[id := p.(sent := p.sent + n)];
      counted := p.tracked && id in info && info[id].status == Active;
      if counted {
        info := info[id := info[id].(received := info[id].received + n)];
      }
    }

    /** The stream ended: the browser has the file, so the bytes are freed. */
    method Flush(id: nat)
      requires Valid() && id in pipes && pipes[id].Flowing?
      modifies this
      ensures Valid() && log == old(log) && Now() == Flushed(old(Now()), id)
    {
      FlushStays(Now(), log, id);
      hide Inv;
      var tracked := pipes[id].tracked;
      pipes := pipes[id := Finished];
      if tracked && id in info && info[id].status == Active {
        info := info[id := info[id].(status := Done)];
        partials := partials - {id};
      }
    }

    /** The stream failed: with bytes held the entry pauses, without it is an error. */
    method Fail(id: nat)
      requires Valid() && id in pipes && pipes[id].Broken?
      modifies this
      ensures Valid() && log == old(log) && Now() == Caught(old(Now()), id)
      ensures FailSeen(old(Now()), Now(), log, id)
    {
      FailStays(Now(), log, id);
      hide Inv, FailSeen;
      var tracked := pipes[id].tracked;
      pipes := pipes[id := Finished];
      if tracked && id in info && info[id].status == Active {
        var held := info[id].resumable && id in partials && partials[id].n > 0;
        info := info[id := info[id].(status := if held then Paused else Failed)];
      }
    }

    method Pause(id: nat) returns (ok: bool)
      requires Valid()
      modifies this
      ensures Valid() && log == old(log) && Now() == PausedNow(old(Now()), id)
      ensures PauseSeen(old(Now()), Now(), id, ok)
    {
      PauseStays(Now(), log, id);
      hide Inv, PauseSeen;
      if id in entries && id in info && info[id].status == Active {
        var e := info[id].(status := Paused);
        if !(e.resumable && id in partials) {
          e := e.(resumable := false);
        }
        info := info[id := e];
      }
      if id in streams {
        Sever(id);
        return true;
      }
      ok := id in entries && id in info && info[id].status == Paused;
    }

    method Cancel(id: nat) returns (ok: bool)
      requires Valid()
      modifies this
      ensures Valid() && log == old(log) && Now() == CancelledNow(old(Now()), id)
      ensures CancelSeen(old(Now()), Now(), id, ok)
    {
      CancelStays(Now(), log, id);
      hide Inv, CancelSeen;
      if id in entries && id in info && info[id].status == Active {
        info := info[id := info[id].(status := Cancelled)];
        partials := partials - {id};
      }
      if id in streams {
        Sever(id);
        return true;
      }
      ok := id in entries && id in info && info[id].status == Cancelled;
    }

    method Sever(id: nat)
      requires id in streams
      modifies this
      ensures Now() == Severed(old(Now()), id) && log == old(log)
    {
      streams := streams - {id};
      if id in pipes && pipes[id].Flowing? {
        pipes := pipes[id := Broken(pipes[id].tracked)];
      }
    }

    /** A resume starts exactly when the entry is known, paused, resumable and not already resuming. */
    method StartResume(id: nat, transport: bool) returns (r: ResumeReply)
      requires Valid()
      modifies this
      ensures Valid() && log == old(log)
      ensures r == Accepted <==> transport && old(Enabled(Here(), Event.Resume(id)))
      ensures Now() == if r == Accepted then Resumed(old(Now()), id) else old(Now())
      ensures r == Accepted ==> ResumeSeen(old(Now()), Now(), log, id)
    {
      if Enabled(Here(), Event.Resume(id)) {
        ResumeStays(Now(), log, id);
      }
      hide Inv, ResumeSeen;
      if !(id in entries && id in info) {
        return UnknownId;
      }
      if info[id].status != Paused {
        return NotPaused;
      }
      if !info[id].resumable {
        return NotResumable;
      }
      if !transport {
        return NoTransport;
      }
      if id in resumePumps {
        return InFlight;
      }
      if id in partials {
        resumePumps := resumePumps[id := Fetching];
        info := info[id := info[id].(status := Active)];
      } else {
        resumePumps := resumePumps[id := Loading];
      }
      r := Accepted;
    }

    /** Storage had bytes for the entry: they are its buffer, not counted yet. */
    method PartialLoaded(id: nat, data: bytes)
      requires Valid() && PumpAt(Now(), id, Loading) && data != []
      modifies this
      ensures Valid() && log == With(old(log), id, data) && PumpAt(Now(), id, Loaded)
      ensures OthersStay(old(Now()), Now(), id) && Holds(Now(), log, id)
    {
      LoadStays(Now(), log, id, data);
      hide Inv, OthersStay, Holds;
      partials := partials[id := Restored(data)];
      resumePumps := resumePumps[id := Loaded];
      log := With(log, id, data);
    }

    /** The resume goes on with the bytes from storage, unless another entry's chunk took them meanwhile. */
    method TakePartial(id: nat)
      requires Valid() && PumpAt(Now(), id, Loaded)
      modifies this
      ensures Valid() && log == old(log) && Now() == Seen(old(Now()), id)
      ensures PumpAt(Now(), id, Fetching) <==> id in partials
      ensures id in partials ==> IsActive(Now(), id) && info[id].received == |log(id)|
    {
      SeenStays(Now(), log, id);
      PumpIsKnown(Now(), log, id);
      hide Inv, Flatten;
      if id in partials {
        info := info[id := info[id].(received := partials[id].n)];
        info := info[id := info[id].(status := Active)];
        resumePumps := resumePumps[id := Fetching];
      } else {
        resumePumps := resumePumps - {id};
      }
    }

    /** Storage had nothing: the resume starts from zero. */
    method PartialMissing(id: nat)
      requires Valid() && PumpAt(Now(), id, Loading)
      modifies this
      ensures Valid() && log == With(old(log), id, []) && Now() == Missed(old(Now()), id)
      ensures PumpAt(Now(), id, Fetching) && IsActive(Now(), id) && info[id].received == 0
    {
      MissStays(Now(), log, id);
      PumpIsKnown(Now(), log, id);
      hide Inv;
      partials := partials[id := Partial([], 0)];
      info := info[id := info[id].(received := 0)];
      info := info[id := info[id].(status := Active)];
      resumePumps := resumePumps[id := Fetching];
      log := With(log, id, []);
    }

    /** The upstream answered the range request: gone, the rest from where we stand, or everything again. */
    method Answer(id: nat, status: int, start: Option<nat>)
      requires Valid() && PumpAt(Now(), id, Fetching)
      modifies this
      ensures Valid() && Now() == Answered(old(Now()), id, status, start)
      ensures log == if status == 416 || status == 206 then old(log) else With(old(log), id, [])
      ensures AnswerSeen(old(Now()), Now(), old(log), id, status, start)
    {
      AnswerStays(Now(), log, id, status, start);
      PumpIsKnown(Now(), log, id);
      hide Inv, AnswerSeen, RingOk, EntryOk, Flatten;
      if status != 416 && status != 206 {
        log := With(log, id, []);
      }
      if status == 416 {
        info := info[id := info[id].(status := Failed)];
        partials := partials - {id};
        resumePumps := resumePumps - {id};
      } else if status == 206 {
        if start != Some(info[id].received) {
          info := info[id := info[id].(status := Paused)];
          resumePumps := resumePumps - {id};
        } else {
          StartPump(id);
        }
      } else {
        if id in partials {
          partials := partials[id := Partial([], 0)];
        }
        info := info[id := info[id].(received := 0)];
        StartPump(id);
      }
    }

    method StartPump(id: nat)
      requires id in info
      modifies this
      ensures Now() == Drained(old(Now()), id) && log == old(log)
    {
      if id in partials {
        resumePumps := resumePumps[id := Pumping];
      } else {
        info := info[id := info[id].(status := Paused)];
        resumePumps := resumePumps - {id};
      }
    }

    /** One read of a resume pump: counted, and kept behind what is in hand unless a bound takes the buffer. */
    method PumpRead(id: nat, chunk: bytes)
      requires Valid() && PumpAt(Now(), id, Pumping)
      modifies this
      ensures Valid() && Now() == Pumped(old(Now()), id, chunk, bufferBudget)
      ensures log == With(old(log), id, old(log(id)) + chunk)
      ensures id in partials ==> Holds(Now(), log, id)
      ensures old(Total(partials)) <= bufferBudget ==> Total(partials) <= bufferBudget
    {
      ReadStays(Now(), log, id, chunk, bufferBudget);
      PumpedFits(Now(), id, chunk, bufferBudget);
      PumpIsKnown(Now(), log, id);
      hide Inv, Total, Buffered, Holds;
      info := info[id := info[id].(received := info[id].received + |chunk|)];
      BufferChunk(id, chunk);
      log := With(log, id, log(id) + chunk);
    }

    /** The pump's stream ended. */
    method PumpFinish(id: nat) returns (ok: bool)
      requires Valid() && PumpAt(Now(), id, Pumping)
      modifies this
      ensures Valid() && log == old(log) && Now() == PumpDone(old(Now()), id)
      ensures FinishSeen(old(Now()), Now(), log, id, ok)
    {
      FinishStays(Now(), log, id);
      PumpIsKnown(Now(), log, id);
      hide Inv, FinishSeen;
      ok := id in partials;
      info := info[id := info[id].(status := if ok then Done else Failed)];
      resumePumps := resumePumps - {id};
    }

    /** The request or the pump failed: the entry waits for another resume with what it has. */
    method Interrupted(id: nat)
      requires Valid() && (PumpAt(Now(), id, Fetching) || PumpAt(Now(), id, Pumping))
      modifies this
      ensures Valid() && log == old(log) && partials == old(partials)
      ensures OthersStay(old(Now()), Now(), id) && id in info && info[id].status == Paused && id !in resumePumps
    {
      InterruptStays(Now(), log, id);
      PumpIsKnown(Now(), log, id);
      hide Inv, OthersStay;
      info := info[id := info[id].(status := Paused)];
      resumePumps := resumePumps - {id};
    }
  }
}
