/** The promises of the download registry over whole runs (app/src/downloads.ts). */
module DownloadProofs {
  import opened Common
  import opened Downloads
  import opened DownloadSteps
  import opened DownloadRuns

  // ----- every run -----

  ghost predicate Consistent(w: World) {
    Inv(w.st, w.log, 0, 0)
  }

  predicate StreamEvent(ev: Event) {
    ev.Wrap? || ev.Chunk? || ev.Flush? || ev.Break? || ev.Catch? || ev.Settle? || ev.Pause? || ev.Cancel?
  }

  predicate ResumeEvent(ev: Event) {
    ev.Resume? || ev.LoadHit? || ev.LoadMiss? || ev.LoadSeen? || ev.Answer? || ev.FetchThrows?
    || ev.PumpChunk? || ev.PumpEnds? || ev.PumpThrows?
  }

  lemma StreamStepKeeps(w: World, ev: Event, budget: nat)
    requires Consistent(w) && Enabled(w, ev) && StreamEvent(ev)
    ensures Consistent(After(w, ev, budget))
  {
    hide Inv;
    Rebased(w.st, w.log, 0, ev.id);
    match ev {
      case Wrap(id) => WrapKeeps(w.st, w.log, id);
      case Chunk(id, chunk) => ChunkKeeps(w.st, w.log, id, chunk, budget);
      case Flush(id) => FlushKeeps(w.st, w.log, id);
      case Break(id) => BreakKeeps(w.st, w.log, id);
      case Catch(id) => CatchKeeps(w.st, w.log, id);
      case Settle(id) => SettleKeeps(w.st, w.log, id);
      case Pause(id) => PauseKeeps(w.st, w.log, id);
      case Cancel(id) => CancelKeeps(w.st, w.log, id);
    }
    var v := After(w, ev, budget);
    hide After, Enabled;
    Rebased(v.st, v.log, ev.id, 0);
  }

  lemma ResumeStepKeeps(w: World, ev: Event, budget: nat)
    requires Consistent(w) && Enabled(w, ev) && ResumeEvent(ev)
    ensures Consistent(After(w, ev, budget))
  {
    hide Inv;
    Rebased(w.st, w.log, 0, ev.id);
    match ev {
      case Resume(id) => ResumeKeeps(w.st, w.log, id);
      case LoadHit(id) => LoadHitKeeps(w.st, w.log, id, w.stored[id]);
      case LoadMiss(id) => LoadMissKeeps(w.st, w.log, id);
      case LoadSeen(id) => LoadSeenKeeps(w.st, w.log, id);
      case Answer(id, status, start) => AnswerKeeps(w.st, w.log, id, status, start);
      case FetchThrows(id) => EndKeeps(w.st, w.log, id, Paused);
      case PumpChunk(id, chunk) => PumpChunkKeeps(w.st, w.log, id, chunk, budget);
      case PumpEnds(id) => EndKeeps(w.st, w.log, id, if id in w.st.partials then Done else Failed);
      case PumpThrows(id) => EndKeeps(w.st, w.log, id, Paused);
    }
    var v := After(w, ev, budget);
    hide After, Enabled;
    Rebased(v.st, v.log, ev.id, 0);
  }

  lemma WholeStepKeeps(w: World, ev: Event, budget: nat)
    requires Consistent(w) && Enabled(w, ev) && (ev.Begin? || ev.Restart?)
    ensures Consistent(After(w, ev, budget))
  {
    hide Inv;
    if ev.Begin? {
      Rebased(w.st, w.log, 0, w.st.next);
      BeginKeeps(w.st, w.log, ev.size);
      Rebased(Begun(w.st, ev.size), w.log, w.st.next, 0);
    } else {
      RestartKeeps(w.st, w.log);
    }
  }

  lemma StepKeeps(w: World, ev: Event, budget: nat)
    requires Consistent(w) && Enabled(w, ev)
    ensures Consistent(After(w, ev, budget))
  {
    if ev.Snapshot? || ev.Lands? || ev.Erased? {
      hide Inv;
    } else {
      hide After, Enabled, Consistent;
      if StreamEvent(ev) {
        StreamStepKeeps(w, ev, budget);
      } else if ResumeEvent(ev) {
        ResumeStepKeeps(w, ev, budget);
      } else {
        WholeStepKeeps(w, ev, budget);
      }
    }
  }

  /** A run from the empty registry. */
  ghost predicate Run(ws: seq<World>, evs: seq<Event>, budget: nat) {
    && |ws| == |evs| + 1 && ws[0] == EMPTY
    && forall i :: 0 <= i < |evs| ==> Enabled(ws[i], evs[i]) && ws[i + 1] == After(ws[i], evs[i], budget)
  }

  /** A run's beginning is a run. */
  lemma RunCut(ws: seq<World>, evs: seq<Event>, budget: nat, n: nat)
    requires Run(ws, evs, budget) && n <= |evs|
    ensures Run(ws[..n + 1], evs[..n], budget)
  {
  }

  lemma {:induction false} RunIsConsistent(ws: seq<World>, evs: seq<Event>, budget: nat)
    requires Run(ws, evs, budget)
    ensures Consistent(ws[|evs|])
    decreases |evs|
  {
    if evs != [] {
      var n := |evs| - 1;
      RunIsConsistent(ws[..n + 1], evs[..n], budget);
      assert ws[n + 1] == After(ws[n], evs[n], budget);
      hide Run, Consistent;
      StepKeeps(ws[n], evs[n], budget);
    }
  }

  lemma RunIsConsistentAt(ws: seq<World>, evs: seq<Event>, budget: nat, i: nat)
    requires Run(ws, evs, budget) && i <= |evs|
    ensures Consistent(ws[i])
  {
    RunCut(ws, evs, budget, i);
    assert ws[..i + 1][i] == ws[i];
    hide Run, Consistent;
    RunIsConsistent(ws[..i + 1], evs[..i], budget);
  }

  /** Over every run the buffer of a resumable entry is exactly what the entry was given, counted by
      `received`, except between the storage read of a resume and the moment that takes its length. */
  lemma BufferIsWhatCame(ws: seq<World>, evs: seq<Event>, budget: nat, id: nat)
    requires Run(ws, evs, budget)
    requires var st := ws[|evs|].st; id in st.partials && !PumpAt(st, id, Loaded)
    ensures var st := ws[|evs|].st;
      && Known(st, id) && st.info[id].resumable
      && Flatten(st.partials[id].chunks) == ws[|evs|].log(id)
      && st.partials[id].n == st.info[id].received == |ws[|evs|].log(id)|
  {
    RunIsConsistent(ws, evs, budget);
    hide Run;
    var w := ws[|evs|];
    assert EntryOk(w.st, w.log, id, 0, 0);
  }

  // ----- a source -----

  /** The chunk is what the source holds at that offset. */
  predicate At(source: bytes, offset: nat, chunk: bytes) {
    offset + |chunk| <= |source| && source[offset..offset + |chunk|] == chunk
  }

  /** Whatever this event gives the entry continues the source where the entry stands. */
  predicate Continues(w: World, ev: Event, id: nat, source: bytes) {
    && (ev.Chunk? && ev.id == id && Counts(w.st, id) ==> At(source, w.st.pipes[id].sent, ev.chunk))
    && (ev.PumpChunk? && ev.id == id ==> id in w.st.info && At(source, w.st.info[id].received, ev.chunk))
  }

  ghost predicate Sourced(w: World, id: nat, source: bytes) {
    && w.log(id) <= source && (id in w.stored ==> w.stored[id] <= source)
    && forall p <- w.pending :: p.0 == id ==> p.1 <= source
  }

  lemma GrownFromSource(given: bytes, source: bytes, chunk: bytes)
    requires given <= source && At(source, |given|, chunk)
    ensures given + chunk <= source
  {
    assert source[..|given| + |chunk|] == source[..|given|] + source[|given|..|given| + |chunk|];
  }

  lemma SourcedStep(w: World, ev: Event, budget: nat, id: nat, source: bytes)
    requires Consistent(w) && Enabled(w, ev) && Sourced(w, id, source) && Continues(w, ev, id, source)
    ensures Sourced(After(w, ev, budget), id, source)
  {
    assert EntryOk(w.st, w.log, id, 0, 0);
    hide Inv, EntryOk, Transformed, Pumped, Begun, Answered, Reborn, Flatten;
    if ev.Chunk? && ev.id == id && Counts(w.st, id) {
      GrownFromSource(w.log(id), source, ev.chunk);
    }
    if ev.PumpChunk? && ev.id == id {
      GrownFromSource(w.log(id), source, ev.chunk);
    }
  }

  lemma {:induction false} RunIsSourced(ws: seq<World>, evs: seq<Event>, budget: nat, id: nat, source: bytes)
    requires Run(ws, evs, budget) && forall i :: 0 <= i < |evs| ==> Continues(ws[i], evs[i], id, source)
    ensures Sourced(ws[|evs|], id, source)
    decreases |evs|
  {
    if evs != [] {
      var n := |evs| - 1;
      RunIsSourced(ws[..n + 1], evs[..n], budget, id, source);
      RunIsConsistentAt(ws, evs, budget, n);
      assert ws[n + 1] == After(ws[n], evs[n], budget);
      hide Run, Consistent, Sourced;
      SourcedStep(ws[n], evs[n], budget, id, source);
    }
  }

  /** When the stream and every drained answer continue the source where the entry stands, its buffer is the
      first `received` bytes of the source. */
  lemma BufferIsPrefixOfSource(ws: seq<World>, evs: seq<Event>, budget: nat, id: nat, source: bytes)
    requires Run(ws, evs, budget) && forall i :: 0 <= i < |evs| ==> Continues(ws[i], evs[i], id, source)
    requires var st := ws[|evs|].st; id in st.partials && !PumpAt(st, id, Loaded)
    ensures var st := ws[|evs|].st;
      && Known(st, id) && st.info[id].resumable && st.info[id].received <= |source|
      && Flatten(st.partials[id].chunks) == source[..st.info[id].received]
      && st.partials[id].n == st.info[id].received
  {
    BufferIsWhatCame(ws, evs, budget, id);
    RunIsSourced(ws, evs, budget, id, source);
  }

  // ----- a resume to its end -----

  /** What a pump took from the answer it drains. */
  function Taken(evs: seq<Event>, id: nat): bytes
    decreases |evs|
  {
    if evs == [] then []
    else
      var ev := evs[|evs| - 1];
      Taken(evs[..|evs| - 1], id) + if ev.PumpChunk? && ev.id == id then ev.chunk else []
  }

  /** The bytes that an answer leaves in place: those it continues, or none. */
  function Kept(w: World, status: int, id: nat): bytes {
    if status == 206 then w.log(id) else []
  }

  predicate Opens(ev: Event, id: nat) {
    ev.Answer? && ev.id == id && ev.status != 416
  }

  lemma {:induction false} ShedLeaves(s: State, victims: seq<nat>, n: nat, budget: nat)
    ensures Shed(s, victims, n, budget).pumps == s.pumps
    decreases |victims|
  {
    hide Total;
    if Total(s.partials) + n > budget && victims != [] {
      ShedLeaves(Drop(s, victims[0]), victims[1..], n, budget);
    }
  }

  /** Buffering touches no pump. */
  lemma BufferedLeaves(s: State, id: nat, chunk: bytes, budget: nat)
    ensures Buffered(s, id, chunk, budget).pumps == s.pumps
  {
    hide Total, Shed, Victims;
    ShedLeaves(s, Victims(s, id), |chunk|, budget);
  }

  lemma PumpsStay(s: State, id: nat, chunk: bytes, budget: nat)
    ensures FlowsAt(s, id) ==> Transformed(s, id, chunk, budget).pumps == s.pumps
    ensures Pumped(s, id, chunk, budget).pumps == s.pumps
  {
    hide Buffered;
    if id in s.info {
      var r := Received(s, id, s.info[id].received + |chunk|);
      BufferedLeaves(r, id, chunk, budget);
      if Counts(s, id) {
        BufferedLeaves(Counted(s, id, |chunk|), id, chunk, budget);
      }
    }
  }

  /** Only an answer starts a pump. */
  lemma PumpOpens(w: World, ev: Event, budget: nat, id: nat)
    requires Enabled(w, ev) && PumpAt(After(w, ev, budget).st, id, Pumping)
    ensures Opens(ev, id) || PumpAt(w.st, id, Pumping)
  {
    hide Transformed, Pumped, FirstIdle, Flatten, With;
    if ev.Chunk? || ev.PumpChunk? {
      PumpsStay(w.st, ev.id, ev.chunk, budget);
    } else if ResumeEvent(ev) {
      ResumeOpens(w, ev, budget, id);
    }
  }

  lemma AnswerOpens(s: State, id: nat, status: int, start: Option<nat>, k: nat)
    requires PumpAt(Answered(s, id, status, start), k, Pumping)
    ensures (k == id && status != 416) || PumpAt(s, k, Pumping)
  {
    hide Flatten;
  }

  lemma ResumeOpens(w: World, ev: Event, budget: nat, id: nat)
    requires ResumeEvent(ev) && !ev.PumpChunk?
    requires Enabled(w, ev) && PumpAt(After(w, ev, budget).st, id, Pumping)
    ensures Opens(ev, id) || PumpAt(w.st, id, Pumping)
  {
    hide Transformed, Pumped, Flatten, With, Begun, Answered, Wrapped, Flushed, Caught, PausedNow, CancelledNow, Reborn;
    if ev.Answer? {
      AnswerOpens(w.st, ev.id, ev.status, ev.start, id);
    }
  }

  lemma OpenedWith(w: World, ev: Event, budget: nat, id: nat)
    requires Enabled(w, ev) && Opens(ev, id)
    ensures After(w, ev, budget).log(id) == Kept(w, ev.status, id)
  {
    hide Answered;
  }

  /** While a pump drains, its entry is given what the pump takes and nothing else. */
  lemma PumpTakes(w: World, ev: Event, budget: nat, id: nat)
    requires Consistent(w) && Enabled(w, ev) && PumpAt(w.st, id, Pumping)
    requires !Opens(ev, id)
    ensures After(w, ev, budget).log(id) == w.log(id) + if ev.PumpChunk? && ev.id == id then ev.chunk else []
  {
    assert EntryOk(w.st, w.log, id, 0, 0);
    hide Transformed, Pumped, FirstIdle, Inv, EntryOk;
  }

  /** The answer at `a` is still being drained at `b`. */
  ghost predicate Draining(ws: seq<World>, evs: seq<Event>, id: nat, a: nat, b: nat)
    requires |ws| == |evs| + 1
  {
    && a < b <= |evs| && Opens(evs[a], id)
    && (forall k :: a < k <= b ==> PumpAt(ws[k].st, id, Pumping))
    && (forall k :: a < k < b ==> !Opens(evs[k], id))
  }

  /** Every pump drains an answer. */
  lemma {:induction false} PumpHasAnswer(ws: seq<World>, evs: seq<Event>, budget: nat, id: nat, b: nat) returns (a: nat)
    requires Run(ws, evs, budget) && b <= |evs| && PumpAt(ws[b].st, id, Pumping)
    ensures Draining(ws, evs, id, a, b)
    decreases b
  {
    assert b > 0 && Enabled(ws[b - 1], evs[b - 1]) && ws[b - 1 + 1] == After(ws[b - 1], evs[b - 1], budget);
    PumpOpens(ws[b - 1], evs[b - 1], budget, id);
    hide Run, After, Enabled;
    if Opens(evs[b - 1], id) {
      a := b - 1;
    } else {
      a := PumpHasAnswer(ws, evs, budget, id, b - 1);
    }
  }

  lemma TakenGrows(evs: seq<Event>, id: nat, a: nat, b: nat)
    requires a < b <= |evs|
    ensures Taken(evs[a..b], id) ==
      Taken(evs[a..b - 1], id) + if evs[b - 1].PumpChunk? && evs[b - 1].id == id then evs[b - 1].chunk else []
  {
    assert evs[a..b][..b - a - 1] == evs[a..b - 1];
    assert evs[a..b][b - a - 1] == evs[b - 1];
  }

  lemma {:induction false} DrainedSoFar(ws: seq<World>, evs: seq<Event>, budget: nat, id: nat, a: nat, b: nat)
    requires Run(ws, evs, budget) && Draining(ws, evs, id, a, b)
    ensures ws[b].log(id) == Kept(ws[a], evs[a].status, id) + Taken(evs[a + 1..b], id)
    decreases b
  {
    hide Run, Taken, Kept, PumpAt, Opens;
    if b == a + 1 {
      DrainedFirst(ws, evs, budget, id, a);
    } else {
      DrainedSoFar(ws, evs, budget, id, a, b - 1);
      DrainedMore(ws, evs, budget, id, a, b);
    }
  }

  lemma DrainedFirst(ws: seq<World>, evs: seq<Event>, budget: nat, id: nat, a: nat)
    requires Run(ws, evs, budget) && a < |evs| && Opens(evs[a], id)
    ensures ws[a + 1].log(id) == Kept(ws[a], evs[a].status, id) + Taken(evs[a + 1..a + 1], id)
  {
    assert Enabled(ws[a], evs[a]) && ws[a + 1] == After(ws[a], evs[a], budget);
    assert evs[a + 1..a + 1] == [];
    hide Run, Enabled, After;
    OpenedWith(ws[a], evs[a], budget, id);
  }

  lemma DrainedMore(ws: seq<World>, evs: seq<Event>, budget: nat, id: nat, a: nat, b: nat)
    requires Run(ws, evs, budget) && Draining(ws, evs, id, a, b) && a + 1 < b
    requires ws[b - 1].log(id) == Kept(ws[a], evs[a].status, id) + Taken(evs[a + 1..b - 1], id)
    ensures ws[b].log(id) == Kept(ws[a], evs[a].status, id) + Taken(evs[a + 1..b], id)
  {
    var w, ev := ws[b - 1], evs[b - 1];
    assert Enabled(w, ev) && ws[b - 1 + 1] == After(w, ev, budget);
    assert PumpAt(w.st, id, Pumping) && !Opens(ev, id);
    RunIsConsistentAt(ws, evs, budget, b - 1);
    hide *;
    TakesMore(w, ev, budget, id, Kept(ws[a], evs[a].status, id), evs, a + 1, b);
  }

  lemma TakesMore(w: World, ev: Event, budget: nat, id: nat, kept: bytes, evs: seq<Event>, a: nat, b: nat)
    requires Consistent(w) && Enabled(w, ev) && PumpAt(w.st, id, Pumping) && !Opens(ev, id)
    requires a < b <= |evs| && evs[b - 1] == ev && w.log(id) == kept + Taken(evs[a..b - 1], id)
    ensures After(w, ev, budget).log(id) == kept + Taken(evs[a..b], id)
  {
    hide *;
    PumpTakes(w, ev, budget, id);
    TakenGrows(evs, id, a, b);
  }

  /** What a 206 continues is the buffer in hand. */
  lemma KeptIsHeld(w: World, ev: Event, budget: nat, id: nat)
    requires Consistent(w) && Enabled(w, ev) && Opens(ev, id) && PumpAt(After(w, ev, budget).st, id, Pumping)
    ensures id in w.st.partials && Flatten(w.st.partials[id].chunks) == w.log(id)
  {
    assert EntryOk(w.st, w.log, id, 0, 0);
    hide Flatten;
  }

  /** The end of a pump marks the entry done if and only if its buffer is still there. The buffer is then what
      the answer left in place followed by the answer's body: for a 206 the bytes held when it came, for any
      other status none. */
  lemma DoneHoldsTheAnswer(ws: seq<World>, evs: seq<Event>, budget: nat, id: nat) returns (a: nat)
    requires Run(ws, evs, budget) && evs != [] && evs[|evs| - 1] == PumpEnds(id)
    ensures Draining(ws, evs, id, a, |evs| - 1)
    ensures id in ws[a].st.partials && Flatten(ws[a].st.partials[id].chunks) == ws[a].log(id)
    ensures var st := ws[|evs|].st;
      && id in st.info && st.info[id].status in {Done, Failed} && (st.info[id].status == Done <==> id in st.partials)
      && (id in st.partials ==>
           Flatten(st.partials[id].chunks) == Kept(ws[a], evs[a].status, id) + Taken(evs[a + 1..|evs| - 1], id))
  {
    var n := |evs| - 1;
    assert Enabled(ws[n], evs[n]) && ws[n + 1] == After(ws[n], evs[n], budget);
    RunIsConsistentAt(ws, evs, budget, n);
    assert EntryOk(ws[n].st, ws[n].log, id, 0, 0);
    a := PumpHasAnswer(ws, evs, budget, id, n);
    DrainedSoFar(ws, evs, budget, id, a, n);
    RunIsConsistentAt(ws, evs, budget, a);
    assert Enabled(ws[a], evs[a]) && ws[a + 1] == After(ws[a], evs[a], budget);
    hide Run, Consistent, Taken, Kept, EntryOk;
    if id in ws[|evs|].st.partials {
      hide After, Enabled;
      BufferIsWhatCame(ws, evs, budget, id);
    }
    KeptIsHeld(ws[a], evs[a], budget, id);
  }

  /** What an answer has to carry for the entry to be the source at its end: the rest after what it continues,
      or, for any status but 206, a full copy. */
  predicate Completes(kept: bytes, status: int, body: bytes, source: bytes) {
    if status == 206 then kept <= source && body == source[|kept|..] else body == source
  }

  lemma CompletesExactly(kept: bytes, status: int, body: bytes, source: bytes)
    ensures (if status == 206 then kept else []) + body == source <==> Completes(kept, status, body, source)
  {
    if status == 206 && kept <= source {
      assert source == kept + source[|kept|..];
    }
    assert kept <= kept + body && (kept + body)[|kept|..] == body;
  }

  /** A resume that ends done holds the source exactly when the answer carried what was missing of it; neither
      the status nor the declared size is looked at. */
  lemma FinishedResumeIsWhole(ws: seq<World>, evs: seq<Event>, budget: nat, id: nat, source: bytes) returns (a: nat)
    requires Run(ws, evs, budget) && evs != [] && evs[|evs| - 1] == PumpEnds(id)
    requires id in ws[|evs|].st.partials
    ensures Draining(ws, evs, id, a, |evs| - 1) && id in ws[a].st.partials
    ensures var st := ws[|evs|].st;
      && id in st.info && st.info[id].status == Done
      && (Flatten(st.partials[id].chunks) == source <==>
            Completes(Flatten(ws[a].st.partials[id].chunks), evs[a].status, Taken(evs[a + 1..|evs| - 1], id), source))
  {
    a := DoneHoldsTheAnswer(ws, evs, budget, id);
    var kept, body := Kept(ws[a], evs[a].status, id), Taken(evs[a + 1..|evs| - 1], id);
    hide Run, Draining, Taken, Flatten, Completes;
    CompletesExactly(ws[a].log(id), evs[a].status, body, source);
  }

  /** The ring never holds more than its size. */
  lemma RingNeverOverflows(ws: seq<World>, evs: seq<Event>, budget: nat)
    requires Run(ws, evs, budget)
    ensures |ws[|evs|].st.order| <= 200 && Distinct(ws[|evs|].st.order)
  {
    RunIsConsistent(ws, evs, budget);
  }

  // ----- an expired link -----

  lemma OnlyOne(p: Partial)
    ensures Total(map[1 := p]) == p.n
  {
    var m := map[1 := p];
    TotalSplits(m, 1);
    assert m - {1} == map[];
  }

  lemma OneBuffered(st: State, chunk: bytes, budget: nat)
    requires 1 in st.info && st.info[1].resumable && st.partials == map[1 := Partial([], 0)]
    requires |chunk| <= budget && |chunk| <= RESUME_MAX
    ensures Buffered(st, 1, chunk, budget) == st.(partials := map[1 := Partial([chunk], |chunk|)])
  {
    OnlyOne(Partial([], 0));
    assert [] + [chunk] == [chunk];
    assert st.partials[1 := Partial([chunk], |chunk|)] == map[1 := Partial([chunk], |chunk|)];
    hide Total, Victims;
  }

  /** The registry with one entry, whose stream was cut after two octets when `cut`. */
  function Link(status: Status, received: nat, held: Partial, cut: bool, sent: nat, pumps: map<nat, Pump>): State {
    State([1], map[1 := Entry(-1, received, status, true)], map[1 := held], if cut then {} else {1}, pumps,
          map[1 := if cut then Broken(true) else Flowing(sent, true)], {1}, 2)
  }

  const HALF: bytes := [1, 2]
  const PAGE: bytes := [4]
  const NONE := Partial([], 0)
  const IDLE: map<nat, Pump> := map[]

  const HELD := Partial([HALF], 2)
  const SWAPPED := Partial([PAGE], 1)

  lemma LinkWraps()
    ensures Begun(EMPTY.st, -1).next == 2 && Begun(EMPTY.st, -1).wrapped == {}
    ensures Wrapped(Begun(EMPTY.st, -1), 1) == Link(Active, 0, NONE, false, 0, IDLE)
  {
    assert Wrapped(Begun(EMPTY.st, -1), 1).info == map[1 := Entry(-1, 0, Active, true)];
  }

  lemma LinkFills(budget: nat)
    requires budget >= 2
    ensures var st := Link(Active, 0, NONE, false, 0, IDLE);
      FlowsAt(st, 1) && Counts(st, 1) && Transformed(st, 1, HALF, budget) == Link(Active, 2, HELD, false, 2, IDLE)
  {
    var st := Link(Active, 2, NONE, false, 2, IDLE);
    OneBuffered(st, HALF, budget);
    hide Buffered;
    assert Transformed(Link(Active, 0, NONE, false, 0, IDLE), 1, HALF, budget) == Buffered(st, 1, HALF, budget);
  }

  lemma LinkBreaks()
    ensures PausedNow(Link(Active, 2, HELD, false, 2, IDLE), 1) == Link(Paused, 2, HELD, true, 2, IDLE)
  {
  }

  lemma LinkResumes()
    ensures Resumed(Link(Paused, 2, HELD, true, 2, IDLE), 1) == Link(Active, 2, HELD, true, 2, map[1 := Fetching])
    ensures Answered(Link(Active, 2, HELD, true, 2, map[1 := Fetching]), 1, 404, None)
         == Link(Active, 0, NONE, true, 2, map[1 := Pumping])
  {
  }

  lemma LinkReads(budget: nat)
    requires budget >= 2
    ensures Pumped(Link(Active, 0, NONE, true, 2, map[1 := Pumping]), 1, PAGE, budget)
         == Link(Active, 1, SWAPPED, true, 2, map[1 := Pumping])
  {
    var st := Link(Active, 1, NONE, true, 2, map[1 := Pumping]);
    OneBuffered(st, PAGE, budget);
    hide Buffered;
    assert Pumped(Link(Active, 0, NONE, true, 2, map[1 := Pumping]), 1, PAGE, budget) == Buffered(st, 1, PAGE, budget);
  }

  lemma LinkFinishes()
    ensures PumpDone(Link(Active, 1, SWAPPED, true, 2, map[1 := Pumping]), 1) == Link(Done, 1, SWAPPED, true, 2, IDLE)
  {
  }

  function LinkLog(k: nat): Log {
    if k < 3 then EMPTY.log
    else if k < 6 then With(EMPTY.log, 1, EMPTY.log(1) + HALF)
    else if k == 6 then With(LinkLog(5), 1, [])
    else With(LinkLog(6), 1, LinkLog(6)(1) + PAGE)
  }

  function LinkState(k: nat): State {
    if k == 0 then EMPTY.st
    else if k == 1 then Begun(EMPTY.st, -1)
    else if k == 2 then Link(Active, 0, NONE, false, 0, IDLE)
    else if k == 3 then Link(Active, 2, HELD, false, 2, IDLE)
    else if k == 4 then Link(Paused, 2, HELD, true, 2, IDLE)
    else if k == 5 then Link(Active, 2, HELD, true, 2, map[1 := Fetching])
    else if k == 6 then Link(Active, 0, NONE, true, 2, map[1 := Pumping])
    else if k == 7 then Link(Active, 1, SWAPPED, true, 2, map[1 := Pumping])
    else Link(Done, 1, SWAPPED, true, 2, IDLE)
  }

  function LinkWorld(k: nat): World {
    World(LinkState(k), map[], {}, LinkLog(k))
  }

  const LINK: seq<Event> := [
    Begin(-1), Wrap(1), Chunk(1, HALF), Pause(1), Resume(1), Answer(1, 404, None), PumpChunk(1, PAGE), PumpEnds(1)]

  ghost predicate LinkStep(k: nat, budget: nat)
    requires k < 8
  {
    Enabled(LinkWorld(k), LINK[k]) && After(LinkWorld(k), LINK[k], budget) == LinkWorld(k + 1)
  }

  lemma LinkBegun(budget: nat)
    requires budget >= 2
    ensures LinkStep(0, budget)
  {
    hide Transformed, Begun, Wrapped, PausedNow, Resumed, Answered, Pumped, PumpDone, With;
  }

  lemma LinkWrapped(budget: nat)
    requires budget >= 2
    ensures LinkStep(1, budget)
  {
    LinkWraps();
    hide Transformed, Begun, Wrapped, PausedNow, Resumed, Answered, Pumped, PumpDone, With;
  }

  lemma LinkStreamed(budget: nat)
    requires budget >= 2
    ensures LinkStep(2, budget)
  {
    LinkFills(budget);
    hide Transformed, Begun, Wrapped, PausedNow, Resumed, Answered, Pumped, PumpDone, With;
  }

  lemma LinkPaused(budget: nat)
    requires budget >= 2
    ensures LinkStep(3, budget)
  {
    LinkBreaks();
    hide Transformed, Begun, Wrapped, PausedNow, Resumed, Answered, Pumped, PumpDone, With;
  }

  lemma LinkResumed(budget: nat)
    requires budget >= 2
    ensures LinkStep(4, budget)
  {
    LinkResumes();
    hide Transformed, Begun, Wrapped, PausedNow, Resumed, Answered, Pumped, PumpDone, With;
  }

  lemma LinkAnswered(budget: nat)
    requires budget >= 2
    ensures LinkStep(5, budget)
  {
    LinkResumes();
    hide Transformed, Begun, Wrapped, PausedNow, Resumed, Answered, Pumped, PumpDone, With;
  }

  lemma LinkDrained(budget: nat)
    requires budget >= 2
    ensures LinkStep(6, budget)
  {
    LinkReads(budget);
    hide Transformed, Begun, Wrapped, PausedNow, Resumed, Answered, Pumped, PumpDone, With;
  }

  lemma LinkEnded(budget: nat)
    requires budget >= 2
    ensures LinkStep(7, budget)
  {
    LinkFinishes();
    hide Transformed, Begun, Wrapped, PausedNow, Resumed, Answered, Pumped, PumpDone, With;
  }

  lemma LinkSteps(k: nat, budget: nat)
    requires k < 8 && budget >= 2
    ensures LinkStep(k, budget)
  {
    hide *;
    if k == 0 {
      LinkBegun(budget);
    } else if k == 1 {
      LinkWrapped(budget);
    } else if k == 2 {
      LinkStreamed(budget);
    } else if k == 3 {
      LinkPaused(budget);
    } else if k == 4 {
      LinkResumed(budget);
    } else if k == 5 {
      LinkAnswered(budget);
    } else if k == 6 {
      LinkDrained(budget);
    } else {
      LinkEnded(budget);
    }
  }

  lemma LinkRun(budget: nat) returns (ws: seq<World>)
    requires budget >= 2
    ensures Run(ws, LINK, budget) && |ws| == 9 && ws[4] == LinkWorld(4) && ws[8] == LinkWorld(8)
  {
    ws := seq(9, k requires 0 <= k => LinkWorld(k));
    forall k | 0 <= k < 8 ensures Enabled(ws[k], LINK[k]) && ws[k + 1] == After(ws[k], LINK[k], budget) {
      LinkSteps(k, budget);
    }
    assert LinkWorld(0) == EMPTY;
    hide Enabled, After, LinkWorld;
  }

  lemma LinkTakes()
    ensures LINK[5] == Answer(1, 404, None) && Taken(LINK[6..7], 1) == PAGE != HALF
  {
    assert LINK[6..7] == [PumpChunk(1, PAGE)];
    assert [PumpChunk(1, PAGE)][..0] == [];
  }

  /** A download of two octets so far is paused and resumed, the answer is a 404 with a body of its own, and the
      entry ends done with that body. */
  lemma ErrorPageEndsDone(budget: nat) returns (ws: seq<World>)
    requires budget >= 2
    ensures Run(ws, LINK, budget)
    ensures LINK[5] == Answer(1, 404, None) && Taken(LINK[6..7], 1) == PAGE != HALF
    ensures var st := ws[4].st; 1 in st.partials && st.partials[1].chunks == [HALF]
    ensures var st := ws[8].st;
      1 in st.partials && st.partials[1].chunks == [PAGE] && 1 in st.info && st.info[1].status == Done
  {
    LinkTakes();
    hide Run, Taken;
    ws := LinkRun(budget);
  }

  // ----- a ring full of live downloads -----

  function UpTo(n: nat): (ids: set<nat>)
    ensures forall i :: i in ids <==> 1 <= i <= n
  {
    if n == 0 then {} else UpTo(n - 1) + {n}
  }

  /** The first n downloads, all still streaming. */
  function Live(n: nat): State {
    var ids := UpTo(n);
    State(seq(n, i requires 0 <= i => i + 1), map i <- ids :: Entry(-1, 0, Active, true), map i <- ids :: NONE, ids, IDLE,
          map i <- ids :: Flowing(0, true), ids, n + 1)
  }

  lemma OneMoreLive(n: nat)
    requires n < RING
    ensures Begun(Live(n), -1) == Pushed(Live(n), -1) && Wrapped(Begun(Live(n), -1), n + 1) == Live(n + 1)
  {
    var s, t := Wrapped(Pushed(Live(n), -1), n + 1), Live(n + 1);
    assert s.order == t.order && s.streams == t.streams && s.wrapped == t.wrapped;
    assert s.info == t.info && s.partials == t.partials && s.pipes == t.pipes;
  }

  /** A run goes on with any event that can happen. */
  lemma Extended(ws: seq<World>, evs: seq<Event>, budget: nat, ev: Event) returns (vs: seq<World>, es: seq<Event>)
    requires Run(ws, evs, budget) && Enabled(ws[|evs|], ev)
    ensures Run(vs, es, budget) && es == evs + [ev] && vs[|es|] == After(ws[|evs|], ev, budget)
    ensures |vs| == |ws| + 1 && vs[..|ws|] == ws
  {
    vs, es := ws + [After(ws[|evs|], ev, budget)], evs + [ev];
    hide Enabled, After;
  }

  lemma MoreLive(ws: seq<World>, evs: seq<Event>, n: nat, budget: nat) returns (vs: seq<World>, es: seq<Event>)
    requires Run(ws, evs, budget) && ws[|evs|].st == Live(n) && n < RING
    ensures Run(vs, es, budget) && vs[|es|].st == Live(n + 1)
  {
    OneMoreLive(n);
    assert Live(n).next == n + 1 && Live(n).wrapped == UpTo(n);
    hide Run, Live, Wrapped, FirstIdle;
    vs, es := Extended(ws, evs, budget, Begin(-1));
    vs, es := Extended(vs, es, budget, Wrap(n + 1));
  }

  lemma {:induction false} LiveRun(n: nat, budget: nat) returns (ws: seq<World>, evs: seq<Event>)
    requires n <= RING
    ensures Run(ws, evs, budget) && ws[|evs|].st == Live(n)
  {
    if n == 0 {
      ws, evs := [EMPTY], [];
      assert EMPTY.st == Live(0);
    } else {
      ws, evs := LiveRun(n - 1, budget);
      ws, evs := MoreLive(ws, evs, n - 1, budget);
    }
  }

  /** The two-hundred-and-first of that many live downloads is the one that the ring evicts, at once. */
  lemma NewestEvicted(budget: nat) returns (ws: seq<World>, evs: seq<Event>)
    ensures Run(ws, evs, budget) && evs != [] && evs[|evs| - 1] == Begin(-1)
    ensures ws[|evs|].st.order == Live(RING).order && ws[|evs|].st.next == RING + 2
  {
    ws, evs := LiveRun(RING, budget);
    hide Run, Begun, Live;
    ws, evs := Extended(ws, evs, budget, Begin(-1));
    EvictedAgain();
  }

  lemma EvictedAgain()
    ensures Begun(Live(RING), -1).order == Live(RING).order && Begun(Live(RING), -1).next == RING + 2
  {
    var s, p := Live(RING), Pushed(Live(RING), -1);
    assert forall k :: 0 <= k < RING ==> p.order[k] == k + 1 && !Idle(p, p.order[k]);
    assert p.order[RING] == RING + 1 && Idle(p, p.order[RING]);
    assert FirstIdle(p, 0) == RING;
    assert p.order[..RING] + p.order[RING + 1..] == s.order;
  }
}
