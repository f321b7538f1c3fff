/** What every run of the download registry keeps (app/src/downloads.ts): a buffer is what its entry was
    given, the ring stays within its size, and the buffers stay within the budget. */
module DownloadRuns {
  import opened Common
  import opened Downloads
  import opened DownloadSteps

  // ----- the invariant, entry by entry -----

  /** The buffer holds what the entry was given; `owed` of the counted bytes are still to be added. A buffer
      just read from storage is not counted yet. */
  ghost predicate BufferOk(st: State, log: Log, id: nat, owed: nat) {
    id in st.partials ==>
      && Known(st, id) && st.info[id].resumable
      && st.partials[id].n == |Flatten(st.partials[id].chunks)|
      && var e := st.info[id];
      if PumpAt(st, id, Loaded) then Flatten(st.partials[id].chunks) == log(id)
      else owed <= e.received == |log(id)| && Flatten(st.partials[id].chunks) == log(id)[..e.received - owed]
  }

  /** A flowing stream has no pump, and an active entry counts what the stream has sent. */
  ghost predicate FlowOk(st: State, log: Log, id: nat) {
    FlowsAt(st, id) && st.pipes[id].tracked ==>
      && id in st.info && id !in st.pumps
      && (st.info[id].status == Active ==> st.info[id].received == st.pipes[id].sent == |log(id)|)
      && (st.info[id].status == Paused ==> !st.info[id].resumable)
  }

  ghost predicate PumpOk(st: State, log: Log, id: nat) {
    && (id in st.pumps ==> Known(st, id))
    && (PumpAt(st, id, Loading) ==>
         id !in st.partials && st.info[id].resumable && st.info[id].status == Paused)
    && (PumpAt(st, id, Pumping) ==> st.info[id].received == |log(id)|)
  }

  ghost predicate UnwrappedOk(st: State, log: Log, id: nat) {
    id !in st.wrapped ==>
      && id !in st.partials && id !in st.streams && id !in st.pipes && id !in st.pumps && log(id) == []
      && (id in st.info ==> st.info[id].received == 0 && (st.info[id].status == Paused ==> !st.info[id].resumable))
  }

  ghost predicate EntryOk(st: State, log: Log, id: nat, busy: nat, owed: nat) {
    && BufferOk(st, log, id, if id == busy then owed else 0) && FlowOk(st, log, id)
    && PumpOk(st, log, id) && UnwrappedOk(st, log, id)
    && (id in st.order ==> id in st.info) && (FlowsAt(st, id) ==> id in st.streams)
    && (id in st.info || id in st.wrapped ==> id < st.next)
  }

  ghost predicate RingOk(st: State) {
    |st.order| <= RING && Distinct(st.order)
  }

  ghost predicate Inv(st: State, log: Log, busy: nat, owed: nat) {
    RingOk(st) && forall id: nat :: EntryOk(st, log, id, busy, owed)
  }

  /** The two states tell one entry's story alike. */
  predicate SameAt(s: State, t: State, id: nat) {
    && (id in s.order <==> id in t.order) && (id in s.info <==> id in t.info)
    && (id in s.info ==> s.info[id] == t.info[id])
    && (id in s.partials <==> id in t.partials) && (id in s.partials ==> s.partials[id] == t.partials[id])
    && (id in s.pumps <==> id in t.pumps) && (id in s.pumps ==> s.pumps[id] == t.pumps[id])
    && (id in s.pipes <==> id in t.pipes) && (id in s.pipes ==> s.pipes[id] == t.pipes[id])
    && (id in s.streams <==> id in t.streams) && (id in s.wrapped <==> id in t.wrapped)
    && s.next <= t.next
  }

  lemma Framed(s: State, t: State, log: Log, id: nat, busy: nat, owed: nat)
    requires EntryOk(s, log, id, busy, owed) && SameAt(s, t, id)
    ensures EntryOk(t, log, id, busy, owed)
  {
    hide Flatten;
  }

  /** A step on one entry, which may be given more. */
  lemma Gives(s: State, t: State, log: Log, given: bytes, busy: nat, owed: nat, left: nat)
    requires Inv(s, log, busy, owed) && RingOk(t)
    requires forall i: nat :: i != busy ==> SameAt(s, t, i)
    requires EntryOk(t, With(log, busy, given), busy, busy, left)
    ensures Inv(t, With(log, busy, given), busy, left)
  {
    var more := With(log, busy, given);
    hide SameAt, RingOk;
    forall id: nat ensures EntryOk(t, more, id, busy, left) {
      assert EntryOk(s, log, id, busy, owed);
      if id != busy {
        Elsewhere(s, log, more, id, busy, owed, left);
        Framed(s, t, more, id, busy, left);
      }
    }
  }

  /** What one entry is given is no matter to the others. */
  lemma Elsewhere(s: State, log: Log, more: Log, id: nat, busy: nat, owed: nat, left: nat)
    requires EntryOk(s, log, id, busy, owed) && id != busy && more(id) == log(id)
    ensures EntryOk(s, more, id, busy, left)
  {
    hide Flatten;
  }

  /** A step on one entry. */
  lemma Touches(s: State, t: State, log: Log, busy: nat, owed: nat, left: nat)
    requires Inv(s, log, busy, owed) && RingOk(t)
    requires forall i: nat :: i != busy ==> SameAt(s, t, i)
    requires EntryOk(t, log, busy, busy, left)
    ensures Inv(t, log, busy, left)
  {
    hide SameAt, RingOk, BufferOk, FlowOk, PumpOk, UnwrappedOk;
    forall id: nat ensures EntryOk(t, log, id, busy, left) {
      assert EntryOk(s, log, id, busy, owed);
      if id != busy {
        Framed(s, t, log, id, busy, owed);
      }
    }
  }

  /** With nothing owed it does not matter to whom. */
  lemma Rebased(s: State, log: Log, a: nat, b: nat)
    requires Inv(s, log, a, 0)
    ensures Inv(s, log, b, 0)
  {
    hide BufferOk, FlowOk, PumpOk, UnwrappedOk, RingOk;
    forall id: nat ensures EntryOk(s, log, id, b, 0) {
      assert EntryOk(s, log, id, a, 0);
    }
  }

  // ----- buffers come and go -----

  lemma DropKeeps(s: State, log: Log, busy: nat, owed: nat, v: nat)
    requires Inv(s, log, busy, owed) && v in s.partials
    ensures Inv(Drop(s, v), log, busy, owed)
  {
    var t := Drop(s, v);
    forall id: nat ensures EntryOk(t, log, id, busy, owed) {
      assert EntryOk(s, log, id, busy, owed);
      hide Flatten;
      if id != v {
        Framed(s, t, log, id, busy, owed);
      }
    }
  }

  lemma {:induction false} ShedKeeps(s: State, log: Log, busy: nat, owed: nat, victims: seq<nat>, n: nat,
                                     budget: nat)
    requires Inv(s, log, busy, owed) && busy !in victims
    requires Distinct(victims)
    requires forall v <- victims :: v in s.partials
    ensures var t := Shed(s, victims, n, budget);
      && Inv(t, log, busy, owed)
      && (busy in t.partials <==> busy in s.partials)
      && (busy in s.partials ==> t.partials[busy] == s.partials[busy])
    ensures Shed(s, victims, n, budget).(partials := s.partials, info := s.info) == s
    ensures busy in s.info ==> busy in Shed(s, victims, n, budget).info
                               && Shed(s, victims, n, budget).info[busy] == s.info[busy]
    decreases |victims|
  {
    if Total(s.partials) + n > budget && victims != [] {
      DropKeeps(s, log, busy, owed, victims[0]);
      hide Inv;
      ShedKeeps(Drop(s, victims[0]), log, busy, owed, victims[1..], n, budget);
    }
  }

  lemma {:induction false} HoldersDistinct(st: State, order: seq<nat>, id: nat, active: bool)
    requires Distinct(order)
    ensures Distinct(Holders(st, order, id, active))
    decreases |order|
  {
    if order != [] {
      HoldersDistinct(st, order[1..], id, active);
      assert order[0] !in order[1..];
      var head := if order[0] != id && order[0] in st.partials && IsActive(st, order[0]) == active then [order[0]] else [];
      DistinctJoin(head, Holders(st, order[1..], id, active));
    }
  }

  lemma VictimsFit(st: State, id: nat)
    requires RingOk(st)
    ensures var v := Victims(st, id);
      && id !in v && (forall x <- v :: x in st.partials)
      && Distinct(v)
  {
    var i, a := Holders(st, st.order, id, false), Holders(st, st.order, id, true);
    HoldersDistinct(st, st.order, id, false);
    HoldersDistinct(st, st.order, id, true);
    hide Holders;
    DistinctJoin(i, a);
  }

  lemma AdmittedKeeps(s: State, log: Log, id: nat, owed: nat, n: nat, budget: nat)
    requires Inv(s, log, id, owed)
    ensures var t := Admitted(s, id, n, budget);
      && Inv(t, log, id, owed)
      && (id in t.partials <==> id in s.partials)
      && (id in s.partials ==> t.partials[id] == s.partials[id])
      && t.(partials := s.partials, info := s.info) == s
      && (id in s.info ==> id in t.info && t.info[id] == s.info[id])
  {
    VictimsFit(s, id);
    ShedKeeps(s, log, id, owed, Victims(s, id), n, budget);
  }

  /** A buffer that is gone owes nothing. */
  lemma NothingOwed(s: State, log: Log, id: nat, owed: nat)
    requires Inv(s, log, id, owed) && id !in s.partials
    ensures Inv(s, log, id, 0)
  {
    hide FlowOk, PumpOk, UnwrappedOk, RingOk;
    forall i: nat ensures EntryOk(s, log, i, id, 0) {
      assert EntryOk(s, log, i, id, owed);
    }
  }

  /** The chunk is what was given last. */
  predicate Tail(given: bytes, chunk: bytes) {
    |chunk| <= |given| && given[|given| - |chunk|..] == chunk
  }

  lemma AppendKeeps(s: State, log: Log, id: nat, chunk: bytes)
    requires Inv(s, log, id, |chunk|) && id in s.partials && !PumpAt(s, id, Loaded) && id in s.info
    requires Tail(log(id), chunk)
    ensures var p := Partial(s.partials[id].chunks + [chunk], s.partials[id].n + |chunk|);
      Inv(s.(partials := s.partials[id := p]), log, id, 0)
  {
    var old_ := s.partials[id].chunks;
    var p := Partial(old_ + [chunk], s.partials[id].n + |chunk|);
    var t := s.(partials := s.partials[id := p]);
    assert EntryOk(s, log, id, id, |chunk|);
    assert (old_ + [chunk])[..|old_|] == old_;
    var f, r := log(id), s.info[id].received;
    assert f[..r] == f[..r - |chunk|] + chunk;
    Touches(s, t, log, id, |chunk|, 0);
  }

  lemma DroppedKeeps(s: State, log: Log, id: nat, owed: nat)
    requires Inv(s, log, id, owed) && id in s.partials
    ensures Inv(Drop(s, id), log, id, 0)
  {
    DropKeeps(s, log, id, owed, id);
    assert id !in Drop(s, id).partials;
    hide Inv, Drop;
    NothingOwed(Drop(s, id), log, id, owed);
  }

  lemma RoomKeeps(s: State, log: Log, id: nat, chunk: bytes, budget: nat)
    requires Inv(s, log, id, |chunk|) && !PumpAt(s, id, Loaded) && id in s.info && id in s.partials
    requires Tail(log(id), chunk)
    requires s.info[id].resumable && s.partials[id].n + |chunk| <= RESUME_MAX
    ensures Inv(Buffered(s, id, chunk, budget), log, id, 0)
  {
    hide Inv, Admitted, Tail, Drop, Total;
    AdmittedKeeps(s, log, id, |chunk|, |chunk|, budget);
    var t := Admitted(s, id, |chunk|, budget);
    if Total(t.partials) + |chunk| > budget {
      DroppedKeeps(t, log, id, |chunk|);
    } else {
      AppendKeeps(t, log, id, chunk);
    }
  }

  lemma BufferedKeeps(s: State, log: Log, id: nat, chunk: bytes, budget: nat)
    requires Inv(s, log, id, |chunk|) && !PumpAt(s, id, Loaded) && id in s.info
    requires Tail(log(id), chunk)
    ensures Inv(Buffered(s, id, chunk, budget), log, id, 0)
  {
    hide Inv, Admitted, Tail, Drop, Total;
    if !s.info[id].resumable || id !in s.partials {
      if id !in s.partials {
        NothingOwed(s, log, id, |chunk|);
      } else {
        HeldIsResumable(s, log, id, |chunk|);
      }
    } else if s.partials[id].n + |chunk| > RESUME_MAX {
      DroppedKeeps(s, log, id, |chunk|);
    } else {
      RoomKeeps(s, log, id, chunk, budget);
    }
  }

  lemma HeldIsResumable(s: State, log: Log, id: nat, owed: nat)
    requires Inv(s, log, id, owed) && id in s.partials
    ensures Known(s, id) && s.info[id].resumable
  {
    assert EntryOk(s, log, id, id, owed);
  }

  // ----- step by step -----

  lemma WrapKeeps(s: State, log: Log, id: nat)
    requires Inv(s, log, id, 0) && id < s.next && id !in s.wrapped
    ensures Inv(Wrapped(s, id), log, id, 0)
  {
    assert EntryOk(s, log, id, id, 0);
    Touches(s, Wrapped(s, id), log, id, 0, 0);
  }

  /** The counted state between the two halves of a transform. */
  function Counted(s: State, id: nat, n: nat): State
    requires id in s.pipes && s.pipes[id].Flowing? && id in s.info
  {
    var p := s.pipes[id];
    Received(s.(pipes := s.pipes[id := p.(sent := p.sent + n)]), id, s.info[id].received + n)
  }

  lemma ChunkKeeps(s: State, log: Log, id: nat, chunk: bytes, budget: nat)
    requires Inv(s, log, id, 0) && FlowsAt(s, id)
    ensures Inv(Transformed(s, id, chunk, budget), if Counts(s, id) then With(log, id, log(id) + chunk) else log, id, 0)
  {
    hide Inv, Buffered;
    if Counts(s, id) {
      CountedChunkKeeps(s, log, id, chunk, budget);
    } else {
      PassKeeps(s, log, id, chunk);
    }
  }

  lemma CountedChunkKeeps(s: State, log: Log, id: nat, chunk: bytes, budget: nat)
    requires Inv(s, log, id, 0) && Counts(s, id)
    ensures Inv(Transformed(s, id, chunk, budget), With(log, id, log(id) + chunk), id, 0)
  {
    assert id !in s.pumps by {
      assert EntryOk(s, log, id, id, 0);
    }
    hide Inv, Buffered;
    CountKeeps(s, log, id, chunk);
    CountedReads(s, id, |chunk|);
    GivenLast(log, id, chunk);
    assert Transformed(s, id, chunk, budget) == Buffered(Counted(s, id, |chunk|), id, chunk, budget);
    hide With, Counted, Tail, PumpAt;
    BufferedKeeps(Counted(s, id, |chunk|), With(log, id, log(id) + chunk), id, chunk, budget);
  }

  lemma GivenLast(log: Log, id: nat, chunk: bytes)
    ensures Tail(With(log, id, log(id) + chunk)(id), chunk)
  {
  }

  lemma CountedReads(s: State, id: nat, n: nat)
    requires FlowsAt(s, id) && id in s.info && id !in s.pumps
    ensures var r := Counted(s, id, n);
      id in r.info && !PumpAt(r, id, Loaded)
  {
  }

  lemma PassKeeps(s: State, log: Log, id: nat, chunk: bytes)
    requires Inv(s, log, id, 0) && FlowsAt(s, id) && !Counts(s, id)
    ensures var p := s.pipes[id];
      Inv(s.(pipes := s.pipes[id := p.(sent := p.sent + |chunk|)]), log, id, 0)
  {
    hide Flatten;
    assert EntryOk(s, log, id, id, 0);
    var p := s.pipes[id];
    Touches(s, s.(pipes := s.pipes[id := p.(sent := p.sent + |chunk|)]), log, id, 0, 0);
  }

  lemma CountKeeps(s: State, log: Log, id: nat, chunk: bytes)
    requires Inv(s, log, id, 0) && Counts(s, id)
    ensures Inv(Counted(s, id, |chunk|), With(log, id, log(id) + chunk), id, |chunk|)
  {
    assert EntryOk(s, log, id, id, 0);
    hide Flatten;
    var given := log(id) + chunk;
    assert given[..|log(id)|] == log(id)[..|log(id)|];
    Gives(s, Counted(s, id, |chunk|), log, given, id, 0, |chunk|);
  }

  lemma FlushKeeps(s: State, log: Log, id: nat)
    requires Inv(s, log, id, 0) && FlowsAt(s, id)
    ensures Inv(Flushed(s, id), log, id, 0)
  {
    hide Flatten;
    assert EntryOk(s, log, id, id, 0);
    Touches(s, Flushed(s, id), log, id, 0, 0);
  }

  lemma BreakKeeps(s: State, log: Log, id: nat)
    requires Inv(s, log, id, 0) && FlowsAt(s, id)
    ensures Inv(s.(pipes := s.pipes[id := Broken(s.pipes[id].tracked)]), log, id, 0)
  {
    hide Flatten;
    assert EntryOk(s, log, id, id, 0);
    Touches(s, s.(pipes := s.pipes[id := Broken(s.pipes[id].tracked)]), log, id, 0, 0);
  }

  lemma CatchKeeps(s: State, log: Log, id: nat)
    requires Inv(s, log, id, 0) && id in s.pipes && s.pipes[id].Broken?
    ensures Inv(Caught(s, id), log, id, 0)
  {
    hide Flatten;
    assert EntryOk(s, log, id, id, 0);
    Touches(s, Caught(s, id), log, id, 0, 0);
  }

  lemma SettleKeeps(s: State, log: Log, id: nat)
    requires Inv(s, log, id, 0) && id in s.pipes && s.pipes[id].Finished?
    ensures Inv(s.(pipes := s.pipes - {id}, streams := s.streams - {id}), log, id, 0)
  {
    hide Flatten;
    assert EntryOk(s, log, id, id, 0);
    Touches(s, s.(pipes := s.pipes - {id}, streams := s.streams - {id}), log, id, 0, 0);
  }

  lemma SeverKeeps(s: State, log: Log, id: nat)
    requires Inv(s, log, id, 0)
    ensures Inv(Severed(s, id), log, id, 0)
  {
    hide Flatten;
    assert EntryOk(s, log, id, id, 0);
    Touches(s, Severed(s, id), log, id, 0, 0);
  }

  lemma PauseKeeps(s: State, log: Log, id: nat)
    requires Inv(s, log, id, 0)
    ensures Inv(PausedNow(s, id), log, id, 0)
  {
    SeverKeeps(s, log, id);
    assert EntryOk(s, log, id, id, 0);
    PauseEitherWay(s, id);
    hide *;
    PauseMarkKeeps(Severed(s, id), log, id);
  }

  /** Marking and severing touch different fields. */
  lemma PauseEitherWay(s: State, id: nat)
    requires FlowsAt(s, id) ==> id in s.streams
    ensures PausedNow(s, id) == PauseMark(Severed(s, id), id) && !FlowsAt(Severed(s, id), id)
  {
  }

  lemma PauseMarkKeeps(s: State, log: Log, id: nat)
    requires Inv(s, log, id, 0) && !FlowsAt(s, id)
    ensures Inv(PauseMark(s, id), log, id, 0)
  {
    assert EntryOk(s, log, id, id, 0);
    PauseMarkEntry(s, log, id);
    hide EntryOk;
    Touches(s, PauseMark(s, id), log, id, 0, 0);
  }

  lemma PauseMarkEntry(s: State, log: Log, id: nat)
    requires EntryOk(s, log, id, id, 0) && !FlowsAt(s, id)
    ensures EntryOk(PauseMark(s, id), log, id, id, 0)
  {
    hide Flatten;
  }

  lemma CancelKeeps(s: State, log: Log, id: nat)
    requires Inv(s, log, id, 0)
    ensures Inv(CancelledNow(s, id), log, id, 0)
  {
    CancelMarkKeeps(s, log, id);
    hide *;
    SeverKeeps(CancelMark(s, id), log, id);
    CancelSevers(s, id);
  }

  lemma CancelSevers(s: State, id: nat)
    ensures CancelledNow(s, id) == Severed(CancelMark(s, id), id)
  {
  }

  lemma CancelMarkKeeps(s: State, log: Log, id: nat)
    requires Inv(s, log, id, 0)
    ensures Inv(CancelMark(s, id), log, id, 0)
  {
    hide Flatten;
    assert EntryOk(s, log, id, id, 0);
    Touches(s, CancelMark(s, id), log, id, 0, 0);
  }

  // ----- the stages of a resume -----

  lemma ResumeKeeps(s: State, log: Log, id: nat)
    requires Inv(s, log, id, 0)
    requires Known(s, id) && s.info[id].status == Paused && s.info[id].resumable && id !in s.pumps
    ensures Inv(Resumed(s, id), log, id, 0)
  {
    hide Flatten;
    assert EntryOk(s, log, id, id, 0);
    Touches(s, Resumed(s, id), log, id, 0, 0);
  }

  lemma LoadHitKeeps(s: State, log: Log, id: nat, data: bytes)
    requires Inv(s, log, id, 0) && PumpAt(s, id, Loading)
    ensures Inv(s.(partials := s.partials[id := Restored(data)], pumps := s.pumps[id := Loaded]),
                With(log, id, data), id, 0)
  {
    assert EntryOk(s, log, id, id, 0);
    assert Flatten([data]) == data by {
      assert [data][..0] == [];
    }
    Gives(s, s.(partials := s.partials[id := Restored(data)], pumps := s.pumps[id := Loaded]), log, data, id, 0, 0);
  }

  lemma LoadMissKeeps(s: State, log: Log, id: nat)
    requires Inv(s, log, id, 0) && PumpAt(s, id, Loading)
    ensures Inv(Missed(s, id), With(log, id, []), id, 0)
  {
    assert EntryOk(s, log, id, id, 0);
    Gives(s, Missed(s, id), log, [], id, 0, 0);
  }

  lemma LoadSeenKeeps(s: State, log: Log, id: nat)
    requires Inv(s, log, id, 0) && PumpAt(s, id, Loaded)
    ensures Inv(Seen(s, id), log, id, 0)
  {
    assert EntryOk(s, log, id, id, 0);
    hide Flatten;
    Touches(s, Seen(s, id), log, id, 0, 0);
  }

  lemma RangeGoneKeeps(s: State, log: Log, id: nat)
    requires Inv(s, log, id, 0) && PumpAt(s, id, Fetching)
    ensures Inv(Ended(Forget(Marked(s, id, Failed), id), id), log, id, 0)
  {
    hide Flatten;
    assert EntryOk(s, log, id, id, 0);
    Touches(s, Ended(Forget(Marked(s, id, Failed), id), id), log, id, 0, 0);
  }

  lemma DrainedKeeps(s: State, log: Log, id: nat)
    requires Inv(s, log, id, 0) && PumpAt(s, id, Fetching)
    ensures Inv(Drained(s, id), log, id, 0)
  {
    hide Flatten;
    assert EntryOk(s, log, id, id, 0);
    Touches(s, Drained(s, id), log, id, 0, 0);
  }

  lemma FromZeroKeeps(s: State, log: Log, id: nat)
    requires Inv(s, log, id, 0) && PumpAt(s, id, Fetching)
    ensures Inv(FromZero(s, id), With(log, id, []), id, 0)
  {
    assert EntryOk(s, log, id, id, 0);
    Gives(s, FromZero(s, id), log, [], id, 0, 0);
  }

  lemma AnswerKeeps(s: State, log: Log, id: nat, status: int, start: Option<nat>)
    requires Inv(s, log, id, 0) && PumpAt(s, id, Fetching)
    ensures Inv(Answered(s, id, status, start),
                if status == 416 || status == 206 then log else With(log, id, []), id, 0)
  {
    hide Inv, FromZero, Drained;
    if status == 416 {
      RangeGoneKeeps(s, log, id);
    } else if status != 206 {
      FromZeroKeeps(s, log, id);
    } else if id in s.info && start == Some(s.info[id].received) {
      DrainedKeeps(s, log, id);
    } else {
      EndKeeps(s, log, id, Paused);
    }
  }

  /** A pump that ends, whatever it marks the entry, leaves the buffer as it was. */
  lemma EndKeeps(s: State, log: Log, id: nat, status: Status)
    requires Inv(s, log, id, 0) && id in s.pumps && !PumpAt(s, id, Loaded) && status != Active
    ensures Inv(Ended(Marked(s, id, status), id), log, id, 0)
  {
    hide Flatten;
    assert EntryOk(s, log, id, id, 0);
    Touches(s, Ended(Marked(s, id, status), id), log, id, 0, 0);
  }

  lemma PumpChunkKeeps(s: State, log: Log, id: nat, chunk: bytes, budget: nat)
    requires Inv(s, log, id, 0) && PumpAt(s, id, Pumping)
    ensures Inv(Pumped(s, id, chunk, budget), With(log, id, log(id) + chunk), id, 0)
  {
    assert EntryOk(s, log, id, id, 0);
    var r := Received(s, id, s.info[id].received + |chunk|);
    PumpCountKeeps(s, log, id, chunk);
    GivenLast(log, id, chunk);
    assert !PumpAt(r, id, Loaded) && r.info[id].received == s.info[id].received + |chunk|;
    hide Inv, Buffered, EntryOk, With;
    BufferedKeeps(r, With(log, id, log(id) + chunk), id, chunk, budget);
  }

  lemma PumpCountKeeps(s: State, log: Log, id: nat, chunk: bytes)
    requires Inv(s, log, id, 0) && PumpAt(s, id, Pumping) && id in s.info
    ensures Inv(Received(s, id, s.info[id].received + |chunk|), With(log, id, log(id) + chunk), id, |chunk|)
  {
    hide Flatten;
    assert EntryOk(s, log, id, id, 0);
    var given := log(id) + chunk;
    assert given[..|log(id)|] == log(id)[..|log(id)|];
    Gives(s, Received(s, id, s.info[id].received + |chunk|), log, given, id, 0, |chunk|);
  }

  // ----- the ring -----

  lemma PushedKeeps(s: State, log: Log, size: int)
    requires Inv(s, log, s.next, 0)
    ensures var t := Pushed(s, size);
      && Distinct(t.order) && |t.order| <= RING + 1
      && forall id: nat :: EntryOk(t, log, id, s.next, 0)
  {
    var t := Pushed(s, size);
    hide Flatten;
    assert EntryOk(s, log, s.next, s.next, 0);
    forall id: nat ensures EntryOk(t, log, id, s.next, 0) {
      assert EntryOk(s, log, id, s.next, 0);
      if id != s.next {
        Framed(s, t, log, id, s.next, 0);
      }
    }
    assert forall x <- s.order :: x != s.next by {
      forall x <- s.order ensures x != s.next {
        assert EntryOk(s, log, x, s.next, 0);
      }
    }
    DistinctJoin(s.order, [s.next]);
  }

  /** The new entry has no stream yet, so there is always an idle one to evict: the ring never overflows,
      and when every other slot is live it is the new entry that goes. */
  lemma AlwaysAnIdleOne(s: State, log: Log, size: int)
    requires Inv(s, log, s.next, 0)
    ensures var p := Pushed(s, size); FirstIdle(p, 0) < |p.order|
    ensures var p := Pushed(s, size);
      (forall id <- s.order :: !Idle(s, id)) ==> p.order[FirstIdle(p, 0)] == s.next
  {
    var p := Pushed(s, size);
    assert EntryOk(s, log, s.next, s.next, 0);
    assert p.order[|s.order|] == s.next && Idle(p, s.next);
    var r := FirstIdle(p, 0);
    if r < |s.order| {
      assert p.order[r] == s.order[r] && s.order[r] in s.order && Idle(s, s.order[r]);
    }
  }

  lemma RemoveAt(order: seq<nat>, i: nat)
    requires Distinct(order) && i < |order|
    ensures var r := order[..i] + order[i + 1..];
      Distinct(r) && |r| == |order| - 1 && forall x :: x in r <==> x in order && x != order[i]
  {
    var r := order[..i] + order[i + 1..];
    assert forall k :: 0 <= k < |r| ==> r[k] == order[if k < i then k else k + 1];
    forall x | x in order && x != order[i] ensures x in r {
      var k :| 0 <= k < |order| && order[k] == x;
      assert r[if k < i then k else k - 1] == x;
    }
  }

  lemma EvictKeeps(p: State, log: Log, i: nat, busy: nat)
    requires Distinct(p.order) && |p.order| == RING + 1 && i < |p.order| && Idle(p, p.order[i])
    requires forall id: nat :: EntryOk(p, log, id, busy, 0)
    ensures Inv(Evicted(p, i), log, busy, 0)
  {
    RemoveAt(p.order, i);
    var t := Evicted(p, i);
    hide Flatten;
    forall id: nat ensures EntryOk(t, log, id, busy, 0) {
      assert EntryOk(p, log, id, busy, 0);
      if id != p.order[i] {
        Framed(p, t, log, id, busy, 0);
      }
    }
  }

  lemma BeginKeeps(s: State, log: Log, size: int)
    requires Inv(s, log, s.next, 0)
    ensures Inv(Begun(s, size), log, s.next, 0)
  {
    PushedKeeps(s, log, size);
    AlwaysAnIdleOne(s, log, size);
    var p := Pushed(s, size);
    hide EntryOk, Pushed;
    if |p.order| > RING {
      EvictKeeps(p, log, FirstIdle(p, 0), s.next);
    }
  }

  lemma RestartKeeps(s: State, log: Log)
    requires Inv(s, log, 0, 0)
    ensures Inv(Reborn(s), log, 0, 0)
  {
    hide Flatten;
    forall id: nat ensures EntryOk(Reborn(s), log, id, 0, 0) {
      assert EntryOk(s, log, id, 0, 0);
    }
  }
}
