/** What a page or the host sees of each step of the download registry (app/src/downloads.ts). */
module DownloadPromises {
  import opened Common
  import opened Downloads
  import opened DownloadSteps
  import opened DownloadRuns

  /** A buffer in hand is all that its entry was given. */
  ghost predicate Holds(s: State, log: Log, id: nat) {
    id in s.partials && Flatten(s.partials[id].chunks) == log(id) && s.partials[id].n == |log(id)|
  }

  lemma HeldIsLog(s: State, log: Log, id: nat)
    requires Inv(s, log, id, 0) && id in s.partials
    ensures Holds(s, log, id) && Known(s, id) && s.info[id].resumable
  {
    assert EntryOk(s, log, id, id, 0);
    hide Flatten;
  }

  /** A resume is of an entry in the ring. */
  lemma PumpIsKnown(s: State, log: Log, id: nat)
    requires Inv(s, log, 0, 0) && id in s.pumps
    ensures Known(s, id)
  {
    assert EntryOk(s, log, id, 0, 0);
  }

  /** A new download gets a number of its own, and the ring stays within its size. */
  lemma BeginMeets(s: State, log: Log, size: int)
    requires Inv(s, log, 0, 0)
    ensures Inv(Begun(s, size), log, 0, 0)
    ensures |Begun(s, size).order| <= RING && s.next in Begun(s, size).info && s.next !in s.info
    ensures Begun(s, size).info[s.next].resumable <==> size == -1 || size <= 64 * 1024 * 1024
  {
    assert EntryOk(s, log, s.next, 0, 0);
    Rebased(s, log, 0, s.next);
    BeginKeeps(s, log, size);
    hide EntryOk, FirstIdle;
    Rebased(Begun(s, size), log, s.next, 0);
  }

  ghost predicate OthersStay(s: State, t: State, id: nat) {
    forall i: nat :: i != id ==> SameAt(s, t, i)
  }

  // ----- the stream -----

  /** A counted stream that fails leaves its entry paused when bytes are in hand, which are then all it was
      given, and failed otherwise. It frees nothing. */
  ghost predicate FailSeen(s: State, t: State, log: Log, id: nat)
    requires id in s.pipes && s.pipes[id].Broken?
  {
    && OthersStay(s, t, id) && t.partials == s.partials && id in t.pipes && t.pipes[id].Finished?
    && (if s.pipes[id].tracked && IsActive(s, id) then
          id in t.info && t.info[id].status == if Holds(t, log, id) && log(id) != [] then Paused else Failed
        else t.info == s.info)
  }

  lemma FailMeets(s: State, log: Log, id: nat)
    requires Inv(s, log, id, 0) && id in s.pipes && s.pipes[id].Broken?
    ensures FailSeen(s, Caught(s, id), log, id)
  {
    if id in s.partials {
      HeldIsLog(s, log, id);
    }
    hide Flatten, Inv;
  }

  // ----- the controls -----

  /** A pause frees nothing and cuts the stream; what was active is paused, and resumable exactly when its bytes
      are in hand. */
  ghost predicate PauseSeen(s: State, t: State, id: nat, ok: bool) {
    && OthersStay(s, t, id) && t.partials == s.partials && id !in t.streams && !FlowsAt(t, id)
    && (if Known(s, id) && IsActive(s, id) then
          Known(t, id) && t.info[id].status == Paused && (t.info[id].resumable <==> id in t.partials)
        else t.info == s.info)
    && (ok <==> id in s.streams || (Known(t, id) && t.info[id].status == Paused))
  }

  lemma PauseMeets(s: State, log: Log, id: nat)
    requires Inv(s, log, id, 0)
    ensures var t := PausedNow(s, id);
      PauseSeen(s, t, id, id in s.streams || (Known(t, id) && t.info[id].status == Paused))
  {
    assert EntryOk(s, log, id, id, 0);
    hide Flatten, Inv;
  }

  /** A cancel cuts the stream; what was active is cancelled and its bytes are freed, and nothing else changes. */
  ghost predicate CancelSeen(s: State, t: State, id: nat, ok: bool) {
    && OthersStay(s, t, id) && id !in t.streams && !FlowsAt(t, id)
    && (if Known(s, id) && IsActive(s, id) then
          Known(t, id) && t.info[id].status == Cancelled && id !in t.partials
        else t.info == s.info && t.partials == s.partials)
    && (ok <==> id in s.streams || (Known(t, id) && t.info[id].status == Cancelled))
  }

  lemma CancelMeets(s: State, log: Log, id: nat)
    requires Inv(s, log, id, 0)
    ensures var t := CancelledNow(s, id);
      CancelSeen(s, t, id, id in s.streams || (Known(t, id) && t.info[id].status == Cancelled))
  {
    assert FlowsAt(s, id) ==> id in s.streams by {
      assert EntryOk(s, log, id, id, 0);
    }
    CancelElsewhere(s, id);
    hide Inv, OthersStay;
  }

  lemma CancelElsewhere(s: State, id: nat)
    ensures OthersStay(s, CancelledNow(s, id), id)
  {
  }

  // ----- a resume -----

  /** A resume with bytes in hand asks for the range that follows them. */
  ghost predicate ResumeSeen(s: State, t: State, log: Log, id: nat) {
    && OthersStay(s, t, id) && t.partials == s.partials && id in t.pumps
    && (id in s.partials ==> IsActive(t, id) && Holds(t, log, id) && t.info[id].received == |log(id)|)
  }

  lemma ResumeMeets(s: State, log: Log, id: nat)
    requires Inv(s, log, id, 0) && Known(s, id) && id !in s.pumps
    ensures ResumeSeen(s, Resumed(s, id), log, id)
  {
    assert EntryOk(s, log, id, id, 0);
    if id in s.partials {
      HeldIsLog(s, log, id);
    }
    hide Flatten, Inv;
  }

  /** An answer is drained exactly when the buffer is still there and the answer is neither a 416 nor a 206 that
      starts elsewhere; it is drained onto the bytes in hand for a 206 and onto nothing otherwise. A 416 fails
      the entry and frees its bytes; any other refusal pauses it. */
  ghost predicate AnswerSeen(s: State, t: State, log: Log, id: nat, status: int, start: Option<nat>) {
    && OthersStay(s, t, id) && id in s.info && id in t.info
    && (PumpAt(t, id, Pumping) <==>
          id in s.partials && status != 416 && (status == 206 ==> start == Some(s.info[id].received)))
    && (PumpAt(t, id, Pumping) ==>
          && id in t.partials && Flatten(t.partials[id].chunks) == (if status == 206 then log(id) else [])
          && t.info[id].received == |Flatten(t.partials[id].chunks)|)
    && (!PumpAt(t, id, Pumping) ==> id !in t.pumps && t.info[id].status == if status == 416 then Failed else Paused)
    && (status == 416 ==> id !in t.partials) && (status == 206 ==> t.partials == s.partials)
  }

  lemma AnswerMeets(s: State, log: Log, id: nat, status: int, start: Option<nat>)
    requires Inv(s, log, id, 0) && PumpAt(s, id, Fetching)
    ensures AnswerSeen(s, Answered(s, id, status, start), log, id, status, start)
  {
    assert EntryOk(s, log, id, id, 0);
    if id in s.partials {
      HeldIsLog(s, log, id);
    }
    hide Inv, AnswerSeen, Answered, Holds, Flatten;
    if status == 416 {
      AnswerGone(s, log, id, start);
    } else if status == 206 {
      AnswerContinues(s, log, id, start);
    } else {
      AnswerRestarts(s, log, id, status, start);
    }
  }

  lemma AnswerGone(s: State, log: Log, id: nat, start: Option<nat>)
    requires id in s.info
    ensures AnswerSeen(s, Answered(s, id, 416, start), log, id, 416, start)
  {
  }

  lemma AnswerContinues(s: State, log: Log, id: nat, start: Option<nat>)
    requires id in s.info && id in s.pumps && s.pumps[id] == Fetching
    requires id in s.partials ==> Holds(s, log, id) && s.info[id].received == |log(id)|
    ensures AnswerSeen(s, Answered(s, id, 206, start), log, id, 206, start)
  {
    hide Flatten;
  }

  lemma AnswerRestarts(s: State, log: Log, id: nat, status: int, start: Option<nat>)
    requires id in s.info && status != 416 && status != 206
    ensures AnswerSeen(s, Answered(s, id, status, start), log, id, status, start)
  {
  }

  /** The end of a pump is done exactly when the bytes are in hand, all that the entry was given. */
  ghost predicate FinishSeen(s: State, t: State, log: Log, id: nat, ok: bool) {
    && OthersStay(s, t, id) && t.partials == s.partials && id !in t.pumps && id in t.info
    && (ok <==> Holds(t, log, id)) && t.info[id].status == (if ok then Done else Failed)
    && t.info[id].received == |log(id)|
  }

  lemma FinishMeets(s: State, log: Log, id: nat)
    requires Inv(s, log, id, 0) && PumpAt(s, id, Pumping)
    ensures FinishSeen(s, PumpDone(s, id), log, id, id in s.partials)
  {
    assert EntryOk(s, log, id, id, 0);
    if id in s.partials {
      HeldIsLog(s, log, id);
    }
    hide Flatten, Inv;
  }

  // ----- the invariant, step by step -----

  lemma UnwrappedHoldsNone(s: State, log: Log, id: nat)
    requires Inv(s, log, 0, 0) && id !in s.wrapped
    ensures id !in s.partials
  {
    assert EntryOk(s, log, id, 0, 0);
  }

  lemma WrapStays(s: State, log: Log, id: nat)
    requires Inv(s, log, 0, 0) && id < s.next && id !in s.wrapped
    ensures Inv(Wrapped(s, id), log, 0, 0) && id !in s.partials
  {
    UnwrappedHoldsNone(s, log, id);
    hide *;
    Rebased(s, log, 0, id);
    WrapKeeps(s, log, id);
    Rebased(Wrapped(s, id), log, id, 0);
  }

  lemma ChunkStays(s: State, log: Log, id: nat, chunk: bytes, budget: nat)
    requires Inv(s, log, 0, 0) && FlowsAt(s, id)
    ensures Inv(Transformed(s, id, chunk, budget), if Counts(s, id) then With(log, id, log(id) + chunk) else log, 0, 0)
  {
    hide Inv, Transformed, Flushed;
    Rebased(s, log, 0, id);
    ChunkKeeps(s, log, id, chunk, budget);
    Rebased(Transformed(s, id, chunk, budget), if Counts(s, id) then With(log, id, log(id) + chunk) else log, id, 0);
  }

  /** A chunk that counts is counted, then buffered; any other only passes. */
  lemma TransformedIs(s: State, id: nat, chunk: bytes, budget: nat)
    requires FlowsAt(s, id)
    ensures Counts(s, id) ==> Transformed(s, id, chunk, budget) == Buffered(Counted(s, id, |chunk|), id, chunk, budget)
    ensures !Counts(s, id) ==>
      Transformed(s, id, chunk, budget) ==
        s.(pipes := s.pipes[id := s.pipes[id].(sent := s.pipes[id].sent + |chunk|)])
  {
    hide Buffered;
  }

  lemma FlushStays(s: State, log: Log, id: nat)
    requires Inv(s, log, 0, 0) && FlowsAt(s, id)
    ensures Inv(Flushed(s, id), log, 0, 0)
  {
    hide Inv, Transformed, Flushed;
    Rebased(s, log, 0, id);
    FlushKeeps(s, log, id);
    Rebased(Flushed(s, id), log, id, 0);
  }

  lemma FailStays(s: State, log: Log, id: nat)
    requires Inv(s, log, 0, 0) && id in s.pipes && s.pipes[id].Broken?
    ensures Inv(Caught(s, id), log, 0, 0) && FailSeen(s, Caught(s, id), log, id)
  {
    hide *;
    Rebased(s, log, 0, id);
    CatchKeeps(s, log, id);
    FailMeets(s, log, id);
    Rebased(Caught(s, id), log, id, 0);
  }

  lemma PauseStays(s: State, log: Log, id: nat)
    requires Inv(s, log, 0, 0)
    ensures var t := PausedNow(s, id);
      Inv(t, log, 0, 0) && PauseSeen(s, t, id, id in s.streams || (Known(t, id) && t.info[id].status == Paused))
  {
    Rebased(s, log, 0, id);
    PauseKeeps(s, log, id);
    PauseMeets(s, log, id);
    Rebased(PausedNow(s, id), log, id, 0);
    hide *;
  }

  lemma CancelStays(s: State, log: Log, id: nat)
    requires Inv(s, log, 0, 0)
    ensures var t := CancelledNow(s, id);
      Inv(t, log, 0, 0) && CancelSeen(s, t, id, id in s.streams || (Known(t, id) && t.info[id].status == Cancelled))
  {
    Rebased(s, log, 0, id);
    CancelKeeps(s, log, id);
    CancelMeets(s, log, id);
    Rebased(CancelledNow(s, id), log, id, 0);
    hide *;
  }

  lemma ResumeStays(s: State, log: Log, id: nat)
    requires Inv(s, log, 0, 0)
    requires Known(s, id) && s.info[id].status == Paused && s.info[id].resumable && id !in s.pumps
    ensures Inv(Resumed(s, id), log, 0, 0) && ResumeSeen(s, Resumed(s, id), log, id)
  {
    hide Inv, ResumeSeen;
    Rebased(s, log, 0, id);
    ResumeKeeps(s, log, id);
    ResumeMeets(s, log, id);
    Rebased(Resumed(s, id), log, id, 0);
  }

  lemma LoadStays(s: State, log: Log, id: nat, data: bytes)
    requires Inv(s, log, 0, 0) && PumpAt(s, id, Loading)
    ensures var t := s.(partials := s.partials[id := Restored(data)], pumps := s.pumps[id := Loaded]);
      && Inv(t, With(log, id, data), 0, 0) && OthersStay(s, t, id) && Holds(t, With(log, id, data), id)
  {
    var t := s.(partials := s.partials[id := Restored(data)], pumps := s.pumps[id := Loaded]);
    assert OthersStay(s, t, id);
    assert id in t.partials;
    hide Inv, OthersStay, Holds;
    Rebased(s, log, 0, id);
    LoadHitKeeps(s, log, id, data);
    HeldIsLog(t, With(log, id, data), id);
    Rebased(t, With(log, id, data), id, 0);
  }

  lemma MissStays(s: State, log: Log, id: nat)
    requires Inv(s, log, 0, 0) && PumpAt(s, id, Loading)
    ensures Inv(Missed(s, id), With(log, id, []), 0, 0)
  {
    hide *;
    Rebased(s, log, 0, id);
    LoadMissKeeps(s, log, id);
    Rebased(Missed(s, id), With(log, id, []), id, 0);
  }

  lemma SeenStays(s: State, log: Log, id: nat)
    requires Inv(s, log, 0, 0) && PumpAt(s, id, Loaded)
    ensures Inv(Seen(s, id), log, 0, 0) && (id in s.partials ==> Holds(s, log, id))
  {
    hide *;
    Rebased(s, log, 0, id);
    LoadSeenKeeps(s, log, id);
    Rebased(Seen(s, id), log, id, 0);
    if id in s.partials {
      HeldIsLog(s, log, id);
    }
  }

  lemma AnswerStays(s: State, log: Log, id: nat, status: int, start: Option<nat>)
    requires Inv(s, log, 0, 0) && PumpAt(s, id, Fetching)
    ensures Inv(Answered(s, id, status, start), if status == 416 || status == 206 then log else With(log, id, []), 0, 0)
    ensures AnswerSeen(s, Answered(s, id, status, start), log, id, status, start)
  {
    hide *;
    Rebased(s, log, 0, id);
    AnswerKeeps(s, log, id, status, start);
    AnswerMeets(s, log, id, status, start);
    Rebased(Answered(s, id, status, start), if status == 416 || status == 206 then log else With(log, id, []), id, 0);
  }

  lemma ReadStays(s: State, log: Log, id: nat, chunk: bytes, budget: nat)
    requires Inv(s, log, 0, 0) && PumpAt(s, id, Pumping)
    ensures var t, more := Pumped(s, id, chunk, budget), With(log, id, log(id) + chunk);
      Inv(t, more, 0, 0) && (id in t.partials ==> Holds(t, more, id))
  {
    var t, more := Pumped(s, id, chunk, budget), With(log, id, log(id) + chunk);
    hide *;
    Rebased(s, log, 0, id);
    PumpChunkKeeps(s, log, id, chunk, budget);
    if id in t.partials {
      HeldIsLog(t, more, id);
    }
    Rebased(t, more, id, 0);
  }

  lemma FinishStays(s: State, log: Log, id: nat)
    requires Inv(s, log, 0, 0) && PumpAt(s, id, Pumping)
    ensures Inv(PumpDone(s, id), log, 0, 0) && FinishSeen(s, PumpDone(s, id), log, id, id in s.partials)
  {
    Rebased(s, log, 0, id);
    FinishMeets(s, log, id);
    EndKeeps(s, log, id, if id in s.partials then Done else Failed);
    hide Inv, FinishSeen;
    Rebased(PumpDone(s, id), log, id, 0);
  }

  /** A request or a pump that fails leaves the entry waiting with what it has. */
  lemma InterruptStays(s: State, log: Log, id: nat)
    requires Inv(s, log, 0, 0) && id in s.pumps && !PumpAt(s, id, Loaded)
    ensures var t := Ended(Marked(s, id, Paused), id); Inv(t, log, 0, 0) && OthersStay(s, t, id)
  {
    hide Inv, Flatten;
    Rebased(s, log, 0, id);
    EndKeeps(s, log, id, Paused);
    Rebased(Ended(Marked(s, id, Paused), id), log, id, 0);
  }
}
