/** The global byte budget and the choice of what to drop (app/src/downloads.ts). */
module DownloadBudget {
  import opened Common
  import opened Downloads
  import opened DownloadSteps
  import opened DownloadRuns
  import opened DownloadProofs

  // ----- the budget over a run -----

  lemma {:induction false} ShedShrinks(s: State, victims: seq<nat>, n: nat, budget: nat)
    ensures Total(Shed(s, victims, n, budget).partials) <= Total(s.partials)
    decreases |victims|
  {
    if Total(s.partials) + n > budget && victims != [] {
      TotalWithout(s.partials, victims[0]);
      ShedShrinks(Drop(s, victims[0]), victims[1..], n, budget);
    }
  }

  lemma AppendedTotal(m: map<nat, Partial>, id: nat, chunk: bytes)
    requires id in m
    ensures Total(m[id := Partial(m[id].chunks + [chunk], m[id].n + |chunk|)]) == Total(m) + |chunk|
  {
    TotalUpdated(m, id, Partial(m[id].chunks + [chunk], m[id].n + |chunk|));
    TotalWithout(m, id);
  }

  lemma DroppedTotal(s: State, id: nat)
    ensures Total(Drop(s, id).partials) <= Total(s.partials)
  {
    TotalWithout(s.partials, id);
  }

  lemma BufferedFits(s: State, id: nat, chunk: bytes, budget: nat)
    requires Total(s.partials) <= budget
    ensures Total(Buffered(s, id, chunk, budget).partials) <= budget
  {
    hide Total, Drop, Shed;
    var t := Admitted(s, id, |chunk|, budget);
    ShedShrinks(s, Victims(s, id), |chunk|, budget);
    hide Admitted, Victims;
    DroppedTotal(s, id);
    DroppedTotal(t, id);
    if id in t.partials {
      AppendedTotal(t.partials, id, chunk);
    }
  }

  lemma EmptiedFits(m: map<nat, Partial>, id: nat)
    ensures Total(m[id := Partial([], 0)]) <= Total(m)
    ensures Total(m - {id}) <= Total(m)
  {
    TotalUpdated(m, id, Partial([], 0));
    TotalWithout(m, id);
  }

  lemma StreamStepFits(w: World, ev: Event, budget: nat)
    requires Enabled(w, ev) && StreamEvent(ev) && Total(w.st.partials) <= budget
    ensures Total(After(w, ev, budget).st.partials) <= budget
  {
    hide Total, Transformed, With, Pumped, Answered, Reborn, Begun, Seen, Missed, Resumed, PumpDone;
    EmptiedFits(w.st.partials, ev.id);
    if ev.Chunk? {
      ChunkFits(w.st, ev.id, ev.chunk, budget);
    }
  }

  lemma PumpedFits(st: State, id: nat, chunk: bytes, budget: nat)
    ensures Total(st.partials) <= budget ==> Total(Pumped(st, id, chunk, budget).partials) <= budget
  {
    hide Total, Buffered;
    if id in st.info && Total(st.partials) <= budget {
      BufferedFits(Received(st, id, st.info[id].received + |chunk|), id, chunk, budget);
    }
  }

  lemma ResumeStepFits(w: World, ev: Event, budget: nat)
    requires Enabled(w, ev) && ResumeEvent(ev) && !ev.LoadHit? && Total(w.st.partials) <= budget
    ensures Total(After(w, ev, budget).st.partials) <= budget
  {
    hide Total, Pumped, Answered, With, Transformed, Begun, Reborn, Caught, Flushed, Wrapped, PausedNow, CancelledNow;
    if ev.PumpChunk? {
      PumpedFits(w.st, ev.id, ev.chunk, budget);
    } else if ev.Answer? {
      AnsweredFits(w.st, ev.id, ev.status, ev.start);
    } else {
      EmptiedFits(w.st.partials, ev.id);
    }
  }

  lemma AnsweredFits(st: State, id: nat, status: int, start: Option<nat>)
    ensures Total(Answered(st, id, status, start).partials) <= Total(st.partials)
  {
    EmptiedFits(st.partials, id);
    hide Total;
  }

  lemma BeginFits(st: State, size: int, budget: nat)
    requires Total(st.partials) <= budget
    ensures Total(Begun(st, size).partials) <= budget
  {
    hide Total;
    var p := Pushed(st, size);
    if |p.order| > RING && FirstIdle(p, 0) < |p.order| {
      EmptiedFits(st.partials, p.order[FirstIdle(p, 0)]);
    }
  }

  /** Every step but a reload from storage keeps the buffers within the budget. */
  lemma StepFits(w: World, ev: Event, budget: nat)
    requires Enabled(w, ev) && !ev.LoadHit? && Total(w.st.partials) <= budget
    ensures Total(After(w, ev, budget).st.partials) <= budget
  {
    hide Total;
    if StreamEvent(ev) {
      StreamStepFits(w, ev, budget);
    } else if ResumeEvent(ev) {
      ResumeStepFits(w, ev, budget);
    } else if ev.Begin? {
      BeginFits(w.st, ev.size, budget);
    } else {
      NothingHeld();
    }
  }

  lemma NothingHeld()
    ensures Total(map[]) == 0
  {
  }

  lemma ChunkFits(st: State, id: nat, chunk: bytes, budget: nat)
    requires id in st.pipes && st.pipes[id].Flowing?
    ensures Total(st.partials) <= budget ==> Total(Transformed(st, id, chunk, budget).partials) <= budget
  {
    hide Total, Buffered;
    var p := st.pipes[id];
    var t := st.(pipes := st.pipes[id := p.(sent := p.sent + |chunk|)]);
    if p.tracked && IsActive(t, id) && Total(st.partials) <= budget {
      BufferedFits(Received(t, id, t.info[id].received + |chunk|), id, chunk, budget);
    }
  }

  /** Without reloads from storage the buffered bytes never exceed the budget. */
  lemma {:induction false} BudgetHolds(ws: seq<World>, evs: seq<Event>, budget: nat)
    requires Run(ws, evs, budget) && forall ev <- evs :: !ev.LoadHit?
    ensures Total(ws[|evs|].st.partials) <= budget
    decreases |evs|
  {
    if evs == [] {
      NothingHeld();
    } else {
      var n := |evs| - 1;
      BudgetHolds(ws[..n + 1], evs[..n], budget);
      assert ws[n + 1] == After(ws[n], evs[n], budget);
      hide Run, After;
      StepFits(ws[n], evs[n], budget);
    }
  }

  /** A reload adds all of its bytes: no entry that reads storage holds any. */
  lemma ReloadAdds(w: World, id: nat, budget: nat)
    requires Consistent(w) && Enabled(w, LoadHit(id))
    ensures Total(After(w, LoadHit(id), budget).st.partials) == Total(w.st.partials) + |w.stored[id]|
  {
    assert EntryOk(w.st, w.log, id, 0, 0);
    var m := w.st.partials;
    TotalUpdated(m, id, Restored(w.stored[id]));
    assert m - {id} == m;
    hide Total, Inv, EntryOk, Flatten;
  }

  /** A reload finds room for what it brings back. */
  ghost predicate Fits(w: World, ev: Event, budget: nat) {
    ev.LoadHit? ==> ev.id in w.stored && Total(w.st.partials) + |w.stored[ev.id]| <= budget
  }

  lemma {:induction false} FitsSoFar(ws: seq<World>, evs: seq<Event>, budget: nat, n: nat)
    requires Run(ws, evs, budget) && n <= |evs| && forall i :: 0 <= i < n ==> Fits(ws[i], evs[i], budget)
    ensures Total(ws[n].st.partials) <= budget
    decreases n
  {
    if n == 0 {
      NothingHeld();
    } else {
      FitsSoFar(ws, evs, budget, n - 1);
      assert Enabled(ws[n - 1], evs[n - 1]) && ws[n - 1 + 1] == After(ws[n - 1], evs[n - 1], budget);
      RunIsConsistentAt(ws, evs, budget, n - 1);
      hide Run, After, Enabled, Total, Consistent;
      if evs[n - 1].LoadHit? {
        ReloadAdds(ws[n - 1], evs[n - 1].id, budget);
      } else {
        StepFits(ws[n - 1], evs[n - 1], budget);
      }
    }
  }

  /** The buffers stay within the budget all along a run exactly when every reload from storage finds room for
      what it brings back: nothing checks that it does. */
  lemma BudgetExactly(ws: seq<World>, evs: seq<Event>, budget: nat)
    requires Run(ws, evs, budget)
    ensures (forall i :: 0 <= i <= |evs| ==> Total(ws[i].st.partials) <= budget) <==>
            (forall i :: 0 <= i < |evs| ==> Fits(ws[i], evs[i], budget))
  {
    if forall i :: 0 <= i <= |evs| ==> Total(ws[i].st.partials) <= budget {
      forall i | 0 <= i < |evs| ensures Fits(ws[i], evs[i], budget) {
        assert Enabled(ws[i], evs[i]) && ws[i + 1] == After(ws[i], evs[i], budget);
        RunIsConsistentAt(ws, evs, budget, i);
        if evs[i].LoadHit? {
          ReloadAdds(ws[i], evs[i].id, budget);
        }
      }
    }
    if forall i :: 0 <= i < |evs| ==> Fits(ws[i], evs[i], budget) {
      forall i | 0 <= i <= |evs| ensures Total(ws[i].st.partials) <= budget {
        FitsSoFar(ws, evs, budget, i);
      }
    }
  }

  // ----- a reload that finds no room -----

  const NEXT: bytes := [3]

  /** The run of ErrorPageEndsDone up to the pause, then storage, a restart, another download, and a resume. */
  const RELOAD: seq<Event> := LINK[..4] + [
    Snapshot(1), Lands(1, HALF), Restart, Begin(-1), Wrap(2), Chunk(2, NEXT), Resume(1), LoadHit(1)]

  function Both(held: map<nat, Partial>, received: nat, pumps: map<nat, Pump>): State {
    State([1, 2], map[1 := Entry(-1, 2, Paused, true), 2 := Entry(-1, received, Active, true)], held, {2}, pumps,
          map[2 := Flowing(received, true)], {1, 2}, 3)
  }

  function Alone(): State {
    State([1], map[1 := Entry(-1, 2, Paused, true)], map[], {}, map[], map[], {1}, 2)
  }

  function ReloadWorld(k: nat): World {
    var none: map<nat, Partial> := map[];
    var one := Partial([NEXT], 1);
    var log := if k < 10 then LinkLog(4) else if k < 12 then With(LinkLog(4), 2, LinkLog(4)(2) + NEXT)
      else With(With(LinkLog(4), 2, LinkLog(4)(2) + NEXT), 1, HALF);
    var st :=
      if k <= 6 then LinkWorld(4).st
      else if k == 7 then Alone()
      else if k == 8 then Begun(Alone(), -1)
      else if k == 9 then Both(none[2 := NONE], 0, map[])
      else if k == 10 then Both(none[2 := one], 1, map[])
      else if k == 11 then Both(none[2 := one], 1, map[1 := Loading])
      else Both(none[2 := one][1 := Restored(HALF)], 1, map[1 := Loaded]);
    if k <= 4 then LinkWorld(k)
    else World(st, if k >= 6 then map[1 := HALF] else map[], {(1, HALF)}, log)
  }

  lemma ReloadStarts()
    ensures Flatten([HALF]) == HALF && Reborn(LinkWorld(4).st) == Alone()
    ensures Begun(Alone(), -1).next == 3 && Begun(Alone(), -1).wrapped == {1}
    ensures Wrapped(Begun(Alone(), -1), 2) == Both(map[2 := NONE], 0, map[])
  {
    assert [HALF][..0] == [];
  }

  lemma SecondBuffered()
    ensures Transformed(Both(map[2 := NONE], 0, map[]), 2, NEXT, 2) == Both(map[2 := Partial([NEXT], 1)], 1, map[])
  {
    var m := map[2 := NONE];
    OnlyOwn(m, 2);
    assert NONE.chunks + [NEXT] == [NEXT];
    assert m[2 := Partial([NEXT], 1)] == map[2 := Partial([NEXT], 1)];
    hide Total, Victims;
  }

  ghost predicate ReloadsAt(k: nat)
    requires k < 12
  {
    Enabled(ReloadWorld(k), RELOAD[k]) && After(ReloadWorld(k), RELOAD[k], 2) == ReloadWorld(k + 1)
  }

  lemma PausedAsBefore(k: nat)
    requires k < 4
    ensures ReloadsAt(k)
  {
    LinkSteps(k, 2);
    assert RELOAD[k] == LINK[k];
    hide Enabled, After, LinkWorld;
  }

  lemma Stored(k: nat)
    requires 4 <= k < 6
    ensures ReloadsAt(k)
  {
    ReloadStarts();
    hide Reborn, Begun, Flatten;
  }

  lemma Restarted()
    ensures ReloadsAt(6)
  {
    ReloadStarts();
    hide Reborn, Begun, Flatten;
  }

  lemma OtherBegins(k: nat)
    requires 7 <= k < 10
    ensures ReloadsAt(k)
  {
    ReloadStarts();
    SecondBuffered();
    hide Reborn, Begun, Transformed, Wrapped, Flatten;
  }

  lemma FirstResumes(k: nat)
    requires 10 <= k < 12
    ensures ReloadsAt(k)
  {
    hide Flatten;
  }

  /** Under a budget of two octets entry 1 stores two, the worker restarts, entry 2 buffers one, and the resume
      of entry 1 brings back two. */
  lemma ReloadExceeds() returns (ws: seq<World>)
    ensures Run(ws, RELOAD, 2) && Total(ws[11].st.partials) == 1 && Total(ws[12].st.partials) == 3
  {
    ws := seq(13, k requires 0 <= k => ReloadWorld(k));
    forall k | 0 <= k < 12 ensures Enabled(ws[k], RELOAD[k]) && ws[k + 1] == After(ws[k], RELOAD[k], 2) {
      assert ReloadsAt(k) by {
        if k < 4 {
          PausedAsBefore(k);
        } else if k < 6 {
          Stored(k);
        } else if k == 6 {
          Restarted();
        } else if k < 10 {
          OtherBegins(k);
        } else {
          FirstResumes(k);
        }
      }
    }
    OnlyOwn(map[2 := Partial([NEXT], 1)], 2);
    RunIsConsistentAt(ws, RELOAD, 2, 11);
    ReloadAdds(ws[11], 1, 2);
  }

  // ----- what is dropped first -----

  lemma {:induction false} ShedInOrder(s: State, victims: seq<nat>, n: nat, budget: nat)
    ensures var t := Shed(s, victims, n, budget);
      exists k :: 0 <= k <= |victims|
        && (forall v :: v in t.partials <==> v in s.partials && v !in victims[..k])
        && (Total(t.partials) + n > budget ==> k == |victims|)
    decreases |victims|
  {
    var t := Shed(s, victims, n, budget);
    if Total(s.partials) + n > budget && victims != [] {
      hide Total;
      ShedInOrder(Drop(s, victims[0]), victims[1..], n, budget);
      var k :| 0 <= k <= |victims| - 1
        && (forall v :: v in t.partials <==> v in Drop(s, victims[0]).partials && v !in victims[1..][..k])
        && (Total(t.partials) + n > budget ==> k == |victims| - 1);
      assert victims[..k + 1] == [victims[0]] + victims[1..][..k];
    } else {
      assert victims[..0] == [];
    }
  }

  lemma PrefixOfBoth(i: seq<nat>, a: seq<nat>, k: nat, x: nat)
    requires k <= |i + a| && x in (i + a)[..k] && x !in i
    ensures forall y <- i :: y in (i + a)[..k]
  {
    var p := (i + a)[..k];
    var b :| 0 <= b < k && p[b] == x;
    assert b >= |i| by {
      assert forall c :: 0 <= c < |i| ==> (i + a)[c] in i;
    }
    forall y <- i ensures y in p {
      var c :| 0 <= c < |i| && i[c] == y;
      assert p[c] == y;
    }
  }

  /** Idle buffers go before active ones: an active entry loses its buffer to another's chunk only once no
      idle one is left. */
  lemma IdleGoesFirst(s: State, id: nat, n: nat, budget: nat, active: nat, idle: nat)
    requires active in s.order && idle in s.order && active != id && idle != id
    requires IsActive(s, active) && !IsActive(s, idle)
    requires active in s.partials && active !in Admitted(s, id, n, budget).partials
    ensures idle !in Admitted(s, id, n, budget).partials
  {
    var i, a := Holders(s, s.order, id, false), Holders(s, s.order, id, true);
    var v := Victims(s, id);
    var t := Admitted(s, id, n, budget);
    assert v == i + a;
    hide Shed, Holders, Total, IsActive;
    ShedInOrder(s, v, n, budget);
    var k :| 0 <= k <= |v| && forall x :: x in t.partials <==> x in s.partials && x !in v[..k];
    hide Admitted, Victims;
    PrefixOfBoth(i, a, k, active);
  }

  /** Everything that holds bytes is in the ring. */
  lemma HoldersAreVictims(s: State, log: Log, id: nat, owed: nat)
    requires Inv(s, log, id, owed)
    ensures forall v :: v in s.partials && v != id ==> v in Victims(s, id)
  {
    forall v | v in s.partials && v != id ensures v in Victims(s, id) {
      assert EntryOk(s, log, v, id, owed);
    }
  }

  lemma OnlyOwn(m: map<nat, Partial>, id: nat)
    requires forall v :: v in m ==> v == id
    ensures Total(m) == if id in m then m[id].n else 0
  {
    if id in m {
      TotalSplits(m, id);
      assert m - {id} == map[];
    } else {
      assert m == map[];
    }
    NothingHeld();
  }

  /** With a budget of at least the per-entry cap, a chunk that fits the cap always fits the budget once the
      others have made room: an entry never loses its own buffer for its own chunk. */
  lemma OwnChunkFits(s: State, log: Log, id: nat, chunk: bytes, budget: nat)
    requires Inv(s, log, id, |chunk|) && budget >= RESUME_MAX
    requires id in s.partials && s.partials[id].n + |chunk| <= RESUME_MAX
    ensures id in Buffered(s, id, chunk, budget).partials
  {
    AdmittedKeeps(s, log, id, |chunk|, |chunk|, budget);
    HeldIsResumable(s, log, id, |chunk|);
    RoomIsMade(s, log, id, |chunk|, |chunk|, budget);
    hide Inv, Admitted, Total;
  }

  lemma RoomIsMade(s: State, log: Log, id: nat, owed: nat, n: nat, budget: nat)
    requires Inv(s, log, id, owed) && id in s.partials && s.partials[id].n + n <= budget
    ensures Total(Admitted(s, id, n, budget).partials) + n <= budget
  {
    var t := Admitted(s, id, n, budget);
    var v := Victims(s, id);
    assert t == Shed(s, v, n, budget);
    hide *;
    AdmittedKeeps(s, log, id, owed, n, budget);
    HoldersAreVictims(s, log, id, owed);
    ShedInOrder(s, v, n, budget);
    AllShed(s.partials, t.partials, v, id, n, budget);
  }

  lemma AllShed(before: map<nat, Partial>, after: map<nat, Partial>, v: seq<nat>, id: nat, n: nat, budget: nat)
    requires exists k :: (0 <= k <= |v| && (forall x :: x in after <==> x in before && x !in v[..k])
                          && (Total(after) + n > budget ==> k == |v|))
    requires forall x :: x in before && x != id ==> x in v
    requires id in after ==> after[id].n + n <= budget
    requires n <= budget
    ensures Total(after) + n <= budget
  {
    var k :| 0 <= k <= |v| && (forall x :: x in after <==> x in before && x !in v[..k])
      && (Total(after) + n > budget ==> k == |v|);
    hide Total;
    if k == |v| {
      assert v[..k] == v;
      OnlyOwn(after, id);
    }
  }

  // ----- what the ring evicts -----

  /** A new download evicts at most one entry, never one with a stream or a resume in flight, and takes the
      evicted entry's buffer with it. */
  lemma EvictsOnlyIdle(s: State, log: Log, size: int, id: nat)
    requires Inv(s, log, s.next, 0) && id in s.order + [s.next] && id !in Begun(s, size).order
    ensures Idle(s, id) && |s.order| == RING && id !in Begun(s, size).partials
    ensures forall other :: other in s.order && other != id ==> other in Begun(s, size).order
    ensures exists i :: 0 <= i <= |s.order| && (s.order + [s.next])[i] == id
                        && forall k :: 0 <= k < i ==> !Idle(s, s.order[k])
  {
    PushedKeeps(s, log, size);
    AlwaysAnIdleOne(s, log, size);
    var p := Pushed(s, size);
    assert p.order == s.order + [s.next];
    hide EntryOk;
    var r := FirstIdle(p, 0);
    if |p.order| > RING {
      RemoveAt(p.order, r);
      assert p.order[r] == id;
      assert forall k :: 0 <= k < r ==> !Idle(p, p.order[k]) && s.order[k] == p.order[k];
    }
  }
}
