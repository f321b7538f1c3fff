/** Request bodies spooled to disk for replay (app/src/bodyspool.ts): any number of spools run side by side and
    share one budget through two counters. A step is the code between two awaits of one spool. */
module BodySpool {
  import opened Common

  /** What a spool waits for, or how it ended. */
  datatype Phase = Reading | Writing | Closing | Filing | Failed | Handed | Released

  datatype Spool = Spool(cap: nat, total: nat, reserved: nat, phase: Phase)

  datatype State = State(live: int, inFlight: int, budget: nat, spools: seq<Spool>)

  datatype Event =
    | Start(cap: nat) | Read(i: nat, n: nat) | ReadDone(i: nat) | ReadFails(i: nat)
    | Wrote(i: nat) | WriteFails(i: nat) | Closed(i: nat) | CloseFails(i: nat)
    | Filed(i: nat) | FileFails(i: nat) | Release(i: nat)

  predicate At(s: State, i: nat, phase: Phase) {
    i < |s.spools| && s.spools[i].phase == phase
  }

  predicate Enabled(s: State, ev: Event) {
    match ev
    case Start(_) => true
    case Read(i, _) => At(s, i, Reading)
    case ReadDone(i) => At(s, i, Reading)
    case ReadFails(i) => At(s, i, Reading)
    case Wrote(i) => At(s, i, Writing)
    case WriteFails(i) => At(s, i, Writing)
    case Closed(i) => At(s, i, Closing)
    case CloseFails(i) => At(s, i, Closing)
    case Filed(i) => At(s, i, Filing)
    case FileFails(i) => At(s, i, Filing)
    case Release(i) => At(s, i, Handed) || At(s, i, Released)
  }

  function Moved(s: State, i: nat, phase: Phase): State
    requires i < |s.spools|
  {
    s.(spools := s.spools[i := s.spools[i].(phase := phase)])
  }

  /** The part of the cleanup that runs before it awaits anything: the reservation is given back. */
  function CleanedUp(s: State, i: nat): State
    requires i < |s.spools|
  {
    var sp := s.spools[i];
    s.(inFlight := s.inFlight - sp.reserved, spools := s.spools[i := sp.(reserved := 0, phase := Failed)])
  }

  /** A chunk is counted against the cap first, then reserved, then checked against the budget. */
  function ReadChunk(s: State, i: nat, n: nat): State
    requires i < |s.spools|
  {
    var sp := s.spools[i].(total := s.spools[i].total + n);
    if sp.total > sp.cap then CleanedUp(s.(spools := s.spools[i := sp]), i)
    else
      var r := s.(inFlight := s.inFlight + n, spools := s.spools[i := sp.(reserved := sp.reserved + n)]);
      if r.live + r.inFlight > r.budget then CleanedUp(r, i) else Moved(r, i, Writing)
  }

  /** The file exists: its bytes stop being in flight and become live. */
  function HandedOver(s: State, i: nat): State
    requires i < |s.spools|
  {
    var sp := s.spools[i];
    s.(inFlight := s.inFlight - sp.total, live := s.live + sp.total,
       spools := s.spools[i := sp.(reserved := 0, phase := Handed)])
  }

  function ReleasedOnce(s: State, i: nat): State
    requires i < |s.spools|
  {
    if s.spools[i].phase == Released then s
    else Moved(s, i, Released).(live := s.live - s.spools[i].total)
  }

  function After(s: State, ev: Event): State
    requires Enabled(s, ev)
  {
    match ev
    case Start(cap) => s.(spools := s.spools + [Spool(cap, 0, 0, Reading)])
    case Read(i, n) => ReadChunk(s, i, n)
    case ReadDone(i) => Moved(s, i, Closing)
    case ReadFails(i) => CleanedUp(s, i)
    case Wrote(i) => Moved(s, i, Reading)
    case WriteFails(i) => CleanedUp(s, i)
    case Closed(i) => Moved(s, i, Filing)
    case CloseFails(i) => CleanedUp(s, i)
    case Filed(i) => HandedOver(s, i)
    case FileFails(i) => CleanedUp(s, i)
    case Release(i) => ReleasedOnce(s, i)
  }

  // ----- the invariant -----

  /** Sums of what each spool contributes. */
  function Sum(spools: seq<Spool>, weight: Spool -> nat): nat
    decreases |spools|
  {
    if spools == [] then 0 else weight(spools[0]) + Sum(spools[1..], weight)
  }

  const RESERVED: Spool -> nat := (sp: Spool) => sp.reserved
  const LIVE: Spool -> nat := (sp: Spool) => if sp.phase == Handed then sp.total else 0

  predicate SpoolOk(sp: Spool) {
    && sp.reserved <= sp.cap
    && (sp.phase in {Reading, Writing, Closing, Filing} ==> sp.reserved == sp.total)
    && (sp.phase in {Failed, Handed, Released} ==> sp.reserved == 0)
    && (sp.phase in {Handed, Released} ==> sp.total <= sp.cap)
  }

  ghost predicate Inv(s: State) {
    && s.inFlight == Sum(s.spools, RESERVED)
    && s.live == Sum(s.spools, LIVE)
    && s.live + s.inFlight <= s.budget
    && forall i :: 0 <= i < |s.spools| ==> SpoolOk(s.spools[i])
  }

  lemma {:induction false} SumUpdated(spools: seq<Spool>, i: nat, sp: Spool, weight: Spool -> nat)
    requires i < |spools|
    ensures Sum(spools[i := sp], weight) + weight(spools[i]) == Sum(spools, weight) + weight(sp)
    decreases |spools|
  {
    var u := spools[i := sp];
    if i == 0 {
      assert u[1..] == spools[1..];
    } else {
      assert u[1..] == spools[1..][i - 1 := sp];
      SumUpdated(spools[1..], i - 1, sp, weight);
    }
  }

  lemma {:induction false} SumSnoc(spools: seq<Spool>, sp: Spool, weight: Spool -> nat)
    ensures Sum(spools + [sp], weight) == Sum(spools, weight) + weight(sp)
    decreases |spools|
  {
    if spools == [] {
      assert [] + [sp] == [sp] && [sp][1..] == [];
    } else {
      assert (spools + [sp])[1..] == spools[1..] + [sp];
      SumSnoc(spools[1..], sp, weight);
    }
  }

  /** One spool changes and the counters with it. */
  lemma Turn(s: State, t: State, i: nat, sp: Spool)
    requires Inv(s) && i < |s.spools| && t.spools == s.spools[i := sp] && SpoolOk(sp) && t.budget == s.budget
    requires t.inFlight - s.inFlight == RESERVED(sp) - RESERVED(s.spools[i])
    requires t.live - s.live == LIVE(sp) - LIVE(s.spools[i])
    requires t.live + t.inFlight <= t.budget
    ensures Inv(t)
  {
    SumUpdated(s.spools, i, sp, RESERVED);
    SumUpdated(s.spools, i, sp, LIVE);
  }

  lemma ReadKeeps(s: State, i: nat, n: nat)
    requires Inv(s) && At(s, i, Reading)
    ensures Inv(ReadChunk(s, i, n))
  {
    var t := ReadChunk(s, i, n);
    assert SpoolOk(s.spools[i]);
    Turn(s, t, i, t.spools[i]);
  }

  lemma CleanupKeeps(s: State, i: nat)
    requires Inv(s) && i < |s.spools| && s.spools[i].phase !in {Handed, Released}
    ensures Inv(CleanedUp(s, i))
  {
    var t := CleanedUp(s, i);
    assert SpoolOk(s.spools[i]);
    Turn(s, t, i, t.spools[i]);
  }

  lemma MoveKeeps(s: State, i: nat, phase: Phase)
    requires Inv(s) && i < |s.spools|
    requires s.spools[i].phase in {Reading, Writing, Closing, Filing} && phase in {Reading, Writing, Closing, Filing}
    ensures Inv(Moved(s, i, phase))
  {
    var t := Moved(s, i, phase);
    assert SpoolOk(s.spools[i]);
    Turn(s, t, i, t.spools[i]);
  }

  lemma HandKeeps(s: State, i: nat)
    requires Inv(s) && At(s, i, Filing)
    ensures Inv(HandedOver(s, i))
  {
    var t := HandedOver(s, i);
    assert SpoolOk(s.spools[i]);
    Turn(s, t, i, t.spools[i]);
  }

  lemma ReleaseKeeps(s: State, i: nat)
    requires Inv(s) && (At(s, i, Handed) || At(s, i, Released))
    ensures Inv(ReleasedOnce(s, i))
  {
    if s.spools[i].phase == Handed {
      var t := ReleasedOnce(s, i);
      assert SpoolOk(s.spools[i]);
      Turn(s, t, i, t.spools[i]);
    }
  }

  lemma StartKeeps(s: State, cap: nat)
    requires Inv(s)
    ensures Inv(After(s, Start(cap)))
  {
    SumSnoc(s.spools, Spool(cap, 0, 0, Reading), RESERVED);
    SumSnoc(s.spools, Spool(cap, 0, 0, Reading), LIVE);
  }

  lemma StepKeeps(s: State, ev: Event)
    requires Inv(s) && Enabled(s, ev)
    ensures Inv(After(s, ev))
  {
    match ev {
      case Start(cap) => StartKeeps(s, cap);
      case Read(i, n) => ReadKeeps(s, i, n);
      case ReadDone(i) => MoveKeeps(s, i, Closing);
      case Wrote(i) => MoveKeeps(s, i, Reading);
      case Closed(i) => MoveKeeps(s, i, Filing);
      case Filed(i) => HandKeeps(s, i);
      case Release(i) => ReleaseKeeps(s, i);
      case ReadFails(i) => CleanupKeeps(s, i);
      case WriteFails(i) => CleanupKeeps(s, i);
      case CloseFails(i) => CleanupKeeps(s, i);
      case FileFails(i) => CleanupKeeps(s, i);
    }
  }

  /** Any interleaving of any number of spools, from empty counters. */
  ghost predicate Run(ss: seq<State>, evs: seq<Event>, budget: nat) {
    && |ss| == |evs| + 1 && ss[0] == State(0, 0, budget, [])
    && forall i :: 0 <= i < |evs| ==> Enabled(ss[i], evs[i]) && ss[i + 1] == After(ss[i], evs[i])
  }

  /** At every suspension point: in-flight is the sum of the open reservations, live the sum of the
      unreleased handles, both together within the budget, and each spool within its cap. */
  lemma {:induction false} EveryPointAddsUp(ss: seq<State>, evs: seq<Event>, budget: nat)
    requires Run(ss, evs, budget)
    ensures Inv(ss[|evs|]) && ss[|evs|].budget == budget
    decreases |evs|
  {
    if evs != [] {
      var n := |evs| - 1;
      EveryPointAddsUp(ss[..n + 1], evs[..n], budget);
      assert ss[n + 1] == After(ss[n], evs[n]);
      hide Inv, Run;
      StepKeeps(ss[n], evs[n]);
    }
  }

  /** What was read for spool i, by the events. */
  function ReadFor(evs: seq<Event>, i: nat): nat
    decreases |evs|
  {
    if evs == [] then 0
    else
      var ev := evs[|evs| - 1];
      ReadFor(evs[..|evs| - 1], i) + if ev.Read? && ev.i == i then ev.n else 0
  }

  /** A spool counts what was read for it, no more and no less; once it is handed over that is the file's length. */
  lemma {:induction false} TotalIsWhatWasRead(ss: seq<State>, evs: seq<Event>, budget: nat, i: nat)
    requires Run(ss, evs, budget)
    ensures i < |ss[|evs|].spools| ==> ss[|evs|].spools[i].total == ReadFor(evs, i)
    ensures i >= |ss[|evs|].spools| ==> ReadFor(evs, i) == 0
    decreases |evs|
  {
    if evs != [] {
      var n := |evs| - 1;
      TotalIsWhatWasRead(ss[..n + 1], evs[..n], budget, i);
      assert Enabled(ss[n], evs[n]) && ss[n + 1] == After(ss[n], evs[n]);
      hide Run, ReadFor;
      TotalMoves(ss[n], evs[n], i);
      ReadGrows(evs, i);
    }
  }

  lemma ReadGrows(evs: seq<Event>, i: nat)
    requires evs != []
    ensures var ev := evs[|evs| - 1];
      ReadFor(evs, i) == ReadFor(evs[..|evs| - 1], i) + if ev.Read? && ev.i == i then ev.n else 0
  {
  }

  lemma TotalMoves(s: State, ev: Event, i: nat)
    requires Enabled(s, ev)
    ensures var t := After(s, ev); var n := if ev.Read? && ev.i == i then ev.n else 0;
      && (i < |s.spools| ==> i < |t.spools| && t.spools[i].total == s.spools[i].total + n)
      && (i >= |s.spools| ==> n == 0 && (i < |t.spools| ==> t.spools[i].total == 0))
  {
  }

  lemma {:induction false} NothingLeft(spools: seq<Spool>)
    requires forall sp <- spools :: sp.phase in {Failed, Released} && SpoolOk(sp)
    ensures Sum(spools, RESERVED) == 0 && Sum(spools, LIVE) == 0
    decreases |spools|
  {
    if spools != [] {
      assert forall sp <- spools[1..] :: sp in spools;
      assert spools[0] in spools;
      NothingLeft(spools[1..]);
    }
  }

  /** Once everything has failed or been released, both counters are back at zero. */
  lemma AllOverIsZero(ss: seq<State>, evs: seq<Event>, budget: nat)
    requires Run(ss, evs, budget)
    requires forall sp <- ss[|evs|].spools :: sp.phase in {Failed, Released}
    ensures ss[|evs|].inFlight == 0 && ss[|evs|].live == 0
  {
    EveryPointAddsUp(ss, evs, budget);
    hide Run;
    NothingLeft(ss[|evs|].spools);
  }

  // ----- the shared counters -----

  /** The module's two counters and the spools that run over them, step by step. */
  class SpoolCounters {
    const budget: nat
    var live: int
    var inFlight: int
    var spools: seq<Spool>

    function Now(): State
      reads this
    {
      State(live, inFlight, budget, spools)
    }

    constructor (b: nat)
      ensures Now() == State(0, 0, b, []) && Inv(Now())
    {
      budget := b;
      live, inFlight, spools := 0, 0, [];
    }

    /** One chunk of one spool; false when it was refused and cleaned up after. */
    method Read(i: nat, n: nat) returns (ok: bool)
      requires Inv(Now()) && At(Now(), i, Reading)
      modifies this
      ensures Inv(Now()) && Now() == ReadChunk(old(Now()), i, n)
      ensures ok <==> old(spools[i].total) + n <= old(spools[i].cap) && old(live) + old(inFlight) + n <= budget
    {
      ReadKeeps(Now(), i, n);
      hide Inv;
      ghost var was := spools;
      var sp := spools[i];
      sp := sp.(total := sp.total + n);
      spools := spools[i := sp];
      if sp.total > sp.cap {
        Cleanup(i);
        return false;
      }
      sp := sp.(reserved := sp.reserved + n);
      spools := spools[i := sp];
      assert spools == was[i := sp];
      inFlight := inFlight + n;
      if live + inFlight > budget {
        Cleanup(i);
        return false;
      }
      spools := spools[i := sp.(phase := Writing)];
      ok := true;
    }

    method Cleanup(i: nat)
      requires i < |spools|
      modifies this
      ensures Now() == CleanedUp(old(Now()), i)
    {
      inFlight := inFlight - spools[i].reserved;
      spools := spools[i := spools[i].(reserved := 0, phase := Failed)];
    }

    method Finish(i: nat) returns (bytes: nat)
      requires Inv(Now()) && At(Now(), i, Filing)
      modifies this
      ensures Inv(Now()) && Now() == HandedOver(old(Now()), i) && bytes == old(spools[i].total)
    {
      HandKeeps(Now(), i);
      bytes := spools[i].total;
      inFlight := inFlight - bytes;
      live := live + bytes;
      spools := spools[i := spools[i].(reserved := 0, phase := Handed)];
    }

    /** Idempotent. */
    method Release(i: nat)
      requires Inv(Now()) && (At(Now(), i, Handed) || At(Now(), i, Released))
      modifies this
      ensures Inv(Now()) && Now() == ReleasedOnce(old(Now()), i)
    {
      ReleaseKeeps(Now(), i);
      if spools[i].phase == Released {
        return;
      }
      live := live - spools[i].total;
      spools := spools[i := spools[i].(phase := Released)];
    }
  }
}
