/** What a caller of the relay can rely on, over every run of any number of fetches (app/src/relayfetch.ts). */
module RelayRules {
  import opened Common
  import opened RelayQueue
  import opened RelayDispatch
  import opened RelaySafety
  import R = RelayRuns

  // ----- what the events show -----

  predicate FrameFor(ev: Event, id: nat) {
    ev.Arrives? && ev.id == id
  }

  predicate Silent(evs: seq<Event>, id: nat) {
    forall k :: 0 <= k < |evs| ==> !FrameFor(evs[k], id)
  }

  /** The first frame that the peer sent for the fetch proves that the upstream never got the request. */
  predicate FirstProves(evs: seq<Event>, id: nat) {
    exists i :: 0 <= i < |evs| && evs[i] == Arrives(id, Error(true)) && Silent(evs[..i], id)
  }

  /** The port threw at the request frame. */
  predicate Refused(f: Fetch) {
    f.dispatched && !f.handed && f.stage != Posting
  }

  /** The port took the request frame or the first frame settled the race exactly when the events say so. */
  ghost predicate Shown(w: World, evs: seq<Event>, id: nat) {
    if id !in w.fetches then Silent(evs, id) && Post(id) !in evs && PostThrows(id) !in evs
    else
      var f := w.fetches[id];
      && (f.handed <==> Post(id) in evs) && (Refused(f) <==> PostThrows(id) in evs)
      && (Early(f) && f.race.None? ==> Silent(evs, id))
      && (f.race == Some(ByFrame(Error(true))) ==> FirstProves(evs, id))
  }

  lemma FirstProvesGrows(evs: seq<Event>, ev: Event, id: nat)
    ensures FirstProves(evs, id) ==> FirstProves(evs + [ev], id)
    ensures Silent(evs, id) && ev == Arrives(id, Error(true)) ==> FirstProves(evs + [ev], id)
  {
    var all := evs + [ev];
    if FirstProves(evs, id) {
      var i :| 0 <= i < |evs| && evs[i] == Arrives(id, Error(true)) && Silent(evs[..i], id);
      assert all[i] == evs[i] && all[..i] == evs[..i];
    }
    if ev == Arrives(id, Error(true)) {
      assert all[|evs|] == ev && all[..|evs|] == evs;
    }
  }


  /** The frame that wakes the reader is the one that arrived, or the relay's own error. */
  lemma FirstHanded(f: Fetch, m: Msg)
    requires FetchOk(f) && Early(f) && f.race.None?
    ensures Framed(f, m).race == Some(ByFrame(if Overflows(f.q, m) then Error(false) else m))
  {
    NothingTakenYet(f.q);
    assert f.q.queue == [] && !f.q.terminal by {
      hide R.ReaderOk, Bytes;
    }
    hide R.Inv, Overflows;
  }

  /** A frame that settles the race shows what it is. */
  lemma FrameShows(f: Fetch, m: Msg)
    requires FetchOk(f) && Reached(f)
    ensures var g := Framed(f, m);
      && (Early(g) ==> g.race.Some?)
      && (g.race == Some(ByFrame(Error(true))) && f.race != g.race ==> Early(f) && f.race.None? && m == Error(true))
  {
    if Early(f) && f.race.None? {
      FirstHanded(f, m);
    } else {
      SettledOnce(f, m);
    }
    FramedOnward(f, m);
    hide Framed, FetchOk, Overflows;
  }

  lemma SettledOnce(f: Fetch, m: Msg)
    requires FetchOk(f) && Reached(f) && !(Early(f) && f.race.None?)
    ensures Framed(f, m).race == f.race
  {
    ReceivedTakes(f.q, m);
    hide R.Inv, Received;
  }

  /** Only the post hands the request over, and only a frame can show that it was not delivered. */
  lemma FetchShows(w: World, ev: Event)
    requires WorldOk(w) && Enabled(w, ev) && !ev.Register? && !ev.Call?
    ensures var f, g := w.fetches[ev.id], Fetched(w, ev);
      && (g.handed <==> f.handed || ev.Post?)
      && (Early(g) && g.race.None? ==> Early(f) && f.race.None? && !ev.Arrives?)
      && (g.race == Some(ByFrame(Error(true))) && f.race != g.race ==>
           Early(f) && f.race.None? && ev == Arrives(ev.id, Error(true)))
  {
    RaceMoves(w, ev);
    if ev.Arrives? {
      FrameShows(w.fetches[ev.id], ev.m);
      assert Fetched(w, ev) == Framed(w.fetches[ev.id], ev.m);
    }
    hide Fetched, FetchOk, Framed, Drops;
  }

  lemma RefusedMoves(w: World, ev: Event)
    requires WorldOk(w) && Enabled(w, ev) && !ev.Register? && !ev.Call?
    ensures Refused(Fetched(w, ev)) <==> Refused(w.fetches[ev.id]) || ev.PostThrows?
  {
    hide R.Inv, OutcomeOk, ReplyOk, RaceOk;
    var f := w.fetches[ev.id];
    match ev {
      case Arrives(_, m) => FramedPosts(f, m);
      case Deadline(_) => ExpiredPosts(f);
      case CallerAborts(_) => RejectedPosts(f.(gone := true));
      case _ =>
    }
    hide Framed, Rejected, Expired, TurnedQueue, TurnedOutcome, R.After, R.Enabled, Facade, Typed, Listening, StreamEvent,
      R.Inv, RaceOk, LeftOk;
  }

  lemma FramedPosts(f: Fetch, m: Msg)
    ensures var g := Framed(f, m); g.dispatched == f.dispatched && g.handed == f.handed && g.stage == f.stage
  {
    hide Received;
  }

  lemma RejectedPosts(f: Fetch)
    ensures var g := Rejected(f); g.dispatched == f.dispatched && g.handed == f.handed && g.stage == f.stage
  {
    hide Aborted;
  }

  lemma ExpiredPosts(f: Fetch)
    ensures var g := Expired(f); g.dispatched == f.dispatched && g.handed == f.handed && g.stage == f.stage
  {
    hide Rejected;
    RejectedPosts(Settle(f, ByDeadline));
  }

  lemma CallShows(w: World, ev: Event)
    requires Enabled(w, ev) && ev.Call?
    ensures var g := Fetched(w, ev); !g.handed && g.race.None? && !Refused(g)
  {
  }

  lemma StepShows(w: World, ev: Event, evs: seq<Event>, id: nat)
    requires WorldOk(w) && Enabled(w, ev) && Shown(w, evs, id)
    ensures Shown(After(w, ev), evs + [ev], id)
  {
    FirstProvesGrows(evs, ev, id);
    if ev.Register? || ev.id != id {
      SilentElsewhere(evs, ev, id);
    } else {
      OwnStepShows(w, ev, evs);
    }
    hide Fetched, FetchOk, FirstProves, Silent;
  }

  lemma SilentElsewhere(evs: seq<Event>, ev: Event, id: nat)
    requires !FrameFor(ev, id)
    ensures Silent(evs, id) ==> Silent(evs + [ev], id)
  {
  }

  lemma OwnStepShows(w: World, ev: Event, evs: seq<Event>)
    requires WorldOk(w) && Enabled(w, ev) && !ev.Register? && Shown(w, evs, ev.id)
    ensures Shown(After(w, ev), evs + [ev], ev.id)
  {
    FirstProvesGrows(evs, ev, ev.id);
    if ev.Call? {
      CallShows(w, ev);
    } else {
      FetchShows(w, ev);
      RefusedMoves(w, ev);
    }
    if !FrameFor(ev, ev.id) {
      SilentElsewhere(evs, ev, ev.id);
    }
    hide Fetched, FetchOk, FirstProves, Silent, Refused;
  }

  lemma {:induction false} RunShows(ws: seq<World>, evs: seq<Event>, n: nat, id: nat)
    requires Run(ws, evs) && n <= |evs|
    ensures Shown(ws[n], evs[..n], id)
    decreases n
  {
    if n > 0 {
      RunShows(ws, evs, n - 1, id);
      RunKeeps(ws, evs, n - 1);
      assert Enabled(ws[n - 1], evs[n - 1]) && ws[n - 1 + 1] == After(ws[n - 1], evs[n - 1]);
      assert evs[..n] == evs[..n - 1] + [evs[n - 1]];
      hide Run, WorldOk, After, Enabled, Shown;
      StepShows(ws[n - 1], evs[n - 1], evs[..n - 1], id);
    }
  }

  // ----- the rule -----

  /** The port never took the request frame, or the peer's first frame proved that the upstream did not get
      the request. */
  predicate ProvablyUnsent(evs: seq<Event>, id: nat) {
    Post(id) !in evs || FirstProves(evs, id)
  }

  lemma OutcomeOfRun(ws: seq<World>, evs: seq<Event>, id: nat)
    requires Run(ws, evs) && id in ws[|evs|].fetches
    ensures FetchOk(ws[|evs|].fetches[id]) && Shown(ws[|evs|], evs, id)
  {
    RunKeeps(ws, evs, |evs|);
    RunShows(ws, evs, |evs|, id);
    assert evs[..|evs|] == evs;
    hide Run, FetchOk, Shown;
  }

  /** The flag errs on the safe side only: at the end it is up exactly when the port took the request and no
      proof came back, or when the port threw at it; and when it is down, the request is provably unsent. */
  lemma FlagIsConservative(ws: seq<World>, evs: seq<Event>, id: nat)
    requires Run(ws, evs) && id in ws[|evs|].fetches && ws[|evs|].fetches[id].outcome.Some?
    ensures var f := ws[|evs|].fetches[id];
      && (!f.dispatched ==> ProvablyUnsent(evs, id))
      && (f.dispatched <==>
            PostThrows(id) in evs || (Post(id) in evs && f.race != Some(ByFrame(Error(true)))))
  {
    OutcomeOfRun(ws, evs, id);
    hide Run, FirstProves, R.Inv, RaceOk;
  }

  /** For a non-idempotent request null, which lets the caller try another transport, comes only when the request
      was provably not sent: in no run is it sent twice. */
  lemma NeverSentTwice(ws: seq<World>, evs: seq<Event>, id: nat)
    requires Run(ws, evs) && id in ws[|evs|].fetches
    requires var f := ws[|evs|].fetches[id]; !f.idempotent && f.reply == Some(Fallback)
    ensures ProvablyUnsent(evs, id)
  {
    OutcomeOfRun(ws, evs, id);
    FlagIsConservative(ws, evs, id);
    hide Run, ProvablyUnsent, R.Inv;
  }

  /** And exactly when: at the return of a fetch whose caller is not gone, no port was there, or the body could
      not ride it, or the first frame proved non-delivery. */
  lemma FallbackExactly(ws: seq<World>, evs: seq<Event>, i: nat, id: nat)
    requires Run(ws, evs) && i < |evs| && evs[i] == Return(id) && !ws[i].fetches[id].idempotent
    ensures var f := ws[i].fetches[id];
      ws[i + 1].fetches[id].reply == Some(Fallback) <==>
        !f.gone && (f.port.None? || !f.bodyFits || f.race == Some(ByFrame(Error(true))))
  {
    RunKeeps(ws, evs, i);
    assert Enabled(ws[i], evs[i]) && ws[i + 1] == After(ws[i], evs[i]);
    var f := ws[i].fetches[id];
    FacadeMeets(f.outcome.value, f.dispatched, f.gone, f.idempotent);
    assert FetchOk(f);
    hide Run, R.Inv, Facade, Typed;
  }

  /** An idempotent fetch ends in an error exactly when its caller is gone and it has no response: the deadline
      settles the race before it rejects the reader, so its own abort is never what the caller sees. */
  lemma IdempotentNeverStuck(ws: seq<World>, evs: seq<Event>, i: nat, id: nat)
    requires Run(ws, evs) && i < |evs| && evs[i] == Return(id) && ws[i].fetches[id].idempotent
    ensures var f := ws[i].fetches[id];
      ws[i + 1].fetches[id].reply == Some(Throws) <==> f.gone && f.outcome != Some(Responded)
  {
    RunKeeps(ws, evs, i);
    assert Enabled(ws[i], evs[i]) && ws[i + 1] == After(ws[i], evs[i]);
    var f := ws[i].fetches[id];
    FacadeMeets(f.outcome.value, f.dispatched, f.gone, f.idempotent);
    assert FetchOk(f);
    hide Run, R.Inv, Facade, Typed;
  }

  lemma StaysSettled(w: World, ev: Event, id: nat)
    requires WorldOk(w) && Enabled(w, ev) && id in w.fetches
    ensures id in After(w, ev).fetches
    ensures var f, g := w.fetches[id], After(w, ev).fetches[id];
      && (f.race.Some? ==> g.race == f.race)
      && (f.reply.Some? ==> g.reply == f.reply && g.outcome == f.outcome && g.dispatched == f.dispatched)
  {
    assert FetchOk(w.fetches[id]);
    if !ev.Register? && !ev.Call? {
      RaceMoves(w, ev);
    }
    hide Fetched, R.Inv, RaceOk, OutcomeOk, Drops;
  }

  /** What comes after the race is settled changes neither what settled it nor, later, the reply. */
  lemma {:induction false} LateSignalsDoNotMatter(ws: seq<World>, evs: seq<Event>, i: nat, j: nat, id: nat)
    requires Run(ws, evs) && i <= j <= |evs| && id in ws[i].fetches
    ensures id in ws[j].fetches
    ensures var f, g := ws[i].fetches[id], ws[j].fetches[id];
      && (f.race.Some? ==> g.race == f.race)
      && (f.reply.Some? ==> g.reply == f.reply && g.outcome == f.outcome && g.dispatched == f.dispatched)
    decreases j
  {
    hide *;
    if i < j {
      LateSignalsDoNotMatter(ws, evs, i, j - 1, id);
      StepStaysSettled(ws, evs, j - 1, id);
    }
  }

  lemma StepStaysSettled(ws: seq<World>, evs: seq<Event>, j: nat, id: nat)
    requires Run(ws, evs) && j < |evs| && id in ws[j].fetches
    ensures id in ws[j + 1].fetches
    ensures var f, g := ws[j].fetches[id], ws[j + 1].fetches[id];
      && (f.race.Some? ==> g.race == f.race)
      && (f.reply.Some? ==> g.reply == f.reply && g.outcome == f.outcome && g.dispatched == f.dispatched)
  {
    RunKeeps(ws, evs, j);
    assert Enabled(ws[j], evs[j]) && ws[j + 1] == After(ws[j], evs[j]);
    hide *;
    StaysSettled(ws[j], evs[j], id);
  }

  /** Nothing lingers: a fetch that is done without a response, or whose body is over, has no waiter left, a
      port that threw included. */
  lemma NoWaiterLeft(ws: seq<World>, evs: seq<Event>, id: nat)
    requires Run(ws, evs) && id in ws[|evs|].fetches && ws[|evs|].fetches[id].stage == Done
    ensures var f := ws[|evs|].fetches[id];
      f.reply != Some(Answer) || f.q.phase != Body ==> !f.q.registered && f.q.phase != AwaitHead
  {
    OutcomeOfRun(ws, evs, id);
    hide Run, Shown, R.Inv;
  }

  /** The page's body, whichever fetch it belongs to: closed cleanly only when it is all of the chunks between
      the head and the end, in order. */
  lemma BodyIsWhole(ws: seq<World>, evs: seq<Event>, id: nat)
    requires Run(ws, evs) && id in ws[|evs|].fetches && ws[|evs|].fetches[id].q.phase == Closed
    ensures var q := ws[|evs|].fetches[id].q; exists n :: R.WholeBody(q.accepted, n, q.out)
  {
    OutcomeOfRun(ws, evs, id);
    hide Run, Shown, RaceOk, FlagOk, OutcomeOk, ReplyOk;
    R.ClosedIsWhole(ws[|evs|].fetches[id].q);
  }

  // ----- the stale probe -----

  lemma ProbeSettles(w: World, ev: Event, a: nat, b: nat)
    requires WorldOk(w) && Enabled(w, ev) && a in w.fetches && b in After(w, ev).fetches && a != b
    requires w.fetches[a].race == Some(ByProbe) && After(w, ev).fetches[b].race == Some(ByProbe)
    requires w.fetches[a].port == After(w, ev).fetches[b].port
    ensures b in w.fetches && w.fetches[b].race == Some(ByProbe) && w.fetches[b].port == w.fetches[a].port
  {
    assert PortOk(w, w.fetches[a]);
    if !ev.Register? && ev.id == b {
      if ev.Call? {
        CallShows(w, ev);
      } else {
        RaceMoves(w, ev);
      }
    }
    hide Fetched, FetchOk;
  }

  /** Two fetches of one port, both let go by their probes. */
  predicate Twins(w: World, a: nat, b: nat) {
    && a != b && a in w.fetches && b in w.fetches && w.fetches[a].port == w.fetches[b].port
    && w.fetches[a].race == Some(ByProbe) && w.fetches[b].race == Some(ByProbe)
  }

  /** One event settles one race, so of the two fetches one was settled before, and then both. */
  lemma TwinsBefore(w: World, ev: Event, a: nat, b: nat)
    requires WorldOk(w) && Enabled(w, ev) && Twins(After(w, ev), a, b)
    ensures Twins(w, a, b)
  {
    hide Fetched, FetchOk;
    if !ev.Register? && ev.id == a {
      ProbeSettles(w, ev, b, a);
    } else {
      ProbeSettles(w, ev, a, b);
    }
  }

  /** A probe frees at most one fetch of a port: it takes the port away, and the probes of the other fetches that
      wait on that port then find it gone and leave them to the header deadline. */
  lemma {:induction false} OneProbePerPort(ws: seq<World>, evs: seq<Event>, n: nat, a: nat, b: nat)
    requires Run(ws, evs) && n <= |evs|
    ensures !Twins(ws[n], a, b)
    decreases n
  {
    if n > 0 {
      OneProbePerPort(ws, evs, n - 1, a, b);
      RunKeeps(ws, evs, n - 1);
      assert Enabled(ws[n - 1], evs[n - 1]) && ws[n - 1 + 1] == After(ws[n - 1], evs[n - 1]);
      hide Run, WorldOk, After, Enabled, Twins;
      if Twins(ws[n], a, b) {
        TwinsBefore(ws[n - 1], evs[n - 1], a, b);
      }
    }
  }

  /** One event: a fetch is let go by its own probe, and the shared port goes away or changes hands, only by a
      registration or a lookup without a host page. */
  lemma ProbeStep(w: World, ev: Event, id: nat)
    requires WorldOk(w) && Enabled(w, ev) && id in After(w, ev).fetches
    ensures After(w, ev).fetches[id].race == Some(ByProbe) ==>
      (id in w.fetches && w.fetches[id].race == Some(ByProbe)) || ev == Lookup(id, false)
    ensures w.hostPort.Some? && After(w, ev).hostPort != w.hostPort ==>
      ev.Register? || (ev.Lookup? && !ev.alive && w.fetches[ev.id].port == w.hostPort)
  {
    if !ev.Register? && ev.id == id {
      if ev.Call? {
        CallShows(w, ev);
      } else {
        RaceMoves(w, ev);
      }
    }
    hide Fetched, FetchOk;
  }

  lemma ProbeStepOfRun(ws: seq<World>, evs: seq<Event>, n: nat, id: nat)
    requires Run(ws, evs) && n < |evs| && id in ws[n + 1].fetches && ws[n + 1].fetches[id].race == Some(ByProbe)
    ensures (id in ws[n].fetches && ws[n].fetches[id].race == Some(ByProbe)) || evs[n] == Lookup(id, false)
  {
    RunKeeps(ws, evs, n);
    assert Enabled(ws[n], evs[n]) && ws[n + 1] == After(ws[n], evs[n]);
    hide Run, WorldOk, After, Enabled;
    ProbeStep(ws[n], evs[n], id);
  }

  lemma EmptyAtFirst(ws: seq<World>, evs: seq<Event>)
    requires Run(ws, evs)
    ensures |ws| == |evs| + 1 && ws[0].fetches == map[]
  {
  }

  /** A live host page keeps the full header deadline: a fetch is let go by its probe only when its own lookup found
      no host page. */
  lemma {:induction false} LetGoByADeadLookup(ws: seq<World>, evs: seq<Event>, n: nat, id: nat)
    requires Run(ws, evs) && n <= |evs| && id in ws[n].fetches && ws[n].fetches[id].race == Some(ByProbe)
    ensures Lookup(id, false) in evs[..n]
    decreases n
  {
    hide *;
    EmptyAtFirst(ws, evs);
    if n > 0 {
      ProbeStepOfRun(ws, evs, n - 1, id);
      assert evs[..n] == evs[..n - 1] + [evs[n - 1]];
      if evs[n - 1] != Lookup(id, false) {
        LetGoByADeadLookup(ws, evs, n - 1, id);
      }
    }
  }

  // ----- two fetches on a dead port -----

  /** Both are posted, both probes look, no host page is left: the first takes the port away, the second finds it
      taken and its fetch goes on waiting. */
  const DEAD: seq<Event> := [
    Register(false), Call(1, true, true, false), Post(1), Call(2, true, true, false), Post(2),
    ProbeFires(1), ProbeFires(2), Lookup(1, false), Lookup(2, false)]

  function Waiting(handed: bool, race: Option<Settled>, probe: Probe): Fetch {
    Fetch(true, true, Some(0), false, if handed then Racing else Posting, FRESH, race, probe, handed, true, false, None, None)
  }

  function DeadWorld(k: nat): World {
    if k == 0 then NOTHING
    else
      World(if k < 8 then Some(0) else None, false, 1,
        if k == 1 then map[]
        else if k == 2 then map[1 := Waiting(false, None, Armed)]
        else if k == 3 then map[1 := Waiting(true, None, Armed)]
        else if k == 4 then map[1 := Waiting(true, None, Armed), 2 := Waiting(false, None, Armed)]
        else if k == 5 then map[1 := Waiting(true, None, Armed), 2 := Waiting(true, None, Armed)]
        else if k == 6 then map[1 := Waiting(true, None, Looking), 2 := Waiting(true, None, Armed)]
        else if k == 7 then map[1 := Waiting(true, None, Looking), 2 := Waiting(true, None, Looking)]
        else if k == 8 then map[1 := Waiting(true, Some(ByProbe), Over), 2 := Waiting(true, None, Looking)]
        else map[1 := Waiting(true, Some(ByProbe), Over), 2 := Waiting(true, None, Over)])
  }

  lemma DeadStep(k: nat)
    requires k < 9
    ensures Enabled(DeadWorld(k), DEAD[k]) && After(DeadWorld(k), DEAD[k]) == DeadWorld(k + 1)
  {
  }

  /** In that run the second fetch still waits, its probe is over, and the port is gone. */
  lemma SecondFetchParks() returns (ws: seq<World>)
    ensures Run(ws, DEAD)
    ensures var w := ws[9]; w.hostPort.None? && 1 in w.fetches && 2 in w.fetches
    ensures var f, g := ws[9].fetches[1], ws[9].fetches[2];
      f.race == Some(ByProbe) && g.race.None? && g.stage == Racing && g.probe == Over
  {
    ws := seq(10, k requires 0 <= k => DeadWorld(k));
    forall k | 0 <= k < 9 ensures Enabled(ws[k], DEAD[k]) && ws[k + 1] == After(ws[k], DEAD[k]) {
      DeadStep(k);
    }
    hide Enabled, After;
  }
}
