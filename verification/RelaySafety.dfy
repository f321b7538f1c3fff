/** The rule that a request is never silently sent twice, over every run of any number of fetches
    (app/src/relayfetch.ts). */
module RelaySafety {
  import opened Common
  import opened Delivery
  import opened RelayQueue
  import opened RelayDispatch
  import R = RelayRuns

  // ----- what every step keeps -----

  predicate Early(f: Fetch) {
    f.stage == Posting || f.stage == Crediting || f.stage == Racing
  }

  /** The synchronous part of the fetch is over. */
  predicate Reached(f: Fetch) {
    f.stage != Posting && f.stage != Crediting
  }

  /** Until the race is settled the reader waits; a frame that settled it is the first one handed out, and waits
      for the reader's turn. */
  predicate RaceOk(f: Fetch) {
    && (f.stage == Posting || f.stage == Crediting ==> f.race.None? && f.q == FRESH)
    && (Early(f) && f.race.None? ==> f.q.wake && f.q.phase == AwaitHead)
    && (Early(f) && f.race.Some? && f.race.value.ByFrame? ==>
         f.q.phase == AwaitHead && !f.q.wake && f.q.hand == Some(f.race.value.m))
    && (f.race.Some? && f.race.value.ByFrame? ==> f.q.taken != [] && f.q.taken[0] == f.race.value.m)
    && (f.race == Some(ByAbort) ==> f.gone)
    && (f.q.phase != AwaitHead && f.q.phase != Body ==> !f.q.registered)
  }

  /** The posts and the flag: before the race ends the flag is up, and the frame is out once the race is on. */
  predicate FlagOk(f: Fetch) {
    && (Early(f) ==> f.port.Some? && f.bodyFits && f.dispatched && f.outcome.None? && (f.handed <==> f.stage != Posting))
    && (f.handed || f.race.Some? || f.dispatched ==> f.port.Some? && f.bodyFits)
    && (f.stage == Leaving ==> f.outcome.Some?) && (f.stage == Done <==> f.reply.Some?)
    && (f.stage == Posting || f.stage == Crediting ==> f.probe == Armed)
    && (f.probe == Looking ==> f.port.Some? && (f.stage == Racing || f.race.Some?))
  }

  /** How the fetch left: the flag, the outcome and the settled race tell one story. */
  predicate OutcomeOk(f: Fetch) {
    && (!Early(f) && f.outcome.None? ==> f.race.None? && !f.q.registered && f.q.phase == Errored)
    && (f.outcome.Some? ==> LeftOk(f))
  }

  predicate LeftOk(f: Fetch)
    requires f.outcome.Some?
  {
    && !Early(f)
    && (f.dispatched <==> f.port.Some? && f.bodyFits && f.race != Some(ByFrame(Error(true))))
    && (f.outcome.value.Responded? ==> f.race.Some? && f.race.value.ByFrame? && f.race.value.m.Head? && f.q.phase != AwaitHead)
    && (f.outcome.value.Null? && f.dispatched ==> f.idempotent)
    && (f.outcome.value == Threw(Abort) ==> f.race == Some(ByAbort))
    && (f.outcome.value != Responded ==> !f.q.registered && f.q.phase == Errored)
    && (!f.dispatched ==> f.outcome.value.Null?)
  }

  /** The reply follows the outcome; an idempotent fetch throws only at a caller who is gone. */
  predicate ReplyOk(f: Fetch) {
    && (f.reply == Some(Fallback) ==> f.outcome.Some? && !f.outcome.value.Responded? && (!f.dispatched || f.idempotent))
    && (f.reply.Some? ==> (f.reply == Some(Answer) <==> f.outcome == Some(Responded)))
    && (f.reply == Some(Throws) && (f.outcome.None? || f.idempotent || !f.dispatched) ==> f.gone)
  }

  ghost predicate FetchOk(f: Fetch) {
    R.Inv(f.q) && RaceOk(f) && FlagOk(f) && OutcomeOk(f) && ReplyOk(f)
  }

  // ----- the queue of one fetch -----

  lemma FreshKeeps()
    ensures R.Inv(FRESH)
  {
    assert R.Dealt(FRESH) == [] && Bytes([]) == 0;
  }

  // ----- step by step -----

  lemma BegunOk(w: World, idempotent: bool, bodyFits: bool, gone: bool)
    ensures FetchOk(Begun(w, idempotent, bodyFits, gone))
  {
    FreshKeeps();
    R.AbandonKeeps(FRESH);
    assert FRESH.(hand := None) == FRESH;
    hide R.Inv;
  }

  lemma PostOk(f: Fetch)
    requires FetchOk(f) && f.stage == Posting
    ensures FetchOk(Posted(f)) && FetchOk(PortThrew(f))
  {
    R.AbandonKeeps(f.q);
    hide R.Inv;
  }

  lemma CreditOk(f: Fetch)
    requires FetchOk(f) && f.stage == Crediting
    ensures FetchOk(f.(stage := Racing)) && FetchOk(PortThrew(f))
  {
    R.AbandonKeeps(f.q);
    hide R.Inv;
  }

  /** Frames only ever add to what was handed out, and nothing is handed out while a frame waits. */
  lemma ReceivedTakes(s: RelayQueue.State, m: Msg)
    requires R.Inv(s)
    ensures var t := Received(s, m);
      && R.Inv(t) && s.taken <= t.taken && t.phase == s.phase && (t.registered ==> s.registered)
      && (!s.wake ==> t.hand == s.hand && t.wake == s.wake && t.taken == s.taken)
      && (s.wake ==> s.hand.None? && !t.wake && t.hand.Some? && t.taken == s.taken + [t.hand.value])
  {
    R.StepKeeps(s, R.Receive(m));
    hide Bytes, R.ReaderOk, Size;
  }

  lemma NothingTakenYet(s: RelayQueue.State)
    requires R.Inv(s) && s.wake && s.phase == AwaitHead
    ensures s.taken == [] && s.hand.None? && s.registered && !s.aborted
  {
    hide Bytes, R.TakenInOrder;
  }

  /** A frame handed to the reader that waits for the first one. */
  lemma HandedFirst(f: Fetch, t: RelayQueue.State)
    requires RaceOk(f) && Reached(f) && f.q.wake && f.q.phase == AwaitHead && f.q.taken == []
    requires t.phase == AwaitHead && t.hand.Some? && t.taken == [t.hand.value] && !t.wake
    ensures RaceOk(Settle(f.(q := t), ByFrame(t.hand.value)))
  {
  }

  /** A frame handed to the reader of the body. */
  lemma HandedLater(f: Fetch, t: RelayQueue.State)
    requires RaceOk(f) && Reached(f) && f.q.wake && f.q.phase != AwaitHead
    requires t.phase == f.q.phase && f.q.taken <= t.taken && (t.registered ==> f.q.registered)
    ensures RaceOk(f.(q := t))
  {
  }

  lemma FramedWaits(f: Fetch, m: Msg)
    requires R.Inv(f.q) && RaceOk(f) && Reached(f) && f.q.wake
    ensures RaceOk(Framed(f, m))
  {
    ReceivedTakes(f.q, m);
    var t := Received(f.q, m);
    hide R.Inv, Received, RaceOk;
    if f.q.phase == AwaitHead {
      NothingTakenYet(f.q);
      HandedFirst(f, t);
    } else {
      HandedLater(f, t);
    }
  }

  lemma FramedQueues(f: Fetch, m: Msg)
    requires FetchOk(f) && Reached(f) && !f.q.wake
    ensures RaceOk(Framed(f, m))
  {
    ReceivedTakes(f.q, m);
    assert Framed(f, m).race == f.race;
    hide R.Inv, Received, FlagOk, OutcomeOk, Framed;
  }

  /** Only an early fetch still waits for its first frame. */
  lemma FramedLeft(f: Fetch, m: Msg)
    requires FetchOk(f) && Reached(f)
    ensures FlagOk(Framed(f, m)) && OutcomeOk(Framed(f, m)) && ReplyOk(Framed(f, m))
  {
    ReceivedTakes(f.q, m);
    var t := Received(f.q, m);
    hide R.Inv, Received, RaceOk;
    if !Early(f) && f.q.phase == AwaitHead {
      assert f.outcome.Some?;
    }
    FramedFetch(f, t);
  }

  lemma FramedFetch(f: Fetch, t: RelayQueue.State)
    requires FlagOk(f) && OutcomeOk(f) && ReplyOk(f) && Reached(f)
    requires t.phase == f.q.phase && (t.registered ==> f.q.registered)
    ensures var g := f.(q := t); FlagOk(g) && OutcomeOk(g) && ReplyOk(g)
    ensures Early(f) || f.race.Some? || f.q.phase != AwaitHead
    ensures Early(f) && t.hand.Some? ==>
      var g := Settle(f.(q := t), ByFrame(t.hand.value)); FlagOk(g) && OutcomeOk(g) && ReplyOk(g)
  {
  }

  lemma FramedOk(f: Fetch, m: Msg)
    requires FetchOk(f) && Reached(f)
    ensures FetchOk(Framed(f, m))
  {
    ReceivedTakes(f.q, m);
    assert Framed(f, m).q == Received(f.q, m);
    if f.q.wake {
      FramedWaits(f, m);
    } else {
      FramedQueues(f, m);
    }
    FramedLeft(f, m);
    hide R.Inv, RaceOk, FlagOk, OutcomeOk, ReplyOk, Framed;
  }

  lemma AbortedTakes(s: RelayQueue.State)
    requires R.Inv(s)
    ensures var t := Aborted(s);
      && R.Inv(t) && t.taken == s.taken && t.hand == s.hand
      && (!s.aborted ==> !t.registered && !t.wake && t.phase == if s.wake then Errored else s.phase)
  {
    R.AbortKeeps(s);
    hide R.Inv;
  }

  /** Rejecting the reader settles an open race with the abort, and changes no settled one. */
  lemma RejectedOk(f: Fetch)
    requires FetchOk(f) && Reached(f) && Listening(f)
    requires f.race.None? ==> f.gone
    ensures FetchOk(Rejected(f))
  {
    hide FetchOk, Rejected;
    if f.q.aborted {
      RejectedTwice(f);
    } else {
      RejectedOnce(f);
    }
  }

  lemma RejectedTwice(f: Fetch)
    requires f.q.aborted
    ensures Rejected(f) == f
  {
  }

  lemma RejectedOnce(f: Fetch)
    requires FetchOk(f) && Reached(f) && Listening(f) && !f.q.aborted
    requires f.race.None? ==> f.gone
    ensures FetchOk(Rejected(f))
  {
    AbortedTakes(f.q);
    var t := Aborted(f.q);
    hide R.Inv, Aborted;
    AbortedFetch(f, t);
    hide RaceOk, FlagOk, OutcomeOk;
  }

  lemma AbortedFetch(f: Fetch, t: RelayQueue.State)
    requires RaceOk(f) && FlagOk(f) && OutcomeOk(f) && ReplyOk(f) && Reached(f) && Listening(f)
    requires f.race.None? ==> f.gone
    requires t.taken == f.q.taken && t.hand == f.q.hand && !t.registered && !t.wake
    requires t.phase == if f.q.wake then Errored else f.q.phase
    ensures var g := f.(q := t);
      var h := if f.q.wake && f.q.phase == AwaitHead then Settle(g, ByAbort) else g;
      RaceOk(h) && FlagOk(h) && OutcomeOk(h) && ReplyOk(h)
  {
  }

  lemma ExpiredOk(f: Fetch)
    requires FetchOk(f) && f.stage == Racing
    ensures FetchOk(Expired(f))
  {
    var t := Settle(f, ByDeadline);
    assert FetchOk(t) by {
      hide R.Inv;
    }
    hide FetchOk;
    RejectedAfter(t);
  }

  /** With the race settled first, the rejection of the reader is not what it saw. */
  lemma RejectedAfter(f: Fetch)
    requires FetchOk(f) && f.stage == Racing && f.race.Some?
    ensures FetchOk(Rejected(f)) && Rejected(f).race == f.race
  {
    AbortedTakes(f.q);
    hide R.Inv, Aborted;
  }

  lemma LookedUpOk(f: Fetch)
    requires FetchOk(f) && f.probe == Looking
    ensures FetchOk(f.(probe := Over)) && FetchOk(Settle(f.(probe := Over), ByProbe))
  {
    hide R.Inv;
  }

  lemma GoneOk(f: Fetch)
    requires FetchOk(f)
    ensures FetchOk(f.(gone := true))
  {
    hide R.Inv;
  }

  lemma ProbedOk(f: Fetch, probe: Probe)
    requires FetchOk(f) && f.stage == Racing
    ensures FetchOk(f.(probe := probe))
  {
    hide R.Inv;
  }

  // ----- the turn and the return -----

  /** The head's turn is the reader's own step. */
  lemma HeadTakes(s: RelayQueue.State)
    requires R.Inv(s) && s.hand.Some? && s.hand.value.Head? && s.phase == AwaitHead
    ensures R.Inv(s.(hand := None, phase := Body)) && R.Inv(Cleaned(s.(hand := None, phase := NoBody)))
    ensures R.After(s, R.Handle) == s.(hand := None, phase := Body)
    ensures R.After(s, R.HandleNull) == Cleaned(s.(hand := None, phase := NoBody))
  {
    R.HandleHead(s);
    R.HandleNullHead(s);
    hide R.Inv;
  }

  /** How a race that no usable head settled is left. */
  lemma LeavesEmpty(f: Fetch, outcome: Outcome, dispatched: bool)
    requires FetchOk(f) && f.stage == Racing && f.race.Some? && !outcome.Responded?
    requires dispatched <==> f.race != Some(ByFrame(Error(true)))
    requires (outcome.Null? && dispatched ==> f.idempotent) && (outcome == Threw(Abort) ==> f.race == Some(ByAbort))
    requires !dispatched ==> outcome.Null?
    ensures FetchOk(f.(stage := Leaving, q := Abandoned(f.q.(hand := None)), dispatched := dispatched,
                       outcome := Some(outcome)))
  {
    R.AbandonKeeps(f.q);
    hide R.Inv;
  }

  lemma AnsweredOk(f: Fetch, nullBody: bool)
    requires FetchOk(f) && f.stage == Racing && f.race.Some? && f.race.value.ByFrame? && f.race.value.m.Head?
    ensures FetchOk(Turned(f, nullBody, true))
  {
    HeadTakes(f.q);
    var q := TurnedQueue(f, nullBody, true);
    assert R.Inv(q) && q.taken == f.q.taken && (q.phase == Body || (q.phase == NoBody && !q.registered));
    hide R.Inv, TurnedQueue;
    AnsweredFetch(f, q);
  }

  lemma AnsweredFetch(f: Fetch, q: RelayQueue.State)
    requires RaceOk(f) && FlagOk(f) && OutcomeOk(f) && ReplyOk(f) && f.stage == Racing
    requires f.race.Some? && f.race.value.ByFrame? && f.race.value.m.Head?
    requires q.taken == f.q.taken && (q.phase == Body || (q.phase == NoBody && !q.registered))
    ensures var g := f.(stage := Leaving, q := q, outcome := Some(Responded));
      RaceOk(g) && FlagOk(g) && OutcomeOk(g) && ReplyOk(g)
  {
  }

  predicate Answers(f: Fetch, headFits: bool) {
    f.race.Some? && f.race.value.ByFrame? && f.race.value.m.Head? && headFits
  }

  lemma EmptyOk(f: Fetch, nullBody: bool, headFits: bool)
    requires FetchOk(f) && f.stage == Racing && f.race.Some? && !Answers(f, headFits)
    ensures FetchOk(Turned(f, nullBody, headFits))
  {
    assert f.dispatched;
    var t := Turned(f, nullBody, headFits);
    hide FetchOk, Abandoned;
    LeavesEmpty(f, t.outcome.value, t.dispatched);
  }

  lemma TurnedOk(f: Fetch, nullBody: bool, headFits: bool)
    requires FetchOk(f) && f.stage == Racing && f.race.Some?
    ensures FetchOk(Turned(f, nullBody, headFits))
  {
    hide FetchOk, Turned;
    if Answers(f, headFits) {
      AnsweredOk(f, nullBody);
    } else {
      EmptyOk(f, nullBody, headFits);
    }
  }

  lemma ReturnedOk(f: Fetch)
    requires FetchOk(f) && f.stage == Leaving && f.outcome.Some?
    ensures FetchOk(Returned(f))
  {
    FacadeMeets(f.outcome.value, f.dispatched, f.gone, f.idempotent);
    hide R.Inv, Facade, Typed;
  }

  /** What the facade makes of an outcome: only an abort of the caller's, a rejected reader or a request that may
      have been delivered is thrown. */
  lemma FacadeMeets(outcome: Outcome, dispatched: bool, gone: bool, idempotent: bool)
    ensures var r := Facade(Typed(outcome, dispatched), gone, idempotent);
      && (r == Answer <==> outcome.Responded?)
      && (r == Fallback <==> !outcome.Responded? && !gone && outcome != Threw(Abort) && (!dispatched || idempotent))
  {
  }

  /** The page's stream only takes more, and lets go when it is over. */
  lemma StreamTakes(s: RelayQueue.State, ev: R.Event)
    requires R.Inv(s) && R.Enabled(s, ev) && (ev.Ask? || ev.Handle? || ev.GrantFails? || ev.Abort?)
    requires s.phase != AwaitHead && (s.phase != Body ==> !s.registered)
    ensures var t := R.After(s, ev);
      && R.Inv(t) && s.taken <= t.taken && t.phase != AwaitHead && (t.phase != Body ==> !t.registered)
  {
    R.StepKeeps(s, ev);
    hide R.Inv;
  }

  lemma StreamOk(f: Fetch, ev: R.Event)
    requires FetchOk(f) && StreamEvent(f, ev)
    ensures FetchOk(f.(q := R.After(f.q, ev)))
  {
    StreamTakes(f.q, ev);
    hide R.Inv, R.After;
    StreamedFetch(f, R.After(f.q, ev));
  }

  lemma StreamedFetch(f: Fetch, t: RelayQueue.State)
    requires RaceOk(f) && FlagOk(f) && OutcomeOk(f) && ReplyOk(f) && f.outcome == Some(Responded)
    requires f.q.taken <= t.taken && t.phase != AwaitHead && (t.phase != Body ==> !t.registered)
    ensures var g := f.(q := t); RaceOk(g) && FlagOk(g) && OutcomeOk(g) && ReplyOk(g)
  {
  }

  // ----- every run -----

  /** Ports are numbered as they register, and a probe that settled a race took the port away for good. */
  predicate PortOk(w: World, f: Fetch) {
    && (f.port.Some? ==> f.port.value < w.ports)
    && (f.race == Some(ByProbe) ==> f.port.Some? && w.hostPort != f.port)
  }

  ghost predicate WorldOk(w: World) {
    && (w.hostPort.Some? ==> w.hostPort.value < w.ports)
    && forall id <- w.fetches :: FetchOk(w.fetches[id]) && PortOk(w, w.fetches[id])
  }

  lemma EarlyEventOk(w: World, ev: Event)
    requires WorldOk(w) && Enabled(w, ev) && (ev.Call? || ev.Post? || ev.PostThrows? || ev.Credit? || ev.CreditThrows?)
    ensures FetchOk(Fetched(w, ev))
  {
    hide FetchOk;
    match ev {
      case Call(_, idempotent, bodyFits, gone) => BegunOk(w, idempotent, bodyFits, gone);
      case Post(id) => PostOk(w.fetches[id]);
      case PostThrows(id) => PostOk(w.fetches[id]);
      case Credit(id) => CreditOk(w.fetches[id]);
      case CreditThrows(id) => CreditOk(w.fetches[id]);
    }
  }

  lemma AbortingOk(f: Fetch)
    requires FetchOk(f) && Reached(f)
    ensures FetchOk(Aborting(f))
  {
    hide FetchOk, Rejected;
    GoneOk(f);
    if Listening(f) {
      RejectedOk(f.(gone := true));
    }
  }

  lemma OldFetchOk(w: World, ev: Event)
    requires WorldOk(w) && Enabled(w, ev) && !ev.Register? && !ev.Call?
    ensures FetchOk(w.fetches[ev.id])
  {
  }

  lemma FrameEventOk(w: World, ev: Event)
    requires WorldOk(w) && Enabled(w, ev) && ev.Arrives?
    ensures FetchOk(Fetched(w, ev))
  {
    OldFetchOk(w, ev);
    hide FetchOk, WorldOk, Begun, Posted, PortThrew, Framed, Expired, Aborting, Turned, Returned, StreamEvent, R.After;
    FramedOk(w.fetches[ev.id], ev.m);
  }

  lemma DeadlineEventOk(w: World, ev: Event)
    requires WorldOk(w) && Enabled(w, ev) && ev.Deadline?
    ensures FetchOk(Fetched(w, ev))
  {
    OldFetchOk(w, ev);
    hide FetchOk, WorldOk, Begun, Posted, PortThrew, Framed, Expired, Aborting, Turned, Returned, StreamEvent, R.After;
    ExpiredOk(w.fetches[ev.id]);
  }

  lemma AbortEventOk(w: World, ev: Event)
    requires WorldOk(w) && Enabled(w, ev) && ev.CallerAborts?
    ensures FetchOk(Fetched(w, ev))
  {
    OldFetchOk(w, ev);
    hide FetchOk, WorldOk, Begun, Posted, PortThrew, Framed, Expired, Aborting, Turned, Returned, StreamEvent, R.After;
    AbortingOk(w.fetches[ev.id]);
  }

  lemma ProbeEventOk(w: World, ev: Event)
    requires WorldOk(w) && Enabled(w, ev) && ev.ProbeFires?
    ensures FetchOk(Fetched(w, ev))
  {
    OldFetchOk(w, ev);
    hide FetchOk, WorldOk, Begun, Posted, PortThrew, Framed, Expired, Aborting, Turned, Returned, StreamEvent, R.After;
    ProbedOk(w.fetches[ev.id], Fetched(w, ev).probe);
  }

  lemma LookupEventOk(w: World, ev: Event)
    requires WorldOk(w) && Enabled(w, ev) && ev.Lookup?
    ensures FetchOk(Fetched(w, ev))
  {
    OldFetchOk(w, ev);
    hide FetchOk, WorldOk, Begun, Posted, PortThrew, Framed, Expired, Aborting, Turned, Returned, StreamEvent, R.After;
    LookedUpOk(w.fetches[ev.id]);
  }

  lemma TurnEventOk(w: World, ev: Event)
    requires WorldOk(w) && Enabled(w, ev) && ev.Turn?
    ensures FetchOk(Fetched(w, ev))
  {
    OldFetchOk(w, ev);
    hide FetchOk, WorldOk, Begun, Posted, PortThrew, Framed, Expired, Aborting, Turned, Returned, StreamEvent, R.After;
    TurnedOk(w.fetches[ev.id], ev.nullBody, ev.headFits);
  }

  lemma ReturnEventOk(w: World, ev: Event)
    requires WorldOk(w) && Enabled(w, ev) && ev.Return?
    ensures FetchOk(Fetched(w, ev))
  {
    OldFetchOk(w, ev);
    hide FetchOk, WorldOk, Begun, Posted, PortThrew, Framed, Expired, Aborting, Turned, Returned, StreamEvent, R.After;
    ReturnedOk(w.fetches[ev.id]);
  }

  lemma StreamEventOk(w: World, ev: Event)
    requires WorldOk(w) && Enabled(w, ev) && ev.Stream?
    ensures FetchOk(Fetched(w, ev))
  {
    OldFetchOk(w, ev);
    hide FetchOk, WorldOk, Begun, Posted, PortThrew, Framed, Expired, Aborting, Turned, Returned, StreamEvent, R.After;
    StreamOk(w.fetches[ev.id], ev.ev);
  }

  lemma FetchedOk(w: World, ev: Event)
    requires WorldOk(w) && Enabled(w, ev) && !ev.Register?
    ensures FetchOk(Fetched(w, ev))
  {
    hide *;
    match ev {
      case Arrives(_, _) => FrameEventOk(w, ev);
      case Deadline(_) => DeadlineEventOk(w, ev);
      case CallerAborts(_) => AbortEventOk(w, ev);
      case ProbeFires(_) => ProbeEventOk(w, ev);
      case Lookup(_, _) => LookupEventOk(w, ev);
      case Turn(_, _, _) => TurnEventOk(w, ev);
      case Return(_) => ReturnEventOk(w, ev);
      case Stream(_, _) => StreamEventOk(w, ev);
      case _ => EarlyEventOk(w, ev);
    }
  }

  /** The fetch is the same one, a settled race stays settled as it was, and so does a reply. */
  predicate Onward(f: Fetch, g: Fetch) {
    && g.port == f.port && g.idempotent == f.idempotent && g.bodyFits == f.bodyFits
    && (f.race.Some? ==> g.race == f.race)
    && (f.stage == Done ==>
         g.stage == Done && g.reply == f.reply && g.outcome == f.outcome && g.dispatched == f.dispatched)
  }

  lemma FramedOnward(f: Fetch, m: Msg)
    ensures Onward(f, Framed(f, m)) && Framed(f, m).handed == f.handed && Framed(f, m).stage == f.stage
    ensures f.race.None? && Framed(f, m).race.Some? ==> Framed(f, m).race.value.ByFrame?
  {
    hide Received;
  }

  lemma RejectedOnward(f: Fetch)
    ensures Onward(f, Rejected(f)) && Rejected(f).handed == f.handed && Rejected(f).stage == f.stage
    ensures f.race.None? && Rejected(f).race.Some? ==> Rejected(f).race == Some(ByAbort)
  {
    hide Aborted;
  }

  lemma ExpiredOnward(f: Fetch)
    ensures Onward(f, Expired(f)) && Expired(f).handed == f.handed && Expired(f).stage == f.stage
    ensures f.race.None? ==> Expired(f).race == Some(ByDeadline)
  {
    hide Rejected;
    RejectedOnward(Settle(f, ByDeadline));
  }

  lemma TurnedOnward(f: Fetch, nullBody: bool, headFits: bool)
    requires f.race.Some? && f.stage == Racing
    ensures var t := Turned(f, nullBody, headFits);
      Onward(f, t) && t.race == f.race && t.handed == f.handed && t.stage == Leaving
  {
    hide TurnedQueue, TurnedOutcome;
  }

  /** No event moves a fetch to another port or settles its race again, and a probe settles a race only by
      dropping the port. */
  lemma RaceMoves(w: World, ev: Event)
    requires Enabled(w, ev) && !ev.Register? && !ev.Call?
    ensures var f, g := w.fetches[ev.id], Fetched(w, ev);
      && Onward(f, g) && (g.handed <==> f.handed || ev.Post?) && (Early(g) ==> Early(f))
      && (g.race == Some(ByProbe) ==> f.race == Some(ByProbe) || Drops(w, ev))
      && (g.race != f.race && !ev.Arrives? ==> !g.race.value.ByFrame?)
  {
    var f := w.fetches[ev.id];
    match ev {
      case Arrives(_, m) => FramedOnward(f, m);
      case Deadline(_) => ExpiredOnward(f);
      case CallerAborts(_) => RejectedOnward(f.(gone := true));
      case Turn(_, nullBody, headFits) => TurnedOnward(f, nullBody, headFits);
      case _ =>
    }
    hide Framed, Rejected, Expired, Turned, R.After, R.Enabled, Facade, Typed, Listening, StreamEvent;
  }

  lemma PortsStay(w: World, ev: Event, id: nat)
    requires WorldOk(w) && Enabled(w, ev) && id in After(w, ev).fetches
    ensures PortOk(After(w, ev), After(w, ev).fetches[id])
  {
    if id in w.fetches {
      assert PortOk(w, w.fetches[id]);
    }
    if !ev.Register? && !ev.Call? && id == ev.id {
      assert FetchOk(w.fetches[id]);
      RaceMoves(w, ev);
    }
    hide Fetched, R.Inv;
  }

  lemma StepKeeps(w: World, ev: Event)
    requires WorldOk(w) && Enabled(w, ev)
    ensures WorldOk(After(w, ev))
  {
    var v := After(w, ev);
    forall id <- v.fetches ensures FetchOk(v.fetches[id]) && PortOk(v, v.fetches[id]) {
      PortsStay(w, ev, id);
      if !ev.Register? && id == ev.id {
        FetchedOk(w, ev);
      }
    }
    hide Fetched, FetchOk, PortOk;
  }

  /** A run from a worker that has just started. */
  ghost predicate Run(ws: seq<World>, evs: seq<Event>) {
    && |ws| == |evs| + 1 && ws[0] == NOTHING
    && forall i :: 0 <= i < |evs| ==> Enabled(ws[i], evs[i]) && ws[i + 1] == After(ws[i], evs[i])
  }

  lemma {:induction false} RunKeeps(ws: seq<World>, evs: seq<Event>, n: nat)
    requires Run(ws, evs) && n <= |evs|
    ensures WorldOk(ws[n])
    decreases n
  {
    if n > 0 {
      RunKeeps(ws, evs, n - 1);
      assert Enabled(ws[n - 1], evs[n - 1]) && ws[n - 1 + 1] == After(ws[n - 1], evs[n - 1]);
      hide Run, WorldOk, After, Enabled;
      StepKeeps(ws[n - 1], evs[n - 1]);
    }
  }
}
