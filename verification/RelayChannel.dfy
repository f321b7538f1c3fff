/** The module state of the relay and the closures of one fetch (app/src/relayfetch.ts), updated in place. Each
    method is one stretch of code between turns of the event loop. */
module RelayChannel {
  import opened Common
  import opened Delivery
  import opened RelayQueue
  import opened RelayDispatch
  import opened RelaySafety
  import opened RelayReader
  import R = RelayRuns

  // ----- what the steps promise -----

  lemma HeldQueue(f: Fetch)
    requires FetchOk(f)
    ensures R.Inv(f.q)
  {
    hide R.Inv;
  }

  /** The frame hands itself, or the relay's own error, to a reader that waits for the first one. */
  predicate HandsFirst(f: Fetch, t: RelayQueue.State) {
    f.q.hand.None? && t.hand.Some? && f.q.phase == AwaitHead
  }

  lemma FrameSettles(f: Fetch, m: Msg)
    requires FetchOk(f) && Reached(f)
    ensures FetchOk(Framed(f, m)) && R.Inv(f.q)
    ensures Early(f) && f.race.None? ==> HandsFirst(f, Received(f.q, m))
    ensures var t := Received(f.q, m);
      Framed(f, m) ==
        f.(q := t, race := if f.race.None? && HandsFirst(f, t) then Some(ByFrame(t.hand.value)) else f.race)
  {
    FramedOk(f, m);
    ReceivedTakes(f.q, m);
    hide R.Inv, Received, LeftOk, ReplyOk;
  }

  /** The abort rejects a reader that waits for the first frame. */
  predicate RejectsFirst(f: Fetch) {
    !f.q.aborted && f.q.wake && f.q.phase == AwaitHead
  }

  lemma AbortSettles(f: Fetch)
    requires FetchOk(f) && Reached(f)
    ensures Early(f) && f.race.None? ==> RejectsFirst(f)
    ensures var g := Aborting(f);
      && FetchOk(g) && R.Inv(f.q)
      && g == f.(gone := true, q := if Listening(f) then Aborted(f.q) else f.q,
                 race := if f.race.None? && RejectsFirst(f) then Some(ByAbort) else f.race)
  {
    GoneOk(f);
    if f.q.wake && f.q.phase == AwaitHead {
      NothingTakenYet(f.q);
    }
    if Listening(f) {
      RejectedOk(f.(gone := true));
    }
    hide R.Inv, Aborted;
  }

  /** A frame that settled the race is in the reader's hand until its turn. */
  lemma HeldHead(f: Fetch)
    requires FetchOk(f) && f.stage == Racing && f.race.Some? && f.race.value.ByFrame? && f.race.value.m.Head?
    ensures f.q.phase == AwaitHead && f.q.hand == Some(f.race.value.m)
    ensures Handled(f.q) == f.q.(hand := None, phase := Body) && HandledNull(f.q) == Cleaned(f.q.(hand := None, phase := NoBody))
  {
    hide R.Inv;
  }

  /** After the race the reader goes on as it does by itself, lets go of a head without a body, or gives up. */
  ghost predicate TurnIsTheReaders(f: Fetch, nullBody: bool, headFits: bool) {
    f.race.Some? && R.Inv(f.q) && var how := TurnedOutcome(f, headFits);
      && (how == Responded ==> f.q.phase == AwaitHead && f.q.hand.Some? && f.q.hand.value.Head?)
      && Turned(f, nullBody, headFits) == f.(stage := Leaving, outcome := Some(how),
           dispatched := f.dispatched && f.race != Some(ByFrame(Error(true))),
           q := if how != Responded then Abandoned(f.q.(hand := None))
                else if nullBody then HandledNull(f.q) else Handled(f.q))
  }

  lemma TurnOfTheReader(f: Fetch, nullBody: bool, headFits: bool)
    requires FetchOk(f) && f.stage == Racing && f.race.Some?
    ensures TurnIsTheReaders(f, nullBody, headFits)
  {
    if f.race.value.ByFrame? && f.race.value.m.Head? {
      HeldHead(f);
    }
    hide R.Inv, FlagOk, OutcomeOk, ReplyOk;
  }

  lemma TurnMeets(f: Fetch, nullBody: bool, headFits: bool)
    requires FetchOk(f) && f.stage == Racing && f.race.Some?
    ensures var t := Turned(f, nullBody, headFits); var how := TurnedOutcome(f, headFits);
      && FetchOk(t) && R.Inv(f.q) && t.outcome == Some(how)
      && (t.dispatched <==> f.race != Some(ByFrame(Error(true)))) && (how == Null ==> f.idempotent || !t.dispatched)
      && (f.race != Some(ByAbort) && !(f.race.value.ByFrame? && f.race.value.m.Head?) ==>
           (how == Null <==> f.idempotent || !t.dispatched) && (how != Null ==> how == Threw(UNKNOWN)))
      && (how == Responded <==> f.race.value.ByFrame? && f.race.value.m.Head? && headFits)
      && (how == Responded ==> f.q.phase == AwaitHead && f.q.hand == Some(f.race.value.m))
      && (how == Responded ==> t.q == if nullBody then HandledNull(f.q) else Handled(f.q))
      && (how != Responded ==> t.q == Abandoned(f.q.(hand := None)) && !t.q.registered)
  {
    TurnedOk(f, nullBody, headFits);
    assert f.dispatched && R.Inv(f.q);
    if f.race.value.ByFrame? && f.race.value.m.Head? {
      HeldHead(f);
    }
    hide FetchOk, R.Inv;
  }

  lemma AnswerMeets(f: Fetch)
    requires FetchOk(f) && f.stage == Leaving
    ensures f.outcome.Some?
    ensures var r := Facade(Typed(f.outcome.value, f.dispatched), f.gone, f.idempotent);
      && (r == Fallback && !f.idempotent ==> !f.handed || f.race == Some(ByFrame(Error(true))))
      && (r == Throws && f.idempotent ==> f.gone) && (r == Reply.Answer <==> f.outcome == Some(Responded))
  {
    FacadeMeets(f.outcome.value, f.dispatched, f.gone, f.idempotent);
    hide R.Inv, Facade, Typed;
  }

  /** The port that the embedder registered last, shared by all fetches. */
  class RelayChannel {
    var hostPort: Option<nat>
    var hostCredits: bool
    var ports: nat

    constructor ()
      ensures hostPort.None? && !hostCredits && ports == 0
    {
      hostPort, hostCredits, ports := None, false, 0;
    }

    ghost function Shared(): World
      reads this
    {
      World(hostPort, hostCredits, ports, map[])
    }

    /** A new registration: every fetch that posted to another port will find that it is not its own. */
    method Register(credits: bool)
      modifies this
      ensures hostPort == Some(old(ports)) && ports == old(ports) + 1 && hostCredits == credits
    {
      hostPort, hostCredits, ports := Some(ports), credits, ports + 1;
    }
  }

  class RelayFetch {
    const idempotent: bool
    const bodyFits: bool
    const port: Option<nat>
    const crediting: bool
    const reader: RelayReader
    var stage: Stage
    var race: Option<Settled>
    var probe: Probe
    var dispatched: bool
    var gone: bool
    var outcome: Option<Outcome>
    var reply: Option<Reply>
    ghost var handed: bool

    ghost function Now(): Fetch
      reads this, reader
    {
      Fetch(idempotent, bodyFits, port, crediting, stage, reader.Now(), race, probe, handed, dispatched, gone, outcome, reply)
    }

    ghost predicate Valid()
      reads this, reader
    {
      FetchOk(Now())
    }

    /** A call finds the port of the moment; without one, or with a body that cannot ride it, it leaves at once. */
    constructor (channel: RelayChannel, isIdempotent: bool, fits: bool, isGone: bool)
      ensures Valid() && fresh(reader)
      ensures Now() == Begun(channel.Shared(), isIdempotent, fits, isGone)
      ensures stage == Posting <==> channel.hostPort.Some? && fits && !isGone
      ensures dispatched <==> stage == Posting
    {
      var carried := !isGone && channel.hostPort.Some? && fits;
      idempotent, bodyFits, port, crediting := isIdempotent, fits, channel.hostPort, channel.hostCredits;
      race, dispatched, handed, gone := None, carried, false, isGone;
      stage, probe := if isGone then Done else if carried then Posting else Leaving, if carried then Armed else Over;
      outcome := if isGone || carried then None else Some(Null);
      reply := if isGone then Some(Throws) else None;
      if carried {
        reader := new RelayReader();
      } else {
        reader := new RelayReader.Unused();
      }
      new;
      BegunOk(channel.Shared(), isIdempotent, fits, isGone);
      hide FetchOk, Abandoned;
    }

    /** The request frame: a port that throws at it ends the fetch with its own error, and the flag stays up. */
    method PostRequest(takes: bool)
      requires Valid() && stage == Posting
      modifies this, reader
      ensures Valid() && Now() == if takes then Posted(old(Now())) else PortThrew(old(Now()))
      ensures handed == takes && dispatched && (!takes ==> !reader.registered)
    {
      PostOk(Now());
      hide FetchOk;
      if takes {
        handed, stage := true, if crediting then Crediting else Racing;
      } else {
        reader.GiveUp();
        outcome, stage := Some(Threw(Plain("port"))), Leaving;
      }
    }

    /** The credit frame after it; the request is out by now, so a port that throws here proves nothing. */
    method PostCredit(takes: bool)
      requires Valid() && stage == Crediting
      modifies this, reader
      ensures Valid() && Now() == if takes then old(Now()).(stage := Racing) else PortThrew(old(Now()))
      ensures handed && dispatched && (!takes ==> !reader.registered)
    {
      CreditOk(Now());
      hide FetchOk;
      if takes {
        stage := Racing;
      } else {
        reader.GiveUp();
        outcome, stage := Some(Threw(Plain("port"))), Leaving;
      }
    }

    /** A frame for this fetch. It settles an open race, with itself or with the relay's own error when it breaks
        a bound, and a settled race never. */
    method OnMessage(m: Msg)
      requires Valid() && Reached(Now())
      modifies this, reader
      ensures Valid() && Now() == Framed(old(Now()), m)
      ensures old(Early(Now()) && race.None?) ==> race.Some? && race.value.ByFrame?
      ensures old(race.Some?) ==> race == old(race)
    {
      FrameSettles(Now(), m);
      hide FetchOk, Received, Early, Reached, Framed;
      var first := HandFrame(m);
      if first && race.None? {
        race := Some(ByFrame(reader.hand.value));
      }
    }

    /** The waiter's callback; `first` says that a reader waiting for the first frame was handed one. */
    method HandFrame(m: Msg) returns (first: bool)
      requires reader.Valid()
      modifies reader
      ensures reader.Now() == Received(old(reader.Now()), m)
      ensures first <==> HandsFirst(old(Now()), reader.Now())
    {
      hide Received;
      var waiting := reader.hand.None? && reader.phase == AwaitHead;
      var cancel := reader.OnMessage(m);
      first := waiting && reader.hand.Some?;
    }

    /** The header deadline: the race is resolved first and the reader rejected after it, so an open race is
        settled by the deadline and the fetch never sees its own abort. */
    method OnDeadline()
      requires Valid() && stage == Racing
      modifies this, reader
      ensures Valid() && Now() == Expired(old(Now()))
      ensures race == if old(race).None? then Some(ByDeadline) else old(race)
      ensures gone == old(gone)
    {
      ExpiredOk(Now());
      ExpiredOnward(Now());
      HeldQueue(Now());
      hide FetchOk, Aborted;
      if race.None? {
        race := Some(ByDeadline);
      }
      reader.OnAbort();
    }

    /** The stale probe's timer: a newer registration owns the channel, or the host pages are looked up. */
    method OnProbe(channel: RelayChannel)
      requires Valid() && stage == Racing && probe == Armed
      modifies this
      ensures Valid() && race == old(race)
      ensures probe == if channel.hostPort.Some? && channel.hostPort != port then Over else Looking
    {
      ProbedOk(Now(), if channel.hostPort.Some? && channel.hostPort != port then Over else Looking);
      hide FetchOk;
      probe := if channel.hostPort.Some? && channel.hostPort != port then Over else Looking;
    }

    /** The lookup's answer: only when no host page is left and the port is still the shared one, the port is
        dropped for everyone and an open race is settled. */
    method OnLookup(alive: bool, channel: RelayChannel)
      requires Valid() && probe == Looking
      modifies this, channel
      ensures Valid() && probe == Over
      ensures channel.hostPort == if !alive && old(channel.hostPort) == port then None else old(channel.hostPort)
      ensures channel.hostCredits == old(channel.hostCredits) && channel.ports == old(channel.ports)
      ensures race == if old(race).None? && !alive && old(channel.hostPort) == port then Some(ByProbe) else old(race)
    {
      LookedUpOk(Now());
      hide FetchOk;
      probe := Over;
      if alive {
        return;
      }
      if channel.hostPort != port {
        return;
      }
      channel.hostPort := None;
      if race.None? {
        race := Some(ByProbe);
      }
    }

    /** The caller aborts: an open race is rejected, and a settled one stands. */
    method OnAbort()
      requires Valid() && Reached(Now())
      modifies this, reader
      ensures Valid() && gone
      ensures Now() == Aborting(old(Now()))
      ensures old(Early(Now()) && race.None?) ==> race == Some(ByAbort)
      ensures old(race.Some?) ==> race == old(race)
    {
      AbortSettles(Now());
      hide FetchOk, Aborted, Early, Reached, Aborting;
      gone := true;
      var rejected := RejectReader();
      if rejected && race.None? {
        race := Some(ByAbort);
      }
    }

    /** The reader's abort handler, as long as it listens; `rejected` says that it waited for the first frame. */
    method RejectReader() returns (rejected: bool)
      requires reader.Valid()
      modifies reader
      ensures reader.Now() == if Listening(old(Now())) then Aborted(old(reader.Now())) else old(reader.Now())
      ensures rejected <==> RejectsFirst(old(Now()))
    {
      hide Aborted;
      rejected := !reader.aborted && reader.wake && reader.phase == AwaitHead;
      if reader.phase == AwaitHead || reader.phase == Body {
        reader.OnAbort();
      }
    }

    /** The code after the race. The flag goes down exactly for a first frame that proved non-delivery; without
        that proof an idempotent fetch answers null and any other one throws that its delivery is unknown; and
        without a response no waiter is left. */
    method AfterRace(nullBody: bool, headFits: bool)
      requires Valid() && stage == Racing && race.Some?
      modifies this, reader
      ensures Valid() && Now() == Turned(old(Now()), nullBody, headFits)
      ensures dispatched <==> race != Some(ByFrame(Error(true)))
      ensures outcome == Some(Null) ==> idempotent || !dispatched
      ensures race != Some(ByAbort) && !(race.value.ByFrame? && race.value.m.Head?) ==>
        outcome == Some(if idempotent || !dispatched then Null else Threw(UNKNOWN))
      ensures outcome == Some(Responded) <==> race.value.ByFrame? && race.value.m.Head? && headFits
      ensures outcome != Some(Responded) ==> !reader.registered
    {
      TurnMeets(Now(), nullBody, headFits);
      TurnOfTheReader(Now(), nullBody, headFits);
      hide *;
      TakeTurn(nullBody, headFits);
    }

    method TakeTurn(nullBody: bool, headFits: bool)
      requires TurnIsTheReaders(Now(), nullBody, headFits)
      modifies this, reader
      ensures Now() == Turned(old(Now()), nullBody, headFits)
    {
      hide Turned, TurnedOutcome, Abandoned, Handled, HandledNull, R.Inv;
      var how := Decide(headFits);
      LeaveReader(how, nullBody);
      dispatched := dispatched && race != Some(ByFrame(Error(true)));
      stage, outcome := Leaving, Some(how);
    }

    /** The reader goes on with the body, lets go of a head without one, or gives up. */
    method LeaveReader(how: Outcome, nullBody: bool)
      requires reader.Valid()
      requires how.Responded? ==>
        reader.phase == AwaitHead && reader.hand.Some? && reader.hand.value.Head?
      modifies reader
      ensures reader.Now() ==
        if !how.Responded? then Abandoned(old(reader.Now()).(hand := None))
        else if nullBody then HandledNull(old(reader.Now())) else Handled(old(reader.Now()))
    {
      hide R.Inv, Abandoned, Handled, HandledNull;
      if !how.Responded? {
        reader.GiveUp();
      } else if nullBody {
        reader.TakeNoBody();
      } else {
        var granted := reader.Turn(crediting);
      }
    }

    /** What settled the race decides how the fetch is left. */
    method Decide(headFits: bool) returns (how: Outcome)
      requires race.Some?
      ensures how == TurnedOutcome(Now(), headFits)
    {
      if race == Some(ByAbort) {
        return Threw(Abort);
      }
      if race == Some(ByFrame(Error(true))) {
        return Null;
      }
      if !(race.value.ByFrame? && race.value.m.Head?) {
        return if idempotent then Null else Threw(UNKNOWN);
      }
      how := if headFits then Responded else Threw(Plain("head"));
    }

    /** The typed result and the facade: a non-idempotent fetch answers null only when its request was not handed
        over or its first frame proved non-delivery, and an idempotent one throws only at a caller who is gone. */
    method Answer() returns (r: Reply)
      requires Valid() && stage == Leaving
      modifies this
      ensures Valid() && stage == Done && reply == Some(r)
      ensures r == Fallback && !idempotent ==> !handed || race == Some(ByFrame(Error(true)))
      ensures r == Throws && idempotent ==> gone
      ensures r == Reply.Answer <==> outcome == Some(Responded)
    {
      ReturnedOk(Now());
      AnswerMeets(Now());
      hide FetchOk;
      var result := Typed(outcome.value, dispatched);
      if result.Response? {
        r := Reply.Answer;
      } else if gone || result.cause == Abort {
        r := Throws;
      } else {
        r := if result.state == NotDelivered || idempotent then Fallback else Throws;
      }
      stage, reply := Done, Some(r);
    }
  }
}
