/** Any number of relayed fetches over one shared port (app/src/relayfetch.ts), as steps between turns of the
    event loop: the posts, the frames, the header deadline, the stale probe and its lookup, new registrations,
    the caller's abort, and the turn of each fetch once its race is settled. */
module RelayDispatch {
  import opened Common
  import opened Delivery
  import opened RelayQueue
  import R = RelayRuns

  /** What the race over the first frame, the deadline and the probe saw first. */
  datatype Settled = ByFrame(m: Msg) | ByDeadline | ByProbe | ByAbort

  /** The stale probe: its timer runs, it looks for a host page, it is done. */
  datatype Probe = Armed | Looking | Over

  datatype Stage = Posting | Crediting | Racing | Leaving | Done

  /** What the inner function did, and what the facade answers. */
  datatype Outcome = Responded | Null | Threw(e: Err)
  datatype Reply = Answer | Fallback | Throws

  /** One fetch. `port` is the port it found, `handed` whether that port took its request frame, `dispatched`
      the flag the code keeps, `gone` whether the caller has aborted. */
  datatype Fetch = Fetch(
    idempotent: bool, bodyFits: bool, port: Option<nat>, crediting: bool, stage: Stage,
    q: RelayQueue.State, race: Option<Settled>, probe: Probe, handed: bool, dispatched: bool, gone: bool,
    outcome: Option<Outcome>, reply: Option<Reply>)

  /** The shared channel: every registration brings a new port. */
  datatype World = World(hostPort: Option<nat>, hostCredits: bool, ports: nat, fetches: map<nat, Fetch>)

  datatype Event =
    | Register(credits: bool)
    | Call(id: nat, idempotent: bool, bodyFits: bool, gone: bool)
    | Post(id: nat) | PostThrows(id: nat) | Credit(id: nat) | CreditThrows(id: nat)
    | Arrives(id: nat, m: Msg) | Deadline(id: nat) | ProbeFires(id: nat) | Lookup(id: nat, alive: bool)
    | CallerAborts(id: nat) | Turn(id: nat, nullBody: bool, headFits: bool) | Return(id: nat)
    | Stream(id: nat, ev: R.Event)

  const NOTHING := World(None, false, 0, map[])

  /** A RelayDeliveryUnknownError. */
  const UNKNOWN := Failure(Unknown, Relay, Plain("relay delivery outcome unknown; request not retried"))

  // ----- one fetch -----

  /** The first settled promise decides the race. */
  function Settle(f: Fetch, v: Settled): Fetch {
    if f.race.None? then f.(race := Some(v)) else f
  }

  /** `onAbort`: a reader that waits for the first frame is rejected. */
  function Rejected(f: Fetch): Fetch {
    var t := f.(q := Aborted(f.q));
    if !f.q.aborted && f.q.wake && f.q.phase == AwaitHead then Settle(t, ByAbort) else t
  }

  /** The listener of the caller's signal lives until the fetch cleans up. */
  predicate Listening(f: Fetch) {
    f.q.phase == AwaitHead || f.q.phase == Body
  }

  /** The caller aborts. */
  function Aborting(f: Fetch): Fetch {
    if Listening(f) then Rejected(f.(gone := true)) else f.(gone := true)
  }

  function Begun(w: World, idempotent: bool, bodyFits: bool, gone: bool): Fetch {
    var f := Fetch(idempotent, bodyFits, w.hostPort, w.hostCredits, Leaving, Abandoned(FRESH), None, Over, false, false,
                   gone, None, None);
    if gone then f.(stage := Done, reply := Some(Throws))
    else if w.hostPort.None? || !bodyFits then f.(outcome := Some(Null))
    else f.(stage := Posting, q := FRESH, probe := Armed, dispatched := true)
  }

  /** The request frame is out; the race starts after the credit frame, if there is one. */
  function Posted(f: Fetch): Fetch {
    f.(handed := true, stage := if f.crediting then Crediting else Racing)
  }

  /** The port throws under one of the two posts. */
  function PortThrew(f: Fetch): Fetch {
    f.(q := Abandoned(f.q.(hand := None)), outcome := Some(Threw(Plain("port"))), stage := Leaving)
  }

  /** A frame that a waiting reader takes settles the race; that may be the relay's own error frame. */
  function Framed(f: Fetch, m: Msg): Fetch {
    var t := f.(q := Received(f.q, m));
    if f.q.hand.None? && t.q.hand.Some? && f.q.phase == AwaitHead then Settle(t, ByFrame(t.q.hand.value)) else t
  }

  /** The deadline resolves the race before it rejects the reader. */
  function Expired(f: Fetch): Fetch {
    Rejected(Settle(f, ByDeadline))
  }

  function AfterDispatchFails(f: Fetch): Outcome {
    if f.idempotent then Null else Threw(UNKNOWN)
  }

  /** The code after the race, for each way it was settled: a head is answered, a proof of non-delivery leaves
      the request to another transport, and everything else says nothing about delivery. */
  function TurnedOutcome(f: Fetch, headFits: bool): Outcome
    requires f.race.Some?
  {
    var v := f.race.value;
    if v == ByAbort then Threw(Abort)
    else if v == ByFrame(Error(true)) then Null
    else if !(v.ByFrame? && v.m.Head?) then AfterDispatchFails(f)
    else if headFits then Responded
    else Threw(Plain("head"))
  }

  function TurnedQueue(f: Fetch, nullBody: bool, headFits: bool): RelayQueue.State
    requires f.race.Some?
  {
    var q := f.q.(hand := None);
    if !TurnedOutcome(f, headFits).Responded? then Abandoned(q)
    else if nullBody then Cleaned(q.(phase := NoBody))
    else q.(phase := Body)
  }

  function Turned(f: Fetch, nullBody: bool, headFits: bool): Fetch
    requires f.race.Some?
  {
    f.(stage := Leaving, q := TurnedQueue(f, nullBody, headFits),
       dispatched := f.dispatched && f.race != Some(ByFrame(Error(true))),
       outcome := Some(TurnedOutcome(f, headFits)))
  }

  /** The typed result around it. */
  function Typed(outcome: Outcome, dispatched: bool): Result<()> {
    if outcome.Responded? then Response(())
    else
      DeliveryFailure(Relay, if outcome.Threw? then outcome.e else Plain("relay"),
                      if dispatched then Unknown else NotDelivered)
  }

  /** The facade: a response, null, or a thrown error. */
  function Facade(r: Result<()>, gone: bool, idempotent: bool): Reply {
    if r.Response? then Answer
    else if gone || r.cause == Abort then Throws
    else if r.state == NotDelivered || idempotent then Fallback
    else Throws
  }

  function Returned(f: Fetch): Fetch
    requires f.outcome.Some?
  {
    f.(stage := Done, reply := Some(Facade(Typed(f.outcome.value, f.dispatched), f.gone, f.idempotent)))
  }

  // ----- all of them -----

  predicate At(w: World, id: nat, stage: Stage) {
    id in w.fetches && w.fetches[id].stage == stage
  }

  /** From the call to the race the code runs in one turn: nothing reaches the fetch in between. */
  predicate Reachable(w: World, id: nat) {
    id in w.fetches && w.fetches[id].stage != Posting && w.fetches[id].stage != Crediting
  }

  /** The page's stream, once it has the response. */
  predicate StreamEvent(f: Fetch, ev: R.Event) {
    && f.outcome == Some(Responded) && (ev.Ask? || ev.Handle? || ev.GrantFails? || ev.Abort?)
    && R.Enabled(f.q, ev)
  }

  predicate Enabled(w: World, ev: Event) {
    match ev
    case Register(_) => true
    case Call(id, _, _, _) => id !in w.fetches
    case Post(id) => At(w, id, Posting)
    case PostThrows(id) => At(w, id, Posting)
    case Credit(id) => At(w, id, Crediting)
    case CreditThrows(id) => At(w, id, Crediting)
    case Arrives(id, _) => Reachable(w, id)
    case Deadline(id) => At(w, id, Racing)
    case ProbeFires(id) => At(w, id, Racing) && w.fetches[id].probe == Armed
    case Lookup(id, _) => id in w.fetches && w.fetches[id].probe == Looking
    case CallerAborts(id) => Reachable(w, id)
    case Turn(id, _, _) => At(w, id, Racing) && w.fetches[id].race.Some?
    case Return(id) => At(w, id, Leaving) && w.fetches[id].outcome.Some?
    case Stream(id, e) => id in w.fetches && StreamEvent(w.fetches[id], e)
  }

  /** What an event does to its fetch. */
  function Fetched(w: World, ev: Event): Fetch
    requires Enabled(w, ev) && !ev.Register?
  {
    if ev.Call? then Begun(w, ev.idempotent, ev.bodyFits, ev.gone)
    else
      var f := w.fetches[ev.id];
      match ev
      case Post(_) => Posted(f)
      case PostThrows(_) => PortThrew(f)
      case Credit(_) => f.(stage := Racing)
      case CreditThrows(_) => PortThrew(f)
      case Arrives(_, m) => Framed(f, m)
      case Deadline(_) => Expired(f)
      case ProbeFires(_) => f.(probe := if w.hostPort.Some? && w.hostPort != f.port then Over else Looking)
      case Lookup(_, alive) =>
        var t := f.(probe := Over);
        if alive || w.hostPort != f.port then t else Settle(t, ByProbe)
      case CallerAborts(_) => Aborting(f)
      case Turn(_, nullBody, headFits) => Turned(f, nullBody, headFits)
      case Return(_) => Returned(f)
      case Stream(_, e) => f.(q := R.After(f.q, e))
  }

  /** A lookup that finds no host page takes the port away from everyone. */
  predicate Drops(w: World, ev: Event)
    requires Enabled(w, ev)
  {
    ev.Lookup? && !ev.alive && w.hostPort == w.fetches[ev.id].port
  }

  function After(w: World, ev: Event): World
    requires Enabled(w, ev)
  {
    if ev.Register? then w.(hostPort := Some(w.ports), hostCredits := ev.credits, ports := w.ports + 1)
    else
      w.(fetches := w.fetches[ev.id := Fetched(w, ev)], hostPort := if Drops(w, ev) then None else w.hostPort)
  }
}
