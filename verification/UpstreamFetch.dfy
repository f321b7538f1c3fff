/** Which transports one request is handed to, in what order (app/src/request.ts, app/src/transport.ts): the relay
    or the second client of a policy rule, the relay while the socket cools down, the main client, and one retry
    of each client. What the awaits bring is a script. */
module UpstreamFetch {
  import opened Common
  import opened Delivery
  import D = RelayDispatch
  import S = RelaySafety
  import Rules = RelayRules

  /** `idempotent` is the method's, `replayable` the body's. */
  datatype Request = Request(idempotent: bool, replayable: bool, isolated: bool) {
    predicate Safe() {
      idempotent && replayable
    }
  }

  datatype Call = Responds | Throws(e: Err)

  /** The caller's signal when a client is about to be called, and what the call brings. */
  datatype Fate = Fate(gone: bool, reason: Err, call: Call)

  /** A first call, the signal at the retry gate, a second call. */
  datatype Tries = Tries(first: Fate, gateGone: bool, second: Fate)

  datatype Route = ByRelay | ByClient | ByDefault

  /** `cooling` is the relay's reply while the socket cools down, `init` the main client's failure to start. */
  datatype Script = Script(
    gone: bool, route: Route, relay: D.Reply, alt: Tries, altGone: bool, cooling: Option<D.Reply>, init: Option<Err>,
    main: Tries)

  datatype Hop = Relayed(reply: D.Reply) | Called(via: Transport, call: Call)

  /** `Stopped`: the caller's abort, or the relay's own error. */
  datatype End = Answered | Stopped | Erred(e: Err)

  datatype Course = Course(hops: seq<Hop>, end: End)

  /** `deliveryCause`, which looks through at most eight wrappers. */
  function Cause(e: Err, depth: nat): Err {
    if depth == 0 || !e.Failure? then e else Cause(e.cause, depth - 1)
  }

  predicate Retryable(req: Request, gone: bool, e: Err) {
    !gone && e != Abort && req.replayable && (StateOf(e) == NotDelivered || req.idempotent)
  }

  function EndOf(r: Result<()>): End
    ensures r.Response? <==> EndOf(r) == Answered
    ensures r.Failed? ==> EndOf(r) == Erred(r.cause)
  {
    if r.Response? then Answered else Erred(r.cause)
  }

  /** `fetchWithDeadline`: a caller who is gone is told so before the client is called. */
  function Tried(via: Transport, f: Fate): Course {
    if f.gone then Course([], EndOf(DeliveryFailure(via, f.reason, NotDelivered)))
    else Course([Called(via, f.call)], EndOf(if f.call.Responds? then Response(()) else Attempt(via, None, f.call.e)))
  }

  /** A client's failure of the connecting or stalling kind is retried once on a fresh connection. */
  function Twice(via: Transport, req: Request, isolated: bool, t: Tries, resets: Err -> bool): Course {
    var a := Tried(via, t.first);
    if a.end.Erred? && resets(Cause(a.end.e, 8)) && !isolated && Retryable(req, t.gateGone, a.end.e)
    then Behind(a.hops, Tried(via, t.second)) else a
  }

  function Behind(hops: seq<Hop>, c: Course): Course {
    Course(hops + c.hops, c.end)
  }

  /** The relay's response or error is final; its null leaves the request to what comes next. */
  function RelayEnd(reply: D.Reply): Course
    requires reply != D.Fallback
  {
    Course([Relayed(reply)], if reply == D.Answer then Answered else Stopped)
  }

  /** `wispFetch`. */
  function MainFetch(req: Request, s: Script, resets: Err -> bool): Course {
    if s.cooling.Some? && s.cooling.value != D.Fallback then RelayEnd(s.cooling.value)
    else
      Behind(if s.cooling.Some? then [Relayed(D.Fallback)] else [],
             if s.init.Some? then Course([], EndOf(Prepare(Wisp, s.init.value)))
             else Twice(Wisp, req, req.isolated, s.main, resets))
  }

  /** `upstreamFetch`. */
  function Upstream(req: Request, s: Script, resets: Err -> bool): Course {
    if s.gone then Course([], Stopped)
    else
      match s.route
      case ByDefault => MainFetch(req, s, resets)
      case ByRelay =>
        if s.relay != D.Fallback then RelayEnd(s.relay)
        else Behind([Relayed(D.Fallback)], MainFetch(req, s, resets))
      case ByClient =>
        var a := Twice(WispRoute, req, false, s.alt, resets);
        if a.end.Erred? && Retryable(req, s.altGone, a.end.e) then Behind(a.hops, MainFetch(req, s, resets)) else a
  }

  // ----- one client -----

  /** A second call is made exactly when the first one threw a failure that a fresh connection may mend, nobody
      has gone away, and the request is idempotent with a body that can be sent again: after a call no error is
      evidence of non-delivery, so the other way through the gate is never taken. */
  lemma CalledTwiceExactly(via: Transport, req: Request, isolated: bool, t: Tries, resets: Err -> bool)
    ensures |Twice(via, req, isolated, t, resets).hops| == 2 <==>
      && !t.first.gone && t.first.call.Throws? && t.first.call.e != Abort
      && resets(Cause(AfterDispatch(via, t.first.call.e), 8))
      && !isolated && !t.gateGone && req.Safe() && !t.second.gone
  {
    if t.first.call.Throws? {
      AdapterErrorsNeverReplay(via, t.first.call.e, req.idempotent);
      AfterDispatchOnce(via, t.first.call.e);
    }
    hide Cause;
  }

  /** What is final after at most one call, for a request that must not be sent again. */
  predicate OneCall(c: Course) {
    && (c.hops == [] || (|c.hops| == 1 && c.hops[0].Called?)) && c.end != Stopped
    && (c.end.Erred? && StateOf(c.end.e) == NotDelivered ==> c.hops == [])
  }

  lemma UnsafeCalledOnce(via: Transport, req: Request, isolated: bool, t: Tries, resets: Err -> bool)
    requires !req.Safe()
    ensures OneCall(Twice(via, req, isolated, t, resets))
    ensures var c := Twice(via, req, isolated, t, resets);
      forall gone: bool :: c.end.Erred? && Retryable(req, gone, c.end.e) ==> c.hops == []
  {
    if t.first.call.Throws? {
      AdapterErrorsNeverReplay(via, t.first.call.e, req.idempotent);
      AfterDispatchOnce(via, t.first.call.e);
    }
    if t.second.call.Throws? {
      AfterDispatchOnce(via, t.second.call.e);
    }
    hide Cause;
  }

  // ----- the whole course -----

  /** The first n hops are relays that answered null. */
  predicate RelayPassed(hops: seq<Hop>, n: int) {
    forall k :: 0 <= k < n && k < |hops| ==> hops[k] == Relayed(D.Fallback)
  }

  /** Everything before the last hop is a relay that answered null, and an error that claims non-delivery comes
      only after such hops. */
  predicate Careful(c: Course) {
    && RelayPassed(c.hops, |c.hops| - 1)
    && (c.end.Erred? && StateOf(c.end.e) == NotDelivered ==> RelayPassed(c.hops, |c.hops|))
  }

  lemma CarefulBehind(hops: seq<Hop>, c: Course)
    requires RelayPassed(hops, |hops|) && Careful(c)
    ensures Careful(Behind(hops, c))
  {
    hide StateOf;
  }

  lemma MainIsCareful(req: Request, s: Script, resets: Err -> bool)
    requires !req.Safe()
    ensures Careful(MainFetch(req, s, resets))
  {
    if s.cooling.Some? && s.cooling.value != D.Fallback {
      assert Careful(RelayEnd(s.cooling.value));
    } else {
      var rest := if s.init.Some? then Course([], EndOf(Prepare(Wisp, s.init.value)))
                  else Twice(Wisp, req, req.isolated, s.main, resets);
      UnsafeCalledOnce(Wisp, req, req.isolated, s.main, resets);
      CarefulBehind(if s.cooling.Some? then [Relayed(D.Fallback)] else [], rest);
    }
    hide Twice, Prepare, StateOf;
  }

  /** A request that is not idempotent, or whose body cannot be sent again, is handed on only by relays that
      answered null, whatever the script brings. */
  lemma UnsafeIsCareful(req: Request, s: Script, resets: Err -> bool)
    requires !req.Safe()
    ensures Careful(Upstream(req, s, resets))
  {
    MainIsCareful(req, s, resets);
    UnsafeCalledOnce(WispRoute, req, false, s.alt, resets);
    var main := MainFetch(req, s, resets);
    hide MainFetch, Twice, Retryable, StateOf;
    CarefulBehind([Relayed(D.Fallback)], main);
    CarefulBehind([], main);
    assert [] + main.hops == main.hops;
  }

  /** The relay's fetch for this request: the same method, and only a body that can be sent again rides the port. */
  ghost predicate FetchFor(w: D.World, id: nat, req: Request, reply: D.Reply) {
    && id in w.fetches && w.fetches[id].idempotent == req.idempotent
    && (w.fetches[id].bodyFits ==> req.replayable) && w.fetches[id].reply == Some(reply)
  }

  lemma RelayHopUnsent(ws: seq<D.World>, evs: seq<D.Event>, id: nat, req: Request)
    requires S.Run(ws, evs) && FetchFor(ws[|evs|], id, req, D.Fallback) && !req.Safe()
    ensures Rules.ProvablyUnsent(evs, id)
  {
    if !req.idempotent {
      Rules.NeverSentTwice(ws, evs, id);
    } else {
      Rules.OutcomeOfRun(ws, evs, id);
      Rules.FlagIsConservative(ws, evs, id);
    }
    hide S.Run, Rules.ProvablyUnsent;
  }

  /** Over every run of the relay and every script, a request that must not be sent again is possibly delivered by
      its last hop only: at every hop before it the relay provably did not send it. */
  lemma NeverDeliveredTwice(ws: seq<D.World>, evs: seq<D.Event>, ids: seq<nat>, req: Request, s: Script,
                            resets: Err -> bool)
    requires S.Run(ws, evs) && !req.Safe()
    requires var hops := Upstream(req, s, resets).hops;
      && |ids| == |hops|
      && forall k :: 0 <= k < |hops| && hops[k].Relayed? ==> FetchFor(ws[|evs|], ids[k], req, hops[k].reply)
    ensures var hops := Upstream(req, s, resets).hops;
      forall k :: 0 <= k < |hops| - 1 ==> hops[k].Relayed? && Rules.ProvablyUnsent(evs, ids[k])
  {
    UnsafeIsCareful(req, s, resets);
    hide S.Run, Upstream, FetchFor, Rules.ProvablyUnsent;
    HopsUnsent(ws, evs, ids, req, Upstream(req, s, resets).hops);
  }

  lemma HopsUnsent(ws: seq<D.World>, evs: seq<D.Event>, ids: seq<nat>, req: Request, hops: seq<Hop>)
    requires S.Run(ws, evs) && !req.Safe() && |ids| == |hops| && RelayPassed(hops, |hops| - 1)
    requires forall k :: 0 <= k < |hops| && hops[k].Relayed? ==> FetchFor(ws[|evs|], ids[k], req, hops[k].reply)
    ensures forall k :: 0 <= k < |hops| - 1 ==> hops[k].Relayed? && Rules.ProvablyUnsent(evs, ids[k])
  {
    hide S.Run, FetchFor, Rules.ProvablyUnsent;
    forall k | 0 <= k < |hops| - 1 ensures hops[k].Relayed? && Rules.ProvablyUnsent(evs, ids[k]) {
      RelayHopUnsent(ws, evs, ids[k], req);
    }
  }

  // ----- what the caller gets -----

  /** The response of the last transport, and nothing else, answers the request. */
  lemma AnsweredByTheLast(req: Request, s: Script, resets: Err -> bool)
    ensures var c := Upstream(req, s, resets);
      c.end == Answered <==> c.hops != [] && Responded(c.hops[|c.hops| - 1])
  {
    MainAnswered(req, s, resets);
    TwiceAnswered(WispRoute, req, false, s.alt, resets);
    var main := MainFetch(req, s, resets);
    hide MainFetch, Twice, Retryable;
    if s.route == ByRelay && s.relay == D.Fallback {
      AnsweredBehind([Relayed(D.Fallback)], main);
    }
    if s.route == ByClient && Twice(WispRoute, req, false, s.alt, resets).end.Erred? {
      AnsweredBehind(Twice(WispRoute, req, false, s.alt, resets).hops, main);
    }
  }

  predicate Responded(h: Hop) {
    h == Relayed(D.Answer) || (h.Called? && h.call.Responds?)
  }

  predicate AnswerIsLast(c: Course) {
    c.end == Answered <==> c.hops != [] && Responded(c.hops[|c.hops| - 1])
  }

  lemma AnsweredBehind(hops: seq<Hop>, c: Course)
    requires AnswerIsLast(c) && (c.hops == [] ==> hops != [] ==> !Responded(hops[|hops| - 1]))
    ensures AnswerIsLast(Behind(hops, c))
  {
    var all := hops + c.hops;
    if c.hops != [] {
      assert all[|all| - 1] == c.hops[|c.hops| - 1];
    }
  }

  lemma TwiceAnswered(via: Transport, req: Request, isolated: bool, t: Tries, resets: Err -> bool)
    ensures AnswerIsLast(Twice(via, req, isolated, t, resets))
  {
    var a, b := Tried(via, t.first), Tried(via, t.second);
    if a.end.Erred? {
      AnsweredBehind(a.hops, b);
    }
    hide Cause, Retryable;
  }

  lemma MainAnswered(req: Request, s: Script, resets: Err -> bool)
    ensures AnswerIsLast(MainFetch(req, s, resets))
  {
    TwiceAnswered(Wisp, req, req.isolated, s.main, resets);
    hide Twice;
    var rest := if s.init.Some? then Course([], EndOf(Prepare(Wisp, s.init.value)))
                else Twice(Wisp, req, req.isolated, s.main, resets);
    AnsweredBehind(if s.cooling.Some? then [Relayed(D.Fallback)] else [], rest);
  }

  /** A request whose caller is there reaches the main client whenever nothing before it answered or failed for good,
      and the client starts. */
  lemma MainIsReached(req: Request, s: Script, resets: Err -> bool)
    requires !s.gone && s.route != ByClient && (s.route == ByRelay ==> s.relay == D.Fallback)
    requires (s.cooling.Some? ==> s.cooling.value == D.Fallback) && s.init.None? && !s.main.first.gone
    ensures exists h <- Upstream(req, s, resets).hops :: h == Called(Wisp, s.main.first.call)
  {
    var h := Called(Wisp, s.main.first.call);
    var t := Twice(Wisp, req, req.isolated, s.main, resets);
    assert h in t.hops by {
      assert Tried(Wisp, s.main.first).hops == [h];
      hide Cause, Retryable;
    }
    hide Twice;
    assert h in MainFetch(req, s, resets).hops;
    hide MainFetch;
    assert h in Upstream(req, s, resets).hops;
  }

  /** A relay that is asked while the socket cools down comes first on the default path, and a response or an error of
      its own is final. */
  lemma CoolingRelayComesFirst(req: Request, s: Script, resets: Err -> bool)
    requires !s.gone && s.route != ByClient && (s.route == ByRelay ==> s.relay == D.Fallback) && s.cooling.Some?
    ensures var c := Upstream(req, s, resets); var n := if s.route == ByRelay then 1 else 0;
      && n < |c.hops| && c.hops[n] == Relayed(s.cooling.value)
      && (s.cooling != Some(D.Fallback) ==>
           |c.hops| == n + 1 && c.end == if s.cooling == Some(D.Answer) then Answered else Stopped)
  {
    hide Twice, Prepare;
    var main := MainFetch(req, s, resets);
    assert main.hops != [] && main.hops[0] == Relayed(s.cooling.value);
    assert ([Relayed(D.Fallback)] + main.hops)[1] == main.hops[0];
  }

  /** The reply of a policy rule's relay comes first, and a response or an error is final. */
  lemma RuleRelayComesFirst(req: Request, s: Script, resets: Err -> bool)
    requires !s.gone && s.route == ByRelay
    ensures var c := Upstream(req, s, resets);
      && c.hops != [] && c.hops[0] == Relayed(s.relay)
      && (s.relay != D.Fallback ==> c == Course([Relayed(s.relay)], if s.relay == D.Answer then Answered else Stopped))
  {
    hide MainFetch;
  }

  lemma NeverCalledIsUnsent(via: Transport, req: Request, isolated: bool, t: Tries, resets: Err -> bool)
    requires !req.Safe()
    ensures var c := Twice(via, req, isolated, t, resets);
      c.end.Erred? ==> (c.hops == [] && c.end.e != Abort <==> StateOf(c.end.e) == NotDelivered)
    ensures forall h <- Twice(via, req, isolated, t, resets).hops :: h.Called? && h.via == via
  {
    UnsafeCalledOnce(via, req, isolated, t, resets);
    PreparationAllowsReplay(via, t.first.reason, req.idempotent);
    PreparationAllowsReplay(via, t.second.reason, req.idempotent);
    hide Cause;
  }

  lemma CallsAreItsOwn(via: Transport, req: Request, isolated: bool, t: Tries, resets: Err -> bool)
    ensures forall h <- Twice(via, req, isolated, t, resets).hops :: h.Called? && h.via == via
  {
    hide Cause, Retryable;
  }

  /** When the second client of a policy rule fails, the default path follows exactly when nobody has gone away, the
      body can be sent again, and the method is idempotent or the client was never called. */
  lemma SecondClientHandsOver(req: Request, s: Script, resets: Err -> bool)
    requires !s.gone && s.route == ByClient
    requires (s.cooling.Some? ==> s.cooling.value == D.Fallback) && s.init.None? && !s.main.first.gone
    ensures var a := Twice(WispRoute, req, false, s.alt, resets);
      Called(Wisp, s.main.first.call) in Upstream(req, s, resets).hops <==>
        && a.end.Erred? && a.end.e != Abort && !s.altGone
        && req.replayable && (req.idempotent || a.hops == [])
  {
    var a := Twice(WispRoute, req, false, s.alt, resets);
    CallsAreItsOwn(WispRoute, req, false, s.alt, resets);
    if !req.Safe() {
      NeverCalledIsUnsent(WispRoute, req, false, s.alt, resets);
    }
    MainIsReached(req, s.(route := ByDefault), resets);
    var main := MainFetch(req, s, resets);
    assert Called(Wisp, s.main.first.call) in main.hops;
    hide MainFetch, Twice, StateOf;
  }

  /** The error inside all wrappers, and how many there are. */
  function Innermost(e: Err): Err {
    if e.Failure? then Innermost(e.cause) else e
  }

  function Wrappers(e: Err): nat {
    if e.Failure? then 1 + Wrappers(e.cause) else 0
  }

  lemma {:induction false} CauseLooksThrough(e: Err, depth: nat)
    ensures Wrappers(e) <= depth ==> Cause(e, depth) == Innermost(e)
    ensures Wrappers(e) > depth ==> Wrappers(Cause(e, depth)) == Wrappers(e) - depth
    decreases depth
  {
    if depth > 0 && e.Failure? {
      CauseLooksThrough(e.cause, depth - 1);
    }
  }

  /** The kind of a failure is judged by the error inside its wrappers, seven of which may have been there before the
      call was over: evidence about delivery never hides a stall. */
  lemma RetryJudgesTheCause(via: Transport, e: Err)
    ensures Wrappers(e) <= 7 ==> Cause(AfterDispatch(via, e), 8) == Innermost(e)
  {
    CauseLooksThrough(AfterDispatch(via, e), 8);
  }

  // ----- evidence that does not hold -----

  /** A client's error claims non-delivery although it was called exactly when a retry finds the caller gone for
      another reason than an abort: the second call is not made, and the first is forgotten. */
  lemma StaleEvidenceExactly(via: Transport, req: Request, isolated: bool, t: Tries, resets: Err -> bool)
    ensures var c := Twice(via, req, isolated, t, resets);
      c.hops != [] && c.end.Erred? && StateOf(c.end.e) == NotDelivered <==>
        && !t.first.gone && t.first.call.Throws? && t.first.call.e != Abort
        && resets(Cause(AfterDispatch(via, t.first.call.e), 8))
        && !isolated && !t.gateGone && req.Safe() && t.second.gone && t.second.reason != Abort
  {
    if t.first.call.Throws? {
      AdapterErrorsNeverReplay(via, t.first.call.e, req.idempotent);
      AfterDispatchOnce(via, t.first.call.e);
    }
    if t.second.gone {
      PreparationAllowsReplay(via, t.second.reason, req.idempotent);
    } else if t.second.call.Throws? {
      AfterDispatchOnce(via, t.second.call.e);
    }
    hide Cause;
  }

  /** A stalled first call, then a caller that times out while the connection is reset. */
  lemma StaleEvidence(via: Transport, isolated: bool) returns (t: Tries)
    requires !isolated
    ensures var c := Twice(via, Request(true, true, isolated), isolated, t, _ => true);
      |c.hops| == 1 && c.hops[0].Called? && c.end.Erred? && StateOf(c.end.e) == NotDelivered
  {
    t := Tries(Fate(false, Abort, Throws(Plain("stall"))), false, Fate(true, Plain("timeout"), Responds));
    StaleEvidenceExactly(via, Request(true, true, isolated), isolated, t, _ => true);
  }
}
