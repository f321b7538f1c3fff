/** The credit protocol of the relay (app/src/relayfetch.ts): a crediting peer sends a chunk only against
    credit, and every drained chunk grants its bytes back. */
module RelayCredit {
  import opened Common
  import opened RelayQueue
  import opened RelayRuns

  /** Both ends of the port and what is on its way between them. `controls` counts the frames without a
      payload that the peer has sent. */
  datatype World = World(s: State, credit: nat, transit: seq<Msg>, grants: seq<nat>, controls: nat)

  datatype Step = Send(m: Msg) | Deliver | GrantArrives | Local(ev: Event)

  /** The up-front grant goes out with the request. */
  const START := World(FRESH, 0, [], [CREDIT_BYTES], 0)

  predicate CanSend(w: World, m: Msg) {
    if m.Chunk? then |m.data| <= w.credit else !m.BadChunk?
  }

  predicate Possible(w: World, step: Step) {
    match step
    case Send(m) => CanSend(w, m)
    case Deliver => w.transit != []
    case GrantArrives => w.grants != []
    case Local(ev) => !ev.Receive? && Enabled(w.s, ev)
  }

  /** Draining a chunk into the page's stream grants its bytes back. */
  function Granted(w: World, ev: Event): seq<nat> {
    if ev.Handle? && w.s.phase == Body && w.s.hand.Some? && w.s.hand.value.Chunk?
    then w.grants + [|w.s.hand.value.data|] else w.grants
  }

  function Next(w: World, step: Step): World
    requires Possible(w, step)
  {
    match step
    case Send(m) =>
      if m.Chunk? then w.(credit := w.credit - |m.data|, transit := w.transit + [m])
      else w.(transit := w.transit + [m], controls := w.controls + 1)
    case Deliver => w.(s := Received(w.s, w.transit[0]), transit := w.transit[1..])
    case GrantArrives => w.(credit := w.credit + w.grants[0], grants := w.grants[1..])
    case Local(ev) => w.(s := After(w.s, ev), grants := Granted(w, ev))
  }

  function Sum(ns: seq<nat>): nat
    decreases |ns|
  {
    if ns == [] then 0 else ns[0] + Sum(ns[1..])
  }

  lemma {:induction false} SumSnoc(ns: seq<nat>, n: nat)
    ensures Sum(ns + [n]) == Sum(ns) + n
    decreases |ns|
  {
    if ns == [] {
      assert [] + [n] == [n] && [n][1..] == [];
    } else {
      assert (ns + [n])[1..] == ns[1..] + [n];
      SumSnoc(ns[1..], n);
    }
  }

  function InHand(s: State): nat {
    if s.hand.Some? then Size(s.hand.value) else 0
  }

  /** Unspent credit, chunks in transit, queued bytes, the chunk in hand and grants in transit. */
  function Balance(w: World): nat {
    w.credit + Bytes(w.transit) + w.s.queuedBytes + InHand(w.s) + Sum(w.grants)
  }

  /** The response is still being taken in. */
  predicate Open(s: State) {
    s.registered && (s.phase == AwaitHead || s.phase == Body)
  }

  ghost predicate Balanced(w: World) {
    && Inv(w.s) && Balance(w) <= CREDIT_BYTES
    && (Open(w.s) ==> Balance(w) == CREDIT_BYTES)
    && (forall m <- w.transit :: !m.BadChunk?)
  }

  // ----- conservation -----

  lemma SendBalances(w: World, m: Msg)
    requires Balanced(w) && CanSend(w, m)
    ensures Balanced(Next(w, Send(m)))
  {
    BytesJoin(w.transit, [m]);
    BytesOfOne(m);
    hide Inv, Bytes, Sum;
  }

  lemma GrantBalances(w: World)
    requires Balanced(w) && w.grants != []
    ensures Balanced(Next(w, GrantArrives))
  {
    hide Inv, Bytes;
  }

  /** Delivery moves a chunk's bytes from the port to the queue or the reader, or drops them. */
  lemma ReceiveMoves(s: State, m: Msg)
    requires Inv(s) && !m.BadChunk?
    ensures var t := Received(s, m); var held := s.queuedBytes + InHand(s);
      && t.queuedBytes + InHand(t) <= held + Size(m)
      && (Open(t) ==> Open(s) && t.queuedBytes + InHand(t) == held + Size(m))
  {
    if s.registered && !s.terminal && s.wake {
      assert s.queue == [] && s.queuedBytes == 0 && s.hand.None?;
    }
    hide Inv, Bytes, Payloads;
  }

  lemma DeliverBalances(w: World)
    requires Balanced(w) && w.transit != []
    ensures Balanced(Next(w, Deliver))
  {
    var m := w.transit[0];
    assert m in w.transit;
    assert forall x <- w.transit[1..] :: x in w.transit;
    StepKeeps(w.s, Receive(m));
    ReceiveMoves(w.s, m);
    hide Inv, Received, Sum;
  }

  lemma ShiftMoves(s: State)
    requires Inv(s) && s.queue != [] && s.hand.None?
    ensures Shifted(s).queuedBytes + InHand(Shifted(s)) == s.queuedBytes
  {
    assert Bytes(s.queue) == Size(s.queue[0]) + Bytes(s.queue[1..]);
    hide Payloads;
  }

  /** A local step keeps the bytes this side holds, grants them back, or lets go of them for good. */
  lemma LocalMoves(w: World, ev: Event)
    requires Inv(w.s) && !ev.Receive? && Enabled(w.s, ev)
    ensures var s, t := w.s, After(w.s, ev);
      var before, after := s.queuedBytes + InHand(s) + Sum(w.grants), t.queuedBytes + InHand(t) + Sum(Granted(w, ev));
      && after <= before
      && (Open(t) ==> Open(s) && after == before)
  {
    var s := w.s;
    if ev.Ask? && !s.aborted && s.queue != [] {
      ShiftMoves(s);
    }
    if s.hand.Some? && s.hand.value.Chunk? {
      SumSnoc(w.grants, |s.hand.value.data|);
    }
    hide Inv, Payloads, Bytes, Sum;
  }

  lemma LocalBalances(w: World, ev: Event)
    requires Balanced(w) && !ev.Receive? && Enabled(w.s, ev)
    ensures Balanced(Next(w, Local(ev)))
  {
    StepKeeps(w.s, ev);
    LocalMoves(w, ev);
    hide Inv, After, Granted, Bytes, Sum;
  }

  lemma NextBalances(w: World, step: Step)
    requires Balanced(w) && Possible(w, step)
    ensures Balanced(Next(w, step))
  {
    match step {
      case Send(m) => SendBalances(w, m);
      case Deliver => DeliverBalances(w);
      case GrantArrives => GrantBalances(w);
      case Local(ev) => LocalBalances(w, ev);
    }
  }

  /** A run of one relayed response with a crediting peer. */
  ghost predicate Course(ws: seq<World>, steps: seq<Step>) {
    && |ws| == |steps| + 1 && ws[0] == START
    && forall i :: 0 <= i < |steps| ==> Possible(ws[i], steps[i]) && ws[i + 1] == Next(ws[i], steps[i])
  }

  lemma StartBalances()
    ensures Balanced(START)
  {
    assert START.grants[1..] == [];
    assert Sum(START.grants) == CREDIT_BYTES;
  }

  /** While a response is being taken in, credit and bytes are conserved; afterwards they only shrink. */
  lemma {:induction false} CreditIsConserved(ws: seq<World>, steps: seq<Step>)
    requires Course(ws, steps)
    ensures Balanced(ws[|steps|])
    decreases |steps|
  {
    if steps == [] {
      StartBalances();
    } else {
      var n := |steps| - 1;
      CreditIsConserved(ws[..n + 1], steps[..n]);
      assert ws[n + 1] == Next(ws[n], steps[n]);
      hide Course, Balanced, Next;
      NextBalances(ws[n], steps[n]);
    }
  }

  /** The byte bound never trips for a crediting peer: what is delivered and what is queued fit one grant. */
  lemma ByteBoundNeverTrips(ws: seq<World>, steps: seq<Step>)
    requires Course(ws, steps) && ws[|steps|].transit != []
    ensures var w := ws[|steps|];
      w.s.queuedBytes + Size(w.transit[0]) <= CREDIT_BYTES
      && (Overflows(w.s, w.transit[0]) ==> |w.s.queue| >= QUEUE_FRAMES)
  {
    CreditIsConserved(ws, steps);
    var w := ws[|steps|];
    assert w.transit[0] in w.transit;
    assert Bytes(w.transit) == Size(w.transit[0]) + Bytes(w.transit[1..]);
    hide Course, Bytes, Inv;
  }

  // ----- the frame bound -----

  const FLOOR := 513

  function Controls(ms: seq<Msg>): nat
    decreases |ms|
  {
    if ms == [] then 0 else (if ms[0].Chunk? then 0 else 1) + Controls(ms[1..])
  }

  predicate Chunky(ms: seq<Msg>) {
    forall m <- ms :: m.Chunk? ==> |m.data| >= FLOOR
  }

  lemma {:induction false} ControlsJoin(a: seq<Msg>, b: seq<Msg>)
    ensures Controls(a + b) == Controls(a) + Controls(b)
    decreases |a|
  {
    if a == [] {
      assert a + b == b;
    } else {
      assert (a + b)[1..] == a[1..] + b;
      ControlsJoin(a[1..], b);
    }
  }

  lemma ControlsOfOne(m: Msg)
    ensures Controls([m]) == if m.Chunk? then 0 else 1
  {
    assert [m][1..] == [];
  }

  lemma {:induction false} FramesFit(ms: seq<Msg>)
    requires Chunky(ms)
    ensures FLOOR * |ms| <= Bytes(ms) + FLOOR * Controls(ms)
    decreases |ms|
  {
    if ms != [] {
      assert forall m <- ms[1..] :: m in ms;
      FramesFit(ms[1..]);
      assert ms[0] in ms;
    }
  }

  /** No bound has tripped, the chunks are of a decent size, and control frames are accounted for. */
  ghost predicate Untripped(w: World) {
    && !w.s.terminal && Chunky(w.transit) && Chunky(w.s.queue)
    && Controls(w.s.queue) + Controls(w.transit) <= w.controls
  }

  lemma DeliverFits(w: World)
    requires Balanced(w) && Untripped(w) && w.transit != [] && w.controls <= 2 && w.s.registered
    ensures !Overflows(w.s, w.transit[0])
  {
    var m := w.transit[0];
    assert m in w.transit;
    assert Bytes(w.transit) == Size(m) + Bytes(w.transit[1..]);
    FramesFit(w.s.queue);
    hide Payloads, Bytes, Controls, Sum;
  }

  lemma QueueAfter(s: State, m: Msg)
    requires !(s.registered && Overflows(s, m)) && !s.terminal
    ensures var t := Received(s, m);
      !t.terminal && (t.queue == s.queue || t.queue == s.queue + [m] || (s.queue == [] && t.queue == [])
                      || t.queue == (s.queue + [m])[1..])
  {
  }

  lemma ControlsTail(ms: seq<Msg>)
    ensures Controls(if ms == [] then [] else ms[1..]) <= Controls(ms)
  {
  }

  lemma DeliverUntripped(w: World)
    requires Balanced(w) && Untripped(w) && w.transit != [] && w.controls <= 2
    ensures Untripped(Next(w, Deliver))
  {
    var m := w.transit[0];
    assert m in w.transit;
    assert forall x <- w.transit[1..] :: x in w.transit;
    if w.s.registered {
      DeliverFits(w);
    }
    QueueAfter(w.s, m);
    ControlsJoin(w.s.queue, [m]);
    ControlsOfOne(m);
    ControlsTail(w.s.queue + [m]);
    assert Controls(w.transit) == Controls([m]) + Controls(w.transit[1..]);
    hide Received, Balanced, Controls;
    assert forall x <- (w.s.queue + [m])[1..] :: x in w.s.queue + [m];
  }

  lemma LocalQueue(s: State, ev: Event)
    requires !ev.Receive? && Enabled(s, ev) && !s.terminal
    ensures var t := After(s, ev);
      !t.terminal && (t.queue == s.queue || t.queue == [] || (s.queue != [] && t.queue == s.queue[1..]))
  {
  }

  lemma NextUntripped(w: World, step: Step)
    requires Balanced(w) && Untripped(w) && Possible(w, step) && Next(w, step).controls <= 2
    requires step.Send? && step.m.Chunk? ==> |step.m.data| >= FLOOR
    ensures Untripped(Next(w, step))
  {
    match step {
      case Send(m) =>
        ControlsJoin(w.transit, [m]);
        ControlsOfOne(m);
        hide Controls;
      case Deliver => DeliverUntripped(w);
      case GrantArrives =>
      case Local(ev) =>
        LocalQueue(w.s, ev);
        ControlsTail(w.s.queue);
        assert Controls([]) == 0;
        hide Controls, After;
    }
  }

  /** A crediting peer that sends one head, one final frame and chunks of at least 513 bytes trips no bound,
      however its frames, its grants and the reader interleave. */
  lemma {:induction false} CreditingPeerNeverTrips(ws: seq<World>, steps: seq<Step>)
    requires Course(ws, steps) && ws[|steps|].controls <= 2
    requires forall st <- steps :: st.Send? && st.m.Chunk? ==> |st.m.data| >= FLOOR
    ensures Untripped(ws[|steps|])
    decreases |steps|
  {
    if steps != [] {
      var n := |steps| - 1;
      assert ws[n + 1] == Next(ws[n], steps[n]);
      assert ws[n].controls <= ws[n + 1].controls;
      CreditIsConserved(ws[..n + 1], steps[..n]);
      CreditingPeerNeverTrips(ws[..n + 1], steps[..n]);
      assert steps[n] in steps;
      hide Course, Balanced, Next, Untripped;
      NextUntripped(ws[n], steps[n]);
    }
  }

  // ----- chunks one byte smaller -----

  /** One byte below the floor. */
  function Small(n: nat): (data: bytes)
    ensures |data| == n
  {
    if n == 0 then [] else Small(n - 1) + [0]
  }

  function SmallChunk(): Msg {
    Chunk(Small(FLOOR - 1))
  }

  function Chunks(n: nat): (ms: seq<Msg>)
    ensures |ms| == n
  {
    if n == 0 then [] else Chunks(n - 1) + [SmallChunk()]
  }

  /** The head is in the reader's hand, and n chunks have come while the page does not read. */
  function Filled(n: nat): World
    requires n <= QUEUE_FRAMES
  {
    World(State(Chunks(n), 512 * n, false, false, false, true, Some(Head(200)), AwaitHead, [],
                [Head(200)] + Chunks(n), [Head(200)]),
          CREDIT_BYTES - 512 * n, [], [], 1)
  }

  lemma OneMoreChunk(n: nat)
    requires n < QUEUE_FRAMES
    ensures CanSend(Filled(n), SmallChunk())
    ensures Next(Next(Filled(n), Send(SmallChunk())), Deliver) == Filled(n + 1)
  {
    assert [Head(200)] + Chunks(n) + [SmallChunk()] == [Head(200)] + Chunks(n + 1);
    var none: seq<Msg> := [];
    assert (none + [SmallChunk()])[1..] == none;
    hide Small;
  }

  predicate SmallSends(steps: seq<Step>) {
    forall st <- steps :: st.Send? && st.m.Chunk? ==> |st.m.data| == FLOOR - 1
  }

  /** A course goes on with any step that is possible. */
  lemma Onward(ws: seq<World>, steps: seq<Step>, step: Step) returns (vs: seq<World>, ss: seq<Step>)
    requires Course(ws, steps) && SmallSends(steps) && Possible(ws[|steps|], step)
    requires step.Send? && step.m.Chunk? ==> |step.m.data| == FLOOR - 1
    ensures Course(vs, ss) && SmallSends(ss) && vs[|ss|] == Next(ws[|steps|], step)
  {
    vs, ss := ws + [Next(ws[|steps|], step)], steps + [step];
    hide Possible, Next;
  }

  lemma {:induction false} FilledCourse(n: nat) returns (ws: seq<World>, steps: seq<Step>)
    requires n <= QUEUE_FRAMES
    ensures Course(ws, steps) && SmallSends(steps) && ws[|steps|] == Filled(n)
  {
    if n == 0 {
      ws, steps := HeadCourse();
    } else {
      ws, steps := FilledCourse(n - 1);
      OneMoreChunk(n - 1);
      hide Course, Next, Filled;
      ws, steps := Onward(ws, steps, Send(SmallChunk()));
      ws, steps := Onward(ws, steps, Deliver);
    }
  }

  lemma HeadCourse() returns (ws: seq<World>, steps: seq<Step>)
    ensures Course(ws, steps) && SmallSends(steps) && ws[|steps|] == Filled(0)
  {
    var granted := START.(credit := CREDIT_BYTES, grants := []);
    var sent := granted.(transit := [Head(200)], controls := 1);
    assert START.grants[1..] == [] && [Head(200)][1..] == [];
    var none: seq<Msg> := [];
    assert none + [Head(200)] == [Head(200)] && [Head(200)] + none == [Head(200)];
    ws, steps := [START, granted, sent, Filled(0)], [GrantArrives, Send(Head(200)), Deliver];
  }

  /** With chunks of one byte less the whole grant is one queue of frames, and the final frame of a peer that kept
      to its credit trips the frame bound. */
  lemma SmallChunksTrip() returns (ws: seq<World>, steps: seq<Step>)
    ensures Course(ws, steps) && SmallSends(steps) && ws[|steps|].controls == 2
    ensures ws[|steps|].s.terminal
  {
    ws, steps := FilledCourse(QUEUE_FRAMES);
    LastTrips();
    hide Course, Next, Filled;
    ws, steps := Onward(ws, steps, Send(End));
    ws, steps := Onward(ws, steps, Deliver);
  }

  lemma LastTrips()
    ensures var w := Next(Filled(QUEUE_FRAMES), Send(End));
      w.transit != [] && Next(w, Deliver).controls == 2 && Next(w, Deliver).s.terminal
  {
  }
}
