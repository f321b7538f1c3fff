/** What every run of the relay's receive side keeps (app/src/relayfetch.ts), whatever the peer sends. */
module RelayRuns {
  import opened Common
  import opened RelayQueue

  datatype Event = Receive(m: Msg) | Abort | Ask | Handle | HandleNull | GrantFails

  predicate Enabled(s: State, ev: Event) {
    match ev
    case Receive(_) => true
    case Abort => true
    case Ask => s.hand.None? && !s.wake && s.phase == Body
    case Handle => s.hand.Some?
    case HandleNull => s.hand.Some? && s.phase == AwaitHead && s.hand.value.Head?
    case GrantFails => s.hand.Some? && s.phase == Body && s.hand.value.Chunk?
  }

  function After(s: State, ev: Event): State
    requires Enabled(s, ev)
  {
    match ev
    case Receive(m) => Received(s, m)
    case Abort => Aborted(s)
    case Ask => Asked(s)
    case Handle => Handled(s)
    case HandleNull => HandledNull(s)
    case GrantFails => GrantFailed(s)
  }

  // ----- any peer -----

  /** The payloads of the chunks, in order. */
  function Payloads(ms: seq<Msg>): seq<bytes>
    decreases |ms|
  {
    if ms == [] then []
    else Payloads(ms[..|ms| - 1]) + (if ms[|ms| - 1].Chunk? then [ms[|ms| - 1].data] else [])
  }

  /** The frames handed out and dealt with. */
  function Dealt(s: State): seq<Msg> {
    if s.hand.Some? && s.taken != [] then s.taken[..|s.taken| - 1] else s.taken
  }

  /** A head, then only chunks. */
  predicate BodySoFar(ms: seq<Msg>) {
    ms != [] && ms[0].Head? && forall i :: 1 <= i < |ms| ==> ms[i].Chunk?
  }

  /** The frames handed out are the first accepted ones, except that a tripped bound ends them with an error
      of the relay's own. */
  predicate TakenInOrder(s: State) {
    || s.taken <= s.accepted
    || (s.terminal && s.taken != [] && s.taken[|s.taken| - 1].Error? && s.taken[..|s.taken| - 1] <= s.accepted)
  }

  /** A clean end: a head, the chunks the page got, an end, and that is how the accepted frames begin. */
  predicate EndedCleanly(s: State) {
    && |s.taken| >= 2 && s.taken <= s.accepted && s.taken[|s.taken| - 1] == End
    && BodySoFar(s.taken[..|s.taken| - 1]) && s.out == Payloads(s.taken[..|s.taken| - 1])
  }

  ghost predicate QueueOk(s: State) {
    && s.queuedBytes == Bytes(s.queue) && s.queuedBytes <= QUEUE_BYTES && |s.queue| <= QUEUE_FRAMES
    && (s.registered ==> !s.terminal && !s.aborted && s.accepted == s.taken + s.queue)
    && (!s.registered && s.queue != [] ==> s.queue == [Error(false)] && s.terminal && s.taken <= s.accepted)
    && (s.phase != AwaitHead && s.phase != Body ==> !s.registered) && BadChunk !in s.accepted
    && (s.wake ==> s.hand.None? && s.queue == [] && s.registered)
    && (!s.registered && !s.aborted && (s.phase == AwaitHead || s.phase == Body) ==>
         s.terminal && (s.queue != [] || s.hand == Some(Error(false))))
  }

  ghost predicate ReaderOk(s: State) {
    && TakenInOrder(s)
    && (s.hand.Some? ==> s.taken != [] && s.taken[|s.taken| - 1] == s.hand.value)
    && (s.phase == AwaitHead ==> Dealt(s) == [] && s.out == [])
    && (s.phase == Body ==> BodySoFar(Dealt(s)) && s.out == Payloads(Dealt(s)))
    && (s.phase == Closed ==> !s.registered && s.queue == [] && s.hand.None? && EndedCleanly(s))
  }

  ghost predicate Inv(s: State) {
    QueueOk(s) && ReaderOk(s)
  }

  lemma ShiftQueue(s: State)
    requires QueueOk(s) && s.queue != []
    ensures QueueOk(Shifted(s.(wake := false)))
  {
    assert s.queue == [s.queue[0]] + s.queue[1..];
    assert s.taken + s.queue == (s.taken + [s.queue[0]]) + s.queue[1..];
  }

  lemma ShiftReader(s: State)
    requires QueueOk(s) && ReaderOk(s) && s.queue != [] && s.hand.None? && s.phase != Closed
    ensures ReaderOk(Shifted(s.(wake := false)))
  {
    hide Payloads, BodySoFar, EndedCleanly, Bytes;
    var t := Shifted(s.(wake := false));
    assert t.taken[..|t.taken| - 1] == s.taken;
    if s.registered {
      assert s.accepted == t.taken + s.queue[1..];
    }
  }

  lemma ShiftKeeps(s: State)
    requires Inv(s) && s.queue != [] && s.hand.None? && s.phase != Closed
    ensures Inv(Shifted(s.(wake := false)))
  {
    ShiftQueue(s);
    ShiftReader(s);
    hide QueueOk, ReaderOk;
  }

  lemma BytesOfOne(m: Msg)
    ensures Bytes([m]) == Size(m)
  {
    assert [m][1..] == [];
  }

  function Pushed(s: State, m: Msg): State {
    s.(queue := s.queue + [m], queuedBytes := s.queuedBytes + Size(m), accepted := s.accepted + [m])
  }

  lemma PushedKeeps(s: State, m: Msg)
    requires Inv(s) && s.registered && !Overflows(s, m) && s.phase != Closed
    ensures Inv(Pushed(s, m).(wake := false)) && (!s.wake ==> Inv(Pushed(s, m)))
  {
    PushedQueue(s, m);
    PushedReader(s, m);
    hide QueueOk, ReaderOk, Overflows;
  }

  lemma PushedQueue(s: State, m: Msg)
    requires QueueOk(s) && s.registered && !Overflows(s, m)
    ensures QueueOk(Pushed(s, m).(wake := false)) && (!s.wake ==> QueueOk(Pushed(s, m)))
  {
    BytesJoin(s.queue, [m]);
    BytesOfOne(m);
    assert s.taken + (s.queue + [m]) == (s.taken + s.queue) + [m];
    hide Bytes;
  }

  lemma PushedReader(s: State, m: Msg)
    requires QueueOk(s) && ReaderOk(s) && s.registered && s.phase != Closed
    ensures ReaderOk(Pushed(s, m).(wake := false)) && ReaderOk(Pushed(s, m))
  {
    assert s.taken <= s.accepted + [m];
    hide Payloads, BodySoFar, EndedCleanly, Bytes;
  }

  /** A frame joins the queue, and a waiting reader gets it at once. */
  lemma PushKeeps(s: State, m: Msg)
    requires Inv(s) && s.registered && !Overflows(s, m)
    ensures Inv(Received(s, m))
  {
    PushedKeeps(s, m);
    assert s.wake ==> s.hand.None?;
    assert s.phase != Closed && !s.terminal && !s.aborted;
    hide QueueOk, ReaderOk;
    if s.wake {
      ShiftKeeps(Pushed(s, m).(wake := false));
    }
  }

  function Tripped(s: State): State {
    s.(terminal := true, registered := false, queue := [Error(false)], queuedBytes := 0)
  }

  lemma TrippedKeeps(s: State)
    requires Inv(s) && s.registered
    ensures Inv(Tripped(s).(wake := false)) && (!s.wake ==> Inv(Tripped(s)))
  {
    BytesOfOne(Error(false));
    assert s.taken <= s.taken + s.queue;
    hide Payloads, BodySoFar, EndedCleanly, Bytes;
  }

  lemma TripKeeps(s: State, m: Msg)
    requires Inv(s) && s.registered && Overflows(s, m)
    ensures Inv(Received(s, m))
  {
    TrippedKeeps(s);
    assert s.wake ==> s.hand.None?;
    assert s.phase != Closed && !s.terminal && !s.aborted;
    hide QueueOk, ReaderOk, Overflows;
    if s.wake {
      ShiftKeeps(Tripped(s).(wake := false));
    }
  }

  lemma AbortKeeps(s: State)
    requires Inv(s)
    ensures Inv(Aborted(s))
  {
    hide Payloads, BodySoFar;
  }

  lemma AskKeeps(s: State)
    requires Inv(s) && Enabled(s, Ask)
    ensures Inv(Asked(s))
  {
    if !s.aborted && s.queue != [] {
      ShiftKeeps(s);
      assert s.(wake := false) == s;
      hide QueueOk, ReaderOk;
    } else {
      hide Payloads, BodySoFar, EndedCleanly;
    }
  }

  // ----- the reader -----

  lemma PayloadsSnoc(ms: seq<Msg>, m: Msg)
    ensures Payloads(ms + [m]) == Payloads(ms) + (if m.Chunk? then [m.data] else [])
  {
    assert (ms + [m])[..|ms|] == ms;
  }

  lemma HandleHead(s: State)
    requires Inv(s) && s.hand.Some? && s.phase == AwaitHead
    ensures Inv(Handled(s))
  {
    var m := s.hand.value;
    assert s.taken == [m];
    assert [m][..0] == [];
    hide Bytes, EndedCleanly;
    assert Payloads([m]) == if m.Chunk? then [m.data] else [];
    hide Payloads;
  }

  lemma HandleNullHead(s: State)
    requires Inv(s) && Enabled(s, HandleNull)
    ensures Inv(HandledNull(s))
  {
    hide Payloads, EndedCleanly, BodySoFar;
  }

  lemma BodyGrows(dealt: seq<Msg>, m: Msg)
    requires BodySoFar(dealt) && m.Chunk?
    ensures BodySoFar(dealt + [m]) && Payloads(dealt + [m]) == Payloads(dealt) + [m.data]
  {
    PayloadsSnoc(dealt, m);
    hide Payloads;
  }

  lemma HandleChunk(s: State)
    requires Inv(s) && s.hand.Some? && s.phase == Body && s.hand.value.Chunk?
    ensures Inv(Handled(s)) && Inv(GrantFailed(s))
  {
    var dealt := Dealt(s);
    assert s.taken == dealt + [s.hand.value];
    BodyGrows(dealt, s.hand.value);
    hide Payloads, Bytes, BodySoFar, EndedCleanly;
  }

  lemma HandleLast(s: State)
    requires Inv(s) && s.hand.Some? && s.phase == Body && !s.hand.value.Chunk?
    ensures Inv(Handled(s))
  {
    var dealt := Dealt(s);
    assert s.taken == dealt + [s.hand.value];
    hide Payloads, Bytes, BodySoFar;
    if s.hand.value.End? {
      assert s.taken <= s.accepted;
    }
  }

  lemma HandleIdle(s: State)
    requires Inv(s) && s.hand.Some? && s.phase != Body && s.phase != AwaitHead
    ensures Inv(Handled(s))
  {
    hide Payloads, Bytes, BodySoFar, EndedCleanly;
  }

  lemma AbandonKeeps(s: State)
    requires Inv(s)
    ensures Inv(Abandoned(s.(hand := None)))
  {
    hide Payloads, BodySoFar, EndedCleanly;
    assert Bytes([]) == 0;
  }

  lemma StepKeeps(s: State, ev: Event)
    requires Inv(s) && Enabled(s, ev)
    ensures Inv(After(s, ev))
  {
    hide Inv, Overflows;
    match ev {
      case Receive(m) =>
        if s.registered && !s.terminal {
          if Overflows(s, m) {
            TripKeeps(s, m);
          } else {
            PushKeeps(s, m);
          }
        }
      case Abort => AbortKeeps(s);
      case Ask => AskKeeps(s);
      case _ => HandleKeeps(s, ev);
    }
  }

  lemma HandleKeeps(s: State, ev: Event)
    requires Inv(s) && Enabled(s, ev) && (ev.Handle? || ev.HandleNull? || ev.GrantFails?)
    ensures Inv(After(s, ev))
  {
    hide Inv;
    if ev.HandleNull? {
      HandleNullHead(s);
    } else if s.phase == AwaitHead {
      HandleHead(s);
    } else if s.phase == Body {
      if s.hand.value.Chunk? {
        HandleChunk(s);
      } else {
        HandleLast(s);
      }
    } else {
      HandleIdle(s);
    }
  }

  /** A run of one relayed response. */
  ghost predicate Run(ss: seq<State>, evs: seq<Event>) {
    && |ss| == |evs| + 1 && ss[0] == FRESH
    && forall i :: 0 <= i < |evs| ==> Enabled(ss[i], evs[i]) && ss[i + 1] == After(ss[i], evs[i])
  }

  lemma {:induction false} RunKeeps(ss: seq<State>, evs: seq<Event>)
    requires Run(ss, evs)
    ensures Inv(ss[|evs|])
    decreases |evs|
  {
    if evs != [] {
      var n := |evs| - 1;
      RunKeeps(ss[..n + 1], evs[..n]);
      assert ss[n + 1] == After(ss[n], evs[n]);
      hide Inv, Run;
      StepKeeps(ss[n], evs[n]);
    }
  }

  /** The first n frames are a head, chunks and an end, and the chunks carry exactly these payloads. */
  predicate WholeBody(frames: seq<Msg>, n: nat, payloads: seq<bytes>) {
    && 2 <= n <= |frames| && frames[n - 1] == End
    && BodySoFar(frames[..n - 1]) && payloads == Payloads(frames[..n - 1])
  }

  lemma ClosedIsWhole(s: State)
    requires Inv(s) && s.phase == Closed
    ensures exists n :: WholeBody(s.accepted, n, s.out)
  {
    var n := |s.taken|;
    assert s.taken == s.accepted[..n];
    assert s.taken[..n - 1] == s.accepted[..n - 1];
    hide Payloads, Bytes;
    assert WholeBody(s.accepted, n, s.out);
  }

  /** Whatever the peer sends, the queue stays within its bounds, a malformed chunk is never accepted, a reader
      that is through leaves no waiter, and a body that closes cleanly is the received chunks, all of them and in
      order. */
  lemma AnyPeer(ss: seq<State>, evs: seq<Event>)
    requires Run(ss, evs)
    ensures var s := ss[|evs|];
      && Bytes(s.queue) <= 4 * 1024 * 1024 && |s.queue| <= 4096 && BadChunk !in s.accepted
      && (s.phase != AwaitHead && s.phase != Body ==> !s.registered)
      && (s.phase == Closed ==>
           exists n :: WholeBody(s.accepted, n, s.out))
  {
    RunKeeps(ss, evs);
    hide Run, Payloads, Bytes;
    if ss[|evs|].phase == Closed {
      ClosedIsWhole(ss[|evs|]);
    }
  }
}
