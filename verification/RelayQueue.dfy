/** The relay's receive side (app/src/relayfetch.ts): the bounded queue a port callback fills, the credit it
    grants back, and the stream that drains it. The peer is the other end of the port. */
module RelayQueue {
  import opened Common

  const CREDIT_BYTES := 2 * 1024 * 1024
  const QUEUE_BYTES := CREDIT_BYTES * 2
  const QUEUE_FRAMES := 4096

  /** `notDelivered`: the error frame proves the upstream never received the request. */
  datatype Msg = Head(status: nat) | Chunk(data: bytes) | BadChunk | End | Error(notDelivered: bool) | Other

  datatype Phase = AwaitHead | Body | NoBody | Closed | Errored

  /** `accepted` is every frame the waiter queued and `taken` every frame handed out, both for the record;
      `hand` is a frame whose reader has not run yet; `out` is what the page's stream was given. */
  datatype State = State(
    queue: seq<Msg>, queuedBytes: nat, terminal: bool, wake: bool, aborted: bool, registered: bool,
    hand: Option<Msg>, phase: Phase, out: seq<bytes>, accepted: seq<Msg>, taken: seq<Msg>)

  const FRESH := State([], 0, false, true, false, true, None, AwaitHead, [], [], [])

  function Size(m: Msg): nat {
    if m.Chunk? then |m.data| else 0
  }

  function Bytes(ms: seq<Msg>): nat
    decreases |ms|
  {
    if ms == [] then 0 else Size(ms[0]) + Bytes(ms[1..])
  }

  lemma {:induction false} BytesJoin(a: seq<Msg>, b: seq<Msg>)
    ensures Bytes(a + b) == Bytes(a) + Bytes(b)
    decreases |a|
  {
    if a == [] {
      assert a + b == b;
    } else {
      assert (a + b)[1..] == a[1..] + b;
      BytesJoin(a[1..], b);
    }
  }

  // ----- the callbacks -----

  /** The frames a waiter refuses: malformed, or past a bound. */
  predicate Overflows(s: State, m: Msg) {
    m.BadChunk? || s.queuedBytes + Size(m) > QUEUE_BYTES || |s.queue| >= QUEUE_FRAMES
  }

  /** Hand the front of the queue to a reader that is waiting. */
  function Woken(s: State): State {
    if !s.wake then s
    else if s.aborted || s.queue == [] then s.(wake := false)
    else Shifted(s.(wake := false))
  }

  function Shifted(s: State): State
    requires s.queue != []
  {
    var m := s.queue[0];
    s.(queue := s.queue[1..], queuedBytes := if s.queuedBytes >= Size(m) then s.queuedBytes - Size(m) else 0,
       hand := Some(m), taken := s.taken + [m])
  }

  function Received(s: State, m: Msg): State {
    if !s.registered || s.terminal then s
    else if Overflows(s, m) then
      Woken(s.(terminal := true, registered := false, queue := [Error(false)], queuedBytes := 0))
    else
      Woken(s.(queue := s.queue + [m], queuedBytes := s.queuedBytes + Size(m), accepted := s.accepted + [m]))
  }

  /** The caller aborts, the header deadline fires, or the page cancels its stream; a reader that waits
      is rejected. */
  function Aborted(s: State): State {
    if s.aborted then s
    else
      var t := s.(aborted := true, queue := [], queuedBytes := 0, registered := false);
      if s.wake then t.(wake := false, phase := Errored) else t
  }

  function Cleaned(s: State): State {
    s.(queue := [], queuedBytes := 0, registered := false)
  }

  /** The reader gives up: what it waited for has nobody left to hand it to. */
  function Abandoned(s: State): State {
    Cleaned(s).(wake := false, phase := Errored)
  }

  /** A pull asks for the next frame. */
  function Asked(s: State): State {
    if s.aborted then Cleaned(s).(phase := Errored)
    else if s.queue != [] then Shifted(s)
    else s.(wake := true)
  }

  /** What the reader does with the frame in hand; `granted` is the credit it returns. */
  function Handled(s: State): State
    requires s.hand.Some?
  {
    var m := s.hand.value;
    var t := s.(hand := None);
    if s.phase == AwaitHead then
      if m.Head? then t.(phase := Body) else Cleaned(t).(phase := Errored)
    else if s.phase == Body then
      if m.Chunk? then t.(out := s.out + [m.data])
      else if m.End? then Cleaned(t).(phase := Closed)
      else Cleaned(t).(phase := Errored)
    else t
  }

  /** A response without a body: the reader lets go at once. */
  function HandledNull(s: State): State
    requires s.hand.Some? && s.phase == AwaitHead && s.hand.value.Head?
  {
    Cleaned(s.(hand := None, phase := NoBody))
  }

  /** Posting the credit back failed after the chunk was passed on. */
  function GrantFailed(s: State): State
    requires s.hand.Some? && s.phase == Body && s.hand.value.Chunk?
  {
    Cleaned(Handled(s)).(phase := Errored)
  }
}
