/** The closures of one relayed fetch (app/src/relayfetch.ts): the waiter, the abort handler, the reader, each
    updating the shared variables in place. */
module RelayReader {
  import opened Common
  import opened RelayQueue
  import opened RelayRuns

  /** What a waiter refuses, and what is left of it then. */
  lemma RefusalMeets(s: State, m: Msg)
    requires Inv(s)
    ensures s.registered ==> !s.terminal
    ensures var t := Received(s, m);
      && (s.registered && !s.terminal && Overflows(s, m) <==>
           s.registered && (m.BadChunk? || s.queuedBytes + Size(m) > 4 * 1024 * 1024 || |s.queue| >= 4096))
      && (s.registered && !s.terminal && Overflows(s, m) <==> !s.terminal && t.terminal)
      && (!s.terminal && t.terminal ==>
           !t.registered && t.accepted == s.accepted && (t.hand == Some(Error(false)) || t.queue == [Error(false)]))
    ensures s.wake ==> s.queue == []
  {
    hide ReaderOk, Bytes;
  }

  class RelayReader {
    var queue: seq<Msg>
    var queuedBytes: nat
    var terminal: bool
    var wake: bool
    var aborted: bool
    var registered: bool
    var hand: Option<Msg>
    var phase: Phase
    var out: seq<bytes>
    ghost var accepted: seq<Msg>
    ghost var taken: seq<Msg>

    ghost function Now(): State
      reads this
    {
      State(queue, queuedBytes, terminal, wake, aborted, registered, hand, phase, out, accepted, taken)
    }

    ghost predicate Valid()
      reads this
    {
      Inv(Now())
    }

    constructor ()
      ensures Now() == FRESH && Valid()
    {
      queue, queuedBytes, terminal, wake, aborted, registered := [], 0, false, true, false, true;
      hand, phase, out := None, AwaitHead, [];
      accepted, taken := [], [];
    }

    /** A fetch that is over before it has a waiter. */
    constructor Unused()
      ensures Now() == Abandoned(FRESH) && Valid()
    {
      queue, queuedBytes, terminal, wake, aborted, registered := [], 0, false, false, false, false;
      hand, phase, out := None, Errored, [];
      accepted, taken := [], [];
      new;
      assert FRESH.(hand := None) == FRESH && Dealt(FRESH) == [];
      AbandonKeeps(FRESH);
    }

    /** A frame for this request arrived on the port: a malformed one, or one past a bound, ends the waiter and
        is answered with an error of the relay's own. `cancel` says the upstream is told to stop. */
    method OnMessage(m: Msg) returns (cancel: bool)
      requires Valid()
      modifies this
      ensures Valid() && Now() == Received(old(Now()), m)
      ensures cancel <==> !old(terminal) && terminal
      ensures cancel <==>
        old(registered) && (m.BadChunk? || old(queuedBytes) + Size(m) > 4 * 1024 * 1024 || |old(queue)| >= 4096)
      ensures cancel ==> !registered && accepted == old(accepted) && (hand == Some(Error(false)) || queue == [Error(false)])
    {
      StepKeeps(Now(), Receive(m));
      RefusalMeets(Now(), m);
      hide *;
      cancel := Take(m);
    }

    method Take(m: Msg) returns (cancel: bool)
      requires wake ==> queue == []
      modifies this
      ensures Now() == Received(old(Now()), m)
      ensures cancel <==> old(registered) && !old(terminal) && Overflows(old(Now()), m)
    {
      cancel := false;
      if !registered || terminal {
        return;
      }
      if m.BadChunk? || queuedBytes + Size(m) > QUEUE_BYTES || |queue| >= QUEUE_FRAMES {
        terminal, registered := true, false;
        queue, queuedBytes := [Error(false)], 0;
        cancel := true;
      } else {
        queuedBytes := queuedBytes + Size(m);
        queue := queue + [m];
        accepted := accepted + [m];
      }
      Wake();
    }

    /** Wake a waiting reader: it takes the front of the queue on the spot. */
    method Wake()
      requires wake ==> (queue != [] ==> queuedBytes >= Size(queue[0]))
      modifies this
      ensures Now() == Woken(old(Now()))
    {
      if wake {
        wake := false;
        if !aborted && queue != [] {
          Shift();
        }
      }
    }

    method Shift()
      requires queue != [] && queuedBytes >= Size(queue[0])
      modifies this
      ensures Now() == Shifted(old(Now()))
    {
      var m := queue[0];
      queue := queue[1..];
      queuedBytes := queuedBytes - Size(m);
      hand := Some(m);
      taken := taken + [m];
    }

    method OnAbort()
      requires Valid()
      modifies this
      ensures Valid() && Now() == Aborted(old(Now()))
    {
      AbortKeeps(Now());
      hide *;
      Reject();
    }

    method Reject()
      modifies this
      ensures Now() == Aborted(old(Now()))
    {
      if aborted {
        return;
      }
      aborted, registered := true, false;
      queue, queuedBytes := [], 0;
      if wake {
        wake, phase := false, Errored;
      }
    }

    method Cleanup()
      modifies this
      ensures Now() == Cleaned(old(Now()))
    {
      queue, queuedBytes, registered := [], 0, false;
    }

    /** The reader gives up, and a frame in hand is dropped. */
    method GiveUp()
      requires Valid()
      modifies this
      ensures Valid() && Now() == Abandoned(old(Now()).(hand := None))
    {
      AbandonKeeps(Now());
      hand := None;
      Cleanup();
      wake, phase := false, Errored;
    }

    /** The head of a response without a body: the reader lets go at once. */
    method TakeNoBody()
      requires Valid() && Enabled(Now(), HandleNull)
      modifies this
      ensures Valid() && Now() == HandledNull(old(Now()))
    {
      HandleNullHead(Now());
      hand, phase := None, NoBody;
      Cleanup();
    }

    /** A pull of the page's stream takes the next frame, or waits for it. */
    method Pull()
      requires Valid() && Enabled(Now(), Ask)
      modifies this
      ensures Valid() && Now() == Asked(old(Now()))
    {
      AskKeeps(Now());
      if aborted {
        Cleanup();
        phase := Errored;
      } else if queue != [] {
        Shift();
      } else {
        wake := true;
      }
    }

    /** The reader's turn with the frame it took: `granted` bytes of credit go back for a chunk. */
    method Turn(granting: bool) returns (granted: Option<nat>)
      requires Valid() && hand.Some?
      modifies this
      ensures Valid() && Now() == Handled(old(Now()))
      ensures granted == if granting && old(phase) == Body && old(hand).value.Chunk?
                         then Some(|old(hand).value.data|) else None
    {
      HandleKeeps(Now(), Handle);
      hide Inv;
      granted := None;
      var m := hand.value;
      hand := None;
      if phase == AwaitHead {
        if m.Head? {
          phase := Body;
        } else {
          Cleanup();
          phase := Errored;
        }
      } else if phase == Body {
        if m.Chunk? {
          out := out + [m.data];
          if granting {
            granted := Some(|m.data|);
          }
        } else {
          Cleanup();
          phase := if m.End? then Closed else Errored;
        }
      }
    }
  }
}
