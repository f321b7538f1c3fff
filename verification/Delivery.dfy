/** What is known about whether a request was delivered (app/src/delivery.ts): errors carry their own
    evidence, and anything without evidence is unknown. */
module Delivery {
  import opened Common

  datatype State = NotDelivered | Delivered | Unknown

  datatype Transport = Wisp | WispRoute | Relay

  /** Thrown values: only a delivery error made by this module carries evidence, whatever its text says. */
  datatype Err = Abort | Plain(message: string) | Failure(state: State, via: Transport, cause: Err)

  datatype Result<R> = Response(response: R) | Failed(state: State, cause: Err)

  function StateOf(e: Err): State {
    if e.Failure? then e.state else Unknown
  }

  /** An error met after the adapter was called proves nothing, even one that once did. */
  function AfterDispatch(via: Transport, e: Err): Err {
    if e.Failure? && e.state == Unknown && e.via == via then e else Failure(Unknown, via, e)
  }

  function BeforeDispatch(via: Transport, e: Err): Err {
    Failure(NotDelivered, via, e)
  }

  predicate AllowsReplay(state: State, idempotent: bool) {
    if state == Delivered then false else state == NotDelivered || idempotent
  }

  function DeliveryFailure<R>(via: Transport, e: Err, state: State): Result<R>
    requires state != Delivered
  {
    Failed(state, if e == Abort then e else if state == Unknown then AfterDispatch(via, e) else BeforeDispatch(via, e))
  }

  /** One call of an adapter. */
  function Attempt<R>(via: Transport, answer: Option<R>, e: Err): Result<R> {
    if answer.Some? then Response(answer.value) else DeliveryFailure(via, e, Unknown)
  }

  /** Initialisation that cannot dispatch the request. */
  function Prepare<R>(via: Transport, e: Err): Result<R> {
    DeliveryFailure(via, e, NotDelivered)
  }

  /** Whatever an adapter throws once it was called, the request is not replayed unless it is idempotent:
      not even when the adapter throws an error that proved non-delivery elsewhere. */
  lemma AdapterErrorsNeverReplay(via: Transport, e: Err, idempotent: bool)
    ensures var r: Result<()> := Attempt(via, None, e);
      && r.Failed? && (AllowsReplay(r.state, idempotent) <==> idempotent)
      && StateOf(r.cause) == Unknown
  {
  }

  /** A failure before dispatch may always be replayed, and says so in the error itself unless the caller
      cancelled. */
  lemma PreparationAllowsReplay(via: Transport, e: Err, idempotent: bool)
    ensures var r: Result<()> := Prepare(via, e);
      && r.Failed? && AllowsReplay(r.state, idempotent)
      && (StateOf(r.cause) == NotDelivered <==> e != Abort)
  {
  }

  /** Reclassifying again changes nothing. */
  lemma AfterDispatchOnce(via: Transport, e: Err)
    ensures AfterDispatch(via, AfterDispatch(via, e)) == AfterDispatch(via, e)
    ensures StateOf(AfterDispatch(via, e)) == Unknown
  {
  }
}
