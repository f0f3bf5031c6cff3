/** The `CancellationTokenSource` that every page keeps in a single field:
    a flag that its token reports, and a disposed state after which the
    source refuses to be used. */
module Cancellation {
  import opened Wrappers

  /** An exception as the pages tell them apart: a `TaskCanceledException`,
      the only kind their cancellation handlers catch, or any other exception
      (a plain `OperationCanceledException` included), with its `Message`. */
  datatype Fault = Canceled | Raised(message: string)

  /** The message shown for a `TaskCanceledException`: the default text of
      one created without a message. The model gives every cancellation this
      text; one raised inside `HttpClient` (a timeout, say) may carry
      another. */
  const CanceledMessage: string := "A task was canceled."

  /** `ex.Message`. */
  function FaultMessage(f: Fault): string {
    match f
    case Canceled => CanceledMessage
    case Raised(message) => message
  }

  /** The message of the `ObjectDisposedException` a disposed source throws. */
  const DisposedMessage: string := "The CancellationTokenSource has been disposed."

  /** A page's source field as a value: absent, or present with its flags. */
  datatype TokenView = NoSource | Source(cancelled: bool, disposed: bool)

  predicate Cancelled(t: TokenView) {
    t.Source? && t.cancelled
  }

  function ViewOf(t: TokenSource?): TokenView
    reads t
  {
    if t == null then NoSource else Source(t.cancelled, t.disposed)
  }

  /** The guarded `Cancel()` of the pages' abort handlers, on the field's
      value: the field afterwards and the message of what it throws, if
      anything. Without a source nothing happens; a disposed source throws;
      any other source ends up cancelled. */
  function CancelField(t: TokenView): (r: (TokenView, Option<string>))
    ensures t.NoSource? ==> r == (NoSource, None)
    ensures t.Source? && t.disposed ==> r == (t, Some(DisposedMessage))
    ensures t.Source? && !t.disposed ==> r == (Source(true, false), None)
  {
    match t
    case NoSource => (NoSource, None)
    case Source(cancelled, disposed) =>
      if disposed then (t, Some(DisposedMessage)) else (Source(true, false), None)
  }

  class TokenSource {
    /** `Token.IsCancellationRequested`. */
    var cancelled: bool
    var disposed: bool

    /** `new CancellationTokenSource()`. */
    constructor ()
      ensures !cancelled && !disposed
    {
      cancelled, disposed := false, false;
    }

    /** `Cancel()`. On a disposed source (and likewise when its `Token` is
        read) .NET throws an `ObjectDisposedException`, returned here as its
        message. A token obtained from a source can always be cancelled
        (`Token.CanBeCanceled` is true), so the pages' `CanBeCanceled` tests
        come down to the source being present. */
    method Cancel() returns (error: Option<string>)
      modifies this
      ensures disposed == old(disposed)
      ensures old(disposed) ==> error == Some(DisposedMessage) && cancelled == old(cancelled)
      ensures !old(disposed) ==> error == None && cancelled
    {
      if disposed {
        error := Some(DisposedMessage);
      } else {
        cancelled := true;
        error := None;
      }
    }

    /** `Dispose()`: releases the source; it does not cancel it. */
    method Dispose()
      modifies this
      ensures disposed && cancelled == old(cancelled)
    {
      disposed := true;
    }
  }
}
