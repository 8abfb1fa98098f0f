/** How a provider's event stream can end, and the error event each ending sends. */
module ProviderStream {
  import opened Core

  /** How reading the body ends when no event has ended the stream before. ContextEnded is
      an ended context, and also a read error that wraps a context error. */
  datatype End = Clean | ReadFailed | ContextEnded

  const DECODE_FAILED := Error(Failure(OtherCategory("provider"), "decode"))
  const PROVIDER_FAILED := Error(Failure(OtherCategory("provider"), "provider error"))
  const TRANSPORT_FAILED := Error(Failure(OtherCategory("provider"), "transport"))

  function AtEnd(end: End): seq<StreamEvent> {
    match end
    case Clean => [DECODE_FAILED]
    case ReadFailed => [TRANSPORT_FAILED]
    case ContextEnded => []
  }
}
