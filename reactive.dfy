/**
 * Reactor publishers reduced to how they end, and the operators the handler
 * chains on them.  Laziness and scheduling are not modelled: a Mono is the
 * signal it terminates with.
 */
module Reactive {
  import opened Wrappers

  /** The exceptions the handler can meet, as far as it can tell them apart. */
  datatype Throwable =
    | /** An upstream reply with an error status: status code, getMessage() and the raw body. */
      WebClientResponseException(status: int, message: string, responseBody: string)
    | /** Thrown by Base64 decoding and by URI.create on malformed input. */
      IllegalArgumentException
    | /** Thrown when a null reference is dereferenced. */
      NullPointerException
    | /** Any other failure: a transport error, an unreadable request body, ... */
      OtherException(name: string)
    | /** The cast in the error handler failed; Reactor keeps the original error as a suppressed one. */
      ClassCastException(suppressed: Throwable)

  /** How a Mono<T> terminates: with one value, empty, or with an error signal. */
  datatype Mono<+T> = Emits(value: T) | Empty | Fails(error: Throwable)

  /** How a Flux<T> terminates: the items it emitted, then completion (None) or an error. */
  datatype Flux<+T> = Flux(items: seq<T>, error: Option<Throwable>)

  /** Mono.flatMap: a value is handed on to f; empty and error signals pass by it. */
  function FlatMap<T, U>(m: Mono<T>, f: T -> Mono<U>): Mono<U> {
    match m
    case Emits(v) => f(v)
    case Empty => Empty
    case Fails(e) => Fails(e)
  }

  /** Mono.switchIfEmpty: only an empty completion is replaced by the fallback. */
  function SwitchIfEmpty<T>(m: Mono<T>, fallback: Mono<T>): Mono<T> {
    if m.Empty? then fallback else m
  }

  /** Mono.then: the value (if any) is dropped; on completion the next Mono takes over. */
  function Then<T, U>(m: Mono<T>, next: Mono<U>): Mono<U> {
    if m.Fails? then Fails(m.error) else next
  }

  /** Mono.onErrorResume: only an error signal is handed to the fallback. */
  function OnErrorResume<T>(m: Mono<T>, fallback: Throwable -> Mono<T>): Mono<T> {
    if m.Fails? then fallback(m.error) else m
  }
}
