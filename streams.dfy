/** The vocabulary shared by every stream-consuming operation: a Combine publisher seen by one
    subscriber as the events it delivers, the `Result` a single-shot consumer reports, and the
    single-shot contract itself (the outcome of the first signal). */
module Streams {
  import opened Wrappers

  /** One delivery to a subscriber: a value, or one of the two completions. */
  datatype Ev<+V, +E> = Value(value: V) | Finished | Failed(error: E)

  /** What a publisher delivers to a new subscriber, split at the moment `sink` returns: `sync`
      is delivered while `sink` is still running (a `CurrentValueSubject`'s current value, the
      completion of a subject that already completed), `later` afterwards, for as long as the
      subscription is neither cancelled nor completed. Delivery stops after a completion. */
  datatype Stream<+V, +E> = Stream(sync: seq<Ev<V, E>>, later: seq<Ev<V, E>>)

  /** Swift's `Result<Output, Error>`. */
  datatype Result<+V, +E> = Success(value: V) | Failure(error: E)

  /** How an awaiting caller ends up: still suspended (no callback yet), resumed with one
      result, or a second `resume` of a checked continuation, which traps at run time. */
  datatype Resumption<+V, +E> = Suspended | Resumed(result: Result<V, E>) | Misuse

  /** The meaning of a stream's first signal to a single-shot consumer: a value succeeds, a
      failure is passed on unchanged, a completion without a value is the `noValue` error. */
  function Signal<V, E>(ev: Ev<V, E>, noValue: E): Result<V, E>
  {
    match ev
    case Value(v) => Success(v)
    case Finished => Failure(noValue)
    case Failed(e) => Failure(e)
  }

  /** The single-shot contract: the outcome of the first event the stream delivers, or nothing
      while it delivers none. */
  function FirstResult<V, E>(s: Stream<V, E>, noValue: E): Option<Result<V, E>>
  {
    if s.sync != [] then Some(Signal(s.sync[0], noValue))
    else if s.later != [] then Some(Signal(s.later[0], noValue))
    else None
  }

  /** The callbacks a caller of a single-shot operation should see: exactly `FirstResult`. */
  function Once<V, E>(s: Stream<V, E>, noValue: E): seq<Result<V, E>>
  {
    match FirstResult(s, noValue)
    case None => []
    case Some(r) => [r]
  }

  /** The callbacks that the source's pair of `sink` closures makes for `evs` when, as in every
      bridge of this library, `receiveValue` reports each value it is handed and the completion
      closure reports a failure, or a completion when no value was seen (`seen` says whether one
      already was). Delivery ends at the first completion. */
  function SyncCallbacks<V, E>(evs: seq<Ev<V, E>>, noValue: E, seen: bool): seq<Result<V, E>>
  {
    if evs == [] then []
    else
      match evs[0]
      case Value(v) => [Success(v)] + SyncCallbacks(evs[1..], noValue, true)
      case Finished => if seen then [] else [Failure(noValue)]
      case Failed(e) => [Failure(e)]
  }

  predicate HasValue<V, E>(evs: seq<Ev<V, E>>)
  {
    exists k :: 0 <= k < |evs| && evs[k].Value?
  }

  predicate HasCompletion<V, E>(evs: seq<Ev<V, E>>)
  {
    exists k :: 0 <= k < |evs| && !evs[k].Value?
  }

  /** How an awaiting caller ends up once `callbacks` were made to its continuation. */
  function Resume<V, E>(callbacks: seq<Result<V, E>>): Resumption<V, E>
  {
    if callbacks == [] then Suspended
    else if |callbacks| == 1 then Resumed(callbacks[0])
    else Misuse
  }

  /** The first synchronous callback always reports the first signal. */
  lemma SyncCallbacksStartWithSignal<V, E>(evs: seq<Ev<V, E>>, noValue: E)
    requires evs != []
    ensures SyncCallbacks(evs, noValue, false) != []
    ensures SyncCallbacks(evs, noValue, false)[0] == Signal(evs[0], noValue)
  {
  }
}
