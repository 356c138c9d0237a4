/** The stream-to-single-result bridge of Sources/ResourceLoadable/Combine+Utils.swift:
    `asFuture`, `receiveOnce`, `watch` and `Future.wait`. Each bridge is a method that replays the
    source's closures over the events the publisher delivers: first those delivered while `sink`
    runs (the local `cancellable` is still nil then), then the assignment of the returned
    cancellable and the post-`sink` check, then the events delivered afterwards. Cancelling stops
    all further delivery. The error reported for a completion without a value is the parameter
    `noValue` (LoadResourceError.noValueReceiveWhenCompletion at the call sites). */
module CombineUtils {
  import opened Wrappers
  import opened Streams

  /** The callbacks `receiveOnce` makes: every event delivered during `sink` is reported (the
      cancel in `receiveValue` finds `cancellable` still nil); after `sink` returns, a value seen
      cancels the subscription, and otherwise the first later event is the only one reported. */
  function ReceiveOnceResults<V, E>(s: Stream<V, E>, noValue: E): seq<Result<V, E>>
  {
    if s.sync != [] then SyncCallbacks(s.sync, noValue, false)
    else if s.later != [] then [Signal(s.later[0], noValue)]
    else []
  }

  /** `receiveOnce(with:)`: returns the callbacks made and whether the subscription is still
      live at the end. Nothing stays subscribed once the stream has signalled at all. */
  method ReceiveOnce<V, E>(publisher: Stream<V, E>, noValue: E)
    returns (callbacks: seq<Result<V, E>>, subscribed: bool)
    ensures callbacks == ReceiveOnceResults(publisher, noValue)
    ensures subscribed <==> publisher.sync == [] && publisher.later == []
  {
    var cancellable := false;  // `cancellable != nil`
    var didReceiveValue := false;
    var live := true;          // the subscription still delivers events
    callbacks := [];
    var i := 0;
    while i < |publisher.sync| && live
      decreases |publisher.sync| - i
      invariant 0 <= i <= |publisher.sync|
      invariant !cancellable
      invariant i == 0 ==> live && !didReceiveValue
      invariant i > 0 ==> didReceiveValue || !live
      invariant live ==> callbacks + SyncCallbacks(publisher.sync[i..], noValue, didReceiveValue)
                         == SyncCallbacks(publisher.sync, noValue, false)
      invariant !live ==> callbacks == SyncCallbacks(publisher.sync, noValue, false)
    {
      assert publisher.sync[i..][1..] == publisher.sync[i + 1..];
      match publisher.sync[i] {
      case Failed(e) =>
        callbacks := callbacks + [Failure(e)];
        cancellable := false;
        live := false;
      case Finished =>
        if !didReceiveValue {
          callbacks := callbacks + [Failure(noValue)];
        }
        cancellable := false;
        live := false;
      case Value(v) =>
        callbacks := callbacks + [Success(v)];
        didReceiveValue := true;
        if cancellable {
          live := false;
        }
      }
      i := i + 1;
    }
    // `sink` has returned: the assignment stores the cancellable, then the post-`sink` check.
    cancellable := true;
    if didReceiveValue {
      if cancellable {
        live := false;
      }
      cancellable := false;
    }
    var j := 0;
    while j < |publisher.later| && live
      decreases |publisher.later| - j
      invariant 0 <= j <= |publisher.later|
      invariant live ==> j == 0 && cancellable && !didReceiveValue && publisher.sync == []
      invariant j > 0 ==> !live
      invariant j == 0 ==> (live <==> publisher.sync == [])
      invariant publisher.sync != [] ==> !live
      invariant callbacks == if publisher.sync != [] then SyncCallbacks(publisher.sync, noValue, false)
                             else if j == 0 then [] else [Signal(publisher.later[0], noValue)]
    {
      match publisher.later[j] {
      case Failed(e) =>
        callbacks := callbacks + [Failure(e)];
        cancellable := false;
        live := false;
      case Finished =>
        if !didReceiveValue {
          callbacks := callbacks + [Failure(noValue)];
        }
        cancellable := false;
        live := false;
      case Value(v) =>
        callbacks := callbacks + [Success(v)];
        didReceiveValue := true;
        if cancellable {
          live := false;
        }
      }
      j := j + 1;
    }
    subscribed := live;
  }

  /** `receiveOnce` reports the first signal first, and reports something exactly when the
      stream signals at all. */
  lemma ReceiveOnceStartsWithFirstResult<V, E>(s: Stream<V, E>, noValue: E)
    ensures ReceiveOnceResults(s, noValue) == [] <==> FirstResult(s, noValue).None?
    ensures ReceiveOnceResults(s, noValue) != [] ==>
              ReceiveOnceResults(s, noValue)[0] == FirstResult(s, noValue).value
  {
    if s.sync != [] {
      SyncCallbacksStartWithSignal(s.sync, noValue);
    }
  }

  /** When at most one signal is delivered during `sink` (a completion may follow it, as a
      resolved Future or a completed subject deliver), `receiveOnce` honours the single-shot
      contract: one callback with the first signal's outcome, and a completion after a value is
      silent. */
  lemma ReceiveOnceIsSingleShot<V, E>(s: Stream<V, E>, noValue: E)
    requires forall k :: 1 <= k < |s.sync| ==> s.sync[k] == Finished
    ensures ReceiveOnceResults(s, noValue) == Once(s, noValue)
  {
    if s.sync != [] && s.sync[0].Value? {
      var rest := s.sync[1..];
      if rest != [] {
        assert rest[0] == s.sync[1] == Finished;
      }
      assert SyncCallbacks(rest, noValue, true) == [];
    }
  }

  /** Two values delivered during `sink` (`[a, b].publisher`) make two callbacks, although the
      single-shot contract allows one. */
  lemma ReceiveOnceTwoSynchronousValues<V, E>(a: V, b: V, noValue: E)
    ensures ReceiveOnceResults(Stream([Value(a), Value(b)], []), noValue) == [Success(a), Success(b)]
    ensures Once(Stream([Value(a), Value(b)], []), noValue) == [Success(a)]
  {
    var evs: seq<Ev<V, E>> := [Value(a), Value(b)];
    assert evs[1..] == [Value(b)];
    var tail: seq<Ev<V, E>> := [Value(b)];
    assert tail[1..] == [];
    assert SyncCallbacks(tail, noValue, true) == [Success(b)];
    assert SyncCallbacks(evs, noValue, false) == [Success(a)] + SyncCallbacks(tail, noValue, true);
  }

  /** `receiveOnce` with each closure guarded by `didReceiveValue`, so that nothing is reported
      after the first value even when several are delivered during `sink`. */
  method ReceiveOnceGuarded<V, E>(publisher: Stream<V, E>, noValue: E)
    returns (callbacks: seq<Result<V, E>>, subscribed: bool)
    ensures callbacks == Once(publisher, noValue)
    ensures subscribed <==> publisher.sync == [] && publisher.later == []
  {
    var cancellable := false;
    var didReceiveValue := false;
    var live := true;
    callbacks := [];
    var i := 0;
    while i < |publisher.sync| && live
      decreases |publisher.sync| - i
      invariant 0 <= i <= |publisher.sync|
      invariant !cancellable
      invariant i == 0 ==> live && !didReceiveValue && callbacks == []
      invariant i > 0 ==> (didReceiveValue || !live) && callbacks == [Signal(publisher.sync[0], noValue)]
    {
      if !didReceiveValue {
        match publisher.sync[i] {
        case Failed(e) =>
          callbacks := callbacks + [Failure(e)];
          cancellable := false;
          live := false;
        case Finished =>
          callbacks := callbacks + [Failure(noValue)];
          cancellable := false;
          live := false;
        case Value(v) =>
          callbacks := callbacks + [Success(v)];
          didReceiveValue := true;
          if cancellable {
            live := false;
          }
        }
      } else if !publisher.sync[i].Value? {
        // the completion closure still ends the subscription, silently
        cancellable := false;
        live := false;
      }
      i := i + 1;
    }
    cancellable := true;
    if didReceiveValue {
      if cancellable {
        live := false;
      }
      cancellable := false;
    }
    var j := 0;
    while j < |publisher.later| && live
      decreases |publisher.later| - j
      invariant 0 <= j <= |publisher.later|
      invariant live ==> j == 0 && cancellable && !didReceiveValue && publisher.sync == []
      invariant j > 0 ==> !live
      invariant j == 0 ==> (live <==> publisher.sync == [])
      invariant publisher.sync != [] ==> !live
      invariant callbacks == if publisher.sync != [] then [Signal(publisher.sync[0], noValue)]
                             else if j == 0 then [] else [Signal(publisher.later[0], noValue)]
    {
      match publisher.later[j] {
      case Failed(e) =>
        callbacks := callbacks + [Failure(e)];
        live := false;
      case Finished =>
        callbacks := callbacks + [Failure(noValue)];
        live := false;
      case Value(v) =>
        callbacks := callbacks + [Success(v)];
        didReceiveValue := true;
        if cancellable {
          live := false;
        }
      }
      j := j + 1;
    }
    subscribed := live;
  }

  /** `asFuture()`: the Future's closure runs at once and subscribes; the Future keeps only the
      first `promise` call. Its resolution is the first signal for every stream, and the
      subscription is released once the stream has signalled. */
  method AsFuture<V, E>(publisher: Stream<V, E>, noValue: E)
    returns (future: Option<Result<V, E>>, subscribed: bool)
    ensures future == FirstResult(publisher, noValue)
    ensures subscribed <==> publisher.sync == [] && publisher.later == []
  {
    var cancellable := false;
    future := None;
    var didReceiveValue := false;
    var live := true;
    var i := 0;
    while i < |publisher.sync| && live
      decreases |publisher.sync| - i
      invariant 0 <= i <= |publisher.sync|
      invariant !cancellable
      invariant i == 0 ==> live && !didReceiveValue && future == None
      invariant i > 0 ==> (didReceiveValue || !live) && future == Some(Signal(publisher.sync[0], noValue))
    {
      var promised: Option<Result<V, E>> := None;
      match publisher.sync[i] {
      case Failed(e) =>
        promised := Some(Failure(e));
        cancellable := false;
        live := false;
      case Finished =>
        if !didReceiveValue {
          promised := Some(Failure(noValue));
        }
        cancellable := false;
        live := false;
      case Value(v) =>
        promised := Some(Success(v));
        didReceiveValue := true;
        if cancellable {
          live := false;
        }
      }
      if future.None? {
        future := promised;
      }
      i := i + 1;
    }
    cancellable := true;
    if didReceiveValue {
      if cancellable {
        live := false;
      }
      cancellable := false;
    }
    var j := 0;
    while j < |publisher.later| && live
      decreases |publisher.later| - j
      invariant 0 <= j <= |publisher.later|
      invariant live ==> j == 0 && cancellable && !didReceiveValue && publisher.sync == [] && future == None
      invariant j > 0 ==> !live
      invariant j == 0 ==> (live <==> publisher.sync == [])
      invariant publisher.sync != [] ==> !live
      invariant future == if publisher.sync != [] then Some(Signal(publisher.sync[0], noValue))
                          else if j == 0 then None else Some(Signal(publisher.later[0], noValue))
    {
      var promised: Option<Result<V, E>> := None;
      match publisher.later[j] {
      case Failed(e) =>
        promised := Some(Failure(e));
        live := false;
      case Finished =>
        if !didReceiveValue {
          promised := Some(Failure(noValue));
        }
        live := false;
      case Value(v) =>
        promised := Some(Success(v));
        didReceiveValue := true;
        if cancellable {
          live := false;
        }
      }
      if future.None? {
        future := promised;
      }
      j := j + 1;
    }
    subscribed := live;
  }

  /** What `watch(with:)` does with the events its downstream subscriber is delivered: `passed`
      is what the downstream receives, `calls` the arguments `block` was called with. */
  datatype Tap<V, E> = Tap(passed: seq<Ev<V, E>>, calls: seq<V>)

  /** `watch(with:)`: a `map` that calls `block` on each value and returns it. Values and
      completions pass through unchanged, and `block` sees exactly the delivered values. */
  function Watch<V, E>(delivered: seq<Ev<V, E>>): (r: Tap<V, E>)
    ensures r.passed == delivered
    ensures |r.calls| <= |delivered|
    ensures forall k :: 0 <= k < |r.calls| ==> Value(r.calls[k]) in delivered
    ensures forall k :: 0 <= k < |delivered| && delivered[k].Value? ==> delivered[k].value in r.calls
  {
    if delivered == [] then Tap([], [])
    else
      var rest := Watch(delivered[1..]);
      assert delivered == [delivered[0]] + delivered[1..];
      match delivered[0]
      case Value(v) => Tap([Value(v)] + rest.passed, [v] + rest.calls)
      case Finished => Tap([Finished] + rest.passed, rest.calls)
      case Failed(e) => Tap([Failed(e)] + rest.passed, rest.calls)
  }

  /** `block` runs as events arrive: the calls for a longer delivery extend those for its
      prefix, in delivery order. */
  lemma {:induction false} WatchCallsInOrder<V, E>(a: seq<Ev<V, E>>, b: seq<Ev<V, E>>)
    ensures Watch(a + b).calls == Watch(a).calls + Watch(b).calls
  {
    if a != [] {
      assert (a + b)[1..] == a[1..] + b;
      WatchCallsInOrder(a[1..], b);
    } else {
      assert a + b == b;
    }
  }

  /** How a Future publishes to a subscriber: its value then a completion, or its failure;
      nothing while it is pending. `resolvedBeforeWait` says whether it had already resolved
      when the subscriber attached (then it delivers during `sink`). */
  function FutureStream<V, E>(future: Option<Result<V, E>>, resolvedBeforeWait: bool): Stream<V, E>
  {
    var evs: seq<Ev<V, E>> :=
      match future
      case None => []
      case Some(Success(v)) => [Value(v), Finished]
      case Some(Failure(e)) => [Failed(e)];
    if resolvedBeforeWait then Stream(evs, []) else Stream([], evs)
  }

  /** `Future.wait()`: `receiveOnce` on the Future, each callback resuming the continuation. It
      resumes exactly once, with the Future's result, and stays suspended while it is pending. */
  method Wait<V, E>(future: Option<Result<V, E>>, resolvedBeforeWait: bool, noValue: E)
    returns (r: Resumption<V, E>)
    ensures r == if future.None? then Suspended else Resumed(future.value)
  {
    var callbacks, _ := ReceiveOnce(FutureStream(future, resolvedBeforeWait), noValue);
    var s := FutureStream(future, resolvedBeforeWait);
    ReceiveOnceIsSingleShot(s, noValue);
    r := Resume(callbacks);
  }
}
