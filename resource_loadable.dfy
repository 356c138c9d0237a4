/** The older client API of Sources/ResourceLoadable/ResourceLoadable.swift: a resource opens
    through the resource manager, and `openOnce` is an inline pair of `sink` closures that, unlike
    `receiveOnce`, never releases its subscription after `sink` returns. */
module ResourceLoadable {
  import opened Categories
  import opened Contracts
  import opened Streams
  import opened Registry
  import opened CombineUtils
  import opened Manager

  /** The callbacks the inline `openOnce` makes: every synchronous signal up to the first
      completion, then, if the subscription is still open, the first later signal. Its first
      later value cancels the subscription, which is stored by then. */
  function LegacyResults<V, E>(s: Stream<V, E>, noValue: E): seq<Result<V, E>>
  {
    SyncCallbacks(s.sync, noValue, false) +
    (if HasCompletion(s.sync) || s.later == [] then []
     else SyncCallbacks([s.later[0]], noValue, HasValue(s.sync)))
  }

  /** Whether the inline `openOnce` still holds a live subscription when nothing more arrives:
      exactly when no completion came during `sink` and nothing came after. */
  predicate LegacyStaysSubscribed<V, E>(s: Stream<V, E>)
  {
    !HasCompletion(s.sync) && s.later == []
  }

  lemma HasValueSnoc<V, E>(evs: seq<Ev<V, E>>, ev: Ev<V, E>)
    ensures HasValue(evs + [ev]) <==> HasValue(evs) || ev.Value?
    ensures HasCompletion(evs + [ev]) <==> HasCompletion(evs) || !ev.Value?
  {
    var evs' := evs + [ev];
    if HasValue(evs) {
      var k :| 0 <= k < |evs| && evs[k].Value?;
      assert evs'[k] == evs[k];
    }
    if HasCompletion(evs) {
      var k :| 0 <= k < |evs| && !evs[k].Value?;
      assert evs'[k] == evs[k];
    }
    assert evs'[|evs|] == ev;
    if HasValue(evs') && !ev.Value? {
      var k :| 0 <= k < |evs'| && evs'[k].Value?;
      assert k < |evs| && evs[k] == evs'[k];
    }
    if HasCompletion(evs') && ev.Value? {
      var k :| 0 <= k < |evs'| && !evs'[k].Value?;
      assert k < |evs| && evs[k] == evs'[k];
    }
  }

  /** The inline `openOnce` bridge: `cancellable` is still nil while `sink` runs, so a value then
      cancels nothing; a later value cancels the stored subscription. */
  method OpenOnceBridge<V, E>(publisher: Stream<V, E>, noValue: E)
    returns (callbacks: seq<Result<V, E>>, subscribed: bool)
    ensures callbacks == LegacyResults(publisher, noValue)
    ensures subscribed <==> LegacyStaysSubscribed(publisher)
  {
    var cancellable := false;
    var didReceiveValue := false;
    var live := true;
    callbacks := [];
    var i := 0;
    while i < |publisher.sync| && live
      invariant 0 <= i <= |publisher.sync|
      invariant !cancellable
      invariant live ==> !HasCompletion(publisher.sync[..i])
      invariant live ==> (didReceiveValue <==> HasValue(publisher.sync[..i]))
      invariant !live ==> HasCompletion(publisher.sync)
      invariant live ==> callbacks + SyncCallbacks(publisher.sync[i..], noValue, didReceiveValue) ==
                         SyncCallbacks(publisher.sync, noValue, false)
      invariant !live ==> callbacks == SyncCallbacks(publisher.sync, noValue, false)
      decreases |publisher.sync| - i
    {
      assert publisher.sync[i..][1..] == publisher.sync[i + 1..];
      assert publisher.sync[..i + 1] == publisher.sync[..i] + [publisher.sync[i]];
      HasValueSnoc(publisher.sync[..i], publisher.sync[i]);
      {
        match publisher.sync[i]
        case Value(v) =>
          callbacks := callbacks + [Success(v)];
          didReceiveValue := true;
          if cancellable {
            live := false;
          }
        case Finished =>
          if !didReceiveValue {
            callbacks := callbacks + [Failure(noValue)];
          }
          live := false;
        case Failed(e) =>
          callbacks := callbacks + [Failure(e)];
          live := false;
      }
      if !live {
        assert publisher.sync[..i + 1] + publisher.sync[i + 1..] == publisher.sync;
        HasCompletionSplit(publisher.sync[..i + 1], publisher.sync[i + 1..]);
      }
      i := i + 1;
    }
    if live {
      assert publisher.sync[..i] == publisher.sync;
    }
    cancellable := true;
    var j := 0;
    while j < |publisher.later| && live
      invariant 0 <= j <= |publisher.later|
      invariant j > 0 ==> !live && !HasCompletion(publisher.sync)
      invariant j == 0 ==> (live <==> !HasCompletion(publisher.sync))
      invariant live ==> (didReceiveValue <==> HasValue(publisher.sync))
      invariant callbacks == SyncCallbacks(publisher.sync, noValue, false) +
                             (if j == 0 then [] else SyncCallbacks([publisher.later[0]], noValue, HasValue(publisher.sync)))
      decreases |publisher.later| - j
    {
      ghost var late: seq<Ev<V, E>> := [publisher.later[j]];
      assert late[1..] == [];
      {
        match publisher.later[j]
        case Value(v) =>
          callbacks := callbacks + [Success(v)];
          didReceiveValue := true;
          if cancellable {
            live := false;
          }
        case Finished =>
          if !didReceiveValue {
            callbacks := callbacks + [Failure(noValue)];
          }
          live := false;
        case Failed(e) =>
          callbacks := callbacks + [Failure(e)];
          live := false;
      }
      j := j + 1;
    }
    if j == 0 {
      assert SyncCallbacks(publisher.sync, noValue, false) + [] == SyncCallbacks(publisher.sync, noValue, false);
    }
    subscribed := live;
  }

  lemma HasCompletionSplit<V, E>(a: seq<Ev<V, E>>, b: seq<Ev<V, E>>)
    requires HasCompletion(a)
    ensures HasCompletion(a + b)
  {
    var k :| 0 <= k < |a| && !a[k].Value?;
    assert (a + b)[k] == a[k];
  }

  /** The inline bridge reports the first signal first, and reports something exactly when the
      stream signals at all. */
  lemma LegacyStartsWithFirstResult<V, E>(s: Stream<V, E>, noValue: E)
    ensures LegacyResults(s, noValue) == [] <==> FirstResult(s, noValue).None?
    ensures LegacyResults(s, noValue) != [] ==> LegacyResults(s, noValue)[0] == FirstResult(s, noValue).value
  {
    if s.sync != [] {
      SyncCallbacksStartWithSignal(s.sync, noValue);
    } else {
      assert !HasCompletion(s.sync);
      assert !HasValue(s.sync);
      if s.later != [] {
        var first: seq<Ev<V, E>> := [s.later[0]];
        assert first[1..] == [];
      }
    }
  }

  /** When nothing arrives during `sink` the inline bridge is single-shot and ends its
      subscription on the first signal. */
  lemma LegacyOnceWithoutSyncEvents<V, E>(s: Stream<V, E>, noValue: E)
    requires s.sync == []
    ensures LegacyResults(s, noValue) == Once(s, noValue)
    ensures LegacyStaysSubscribed(s) <==> s.later == []
  {
    assert !HasCompletion(s.sync) && !HasValue(s.sync);
    assert SyncCallbacks(s.sync, noValue, false) == [];
    if s.later != [] {
      var first: seq<Ev<V, E>> := [s.later[0]];
      assert first[1..] == [];
      assert LegacyResults(s, noValue) == SyncCallbacks(first, noValue, false);
    }
  }

  /** A value during `sink` followed by a later value (a `CurrentValueSubject` whose value is then
      replaced) makes two callbacks, although the single-shot contract allows one. */
  lemma LegacySyncThenLaterValue<V, E>(a: V, b: V, rest: seq<Ev<V, E>>, noValue: E)
    ensures LegacyResults(Stream([Value(a)], [Value(b)] + rest), noValue) == [Success(a), Success(b)]
    ensures Once(Stream([Value(a)], [Value(b)] + rest), noValue) == [Success(a)]
  {
    var sync: seq<Ev<V, E>> := [Value(a)];
    assert sync[1..] == [];
    assert sync[0].Value? && HasValue(sync);
    assert !HasCompletion(sync);
    var first: seq<Ev<V, E>> := [Value(b)];
    assert first[1..] == [];
    assert ([Value(b)] + rest)[0] == Value(b);
    assert SyncCallbacks(sync, noValue, false) == [Success(a)] + SyncCallbacks(sync[1..], noValue, true);
    assert SyncCallbacks(first, noValue, true) == [Success(b)] + SyncCallbacks(first[1..], noValue, true);
  }

  /** A single value during `sink` is reported once by both bridges, but leaves the inline
      bridge subscribed for good, whereas `receiveOnce` releases the subscription once something
      arrived. */
  lemma LegacyKeepsSubscriptionAfterSyncValue<V, E>(a: V, noValue: E)
    ensures LegacyStaysSubscribed(Stream<V, E>.Stream([Value(a)], []))
    ensures LegacyResults(Stream<V, E>.Stream([Value(a)], []), noValue) == [Success(a)]
    ensures ReceiveOnceResults(Stream<V, E>.Stream([Value(a)], []), noValue) == [Success(a)]
  {
    var sync: seq<Ev<V, E>> := [Value(a)];
    assert sync[1..] == [];
    assert !HasCompletion(sync);
    assert SyncCallbacks(sync, noValue, false) == [Success(a)] + SyncCallbacks(sync[1..], noValue, true);
    assert SyncCallbacks(sync, noValue, false) == [Success(a)];
    assert SyncCallbacks(sync, noValue, false) + [] == [Success(a)];
  }

  /** The stream `open(with:)` yields for `resource` against the handler table `table`. */
  function Opened<X, V>(table: map<Category, Handler>, resource: Resource, extraData: X,
                        load: (Handler, Resource, X) -> Stream<V, Error>): Stream<V, Error>
  {
    Dispatch(table, resource, extraData, load, MissError(resource.category))
  }

  /** `open(with:)`: asks the manager, which logs a miss event when no handler serves the
      category. */
  method Open<X, V>(manager: ResourceManager, resource: Resource, extraData: X,
                    load: (Handler, Resource, X) -> Stream<V, Error>)
    returns (publisher: Stream<V, Error>)
    modifies manager`recorded
    ensures publisher == Opened(manager.registerHandlerMap, resource, extraData, load)
    ensures manager.recorded == old(manager.recorded) + DispatchEvents(manager.registerHandlerMap, resource.category)
  {
    publisher := manager.Load(resource, extraData, load);
  }

  /** `openOnce(_:callback:)`: the inline bridge on the opened stream. */
  method OpenOnce<X, V>(manager: ResourceManager, resource: Resource, extraData: X,
                        load: (Handler, Resource, X) -> Stream<V, Error>)
    returns (callbacks: seq<Result<V, Error>>)
    modifies manager`recorded
    ensures callbacks == LegacyResults(Opened(manager.registerHandlerMap, resource, extraData, load), NoValue)
    ensures manager.recorded == old(manager.recorded) + DispatchEvents(manager.registerHandlerMap, resource.category)
  {
    var publisher := Open(manager, resource, extraData, load);
    var subscribed;
    callbacks, subscribed := OpenOnceBridge(publisher, NoValue);
  }

  /** `openOnce(_:) async throws`: every callback of the inline bridge resumes the checked
      continuation. */
  method OpenOnceAsync<X, V>(manager: ResourceManager, resource: Resource, extraData: X,
                             load: (Handler, Resource, X) -> Stream<V, Error>)
    returns (r: Resumption<V, Error>)
    modifies manager`recorded
    ensures r == Resume(LegacyResults(Opened(manager.registerHandlerMap, resource, extraData, load), NoValue))
    ensures manager.recorded == old(manager.recorded) + DispatchEvents(manager.registerHandlerMap, resource.category)
  {
    var callbacks := OpenOnce(manager, resource, extraData, load);
    r := Resume(callbacks);
  }

  /** Without a handler for the category, `openOnce` reports `noHandlerForResource(category)`
      once and at once, and the async overload resumes with it. */
  lemma NoHandlerFailsOnce<X, V>(table: map<Category, Handler>, resource: Resource, extraData: X,
                                 load: (Handler, Resource, X) -> Stream<V, Error>)
    requires resource.category !in table
    ensures LegacyResults(Opened(table, resource, extraData, load), NoValue) ==
              [Failure(LoadResource(NoHandlerForResource(resource.category)))]
    ensures Resume(LegacyResults(Opened(table, resource, extraData, load), NoValue)) ==
              Resumed(Failure(LoadResource(NoHandlerForResource(resource.category))))
  {
    var s := Opened(table, resource, extraData, load);
    assert s.sync == [Failed(MissError(resource.category))];
    assert s.sync[1..] == [];
    assert !s.sync[0].Value? && HasCompletion(s.sync);
  }

  /** A handler whose stream delivers a value during `sink` and another later makes the async
      overload resume its checked continuation twice. */
  lemma AsyncSyncThenLaterValue<V>(a: V, b: V)
    ensures Resume(LegacyResults(Stream<V, Error>.Stream([Value(a)], [Value(b)]), NoValue)) == Misuse
  {
    var later: seq<Ev<V, Error>> := [Value(b)];
    LegacySyncThenLaterValue(a, b, [], NoValue);
    assert later + [] == later;
  }
}
