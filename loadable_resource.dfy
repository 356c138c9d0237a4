/** The newer client API of Sources/ResourceLoadable/LoadableResource.swift: a resource opens
    through the resource center, and the three `openOnce` variants put a single-shot bridge on
    top of that stream. A resource's type-level `category` is the `category` field of
    `Resource`; the loader's `load` is the function parameter `load`. */
module LoadableResource {
  import opened Wrappers
  import opened Categories
  import opened Contracts
  import opened Streams
  import opened Registry
  import opened Monitor
  import opened CombineUtils
  import opened Center

  /** The stream `open(with:)` yields for `resource` against the loader table `table`. */
  function Opened<X, V>(table: map<Category, Loader>, resource: Resource, extraData: X,
                        load: (Loader, Resource, X) -> Stream<V, Error>): Stream<V, Error>
  {
    Dispatch(table, resource, extraData, load, MissError(resource.category))
  }

  /** `open(with:)`: asks the center, which records a miss event when no loader serves the
      category. */
  method Open<X, V>(center: ResourceCenter, resource: Resource, extraData: X,
                    load: (Loader, Resource, X) -> Stream<V, Error>)
    returns (publisher: Stream<V, Error>)
    requires center.monitor.Valid()
    modifies center.monitor`recorded, center.monitor`received
    ensures center.monitor.Valid()
    ensures publisher == Opened(center.registerLoaderMap, resource, extraData, load)
    ensures center.monitor.recorded ==
              old(center.monitor.recorded) + DispatchEvents(center.registerLoaderMap, resource.category)
    ensures center.monitor.received == old(center.monitor.received) +
              Deliveries(center.monitor.arrObservers, DispatchEvents(center.registerLoaderMap, resource.category))
  {
    publisher := center.Load(resource, extraData, load);
  }

  /** `openOnce(_:)` returning a Future: resolves with the first signal of the opened stream. */
  method OpenOnceFuture<X, V>(center: ResourceCenter, resource: Resource, extraData: X,
                              load: (Loader, Resource, X) -> Stream<V, Error>)
    returns (future: Option<Result<V, Error>>)
    requires center.monitor.Valid()
    modifies center.monitor`recorded, center.monitor`received
    ensures center.monitor.Valid()
    ensures future == FirstResult(Opened(center.registerLoaderMap, resource, extraData, load), NoValue)
    ensures center.monitor.recorded ==
              old(center.monitor.recorded) + DispatchEvents(center.registerLoaderMap, resource.category)
    ensures center.monitor.received == old(center.monitor.received) +
              Deliveries(center.monitor.arrObservers, DispatchEvents(center.registerLoaderMap, resource.category))
  {
    var publisher := Open(center, resource, extraData, load);
    var subscribed;
    future, subscribed := AsFuture(publisher, NoValue);
  }

  /** `openOnce(_:callback:)`: `receiveOnce` on the opened stream. */
  method OpenOnce<X, V>(center: ResourceCenter, resource: Resource, extraData: X,
                        load: (Loader, Resource, X) -> Stream<V, Error>)
    returns (callbacks: seq<Result<V, Error>>)
    requires center.monitor.Valid()
    modifies center.monitor`recorded, center.monitor`received
    ensures center.monitor.Valid()
    ensures callbacks == ReceiveOnceResults(Opened(center.registerLoaderMap, resource, extraData, load), NoValue)
    ensures center.monitor.recorded ==
              old(center.monitor.recorded) + DispatchEvents(center.registerLoaderMap, resource.category)
    ensures center.monitor.received == old(center.monitor.received) +
              Deliveries(center.monitor.arrObservers, DispatchEvents(center.registerLoaderMap, resource.category))
  {
    var publisher := Open(center, resource, extraData, load);
    var subscribed;
    callbacks, subscribed := ReceiveOnce(publisher, NoValue);
  }

  /** `openOnce(_:) async throws`: every callback of `openOnce(_:callback:)` resumes the checked
      continuation. */
  method OpenOnceAsync<X, V>(center: ResourceCenter, resource: Resource, extraData: X,
                             load: (Loader, Resource, X) -> Stream<V, Error>)
    returns (r: Resumption<V, Error>)
    requires center.monitor.Valid()
    modifies center.monitor`recorded, center.monitor`received
    ensures center.monitor.Valid()
    ensures r == Resume(ReceiveOnceResults(Opened(center.registerLoaderMap, resource, extraData, load), NoValue))
    ensures center.monitor.recorded ==
              old(center.monitor.recorded) + DispatchEvents(center.registerLoaderMap, resource.category)
    ensures center.monitor.received == old(center.monitor.received) +
              Deliveries(center.monitor.arrObservers, DispatchEvents(center.registerLoaderMap, resource.category))
  {
    var callbacks := OpenOnce(center, resource, extraData, load);
    r := Resume(callbacks);
  }

  /** Without a loader for the category, every single-shot variant reports
      `noLoaderForResource(category)` at once: the Future is resolved, the callback made once,
      the awaiting caller resumed with that error. */
  lemma NoLoaderFailsOnce<X, V>(table: map<Category, Loader>, resource: Resource, extraData: X,
                                load: (Loader, Resource, X) -> Stream<V, Error>)
    requires resource.category !in table
    ensures FirstResult(Opened(table, resource, extraData, load), NoValue) ==
              Some(Failure(LoadResource(NoLoaderForResource(resource.category))))
    ensures ReceiveOnceResults(Opened(table, resource, extraData, load), NoValue) ==
              [Failure(LoadResource(NoLoaderForResource(resource.category)))]
    ensures Resume(ReceiveOnceResults(Opened(table, resource, extraData, load), NoValue)) ==
              Resumed(Failure(LoadResource(NoLoaderForResource(resource.category))))
  {
    var s := Opened(table, resource, extraData, load);
    assert s.sync == [Failed(MissError(resource.category))];
    assert s.sync[1..] == [];
  }

  /** With a loader registered, opening passes the loader's own stream through, so every
      single-shot variant sees exactly what the loader delivers. */
  lemma LoaderStreamPassesThrough<X, V>(table: map<Category, Loader>, resource: Resource, extraData: X,
                                        load: (Loader, Resource, X) -> Stream<V, Error>)
    requires resource.category in table
    ensures FirstResult(Opened(table, resource, extraData, load), NoValue) ==
              FirstResult(load(table[resource.category], resource, extraData), NoValue)
    ensures ReceiveOnceResults(Opened(table, resource, extraData, load), NoValue) ==
              ReceiveOnceResults(load(table[resource.category], resource, extraData), NoValue)
  {
  }

  /** The callback overload and the Future overload agree: the callback overload reports first
      what the Future resolves to, and reports nothing exactly when the Future stays pending. */
  lemma CallbackAgreesWithFuture<V>(s: Stream<V, Error>)
    ensures ReceiveOnceResults(s, NoValue) == [] <==> FirstResult(s, NoValue).None?
    ensures ReceiveOnceResults(s, NoValue) != [] ==> ReceiveOnceResults(s, NoValue)[0] == FirstResult(s, NoValue).value
  {
    ReceiveOnceStartsWithFirstResult(s, NoValue);
  }

  /** The async overload resumes with the Future's result whenever at most one signal arrives
      during `sink`, and stays suspended exactly while the Future is pending. */
  lemma AsyncResumesWithFirstResult<V>(s: Stream<V, Error>)
    requires forall k :: 1 <= k < |s.sync| ==> s.sync[k] == Finished
    ensures Resume(ReceiveOnceResults(s, NoValue)) ==
              if FirstResult(s, NoValue).None? then Suspended else Resumed(FirstResult(s, NoValue).value)
  {
    ReceiveOnceIsSingleShot(s, NoValue);
  }

  /** A loader whose stream delivers two values during `sink` makes the async overload resume its
      checked continuation twice. */
  lemma AsyncTwoSynchronousValues<V>(a: V, b: V)
    ensures Resume(ReceiveOnceResults(Stream([Value(a), Value(b)], []), NoValue)) == Misuse
  {
    ReceiveOnceTwoSynchronousValues(a, b, NoValue);
  }
}
