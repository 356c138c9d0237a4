/** The repository's own test cases (Tests/ResourceLoadableTests/ResourceLoadableTests.swift),
    replayed against fresh monitor, center and manager objects in place of the shared
    singletons. Loaders are identified by number; a file loader serves `File` with a
    `CurrentValueSubject` that holds the file name, a pass-through loader with a subject that
    completes later. */
module Scenarios {
  import opened Wrappers
  import opened Categories
  import opened Contracts
  import opened Streams
  import opened Registry
  import opened Monitor
  import opened CombineUtils
  import opened Center
  import opened LoadableResource

  /** What the test observer's flag records: some delivery was a duplicate registration. */
  ghost predicate SawDuplicate(received: seq<Delivery>)
  {
    exists k :: 0 <= k < |received| && received[k].event.Duplicate?
  }

  /** What the other test observer's flag records: some delivery was a lookup miss. */
  ghost predicate SawMiss(received: seq<Delivery>)
  {
    exists k :: 0 <= k < |received| && received[k].event.Missed?
  }

  /** The stream a file loader returns: its subject already holds the file name. */
  function FileLoad(loader: Loader, resource: Resource, extraData: ()): Stream<string, Error>
  {
    Stream([Value(resource.name)], [])
  }

  /** The stream a pass-through loader returns: nothing during `sink`, then a bare completion. */
  function PassthroughLoad(loader: Loader, resource: Resource, extraData: ()): Stream<string, Error>
  {
    Stream([], [Finished])
  }

  /** One live observer sees exactly one delivery per recorded event. */
  lemma OneObserverFanout(o: ObserverRef, id: int, event: ResourceEvent)
    ensures Fanout([Observer(id, Some(o))], event) == [Delivery(o, event)]
  {
    var entries := [Observer(id, Some(o))];
    assert entries[..0] == [];
  }

  /** `testDuplicateRegistration`: registering the same file loader twice; the observer sees
      no duplicate after the first registration and one after the second. */
  method DuplicateRegistration() returns (ghost afterFirst: bool, ghost afterSecond: bool)
    ensures !afterFirst && afterSecond
  {
    var monitor := new ResourceMonitor();
    var center := new ResourceCenter(monitor);
    var cancellable := monitor.AddObserver(1);
    var fileLoader := Loader(1, {File});
    ghost var first := center.RegisterLoader(fileLoader);
    EnumerationOfSingleton(first, File);
    assert [File][..0] == [];
    OneObserverFanout(1, 1, Added(fileLoader, File));
    assert monitor.received == [Delivery(1, Added(fileLoader, File))];
    afterFirst := SawDuplicate(monitor.received);
    ghost var second := center.RegisterLoader(fileLoader);
    EnumerationOfSingleton(second, File);
    ghost var block := Block(map[File := fileLoader], fileLoader, File);
    assert block == [Duplicate(fileLoader, fileLoader), Added(fileLoader, File)];
    assert block[..1] == [Duplicate(fileLoader, fileLoader)] && block[..1][..0] == [];
    OneObserverFanout(1, 1, Duplicate(fileLoader, fileLoader));
    assert monitor.received[1] == Delivery(1, Duplicate(fileLoader, fileLoader));
    afterSecond := SawDuplicate(monitor.received);
    monitor.Cancel(cancellable);
  }

  /** `testErrorNoHandlerWhenOpenResourceOnce`: with no loader registered, `openOnce` calls back
      once with `noLoaderForResource(.file)` and the observer sees the miss. */
  method NoLoaderOpenOnce(fileName: string) returns (callbacks: seq<Result<string, Error>>, ghost noHandlerErrorCall: bool)
    ensures callbacks == [Failure(LoadResource(NoLoaderForResource(File)))]
    ensures noHandlerErrorCall
  {
    var monitor := new ResourceMonitor();
    var center := new ResourceCenter(monitor);
    var cancellable := monitor.AddObserver(1);
    var resource := Resource(File, fileName);
    NoLoaderFailsOnce(center.registerLoaderMap, resource, (), FileLoad);
    callbacks := OpenOnce(center, resource, (), FileLoad);
    OneObserverFanout(1, 1, Missed(File));
    var missed: seq<ResourceEvent> := [Missed(File)];
    assert missed[..0] == [];
    assert monitor.received == [Delivery(1, Missed(File))];
    assert monitor.received[0].event.Missed?;
    noHandlerErrorCall := SawMiss(monitor.received);
    monitor.Cancel(cancellable);
  }

  /** `testOpenResourceOnce` and `testOpenResourceOnceAsync`: with the file loader registered,
      `openOnce` calls back at once with the file name, and the async overload returns it. */
  method OpenResourceOnce(fileName: string)
    returns (callbacks: seq<Result<string, Error>>, awaited: Resumption<string, Error>)
    ensures callbacks == [Success(fileName)]
    ensures awaited == Resumed(Success(fileName))
  {
    var monitor := new ResourceMonitor();
    var center := new ResourceCenter(monitor);
    var fileLoader := Loader(1, {File});
    ghost var order := center.RegisterLoader(fileLoader);
    var resource := Resource(File, fileName);
    EnumerationOfSingleton(order, File);
    var sync: seq<Ev<string, Error>> := [Value(fileName)];
    assert sync[1..] == [];
    assert Opened(center.registerLoaderMap, resource, (), FileLoad) == Stream(sync, []);
    assert SyncCallbacks(sync, NoValue, false) == [Success(fileName)] + SyncCallbacks(sync[1..], NoValue, true);
    callbacks := OpenOnce(center, resource, (), FileLoad);
    awaited := OpenOnceAsync(center, resource, (), FileLoad);
  }

  /** `testNoResponseWhenOpenResourceOnce`: with the pass-through loader registered, nothing is
      reported until the subject completes, and then `noValueReceiveWhenCompletion` is. */
  method NoResponseOpenOnce(fileName: string) returns (callbacks: seq<Result<string, Error>>)
    ensures callbacks == [Failure(LoadResource(NoValueReceiveWhenCompletion))]
  {
    var monitor := new ResourceMonitor();
    var center := new ResourceCenter(monitor);
    var passthroughLoader := Loader(2, {File});
    ghost var order := center.RegisterLoader(passthroughLoader);
    var resource := Resource(File, fileName);
    callbacks := OpenOnce(center, resource, (), PassthroughLoad);
  }

  /** An observer attached to the monitor receives the one event of a single-category
      registration; once its subscription is cancelled, a further registration delivers it
      nothing. */
  method ObserverLifecycle() returns (ghost whileObserving: nat, ghost afterCancel: nat)
    ensures whileObserving == 1 && afterCancel == 0
  {
    var monitor := new ResourceMonitor();
    var center := new ResourceCenter(monitor);
    var cancellable := monitor.AddObserver(1);
    var fileLoader := Loader(1, {File});
    ghost var first := center.RegisterLoader(fileLoader);
    EnumerationOfSingleton(first, File);
    assert [File][..0] == [];
    OneObserverFanout(1, 1, Added(fileLoader, File));
    assert monitor.received == [Delivery(1, Added(fileLoader, File))];
    whileObserving := |monitor.received|;
    monitor.Cancel(cancellable);
    assert monitor.arrObservers == [] by {
      assert WithoutId([Observer(1, Some(1))], 1) == WithoutId([], 1);
    }
    ghost var before, table := monitor.received, center.registerLoaderMap;
    var webLoader := Loader(2, {Web});
    ghost var second := center.RegisterLoader(webLoader);
    DeliveriesWithoutObservers(RegisterEvents(table, webLoader, second));
    assert monitor.received == before + [];
    afterCancel := |monitor.received| - |before|;
  }
}
