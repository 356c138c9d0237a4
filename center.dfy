/** `ResourceCenter` of Sources/ResourceLoadable/ResourceCenter.swift, the registry of the newer
    API generation, with its `LoadResourceError`. The process-wide `ResourceMonitor.shared` it
    reports to is an explicit monitor object here. */
module Center {
  import opened Categories
  import opened Contracts
  import opened Streams
  import opened Registry
  import opened Monitor

  datatype LoadResourceError = NoLoaderForResource(category: Category)
                             | NoValueReceiveWhenCompletion
                             | ResourceTypeError

  /** An `Error` as callers of this generation receive it: one of the library's own, or one a
      loader's stream failed with (identified by a code, since loaders are not modelled). */
  datatype Error = LoadResource(reason: LoadResourceError) | Raised(code: nat)

  /** The error a single-shot bridge reports for a completion without a value. */
  const NoValue: Error := LoadResource(NoValueReceiveWhenCompletion)

  /** The error of the stream returned when no loader serves `category`. */
  function MissError(category: Category): Error
  {
    LoadResource(NoLoaderForResource(category))
  }

  class ResourceCenter {
    var registerLoaderMap: map<Category, Loader>
    const monitor: ResourceMonitor

    constructor (monitor: ResourceMonitor)
      ensures registerLoaderMap == map[] && this.monitor == monitor
    {
      registerLoaderMap := map[];
      this.monitor := monitor;
    }

    /** `registerLoader(_:)`: visits the loader's categories in some order (`order`, the order of
        Swift's `Set`); for each, records a duplicate event when the slot is taken, overwrites the
        slot and records the added event. The table ends up the same in every order. */
    method RegisterLoader(resourceLoader: Loader) returns (ghost order: seq<Category>)
      requires monitor.Valid()
      modifies this`registerLoaderMap, monitor`recorded, monitor`received
      ensures monitor.Valid()
      ensures IsEnumeration(order, resourceLoader.categories)
      ensures registerLoaderMap == Registered(old(registerLoaderMap), resourceLoader, resourceLoader.categories)
      ensures monitor.recorded == old(monitor.recorded) + RegisterEvents(old(registerLoaderMap), resourceLoader, order)
      ensures monitor.received == old(monitor.received) +
                Deliveries(monitor.arrObservers, RegisterEvents(old(registerLoaderMap), resourceLoader, order))
    {
      var remaining := resourceLoader.categories;
      order := [];
      ghost var visited: set<Category> := {};
      ghost var m0 := registerLoaderMap;
      ghost var recorded0, received0 := monitor.recorded, monitor.received;
      while remaining != {}
        invariant monitor.Valid()
        invariant visited !! remaining && visited + remaining == resourceLoader.categories
        invariant IsEnumeration(order, visited)
        invariant registerLoaderMap == Registered(m0, resourceLoader, visited)
        invariant monitor.recorded == recorded0 + RegisterEvents(m0, resourceLoader, order)
        invariant monitor.received == received0 + Deliveries(monitor.arrObservers, RegisterEvents(m0, resourceLoader, order))
        decreases remaining
      {
        var category :| category in remaining;
        ghost var before := RegisterEvents(m0, resourceLoader, order);
        ghost var block := Block(m0, resourceLoader, category);
        ghost var entries := monitor.arrObservers;
        assert Block(registerLoaderMap, resourceLoader, category) == block by {
          RegisteredSnoc(m0, resourceLoader, visited, category);
        }
        RegisterCategory(resourceLoader, category);
        assert registerLoaderMap == Registered(m0, resourceLoader, visited + {category}) by {
          RegisteredSnoc(m0, resourceLoader, visited, category);
        }
        assert IsEnumeration(order + [category], visited + {category}) by {
          EnumerationSnoc(order, visited, category);
        }
        assert monitor.recorded == recorded0 + RegisterEvents(m0, resourceLoader, order + [category]) by {
          RegisterEventsSnoc(m0, resourceLoader, order, category);
          LogExtended(recorded0, before, block);
        }
        assert monitor.received == received0 + Deliveries(entries, RegisterEvents(m0, resourceLoader, order + [category])) by {
          RegisterEventsSnoc(m0, resourceLoader, order, category);
          DeliveriesAppend(entries, before, block);
          LogExtended(received0, Deliveries(entries, before), Deliveries(entries, block));
        }
        remaining := remaining - {category};
        visited := visited + {category};
        order := order + [category];
      }
      assert visited == resourceLoader.categories;
    }

    /** The body `forEach` runs for one category: a duplicate event if the slot is taken, the
        slot overwritten, then the added event. */
    method RegisterCategory(resourceLoader: Loader, category: Category)
      requires monitor.Valid()
      modifies this`registerLoaderMap, monitor`recorded, monitor`received
      ensures monitor.Valid()
      ensures registerLoaderMap == old(registerLoaderMap)[category := resourceLoader]
      ensures monitor.recorded == old(monitor.recorded) + Block(old(registerLoaderMap), resourceLoader, category)
      ensures monitor.received == old(monitor.received) +
                Deliveries(monitor.arrObservers, Block(old(registerLoaderMap), resourceLoader, category))
    {
      ghost var entries, m := monitor.arrObservers, registerLoaderMap;
      ghost var duplicates: seq<ResourceEvent> := if category in m then [Duplicate(m[category], resourceLoader)] else [];
      ghost var recorded0, received0 := monitor.recorded, monitor.received;
      BlockDeliveries(entries, m, resourceLoader, category);
      if category in registerLoaderMap {
        monitor.Record(Duplicate(registerLoaderMap[category], resourceLoader));
      }
      assert monitor.recorded == recorded0 + duplicates;
      assert monitor.received == received0 + (if category in m then Fanout(entries, duplicates[0]) else []);
      registerLoaderMap := registerLoaderMap[category := resourceLoader];
      monitor.Record(Added(resourceLoader, category));
      LogExtended(recorded0, duplicates, [Added(resourceLoader, category)]);
      LogExtended(received0, if category in m then Fanout(entries, duplicates[0]) else [],
                  Fanout(entries, Added(resourceLoader, category)));
    }

    /** `load(_:with:)`: a registered loader's stream is returned as it is and nothing is
        recorded; otherwise one miss event is recorded and the returned subject has already
        failed with `noLoaderForResource(category)`. The table is never changed. */
    method Load<X, V>(resource: Resource, extraData: X, load: (Loader, Resource, X) -> Stream<V, Error>)
      returns (publisher: Stream<V, Error>)
      requires monitor.Valid()
      modifies monitor`recorded, monitor`received
      ensures monitor.Valid()
      ensures registerLoaderMap == old(registerLoaderMap)
      ensures publisher == Dispatch(registerLoaderMap, resource, extraData, load, MissError(resource.category))
      ensures monitor.recorded == old(monitor.recorded) + DispatchEvents(registerLoaderMap, resource.category)
      ensures monitor.received == old(monitor.received) +
                Deliveries(monitor.arrObservers, DispatchEvents(registerLoaderMap, resource.category))
    {
      if resource.category in registerLoaderMap {
        return load(registerLoaderMap[resource.category], resource, extraData);
      }
      monitor.Record(Missed(resource.category));
      ghost var missed: seq<ResourceEvent> := [Missed(resource.category)];
      assert missed[..0] == [];
      publisher := Stream([Failed(MissError(resource.category))], []);
    }
  }

  /** What recording one category's block delivers. */
  lemma BlockDeliveries(entries: seq<Observer>, m: map<Category, Loader>, p: Loader, c: Category)
    ensures Deliveries(entries, Block(m, p, c)) ==
              (if c in m then Fanout(entries, Duplicate(m[c], p)) else []) + Fanout(entries, Added(p, c))
  {
    var added := Added(p, c);
    var one: seq<ResourceEvent> := [added];
    assert one[..0] == [];
    assert Deliveries(entries, one) == Fanout(entries, added);
    if c in m {
      var dup := Duplicate(m[c], p);
      var two: seq<ResourceEvent> := [dup, added];
      assert Block(m, p, c) == two;
      assert two[..1] == [dup] && [dup][..0] == [];
      assert Deliveries(entries, [dup]) == Fanout(entries, dup);
    } else {
      assert Block(m, p, c) == one;
    }
  }
}
