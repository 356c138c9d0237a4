/** `ResourceManager` of Sources/ResourceLoadable/ResourceManager.swift, the registry of the older
    API generation (handlers instead of loaders), with its own `LoadResourceError`. The events it
    passes to `record` name handlers, which the monitor's event type has no case for, so the
    manager keeps them in a log of its own. */
module Manager {
  import opened Categories
  import opened Contracts
  import opened Streams
  import opened Registry

  datatype LoadResourceError = NoHandlerForResource(category: Category)
                             | NoValueReceiveWhenCompletion
                             | ResourceTypeError

  /** An `Error` as callers of this generation receive it: one of the library's own, or one a
      handler's stream failed with (identified by a code, since handlers are not modelled). */
  datatype Error = LoadResource(reason: LoadResourceError) | Raised(code: nat)

  /** The error a single-shot bridge reports for a completion without a value. */
  const NoValue: Error := LoadResource(NoValueReceiveWhenCompletion)

  /** The error of the stream returned when no handler serves `category`. */
  function MissError(category: Category): Error
  {
    LoadResource(NoHandlerForResource(category))
  }

  type HandlerEvent = Event<Handler>

  class ResourceManager {
    var registerHandlerMap: map<Category, Handler>
    ghost var recorded: seq<HandlerEvent>

    constructor ()
      ensures registerHandlerMap == map[] && recorded == []
    {
      registerHandlerMap := map[];
      recorded := [];
    }

    /** `registerHandler(_:)`: visits the handler's categories in some order (`order`); for each,
        logs a duplicate event when the slot is taken, overwrites the slot and logs the added
        event. The table ends up the same in every order. */
    method RegisterHandler(resourceHandler: Handler) returns (ghost order: seq<Category>)
      modifies this`registerHandlerMap, this`recorded
      ensures IsEnumeration(order, resourceHandler.handlerCategorys)
      ensures registerHandlerMap == Registered(old(registerHandlerMap), resourceHandler, resourceHandler.handlerCategorys)
      ensures recorded == old(recorded) + RegisterEvents(old(registerHandlerMap), resourceHandler, order)
    {
      var remaining := resourceHandler.handlerCategorys;
      order := [];
      ghost var visited: set<Category> := {};
      ghost var m0, recorded0 := registerHandlerMap, recorded;
      while remaining != {}
        invariant visited !! remaining && visited + remaining == resourceHandler.handlerCategorys
        invariant IsEnumeration(order, visited)
        invariant registerHandlerMap == Registered(m0, resourceHandler, visited)
        invariant recorded == recorded0 + RegisterEvents(m0, resourceHandler, order)
        decreases remaining
      {
        var category :| category in remaining;
        ghost var before := RegisterEvents(m0, resourceHandler, order);
        assert Block(registerHandlerMap, resourceHandler, category) == Block(m0, resourceHandler, category) by {
          RegisteredSnoc(m0, resourceHandler, visited, category);
        }
        RegisterCategory(resourceHandler, category);
        assert registerHandlerMap == Registered(m0, resourceHandler, visited + {category}) by {
          RegisteredSnoc(m0, resourceHandler, visited, category);
        }
        assert IsEnumeration(order + [category], visited + {category}) by {
          EnumerationSnoc(order, visited, category);
        }
        assert recorded == recorded0 + RegisterEvents(m0, resourceHandler, order + [category]) by {
          RegisterEventsSnoc(m0, resourceHandler, order, category);
          LogExtended(recorded0, before, Block(m0, resourceHandler, category));
        }
        remaining := remaining - {category};
        visited := visited + {category};
        order := order + [category];
      }
      assert visited == resourceHandler.handlerCategorys;
    }

    /** The body `forEach` runs for one category: a duplicate event if the slot is taken, the
        slot overwritten, then the added event. */
    method RegisterCategory(resourceHandler: Handler, category: Category)
      modifies this`registerHandlerMap, this`recorded
      ensures registerHandlerMap == old(registerHandlerMap)[category := resourceHandler]
      ensures recorded == old(recorded) + Block(old(registerHandlerMap), resourceHandler, category)
    {
      ghost var recorded0, m := recorded, registerHandlerMap;
      if category in registerHandlerMap {
        recorded := recorded + [Duplicate(registerHandlerMap[category], resourceHandler)];
      }
      registerHandlerMap := registerHandlerMap[category := resourceHandler];
      recorded := recorded + [Added(resourceHandler, category)];
      LogExtended(recorded0, if category in m then [Duplicate(m[category], resourceHandler)] else [],
                  [Added(resourceHandler, category)]);
    }

    /** `load(_:with:)`: a registered handler's stream is returned as it is and nothing is
        logged; otherwise one miss event is logged and the returned subject has already failed
        with `noHandlerForResource(category)`. The table is never changed. */
    method Load<X, V>(resource: Resource, extraData: X, load: (Handler, Resource, X) -> Stream<V, Error>)
      returns (publisher: Stream<V, Error>)
      modifies this`recorded
      ensures registerHandlerMap == old(registerHandlerMap)
      ensures publisher == Dispatch(registerHandlerMap, resource, extraData, load, MissError(resource.category))
      ensures recorded == old(recorded) + DispatchEvents(registerHandlerMap, resource.category)
    {
      if resource.category in registerHandlerMap {
        return load(registerHandlerMap[resource.category], resource, extraData);
      }
      recorded := recorded + [Missed(resource.category)];
      publisher := Stream([Failed(MissError(resource.category))], []);
    }
  }
}
