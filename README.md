# resource-loadable, modelled in Dafny

The Swift package `ResourceLoadable` lets a client open a *resource* by category. A
category-keyed registry maps each category to the object that serves it: a loader kept by
`ResourceCenter` in the newer API generation, or a handler kept by `ResourceManager` in the older
one. A lookup either returns the registered object's Combine stream or a stream that has already
failed with `noLoaderForResource` / `noHandlerForResource`. A `ResourceMonitor` fans every registry
event (added, duplicate registration, lookup miss) out to the observers still alive. The
single-shot bridges `asFuture`, `receiveOnce`, `Future.wait` and the inline `openOnce` of the older
generation turn a stream into one result.

The model has these modules:

- `Categories`: `ResourceCategory`.
- `Contracts`: resources, loaders and handlers as values identified by object identity.
- `Streams`: a stream as one subscriber sees it, as the events delivered while `sink` runs
  (`sync`) and those delivered after it returns (`later`), together with `Result` and the
  single-shot contract `FirstResult`.
- `Registry`: the specification functions both registry classes are proved against.
- `Monitor`: the `ResourceMonitor` class.
- `Center`, `Manager`: the `ResourceCenter` and `ResourceManager` classes.
- `CombineUtils`: the bridges of `Combine+Utils.swift`, each a method that replays the source's
  closures event by event.
- `LoadableResource`, `ResourceLoadable`: the two client API generations.
- `Scenarios`: the repository's own test cases, replayed on fresh objects.

A resource type's static `category` is the `category` field of `Resource`. A loader's `load` is a
function parameter, since its streams are not visible. Each call to an observer is a `Delivery`
in the monitor's ghost log `received`. The order in which `forEach` visits a Swift `Set` is not
specified, so a registration returns it as a ghost `order`. Every contract about the table holds
for every such order.

The composition layers use the bridges as written. The corrected bridge `ReceiveOnceGuarded`
stands beside them with its single-shot property proved (see Findings).

Where the prose description and the code disagree, the model follows the code:

- The older `openOnce` cancels its subscription at the first value that arrives after `sink`
  returns. It calls back at most once for the later events, not once per later value.
- `ResourceManager` passes events named `addResourceHander` and `noHandlerFoundForResource`
  to `ResourceMonitor.record`, but `ResourceEvent` has no such cases. The manager therefore keeps
  those events in a log of its own and delivers them to no observer.

## Model

| member | source | states |
|---|---|---|
| Categories.ExactlyFourVariants | Sources/ResourceLoadable/ResourceCategory.swift:12-17 | every category is `unknown`, `file`, `web` or `custom(name)` |
| Categories.CustomEquality | Sources/ResourceLoadable/ResourceCategory.swift:12-17 | synthesised equality: `custom(a) == custom(b)` iff `a == b`, and a custom category never equals a well-known one |
| Registry.Registered | Sources/ResourceLoadable/ResourceCenter.swift:22-30 | after registering `p` for `cats`, every declared slot holds `p` and every other slot keeps its presence and occupant |
| Registry.Dispatch | Sources/ResourceLoadable/ResourceCenter.swift:32-40 | a registered category yields the registrant's own stream unchanged; an unregistered one yields a stream whose first event is the miss failure and that never delivers a value |
| Registry.RegisterIdempotent | Sources/ResourceLoadable/ResourceCenter.swift:22-30 | registering the same object twice leaves the same table as registering it once |
| Registry.EnumerationOfSingleton | Sources/ResourceLoadable/ResourceCenter.swift:23 | `forEach` over a one-element set visits that element exactly once |
| Registry.RegisterEventsLength | Sources/ResourceLoadable/ResourceCenter.swift:23-29 | a registration records one added event per declared category plus one duplicate event per declared category that was occupied, whatever the visiting order |
| Registry.RegisterEventsAddsOnce | Sources/ResourceLoadable/ResourceCenter.swift:28 | exactly one added event per declared category and none for any other, in every order |
| Registry.RegisterEventsDuplicates | Sources/ResourceLoadable/ResourceCenter.swift:24-26 | each occupied declared slot yields `duplicateRegistration(old, new)` naming its previous occupant; every duplicate event names the new registrant and an occupant it replaced; a registration records no miss |
| Registry.DuplicateThenAdded | Sources/ResourceLoadable/ResourceCenter.swift:24-28 | each duplicate event is immediately followed by the added event of the category whose previous occupant it names |
| Monitor.ResourceMonitor.constructor | Sources/ResourceLoadable/ResourceMonitor.swift:36-40 | starts with no observers and the id counter at 0 |
| Monitor.ResourceMonitor.AddObserver | Sources/ResourceLoadable/ResourceMonitor.swift:43-52 | raises the counter by one, appends an entry with the new id and returns a subscription for that id; the id exceeds every earlier one, so ids stay unique and increasing |
| Monitor.ResourceMonitor.Cancel | Sources/ResourceLoadable/ResourceMonitor.swift:47-51 | the cancel closure removes exactly the entries with its id and keeps the others in order |
| Monitor.ResourceMonitor.Record | Sources/ResourceLoadable/ResourceMonitor.swift:56-59 | delivers the event once to every entry whose observer is alive, in list order; the list and the counter are unchanged |
| Monitor.Fanout | Sources/ResourceLoadable/ResourceMonitor.swift:58 | one recording makes at most one delivery per entry, each carrying the recorded event |
| Monitor.RemoveAt | Sources/ResourceLoadable/ResourceMonitor.swift:48-49 | with unique ids, removing at the first index carrying an id removes every entry with that id and nothing else |
| Monitor.WithoutAbsent | Sources/ResourceLoadable/ResourceMonitor.swift:48 | cancelling an id no entry carries changes nothing |
| Monitor.WithoutAppend | Sources/ResourceLoadable/ResourceMonitor.swift:48-49 | removal by id distributes over list concatenation |
| Monitor.WithoutIdempotent | Sources/ResourceLoadable/ResourceMonitor.swift:47-51 | cancelling a subscription twice is the same as cancelling it once |
| Monitor.FanoutOnlyLive | Sources/ResourceLoadable/ResourceMonitor.swift:56-59 | every delivery goes to an observer that is still alive in some entry |
| Monitor.FanoutAppend | Sources/ResourceLoadable/ResourceMonitor.swift:58 | recording over two lists in sequence is recording over their concatenation |
| Monitor.FanoutSkipsDead | Sources/ResourceLoadable/ResourceMonitor.swift:56-59 | an entry whose weak observer is gone receives nothing and changes nothing for the others |
| Monitor.FanoutAllAlive | Sources/ResourceLoadable/ResourceMonitor.swift:58 | when every observer is alive, each entry receives exactly one delivery |
| Monitor.DeliveriesWithoutObservers | Sources/ResourceLoadable/ResourceMonitor.swift:57 | with no observers, recording any events delivers nothing |
| Monitor.DeliveriesAppend | Sources/ResourceLoadable/ResourceMonitor.swift:56-59 | recording two event lists in sequence delivers what recording their concatenation delivers |
| Center.ResourceCenter.constructor | Sources/ResourceLoadable/ResourceCenter.swift:20 | starts with an empty loader table |
| Center.ResourceCenter.RegisterLoader | Sources/ResourceLoadable/ResourceCenter.swift:22-30 | the table becomes `Registered(old, loader, categories)` in every visiting order; the monitor records the events of that order and delivers them to the live observers; the observer list is untouched |
| Center.ResourceCenter.RegisterCategory | Sources/ResourceLoadable/ResourceCenter.swift:24-28 | for one category, records a duplicate event iff the slot was taken, overwrites the slot, then records the added event |
| Center.ResourceCenter.Load | Sources/ResourceLoadable/ResourceCenter.swift:32-40 | returns `Dispatch` of the table with `noLoaderForResource(category)`; records one miss event iff no loader serves the category; never changes the table |
| Center.BlockDeliveries | Sources/ResourceLoadable/ResourceCenter.swift:24-28 | the deliveries of one category's events are the duplicate's fan-out, if any, followed by the added event's |
| Manager.ResourceManager.constructor | Sources/ResourceLoadable/ResourceManager.swift:19 | starts with an empty handler table |
| Manager.ResourceManager.RegisterHandler | Sources/ResourceLoadable/ResourceManager.swift:21-29 | the table becomes `Registered(old, handler, handlerCategorys)` in every visiting order and the events of that order are logged |
| Manager.ResourceManager.RegisterCategory | Sources/ResourceLoadable/ResourceManager.swift:23-27 | for one category: a duplicate event iff the slot was taken, the slot overwritten, then the added event |
| Manager.ResourceManager.Load | Sources/ResourceLoadable/ResourceManager.swift:31-39 | returns `Dispatch` of the table with `noHandlerForResource(category)`; logs one miss iff no handler serves the category; never changes the table |
| Streams.SyncCallbacksStartWithSignal | Sources/ResourceLoadable/Combine+Utils.swift:42-52 | the first callback made during `sink` reports the stream's first signal |
| CombineUtils.ReceiveOnce | Sources/ResourceLoadable/Combine+Utils.swift:39-58 | makes exactly the callbacks `ReceiveOnceResults` describes; the subscription is still held at the end iff the stream delivered nothing |
| CombineUtils.ReceiveOnceStartsWithFirstResult | Sources/ResourceLoadable/Combine+Utils.swift:39-58 | `receiveOnce` calls back iff the stream signals, and its first callback is the outcome of the first signal |
| CombineUtils.ReceiveOnceIsSingleShot | Sources/ResourceLoadable/Combine+Utils.swift:39-58 | when at most one signal arrives during `sink` (a completion may follow), `receiveOnce` makes exactly the one callback of the single-shot contract |
| CombineUtils.ReceiveOnceTwoSynchronousValues | Sources/ResourceLoadable/Combine+Utils.swift:49-53 | two values delivered during `sink` make two success callbacks, while the single-shot contract allows one |
| CombineUtils.ReceiveOnceGuarded | Sources/ResourceLoadable/Combine+Utils.swift:39-58 | with both closures guarded by `didReceiveValue`, the callbacks are exactly the single-shot contract for every stream, and the subscription is released once anything arrived |
| CombineUtils.AsFuture | Sources/ResourceLoadable/Combine+Utils.swift:13-36 | the Future resolves with the outcome of the stream's first signal for every stream and stays pending iff nothing arrives; the subscription is released once anything arrived |
| CombineUtils.Watch | Sources/ResourceLoadable/Combine+Utils.swift:61-66 | every event passes through unchanged; `block` is called only with delivered values, and with every delivered value |
| CombineUtils.WatchCallsInOrder | Sources/ResourceLoadable/Combine+Utils.swift:61-66 | `block` runs as values arrive: the calls for a delivery extended by more events extend the earlier calls in order |
| CombineUtils.Wait | Sources/ResourceLoadable/Combine+Utils.swift:72-78 | awaiting a Future resumes exactly once with its result, whether it resolved before or after the wait began, and stays suspended while it is pending |
| LoadableResource.Open | Sources/ResourceLoadable/LoadableResource.swift:27-29 | the stream is the center's dispatch for the resource; one miss event is recorded and delivered iff no loader serves the category |
| LoadableResource.OpenOnceFuture | Sources/ResourceLoadable/LoadableResource.swift:32-34 | the Future resolves with the first signal of the opened stream |
| LoadableResource.OpenOnce | Sources/ResourceLoadable/LoadableResource.swift:37-39 | the callbacks are those of `receiveOnce` on the opened stream |
| LoadableResource.OpenOnceAsync | Sources/ResourceLoadable/LoadableResource.swift:59-65 | the awaiting caller ends as the checked continuation resumed by each of those callbacks |
| LoadableResource.NoLoaderFailsOnce | Sources/ResourceLoadable/LoadableResource.swift:27-39 | without a loader, the Future resolves, the callback fires once and the await resumes, each with `noLoaderForResource(category)` |
| LoadableResource.LoaderStreamPassesThrough | Sources/ResourceLoadable/LoadableResource.swift:27-39 | with a loader, the single-shot variants see exactly the loader's own stream |
| LoadableResource.CallbackAgreesWithFuture | Sources/ResourceLoadable/LoadableResource.swift:32-39 | the callback overload reports first what the Future overload resolves to, and reports nothing iff the Future stays pending |
| LoadableResource.AsyncResumesWithFirstResult | Sources/ResourceLoadable/LoadableResource.swift:59-65 | with at most one signal during `sink`, the async overload resumes once with the first signal, or stays suspended iff nothing arrives |
| LoadableResource.AsyncTwoSynchronousValues | Sources/ResourceLoadable/LoadableResource.swift:59-65 | two values during `sink` resume the checked continuation twice |
| ResourceLoadable.OpenOnceBridge | Sources/ResourceLoadable/ResourceLoadable.swift:31-49 | the inline bridge makes exactly the callbacks `LegacyResults` describes; it still holds its subscription at the end iff no completion came during `sink` and nothing came after |
| ResourceLoadable.LegacyStartsWithFirstResult | Sources/ResourceLoadable/ResourceLoadable.swift:31-49 | the inline bridge calls back iff the stream signals, and its first callback is the outcome of the first signal |
| ResourceLoadable.LegacyOnceWithoutSyncEvents | Sources/ResourceLoadable/ResourceLoadable.swift:31-49 | when nothing arrives during `sink`, the inline bridge is single-shot and holds no subscription once anything arrived |
| ResourceLoadable.LegacySyncThenLaterValue | Sources/ResourceLoadable/ResourceLoadable.swift:44-47 | a value during `sink` followed by a later value makes two success callbacks, while the single-shot contract allows one |
| ResourceLoadable.LegacyKeepsSubscriptionAfterSyncValue | Sources/ResourceLoadable/ResourceLoadable.swift:32-48 | after a single value during `sink`, both bridges report it once, but the inline bridge keeps its subscription |
| ResourceLoadable.HasValueSnoc | Sources/ResourceLoadable/ResourceLoadable.swift:37-46 | whether a value or a completion has been seen is updated event by event |
| ResourceLoadable.Open | Sources/ResourceLoadable/ResourceLoadable.swift:26-28 | the stream is the manager's dispatch for the resource; one miss is logged iff no handler serves the category |
| ResourceLoadable.OpenOnce | Sources/ResourceLoadable/ResourceLoadable.swift:31-49 | the callbacks are those of the inline bridge on the opened stream |
| ResourceLoadable.OpenOnceAsync | Sources/ResourceLoadable/ResourceLoadable.swift:62-71 | the awaiting caller ends as the checked continuation resumed by each of those callbacks |
| ResourceLoadable.NoHandlerFailsOnce | Sources/ResourceLoadable/ResourceManager.swift:35-38 | without a handler, the inline `openOnce` calls back once with `noHandlerForResource(category)` and the await resumes with it |
| ResourceLoadable.AsyncSyncThenLaterValue | Sources/ResourceLoadable/ResourceLoadable.swift:64-69 | a value during `sink` then a later value resume the checked continuation twice |
| Scenarios.DuplicateRegistration | Tests/ResourceLoadableTests/ResourceLoadableTests.swift:149-170 | registering the file loader once delivers no duplicate event to the observer; registering it again delivers one |
| Scenarios.NoLoaderOpenOnce | Tests/ResourceLoadableTests/ResourceLoadableTests.swift:106-147 | with no loader, `openOnce` calls back once with `noLoaderForResource(.file)` and the observer sees the miss |
| Scenarios.OpenResourceOnce | Tests/ResourceLoadableTests/ResourceLoadableTests.swift:49-69 | with the file loader registered, `openOnce` calls back once with the file name and the async overload returns it |
| Scenarios.NoResponseOpenOnce | Tests/ResourceLoadableTests/ResourceLoadableTests.swift:71-104 | with a pass-through loader that later completes without a value, `openOnce` reports `noValueReceiveWhenCompletion` once |
| Scenarios.ObserverLifecycle | Sources/ResourceLoadable/ResourceMonitor.swift:43-59 | an attached observer receives the one event of a single-category registration; after cancelling, a further registration delivers it nothing |
| Scenarios.OneObserverFanout | Sources/ResourceLoadable/ResourceMonitor.swift:58 | one live observer receives exactly one delivery per recorded event |

## Left out

- The Combine runtime. A publisher is the finite list of events its subscriber receives, split at the moment `sink` returns. Scheduling, back-pressure, demand and infinite streams are not modelled.
- The `async` overloads and `Future.wait`. These are modelled only by which callbacks reach the checked continuation (`Resume`). Suspension itself and the run-time trap on a second resume (`Misuse`) are not executed.
- The process-wide singletons `shared` and thread safety. Each model object is passed explicitly, and the operations are sequential.
- ARC and weak references. An observer that has been deallocated is an entry whose `observer` is `None`. Deallocation itself, and the `[weak self]` capture in the cancel closure, are not modelled.
- The `ResourceLoader` and `ResourceHandleable` protocols. A registrant is an identity plus its declared categories, and its `load` is a parameter. A registrant's own stream is whatever that parameter returns.
- `Encodable`/`Decodable` conformances and `resourceTypeError`. The latter is declared but never raised by the core.
- Swift's `Int` overflow of `generateObserverId`. Ids are unbounded integers here.
- The `Void` overloads (`open()`, `openOnce()`, `openOnce(callback:)` and their async forms). They forward to the `with:` forms with `Void()`. The model covers them by instantiating `X` as `()`, as the scenarios do.
- Manager.ResourceManager.RegisterHandler: its events are logged on the manager rather than delivered to monitor observers, because the monitor's event type has no handler cases (see above).

## Findings

| source | as written | input that shows it | evidently intended | confidence | as-written member | corrected member |
|---|---|---|---|---|---|---|
| Sources/ResourceLoadable/Combine+Utils.swift:39-58 | `receiveValue` cancels through `cancellable`, which is still nil while `sink` runs, and nothing guards the callback, so every value delivered synchronously is reported | a publisher that delivers two values during `sink` (e.g. `[a, b].publisher`) calls back `success(a)` then `success(b)` | exactly one callback, with the first signal | not executed | CombineUtils.ReceiveOnceTwoSynchronousValues | CombineUtils.ReceiveOnceGuarded |
| Sources/ResourceLoadable/ResourceLoadable.swift:31-49 | the inline `openOnce` reports a value delivered during `sink` and then, since the subscription is still open, the first later value too | a `CurrentValueSubject` holding `a` that later sends `b` calls back `success(a)` then `success(b)` | exactly one callback, with the first signal | not executed | ResourceLoadable.LegacySyncThenLaterValue | CombineUtils.ReceiveOnceGuarded |
| Sources/ResourceLoadable/ResourceLoadable.swift:31-49 | after a value during `sink` nothing cancels or releases the stored subscription | a `CurrentValueSubject` holding `a` that never sends again stays subscribed after `success(a)` | release the subscription once a value arrived, as `receiveOnce` does at Combine+Utils.swift:54-57 | not executed | ResourceLoadable.LegacyKeepsSubscriptionAfterSyncValue | CombineUtils.ReceiveOnceGuarded |
