/** `ResourceMonitor` of Sources/ResourceLoadable/ResourceMonitor.swift: an ordered list of
    observer entries holding weak references, a counter that hands out entry ids, and `record`,
    which fans an event out to the observers still alive. The observer callbacks are not visible,
    so each call `receiveResourceEvent(event)` is logged as a `Delivery` in the ghost field
    `received`; every event passed to `record` is logged in `recorded`. */
module Monitor {
  import opened Wrappers
  import opened Contracts
  import opened Registry

  /** `ResourceEvent`: the registry events of the loader generation. */
  type ResourceEvent = Event<Loader>

  /** The identity of an observer object. */
  type ObserverRef = nat

  /** An element of `arrObservers`; `observer` is `None` once the weakly held observer has been
      deallocated. */
  datatype Observer = Observer(observerId: int, observer: Option<ObserverRef>)

  /** The `AnyCancellable` that `addObserver` returns: it remembers the id of its entry. */
  datatype Subscription = Subscription(observerId: int)

  /** One call of `receiveResourceEvent(event)` on `observer`. */
  datatype Delivery = Delivery(observer: ObserverRef, event: ResourceEvent)

  /** Entry ids strictly increase along the list, so no two entries share one. */
  ghost predicate IdsIncreasing(entries: seq<Observer>)
  {
    forall i, j :: 0 <= i < j < |entries| ==> entries[i].observerId < entries[j].observerId
  }

  /** The deliveries `record(event)` makes over `entries`: one per entry whose observer is still
      alive, in list order. */
  function Fanout(entries: seq<Observer>, event: ResourceEvent): (r: seq<Delivery>)
    ensures |r| <= |entries|
    ensures forall k :: 0 <= k < |r| ==> r[k].event == event
  {
    if entries == [] then []
    else
      var before := Fanout(entries[..|entries| - 1], event);
      match entries[|entries| - 1].observer
      case None => before
      case Some(o) => before + [Delivery(o, event)]
  }

  /** The deliveries of recording `events` one after another over the same entries. */
  function Deliveries(entries: seq<Observer>, events: seq<ResourceEvent>): seq<Delivery>
  {
    if events == [] then []
    else Deliveries(entries, events[..|events| - 1]) + Fanout(entries, events[|events| - 1])
  }

  /** `entries` without the entries carrying `id`. */
  function WithoutId(entries: seq<Observer>, id: int): seq<Observer>
  {
    if entries == [] then []
    else if entries[0].observerId == id then WithoutId(entries[1..], id)
    else [entries[0]] + WithoutId(entries[1..], id)
  }

  class ResourceMonitor {
    var arrObservers: seq<Observer>
    var generateObserverId: int
    ghost var recorded: seq<ResourceEvent>
    ghost var received: seq<Delivery>

    /** Every entry id was handed out by the counter, and ids increase along the list. */
    ghost predicate Valid()
      reads this
    {
      && 0 <= generateObserverId
      && IdsIncreasing(arrObservers)
      && forall k :: 0 <= k < |arrObservers| ==> 0 < arrObservers[k].observerId <= generateObserverId
    }

    constructor ()
      ensures Valid()
      ensures arrObservers == [] && generateObserverId == 0
      ensures recorded == [] && received == []
    {
      arrObservers := [];
      generateObserverId := 0;
      recorded := [];
      received := [];
    }

    /** `addObserver(_:)`: raises the counter by one, appends an entry tagged with the new value
        and returns the subscription for that id. Earlier entries keep their places and ids, and
        the new id is larger than all of theirs. */
    method AddObserver(observer: ObserverRef) returns (cancellable: Subscription)
      requires Valid()
      modifies this`arrObservers, this`generateObserverId
      ensures Valid()
      ensures generateObserverId == old(generateObserverId) + 1
      ensures cancellable.observerId == generateObserverId
      ensures arrObservers == old(arrObservers) + [Observer(cancellable.observerId, Some(observer))]
      ensures forall k :: 0 <= k < |old(arrObservers)| ==> arrObservers[k].observerId < cancellable.observerId
    {
      generateObserverId := generateObserverId + 1;
      var observerId := generateObserverId;
      arrObservers := arrObservers + [Observer(generateObserverId, Some(observer))];
      cancellable := Subscription(observerId);
    }

    /** The cancel closure of the subscription: finds the first entry with its id and removes it.
        Because ids are unique this removes every entry with the id, and nothing else. */
    method Cancel(cancellable: Subscription)
      requires Valid()
      modifies this`arrObservers
      ensures Valid()
      ensures arrObservers == WithoutId(old(arrObservers), cancellable.observerId)
    {
      var index := 0;
      while index < |arrObservers| && arrObservers[index].observerId != cancellable.observerId
        invariant 0 <= index <= |arrObservers|
        invariant forall k :: 0 <= k < index ==> arrObservers[k].observerId != cancellable.observerId
      {
        index := index + 1;
      }
      if index < |arrObservers| {
        forall k | 0 <= k < |arrObservers| && k != index
          ensures arrObservers[k].observerId != arrObservers[index].observerId
        {
          if k < index {
            assert arrObservers[k].observerId < arrObservers[index].observerId;
          } else {
            assert arrObservers[index].observerId < arrObservers[k].observerId;
          }
        }
        RemoveAt(arrObservers, index);
        arrObservers := arrObservers[..index] + arrObservers[index + 1..];
      } else {
        WithoutAbsent(arrObservers, cancellable.observerId);
      }
    }

    /** `record(event:)`: with no entries it returns at once; otherwise it calls every live
        observer in list order. The list and the counter are left as they were. */
    method Record(event: ResourceEvent)
      requires Valid()
      modifies this`recorded, this`received
      ensures Valid()
      ensures recorded == old(recorded) + [event]
      ensures received == old(received) + Fanout(arrObservers, event)
    {
      recorded := recorded + [event];
      if arrObservers == [] {
        return;
      }
      var i := 0;
      while i < |arrObservers|
        invariant 0 <= i <= |arrObservers|
        invariant recorded == old(recorded) + [event]
        invariant received == old(received) + Fanout(arrObservers[..i], event)
      {
        assert arrObservers[..i + 1][..i] == arrObservers[..i];
        match arrObservers[i].observer {
          case Some(o) =>
            received := received + [Delivery(o, event)];
          case None =>
        }
        i := i + 1;
      }
      assert arrObservers[..i] == arrObservers;
    }
  }

  /** Removing an id no entry carries changes nothing. */
  lemma {:induction false} WithoutAbsent(entries: seq<Observer>, id: int)
    requires forall k :: 0 <= k < |entries| ==> entries[k].observerId != id
    ensures WithoutId(entries, id) == entries
  {
    if entries != [] {
      WithoutAbsent(entries[1..], id);
    }
  }

  lemma {:induction false} WithoutAppend(a: seq<Observer>, b: seq<Observer>, id: int)
    ensures WithoutId(a + b, id) == WithoutId(a, id) + WithoutId(b, id)
  {
    if a == [] {
      assert a + b == b;
    } else {
      assert (a + b)[1..] == a[1..] + b;
      WithoutAppend(a[1..], b, id);
    }
  }

  /** With increasing ids, removing the id of entry `index` removes exactly that entry and keeps
      the others in their order. */
  lemma RemoveAt(entries: seq<Observer>, index: int)
    requires 0 <= index < |entries|
    requires forall k :: 0 <= k < |entries| && k != index ==> entries[k].observerId != entries[index].observerId
    ensures WithoutId(entries, entries[index].observerId) == entries[..index] + entries[index + 1..]
  {
    var a, x, b := entries[..index], entries[index], entries[index + 1..];
    var id := x.observerId;
    assert entries == a + [x] + b;
    WithoutAppend(a + [x], b, id);
    WithoutAppend(a, [x], id);
    forall k | 0 <= k < |a| ensures a[k].observerId != id {
      assert a[k] == entries[k];
    }
    WithoutAbsent(a, id);
    forall k | 0 <= k < |b| ensures b[k].observerId != id {
      assert b[k] == entries[index + 1 + k];
    }
    WithoutAbsent(b, id);
    assert [x][1..] == [];
    assert WithoutId([x], id) == [];
  }

  /** Cancelling twice is the same as cancelling once. */
  lemma {:induction false} WithoutIdempotent(entries: seq<Observer>, id: int)
    ensures WithoutId(WithoutId(entries, id), id) == WithoutId(entries, id)
  {
    if entries != [] {
      WithoutIdempotent(entries[1..], id);
      if entries[0].observerId != id {
        assert ([entries[0]] + WithoutId(entries[1..], id))[1..] == WithoutId(entries[1..], id);
      }
    }
  }

  /** Only observers that are alive in the list receive anything. */
  lemma {:induction false} FanoutOnlyLive(entries: seq<Observer>, event: ResourceEvent)
    ensures forall k :: 0 <= k < |Fanout(entries, event)| ==>
              exists j :: 0 <= j < |entries| && entries[j].observer == Some(Fanout(entries, event)[k].observer)
  {
    if entries != [] {
      var init := entries[..|entries| - 1];
      FanoutOnlyLive(init, event);
      var r, before := Fanout(entries, event), Fanout(init, event);
      var last := entries[|entries| - 1];
      assert r == if last.observer.Some? then before + [Delivery(last.observer.value, event)] else before;
      forall k | 0 <= k < |r| ensures exists j :: 0 <= j < |entries| && entries[j].observer == Some(r[k].observer) {
        if k < |before| {
          assert r[k] == before[k];
          var j :| 0 <= j < |init| && init[j].observer == Some(before[k].observer);
          assert entries[j] == init[j];
        } else {
          assert entries[|entries| - 1].observer == Some(r[k].observer);
        }
      }
    } else {
      assert Fanout(entries, event) == [];
    }
  }

  /** Recording over two lists one after the other is recording over their concatenation. */
  lemma {:induction false} FanoutAppend(a: seq<Observer>, b: seq<Observer>, event: ResourceEvent)
    ensures Fanout(a + b, event) == Fanout(a, event) + Fanout(b, event)
  {
    if b == [] {
      assert a + b == a;
    } else {
      var b' := b[..|b| - 1];
      assert (a + b)[..|a + b| - 1] == a + b';
      assert (a + b)[|a + b| - 1] == b[|b| - 1];
      FanoutAppend(a, b', event);
    }
  }

  /** An entry whose observer is gone is skipped: recording over the list is recording over the
      list without it. */
  lemma FanoutSkipsDead(a: seq<Observer>, id: int, b: seq<Observer>, event: ResourceEvent)
    ensures Fanout(a + [Observer(id, None)] + b, event) == Fanout(a + b, event)
  {
    FanoutAppend(a + [Observer(id, None)], b, event);
    FanoutAppend(a, [Observer(id, None)], event);
    FanoutAppend(a, b, event);
    assert Fanout([Observer(id, None)], event) == [] by {
      assert [Observer(id, None)][..0] == [];
    }
  }

  /** When every observer is alive, each receives the event exactly once, in list order. */
  lemma {:induction false} FanoutAllAlive(entries: seq<Observer>, event: ResourceEvent)
    requires forall k :: 0 <= k < |entries| ==> entries[k].observer.Some?
    ensures |Fanout(entries, event)| == |entries|
    ensures forall k :: 0 <= k < |entries| ==> Fanout(entries, event)[k] == Delivery(entries[k].observer.value, event)
  {
    if entries != [] {
      var init := entries[..|entries| - 1];
      FanoutAllAlive(init, event);
    }
  }

  /** With no observers, recording any events delivers nothing. */
  lemma {:induction false} DeliveriesWithoutObservers(events: seq<ResourceEvent>)
    ensures Deliveries([], events) == []
  {
    if events != [] {
      DeliveriesWithoutObservers(events[..|events| - 1]);
    }
  }

  /** Recording event lists one after another is recording their concatenation. */
  lemma {:induction false} DeliveriesAppend(entries: seq<Observer>, a: seq<ResourceEvent>, b: seq<ResourceEvent>)
    ensures Deliveries(entries, a + b) == Deliveries(entries, a) + Deliveries(entries, b)
  {
    if b == [] {
      assert a + b == a;
    } else {
      var b', e := b[..|b| - 1], b[|b| - 1];
      calc {
        Deliveries(entries, a + b);
        { assert (a + b)[..|a + b| - 1] == a + b' && (a + b)[|a + b| - 1] == e; }
        Deliveries(entries, a + b') + Fanout(entries, e);
        { DeliveriesAppend(entries, a, b'); }
        Deliveries(entries, a) + Deliveries(entries, b') + Fanout(entries, e);
        Deliveries(entries, a) + Deliveries(entries, b);
      }
    }
  }
}
