/** The dispatch table both registry classes keep (Sources/ResourceLoadable/ResourceCenter.swift
    and its older duplicate Sources/ResourceLoadable/ResourceManager.swift), as functions that
    specify them. `L` is the kind of object registered: a loader in the newer generation, a
    handler in the older one. */
module Registry {
  import opened Categories
  import opened Contracts
  import opened Streams

  /** A registry lifecycle event: `Added` is addResourceLoader / addResourceHander, `Duplicate`
      is duplicateRegistration(old, new), `Missed` is noLoaderFoundForResource /
      noHandlerFoundForResource. */
  datatype Event<L> = Added(registrant: L, category: Category)
                    | Duplicate(previous: L, current: L)
                    | Missed(category: Category)

  /** `order` lists the categories of `cats` once each: the order `forEach` visits a Swift `Set`
      in, which the language leaves unspecified. */
  ghost predicate IsEnumeration(order: seq<Category>, cats: set<Category>)
  {
    && (forall i, j :: 0 <= i < j < |order| ==> order[i] != order[j])
    && (forall c :: c in order <==> c in cats)
  }

  /** The table after `p` is registered for `cats`: every declared slot now holds `p`, every
      other slot is as it was. */
  function Registered<L>(m: map<Category, L>, p: L, cats: set<Category>): (r: map<Category, L>)
    ensures forall c :: c in cats ==> c in r && r[c] == p
    ensures forall c :: c !in cats ==> (c in r <==> c in m)
    ensures forall c :: c !in cats && c in m ==> r[c] == m[c]
  {
    m + map c | c in cats :: p
  }

  /** The events recorded for one declared category `c`, judged against the table `m` before
      the registration: a duplicate event naming the previous occupant if the slot was taken,
      then the added event. */
  function Block<L>(m: map<Category, L>, p: L, c: Category): seq<Event<L>>
  {
    (if c in m then [Duplicate(m[c], p)] else []) + [Added(p, c)]
  }

  /** The events a registration of `p` records when `forEach` visits the categories in `order`. */
  function RegisterEvents<L>(m: map<Category, L>, p: L, order: seq<Category>): seq<Event<L>>
  {
    if order == [] then []
    else RegisterEvents(m, p, order[..|order| - 1]) + Block(m, p, order[|order| - 1])
  }

  /** The stream a lookup returns: the registrant's own `load` stream, passed through unchanged,
      or, when the slot is empty, a subject that has already failed with `missError`. */
  function Dispatch<L, X, V, E>(m: map<Category, L>, resource: Resource, extraData: X,
                                load: (L, Resource, X) -> Stream<V, E>, missError: E): (s: Stream<V, E>)
    ensures resource.category in m ==> s == load(m[resource.category], resource, extraData)
    ensures resource.category !in m ==> !HasValue(s.sync + s.later)
    ensures resource.category !in m ==> s.sync != [] && s.sync[0] == Failed(missError)
  {
    if resource.category in m then load(m[resource.category], resource, extraData)
    else Stream([Failed(missError)], [])
  }

  /** The events a lookup records: none on a hit, one miss event otherwise. */
  function DispatchEvents<L>(m: map<Category, L>, c: Category): seq<Event<L>>
  {
    if c in m then [] else [Missed(c)]
  }

  /** Dropping the last category of an enumeration leaves an enumeration of the rest. */
  lemma EnumerationInit(order: seq<Category>, cats: set<Category>)
    requires IsEnumeration(order, cats) && order != []
    ensures IsEnumeration(order[..|order| - 1], cats - {order[|order| - 1]})
    ensures order[|order| - 1] in cats
  {
    var init, c := order[..|order| - 1], order[|order| - 1];
    forall d | d in init ensures d != c {
      var i :| 0 <= i < |init| && init[i] == d;
      assert order[i] == d && order[|order| - 1] == c;
    }
    forall d | d in cats - {c} ensures d in init {
      assert d in order;
      var i :| 0 <= i < |order| && order[i] == d;
      assert i < |order| - 1;
      assert init[i] == d;
    }
    assert c in order;
  }

  /** A log extended twice is the original log extended by both parts at once. */
  lemma LogExtended<T>(log: seq<T>, earlier: seq<T>, step: seq<T>)
    ensures (log + earlier) + step == log + (earlier + step)
  {
  }

  /** Visiting one more category extends an enumeration of those visited so far. */
  lemma EnumerationSnoc(order: seq<Category>, done: set<Category>, c: Category)
    requires IsEnumeration(order, done) && c !in done
    ensures IsEnumeration(order + [c], done + {c})
  {
    var order' := order + [c];
    forall i, j | 0 <= i < j < |order'| ensures order'[i] != order'[j] {
      if j == |order| {
        assert order'[i] == order[i] && order[i] in done;
      }
    }
  }

  /** A single category is visited exactly once. */
  lemma EnumerationOfSingleton(order: seq<Category>, c: Category)
    requires IsEnumeration(order, {c})
    ensures order == [c]
  {
    assert c in order;
    EnumerationInit(order, {c});
    var init := order[..|order| - 1];
    assert {c} - {order[|order| - 1]} == {};
    forall d ensures multiset(init)[d] == 0 {
      assert d !in init;
    }
    assert multiset(init) == multiset{};
    assert |init| == |multiset(init)| == 0;
  }

  /** Registering one more category overwrites just its slot; before that the slot still
      holds what the original table held. */
  lemma RegisteredSnoc<L>(m: map<Category, L>, p: L, done: set<Category>, c: Category)
    requires c !in done
    ensures c in Registered(m, p, done) <==> c in m
    ensures c in m ==> Registered(m, p, done)[c] == m[c]
    ensures Registered(m, p, done + {c}) == Registered(m, p, done)[c := p]
  {
  }

  /** The events of a registration grow by one block per visited category. */
  lemma RegisterEventsSnoc<L>(m: map<Category, L>, p: L, order: seq<Category>, c: Category)
    ensures RegisterEvents(m, p, order + [c]) == RegisterEvents(m, p, order) + Block(m, p, c)
  {
    assert (order + [c])[..|order + [c]| - 1] == order;
  }

  /** A registration records one event per declared category plus one per declared category that
      was already occupied, whatever the visiting order. */
  lemma {:induction false} RegisterEventsLength<L>(m: map<Category, L>, p: L, order: seq<Category>, cats: set<Category>)
    requires IsEnumeration(order, cats)
    ensures |RegisterEvents(m, p, order)| == |cats| + |cats * m.Keys|
  {
    if order == [] {
      assert forall c :: c !in order;
      assert cats == {};
      assert cats * m.Keys == {};
    } else {
      var init, c := order[..|order| - 1], order[|order| - 1];
      EnumerationInit(order, cats);
      var rest := cats - {c};
      RegisterEventsLength(m, p, init, rest);
      assert cats == rest + {c};
      assert |cats| == |rest| + 1;
      if c in m {
        assert cats * m.Keys == (rest * m.Keys) + {c};
        assert |cats * m.Keys| == |rest * m.Keys| + 1;
      } else {
        assert cats * m.Keys == rest * m.Keys;
      }
    }
  }

  /** Exactly one added event per declared category and none for any other category. */
  lemma {:induction false} RegisterEventsAddsOnce<L>(m: map<Category, L>, p: L, order: seq<Category>, cats: set<Category>, c: Category)
    requires IsEnumeration(order, cats)
    ensures multiset(RegisterEvents(m, p, order))[Added(p, c)] == if c in cats then 1 else 0
  {
    if order == [] {
      assert c !in order;
    } else {
      var init, last := order[..|order| - 1], order[|order| - 1];
      EnumerationInit(order, cats);
      RegisterEventsAddsOnce(m, p, init, cats - {last}, c);
      assert multiset(RegisterEvents(m, p, order)) ==
             multiset(RegisterEvents(m, p, init)) + multiset(Block(m, p, last));
      assert multiset(Block(m, p, last))[Added(p, c)] == if c == last then 1 else 0;
    }
  }

  /** Duplicate events are exactly those for declared categories that were occupied: each such
      category yields one naming its previous occupant, every duplicate event names `p` as the new
      registrant, and no lookup miss is recorded. */
  lemma {:induction false} RegisterEventsDuplicates<L>(m: map<Category, L>, p: L, order: seq<Category>, cats: set<Category>)
    requires IsEnumeration(order, cats)
    ensures forall c :: c in cats && c in m ==> Duplicate(m[c], p) in RegisterEvents(m, p, order)
    ensures forall k :: 0 <= k < |RegisterEvents(m, p, order)| && RegisterEvents(m, p, order)[k].Duplicate? ==>
              RegisterEvents(m, p, order)[k].current == p &&
              exists c :: c in cats && c in m && m[c] == RegisterEvents(m, p, order)[k].previous
    ensures forall k :: 0 <= k < |RegisterEvents(m, p, order)| ==> !RegisterEvents(m, p, order)[k].Missed?
  {
    if order != [] {
      var init, last := order[..|order| - 1], order[|order| - 1];
      EnumerationInit(order, cats);
      RegisterEventsDuplicates(m, p, init, cats - {last});
      var evs, before, block := RegisterEvents(m, p, order), RegisterEvents(m, p, init), Block(m, p, last);
      assert evs == before + block;
      forall c | c in cats && c in m ensures Duplicate(m[c], p) in evs {
        if c == last {
          assert block[0] == Duplicate(m[c], p);
          assert evs[|before|] == block[0];
        } else {
          assert Duplicate(m[c], p) in before;
        }
      }
      forall k | 0 <= k < |evs| && evs[k].Duplicate?
        ensures evs[k].current == p && exists c :: c in cats && c in m && m[c] == evs[k].previous
      {
        if k < |before| {
          assert evs[k] == before[k];
        } else {
          assert evs[k] == block[k - |before|];
          assert last in m && evs[k] == Duplicate(m[last], p);
        }
      }
      forall k | 0 <= k < |evs| ensures !evs[k].Missed? {
        if k < |before| {
          assert evs[k] == before[k];
        } else {
          assert evs[k] == block[k - |before|];
        }
      }
    }
  }

  /** Each duplicate event is immediately followed by the added event of the category it was
      recorded for, whose previous occupant it names. */
  lemma {:induction false} DuplicateThenAdded<L>(m: map<Category, L>, p: L, order: seq<Category>)
    ensures forall k :: 0 <= k < |RegisterEvents(m, p, order)| && RegisterEvents(m, p, order)[k].Duplicate? ==>
              k + 1 < |RegisterEvents(m, p, order)| &&
              RegisterEvents(m, p, order)[k + 1].Added? &&
              RegisterEvents(m, p, order)[k + 1].category in m &&
              m[RegisterEvents(m, p, order)[k + 1].category] == RegisterEvents(m, p, order)[k].previous
  {
    if order != [] {
      var init, last := order[..|order| - 1], order[|order| - 1];
      DuplicateThenAdded(m, p, init);
      var evs, before, block := RegisterEvents(m, p, order), RegisterEvents(m, p, init), Block(m, p, last);
      assert evs == before + block;
      forall k | 0 <= k < |evs| && evs[k].Duplicate?
        ensures k + 1 < |evs| && evs[k + 1].Added? && evs[k + 1].category in m && m[evs[k + 1].category] == evs[k].previous
      {
        if k < |before| {
          assert evs[k] == before[k];
          assert evs[k + 1] == before[k + 1];
        } else {
          assert evs[k] == block[k - |before|];
          assert k - |before| == 0 && last in m;
          assert evs[k + 1] == block[1] == Added(p, last);
        }
      }
    }
  }

  /** Registering the same registrant twice leaves the table as registering it once. */
  lemma RegisterIdempotent<L>(m: map<Category, L>, p: L, cats: set<Category>)
    ensures Registered(Registered(m, p, cats), p, cats) == Registered(m, p, cats)
  {
  }
}
