/**
 A model of `ArcIntern<T>`: a reference-counted interning pool for one
 element type `V`. The pool keeps at most one shared owner per distinct
 value; client handles point at owners; the owner's strong count is the
 number of client handles plus one for the pool's own reference, and the
 last client drop evicts the owner from the pool.
 */
module ArcIntern {

  /** The result of comparing two values (`std::cmp::Ordering`). */
  datatype Ordering = Less | Equal | Greater

  datatype Option<T> = None | Some(value: T)

  /** A shared owner of one canonical value (one `Arc<T>` allocation).
      `strong` is the allocation's strong reference count. */
  class Owner<V> {
    const value: V
    var strong: nat

    /** `Arc::new(val)`: a fresh allocation holding one strong reference. */
    constructor (v: V)
      ensures value == v && strong == 1
    {
      value := v;
      strong := 1;
    }
  }

  /** A client handle (`ArcIntern<T>`): one strong reference to an owner.
      Two handles are equal as Dafny values exactly when they share an owner. */
  datatype Handle<V> = Handle(owner: Owner<V>)
  {
    /** The canonical value the handle dereferences to. */
    function Value(): V { owner.value }
  }

  /** Handle equality is owner identity (`Arc::ptr_eq`); equal handles
      always see the same value. */
  function Eq<V>(a: Handle<V>, b: Handle<V>): (r: bool)
    ensures r ==> a.Value() == b.Value()
    ensures r <==> a == b
  {
    a.owner == b.owner
  }

  /** `Ord::cmp` on handles: the values are compared, never the owners. */
  function Cmp<V>(a: Handle<V>, b: Handle<V>, order: (V, V) -> Ordering): Ordering
  {
    order(a.Value(), b.Value())
  }

  /** `PartialOrd::partial_cmp` on handles: the values' own `partial_cmp`,
      passed in as `partialOrder`. */
  function PartialCmp<V>(a: Handle<V>, b: Handle<V>, partialOrder: (V, V) -> Option<Ordering>): Option<Ordering>
  {
    partialOrder(a.Value(), b.Value())
  }

  /** What `T: Ord` demands of `T: PartialOrd`: `partial_cmp` always
      answers, and answers what `cmp` does. */
  ghost predicate AgreesWith<V(!new)>(partialOrder: (V, V) -> Option<Ordering>, order: (V, V) -> Ordering)
  {
    forall x, y :: partialOrder(x, y) == Some(order(x, y))
  }

  /** For a totally ordered value type, `partial_cmp` on handles always
      answers, and answers what `cmp` on the same handles does. */
  lemma PartialCmpAgreesWithCmp<V(!new)>(a: Handle<V>, b: Handle<V>,
                                         partialOrder: (V, V) -> Option<Ordering>, order: (V, V) -> Ordering)
    requires AgreesWith(partialOrder, order)
    ensures PartialCmp(a, b, partialOrder) == Some(Cmp(a, b, order))
  {
  }

  /** What `T: Ord` promises of the value comparison. */
  ghost predicate IsTotalOrder<V(!new)>(order: (V, V) -> Ordering)
  {
    && (forall x, y :: order(x, y) == Equal <==> x == y)
    && (forall x, y :: order(x, y) == Less <==> order(y, x) == Greater)
    && (forall x, y, z :: order(x, y) == Less && order(y, z) == Less ==> order(x, z) == Less)
  }

  /** The comparison depends only on the values behind the handles: two
      handles for equal values compare the same against any third handle. */
  lemma CmpIgnoresOwners<V>(a: Handle<V>, a': Handle<V>, b: Handle<V>, order: (V, V) -> Ordering)
    requires a.Value() == a'.Value()
    ensures Cmp(a, b, order) == Cmp(a', b, order)
    ensures Cmp(b, a, order) == Cmp(b, a', order)
  {
  }

  /** The per-type store (`Mutex<HashSet<Arc<T>>>`) together with its
      registry entry. `created` records whether the type's store has been
      created yet; `store` is the hash set of owners; the ghost `live`
      counts the client handles outstanding for each owner. */
  class Pool<V(==)> {
    var created: bool
    var store: set<Owner<V>>
    ghost var live: multiset<Owner<V>>

    /** The pool invariant: every stored owner counts its client handles
        plus the store's own reference; an owner is stored exactly while
        some client handle points at it; no two stored owners hold equal
        values; nothing is stored before the store is created. */
    ghost predicate Valid()
      reads this, store
    {
      && (!created ==> store == {})
      && (forall o | o in store :: o.strong == 1 + live[o])
      && (forall o | o in store :: o in live)
      && (forall o | o in live :: o in store)
      && (forall o1, o2 | o1 in store && o2 in store && o1.value == o2.value :: o1 == o2)
    }

    /** The state before the type is first used: no store, no handles. */
    constructor ()
      ensures Valid()
      ensures !created && store == {} && live == multiset{}
    {
      created := false;
      store := {};
      live := multiset{};
    }

    /** `get_mutex`: create the type's store on first use. */
    method GetMutex()
      requires Valid()
      modifies this`created
      ensures Valid() && created
    {
      if !created {
        created := true;
      }
    }

    /** `ArcIntern::new`. The handle is for the stored owner of `v` if there
        is one (a hit): that owner gains a reference and the store is
        unchanged. Otherwise (a miss) a new owner is allocated, stored and
        handed out, so that the store grows by one and the handle starts
        with refcount 1. No other owner's count changes. */
    method Intern(v: V) returns (h: Handle<V>)
      requires Valid()
      modifies this, store
      ensures Valid() && created
      ensures h.Value() == v && h.owner in store
      ensures live == old(live) + multiset{h.owner}
      ensures forall o | o in old(store) && o.value == v :: o == h.owner
      ensures h.owner in old(store) ==>
        store == old(store) && h.owner.strong == old(h.owner.strong) + 1
      ensures h.owner !in old(store) ==>
        && fresh(h.owner)
        && store == old(store) + {h.owner}
        && |store| == |old(store)| + 1
        && h.owner.strong == 2
        && live[h.owner] == 1
      ensures forall o | o in old(store) && o != h.owner :: o.strong == old(o.strong)
    {
      GetMutex();
      if b :| b in store && b.value == v {
        h := Clone(Handle(b));
      } else {
        h := Insert(v);
      }
    }

    /** The miss path of `ArcIntern::new`: allocate an owner for `v`, take
        a second reference for the caller, and store the first. */
    method Insert(v: V) returns (h: Handle<V>)
      requires Valid() && created
      requires forall o | o in store :: o.value != v
      modifies this
      ensures Valid() && created
      ensures h.Value() == v && fresh(h.owner)
      ensures store == old(store) + {h.owner}
      ensures h.owner.strong == 2
      ensures live == old(live) + multiset{h.owner}
    {
      var b := new Owner(v);
      b.strong := b.strong + 1;
      h := Handle(b);
      store := store + {b};
      live := live + multiset{b};
    }

    /** `Clone::clone`: one more handle on the same owner; the store does
        not change. */
    method Clone(h: Handle<V>) returns (c: Handle<V>)
      requires Valid() && h.owner in live
      modifies this`live, h.owner
      ensures Valid()
      ensures Eq(c, h)
      ensures h.owner.strong == old(h.owner.strong) + 1
      ensures live == old(live) + multiset{h.owner}
      ensures store == old(store)
    {
      h.owner.strong := h.owner.strong + 1;
      c := Handle(h.owner);
      live := live + multiset{h.owner};
    }

    /** `Drop::drop`. With strong count 2 (the store plus this handle) the
        owner is removed from the store and both references go, leaving it
        deallocated; otherwise only this handle's reference goes. The call
        to `get_mutex` is a no-op here: a live handle's owner is stored, so
        the store already exists. */
    method Drop(h: Handle<V>)
      requires Valid() && h.owner in live
      modifies this`store, this`live, h.owner
      ensures Valid()
      ensures live == old(live) - multiset{h.owner}
      ensures old(h.owner.strong) == 2 <==> old(live[h.owner]) == 1
      ensures old(h.owner.strong) == 2 ==>
        store == old(store) - {h.owner} && h.owner.strong == 0
      ensures old(h.owner.strong) != 2 ==>
        store == old(store) && h.owner.strong == old(h.owner.strong) - 1
      ensures forall o | o in old(store) && o != h.owner :: o.strong == old(o.strong)
    {
      var o := h.owner;
      if o.strong == 2 {
        store := store - {o};
        o.strong := o.strong - 1;
      }
      o.strong := o.strong - 1;
      live := live - multiset{o};
    }

    /** `refcount`: the strong count less the store's own reference, which
        is the number of client handles on the owner. */
    function Refcount(h: Handle<V>): (r: nat)
      reads this, store
      requires Valid() && h.owner in live
      ensures r == live[h.owner]
      ensures r >= 1
    {
      h.owner.strong - 1
    }

    /** `num_objects_interned`: the size of the type's store, or 0 when the
        store has not been created. Zero exactly when no handle is live. */
    function NumObjectsInterned(): (n: nat)
      reads this, store
      requires Valid()
      ensures n == |store|
      ensures n == 0 <==> live == multiset{}
    {
      if created then |store| else 0
    }

    /** Handle equality coincides with value equality for live handles. */
    lemma EqIffSameValue(a: Handle<V>, b: Handle<V>)
      requires Valid() && a.owner in live && b.owner in live
      ensures Eq(a, b) <==> a.Value() == b.Value()
    {
    }

  }

  /** Interning a value and dropping the handle straight away leaves the
      store and the outstanding handles as they were. */
  method InternThenDrop<V>(p: Pool<V>, v: V)
    requires p.Valid()
    modifies p, p.store
    ensures p.Valid() && p.created
    ensures p.store == old(p.store) && p.live == old(p.live)
  {
    var h := p.Intern(v);
    p.Drop(h);
  }

  /** Cloning a handle and dropping the original leaves the clone on the
      same owner, with the store, the count of interned objects and the
      outstanding handles unchanged. */
  method CloneThenDrop<V>(p: Pool<V>, h: Handle<V>) returns (c: Handle<V>)
    requires p.Valid() && h.owner in p.live
    modifies p, h.owner
    ensures p.Valid() && c.owner in p.live && c.Value() == h.Value()
    ensures p.store == old(p.store) && p.live == old(p.live)
    ensures p.NumObjectsInterned() == old(p.NumObjectsInterned())
  {
    c := p.Clone(h);
    p.Drop(h);
  }

  /** For live handles, the value ordering is consistent with handle
      equality: they compare `Equal` exactly when they are equal. */
  lemma CmpEqualIffEq<V(!new)>(p: Pool<V>, a: Handle<V>, b: Handle<V>, order: (V, V) -> Ordering)
    requires p.Valid() && a.owner in p.live && b.owner in p.live
    requires IsTotalOrder(order)
    ensures Cmp(a, b, order) == Equal <==> Eq(a, b)
  {
    p.EqIffSameValue(a, b);
  }

  /** For live handles and a totally ordered value type, `partial_cmp`
      answers `Some(Equal)` exactly when the handles are equal. */
  lemma PartialCmpEqualIffEq<V(!new)>(p: Pool<V>, a: Handle<V>, b: Handle<V>,
                                      partialOrder: (V, V) -> Option<Ordering>, order: (V, V) -> Ordering)
    requires p.Valid() && a.owner in p.live && b.owner in p.live
    requires IsTotalOrder(order) && AgreesWith(partialOrder, order)
    ensures PartialCmp(a, b, partialOrder) == Some(Equal) <==> Eq(a, b)
  {
    PartialCmpAgreesWithCmp(a, b, partialOrder, order);
    CmpEqualIffEq(p, a, b, order);
  }
}
