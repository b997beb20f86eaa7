# arc-interner: a verified model of the interning pool

`arc-interner` provides `ArcIntern<T>`, a handle to an interned value. The
crate keeps one store per element type, a `HashSet<Arc<T>>` behind a mutex.
For each distinct value the store holds at most one shared owner (an `Arc`
allocation). Handles are reference-counted. When the last client handle for
a value is dropped, the owner is removed from the store and deallocated
(provided no handle for it was ever hashed; see "## Left out").

This project models one element type's store as a sequential state machine.
The model treats each of `new` and `drop` as one atomic step.

- `ArcIntern.Owner<V>` is an `Arc<T>` allocation. It has an immutable
  `value` and a mutable `strong` count.
- `ArcIntern.Handle<V>` is an `ArcIntern<T>`: a reference to an owner. Two
  handles are equal exactly when they point at the same owner.
- `ArcIntern.Pool<V>` is the per-type registry entry and its store:
  - `created` says whether the store exists yet (`get_mutex`);
  - `store` is the hash set of owners;
  - the ghost multiset `live` counts the client handles outstanding for
    each owner.
- `Pool.Valid()` is the invariant that every operation preserves:
  - every stored owner has `strong == 1 + live[owner]`, that is, its client
    handles plus the store's own reference;
  - an owner is stored exactly while some client handle points at it;
  - no two stored owners hold equal values;
  - nothing is stored before the store is created.
- `ArcIntern.Cmp` orders handles by their values, with a value comparison
  `order` passed in for `T: Ord`.

Module `ArcInternTests` restates the crate's own tests as verified
statements about the model:
- `basic` becomes methods over two pools, one per element type;
- `sorting` becomes a lemma about any sorted arrangement of the handles;
- `multithreading1` becomes one thread's loop, taken alone.

## Model

| member | source | states |
|---|---|---|
| `ArcIntern.Owner.constructor` | src/lib.rs:109 | `Arc::new` gives an allocation holding the value with strong count 1 |
| `ArcIntern.Eq` | src/lib.rs:195-200 | handle equality is owner identity; equal handles see equal values |
| `ArcIntern.Cmp` | src/lib.rs:221-225 | `cmp` compares the values behind the handles with `T`'s `cmp`. Its properties are stated by `CmpIgnoresOwners`, `CmpEqualIffEq` and `SortingScenario` |
| `ArcIntern.PartialCmp` | src/lib.rs:203-206 | `partial_cmp` compares the values behind the handles with `T`'s `partial_cmp`. Its properties are stated by `PartialCmpAgreesWithCmp` and `PartialCmpEqualIffEq` |
| `ArcIntern.PartialCmpAgreesWithCmp` | src/lib.rs:203-206 | `partial_cmp` on handles forwards to `T`'s `partial_cmp`; when that agrees with `T`'s `cmp`, as `T: Ord` demands, it always answers, and answers what `cmp` on the handles does |
| `ArcIntern.PartialCmpEqualIffEq` | src/lib.rs:196-206 | for live handles and a totally ordered value type, `partial_cmp` answers `Some(Equal)` exactly when `eq` answers true |
| `ArcIntern.CmpIgnoresOwners` | src/lib.rs:221-225 | `cmp` compares the values, not the owners: handles for equal values compare alike against any handle |
| `ArcIntern.Pool.constructor` | src/lib.rs:81-84 | before first use there is no store for the type and no handle |
| `ArcIntern.Pool.GetMutex` | src/lib.rs:87-95 | the type's store exists afterwards and its contents are unchanged |
| `ArcIntern.Pool.Intern` | src/lib.rs:103-113 | the handle holds the given value. On a hit it is the existing owner, whose count rises by one, and the store does not grow. On a miss a fresh owner is stored, the store grows by one and the refcount is 1. Either way one handle is added and no other owner's count changes |
| `ArcIntern.Pool.Insert` | src/lib.rs:109-112 | the miss path: a fresh owner with strong count 2 is added to the store and one handle to it is handed out |
| `ArcIntern.Pool.Clone` | src/lib.rs:130-136 | the clone equals the original, the owner's count rises by one, one handle is added and the store is unchanged |
| `ArcIntern.Pool.Drop` | src/lib.rs:138-148 | strong count 2 happens exactly when this is the last client handle. Then the owner leaves the store and its count drops to 0. Otherwise the store is unchanged and the count drops by one. No other owner's count changes and the invariant is kept |
| `ArcIntern.Pool.Refcount` | src/lib.rs:122-127 | the strong count minus the store's reference equals the number of live client handles on the owner, and is at least 1 |
| `ArcIntern.Pool.NumObjectsInterned` | src/lib.rs:114-121 | the result is the size of the store, which is 0 before the store is created, and it is 0 exactly when no handle is live |
| `ArcIntern.Pool.EqIffSameValue` | src/lib.rs:184-200 | for live handles, pointer equality coincides with value equality |
| `ArcIntern.CmpEqualIffEq` | src/lib.rs:196-225 | for live handles and a total order, `cmp` answers `Equal` exactly when `eq` answers true |
| `ArcIntern.InternThenDrop` | src/lib.rs:103-148 | interning a value and dropping its handle at once leaves the store and the outstanding handles as they were |
| `ArcIntern.CloneThenDrop` | src/lib.rs:130-148 | cloning a handle and dropping the original keeps the clone's value interned and leaves the store, the object count and the handles unchanged |
| `ArcInternTests.BasicStr` | src/lib.rs:248-252 | two handles for "foo" are equal, handles for "foo" and "bar" differ, and once the temporaries are dropped the count is 0 |
| `ArcInternTests.BasicString` | src/lib.rs:254-266 | refcounts 2 and 1 and two objects inside the scope, one object ("foo") after it |
| `ArcInternTests.BasicStringScope` | src/lib.rs:255-263 | inside the scope the refcounts are 2 and 1 with two objects, and leaving it restores the store to just "foo" |
| `ArcInternTests.Churn` | src/lib.rs:289-299 | any number of rounds that intern two values and drop both handles leave 0 objects interned |
| `ArcInternTests.IntOrderIsTotal` | src/lib.rs:272-277 | the comparison used for the `int` handles of the sorting test is a total order |
| `ArcInternTests.SortedHandlesSortedValues` | src/lib.rs:221-225 | handles sorted by `cmp` carry their values in ascending order |
| `ArcInternTests.SortingScenario` | src/lib.rs:272-277 | handles for 4, 2, 5, 0, 1, 3 in any order sorted by `cmp` read 0, 1, 2, 3, 4, 5 |

## Left out

- The mutex and threads. The model treats `new` and `drop` as atomic steps.
  In the crate the handle's own `Arc` is released after `drop` returns and
  the lock is released. That interleaving is not modelled. Under it, two
  concurrent drops at strong count 3 can both read 3, so neither evicts the
  owner, which then stays stored with no client handle left.
- ArcIntern.Pool.Intern: the value type's `Eq` is taken to be value
  equality. For a coarser `Eq`, a hit hands out the stored representative
  and discards the caller's value (src/lib.rs:106-107), so the handle's
  value may differ from the argument. The model does not show that case.
- ArcInternTests.Churn: runs one thread of `multithreading1` alone, for any
  number of rounds. The three concurrent threads and the joins are not
  modelled.
- The `lazy_static` registry keyed by type (`state::Container`). It works by
  type erasure, which has no Dafny counterpart. The model has one pool per
  element type, with a `created` flag. The `basic` test's `&str` and
  `String` stores are two separate pools.
- The `get_mutex` call at the start of `drop`. A live handle's owner is
  stored, so the store already exists and the call changes nothing.
- Lock poisoning. Each `lock().unwrap()` is taken to succeed.
- `Hash` (src/lib.rs:189-193). It hashes the owner's address, and
  addresses are not modelled. It also leaks a reference: it calls
  `Arc::into_raw` on a clone and never gives it back, so each hash of a
  handle raises its owner's strong count by one for good. After that,
  `refcount` over-reports, `drop` never sees strong count 2, and the owner
  stays stored with no client left. `Pool.Valid`'s `strong == 1 + live[o]`,
  the eviction in `Pool.Drop` and `Pool.Refcount` hold only for owners none
  of whose handles was ever hashed.
- The delegating impls `AsRef`, `Borrow`, `Deref`, `Display`, `From`,
  `Default`, `Serialize` and `Deserialize`. They forward to `T` or to
  `new`. `Handle.Value` stands for dereferencing.
- `lt`, `le`, `gt` and `ge` on handles. They forward to `T`'s own methods
  in the same way as `partial_cmp` and are not modelled separately.
- `Vec::sort` from the `sorting` test. `SortingScenario` states the outcome
  for every arrangement of the handles that `cmp` calls sorted. The sort
  itself compares with `lt`, which the handles forward to `T::lt`
  (src/lib.rs:207-209). For the test's integers `lt` agrees with `cmp`
  answering `Less`, so the outcome is the same.
- Machine integers. Counts are unbounded `nat`s. Arc's abort on count
  overflow and `usize` arithmetic are not modelled. The subtraction in
  `refcount` cannot underflow while the invariant holds.
