/**
 The crate's own test scenarios, restated about the pool model: the
 `basic` test, the `sorting` test, and the per-thread body of the
 `multithreading1` test run sequentially.
 */
module ArcInternTests {
  import opened ArcIntern

  /** The first half of the `basic` test, on the `&str` store: equal
      values give equal handles, different values different ones, and once
      the temporaries are dropped (at the end of their statement, newest
      first) the store is empty again. */
  method BasicStr() returns (fooEqFoo: bool, fooEqBar: bool, after: nat)
    ensures fooEqFoo && !fooEqBar
    ensures after == 0
  {
    var pool := new Pool<string>();
    var a := pool.Intern("foo");
    var b := pool.Intern("foo");
    fooEqFoo := Eq(a, b);
    pool.Drop(b);
    pool.Drop(a);
    var c := pool.Intern("foo");
    var d := pool.Intern("bar");
    fooEqBar := Eq(c, d);
    pool.Drop(d);
    pool.Drop(c);
    after := pool.NumObjectsInterned();
  }

  /** The second half of the `basic` test, on the `String` store (a store
      of its own): one handle for "foo" outlives an inner scope, and once
      that scope's handles are dropped only "foo" is left. */
  method BasicString() returns (rc2: nat, rc3: nat, during: nat, after: nat, left: string)
    ensures rc2 == 2 && rc3 == 1
    ensures during == 2 && after == 1
    ensures left == "foo"
  {
    var pool := new Pool<string>();
    var interned1 := pool.Intern("foo");
    rc2, rc3, during := BasicStringScope(pool, interned1);
    after := pool.NumObjectsInterned();
    left := interned1.Value();
  }

  /** The inner scope of the `basic` test's second half: a second handle
      for "foo" gives refcount 2, one for "bar" refcount 1, two objects are
      interned, and leaving the scope drops both handles (newest first),
      so that only "foo" is stored again. */
  method BasicStringScope(pool: Pool<string>, interned1: Handle<string>) returns (rc2: nat, rc3: nat, during: nat)
    requires pool.Valid() && interned1.Value() == "foo"
    requires pool.store == {interned1.owner} && pool.live == multiset{interned1.owner}
    modifies pool, interned1.owner
    ensures pool.Valid() && pool.store == old(pool.store)
    ensures rc2 == 2 && rc3 == 1 && during == 2
  {
    var interned2 := pool.Intern("foo");
    var interned3 := pool.Intern("bar");
    rc2 := pool.Refcount(interned2);
    rc3 := pool.Refcount(interned3);
    during := pool.NumObjectsInterned();
    pool.Drop(interned3);
    pool.Drop(interned2);
  }

  /** The value type of `multithreading1`. */
  datatype TestStruct = TestStruct(name: string, n: nat)

  /** One thread of `multithreading1`, run alone: each round interns two
      values and drops both handles, so the pool ends empty. */
  method Churn(rounds: nat) returns (remaining: nat)
    ensures remaining == 0
  {
    var pool := new Pool<TestStruct>();
    var i := 0;
    while i < rounds
      invariant pool.Valid()
      invariant pool.store == {} && pool.live == multiset{}
    {
      var interned1 := pool.Intern(TestStruct("foo", 5));
      var interned2 := pool.Intern(TestStruct("bar", 10));
      pool.Drop(interned2);
      pool.Drop(interned1);
      i := i + 1;
    }
    remaining := pool.NumObjectsInterned();
  }

  /** The order on the `int` values of the `sorting` test. */
  function IntOrder(x: int, y: int): Ordering
  {
    if x < y then Less else if x == y then Equal else Greater
  }

  lemma IntOrderIsTotal()
    ensures IsTotalOrder(IntOrder)
  {
  }

  /** The values behind a sequence of handles. */
  function Values<V>(hs: seq<Handle<V>>): seq<V>
  {
    seq(|hs|, i requires 0 <= i < |hs| => hs[i].Value())
  }

  /** A sequence of handles in the order `Cmp` defines. */
  ghost predicate SortedBy<V>(hs: seq<Handle<V>>, order: (V, V) -> Ordering)
  {
    forall i, j | 0 <= i < j < |hs| :: Cmp(hs[i], hs[j], order) != Greater
  }

  ghost predicate Sorted(s: seq<int>)
  {
    forall i, j | 0 <= i < j < |s| :: s[i] <= s[j]
  }

  /** Two sorted sequences holding the same elements are the same sequence. */
  lemma {:induction false} SortedUnique(s: seq<int>, t: seq<int>)
    requires Sorted(s) && Sorted(t)
    requires multiset(s) == multiset(t)
    ensures s == t
  {
    if s == [] {
      assert |t| == |multiset(t)| == 0;
    } else {
      assert |t| == |multiset(t)| == |multiset(s)| == |s|;
      assert s[0] in multiset(t) && t[0] in multiset(s);
      assert s[0] == t[0];
      MultisetTail(s);
      MultisetTail(t);
      SortedUnique(s[1..], t[1..]);
    }
  }

  lemma MultisetTail(s: seq<int>)
    requires s != []
    ensures multiset(s[1..]) == multiset(s) - multiset{s[0]}
  {
    assert s == [s[0]] + s[1..];
  }

  /** Handles sorted by `Cmp` carry their values in ascending order. */
  lemma SortedHandlesSortedValues(hs: seq<Handle<int>>)
    requires SortedBy(hs, IntOrder)
    ensures Sorted(Values(hs))
  {
    var vs := Values(hs);
    forall i, j | 0 <= i < j < |vs|
      ensures vs[i] <= vs[j]
    {
      assert Cmp(hs[i], hs[j], IntOrder) != Greater;
    }
  }

  /** The `sorting` test: whatever order handles for 4, 2, 5, 0, 1, 3 are
      sorted into by `Cmp`, their values read 0, 1, 2, 3, 4, 5. */
  lemma SortingScenario(hs: seq<Handle<int>>)
    requires multiset(Values(hs)) == multiset{4, 2, 5, 0, 1, 3}
    requires SortedBy(hs, IntOrder)
    ensures Values(hs) == [0, 1, 2, 3, 4, 5]
  {
    SortedHandlesSortedValues(hs);
    ExpectedOrderSorted();
    ExpectedOrderElements();
    SortedUnique(Values(hs), [0, 1, 2, 3, 4, 5]);
  }

  /** The expected output of the `sorting` test is sorted ... */
  lemma ExpectedOrderSorted()
    ensures Sorted([0, 1, 2, 3, 4, 5])
  {
  }

  /** ... and holds the test's input values. */
  lemma ExpectedOrderElements()
    ensures multiset([0, 1, 2, 3, 4, 5]) == multiset{4, 2, 5, 0, 1, 3}
  {
  }
}
