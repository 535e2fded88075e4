/**
 The lazily created session pool and session store, and their disposal in order across awaits. Any number of
 closes may be under way while new pools and stores are created.
 */
module SessionLifecycle {
  import opened Options
  import opened Sequences

  /** A store, the pool it was made with, and how often `close` was called on it. */
  datatype SessionStore = SessionStore(pool: nat, closes: nat)

  /** A `closeSessionPool` call waiting for its store to close; `failed` if the store's `close` rejected. */
  datatype Closing = Closing(pool: nat, store: nat, failed: bool)

  /**
   The two module variables, and every pool and store ever created: `ends` counts the `end` calls of each pool.
   */
  datatype Resources = Resources(
    pool: Option<nat>,
    store: Option<nat>,
    ends: seq<nat>,
    stores: seq<SessionStore>,
    closings: seq<Closing>)

  datatype Action = GetPool | GetStore | Close | StoreClosed(j: nat) | StoreCloseFails(j: nat)

  predicate Enabled(s: Resources, a: Action) {
    match a
    case StoreClosed(j) => j < |s.closings| && !s.closings[j].failed && s.closings[j].pool < |s.ends|
    case StoreCloseFails(j) => j < |s.closings| && !s.closings[j].failed
    case Close =>
      s.pool.Some? ==> s.pool.value < |s.ends| && (s.store.Some? ==> s.store.value < |s.stores|)
    case _ => true
  }

  function WithPool(s: Resources): (r: Resources)
    ensures r.pool.Some? && r.store == s.store && r.stores == s.stores
  {
    if s.pool.Some? then s else s.(pool := Some(|s.ends|), ends := s.ends + [0])
  }

  function WithStore(s: Resources): Resources {
    if s.store.Some? then s
    else
      var s1 := WithPool(s);
      s1.(store := Some(|s1.stores|), stores := s1.stores + [SessionStore(s1.pool.value, 0)])
  }

  function EndPool(s: Resources, p: nat): Resources
    requires p < |s.ends|
  {
    s.(ends := s.ends[p := s.ends[p] + 1])
  }

  /** Up to the first await: the variables are cleared before anything is awaited. */
  function StartClose(s: Resources): Resources
    requires Enabled(s, Close)
  {
    if s.pool.None? then s
    else
      var s1 := s.(pool := None, store := None);
      if s.store.None? then EndPool(s1, s.pool.value)
      else
        var c := s.stores[s.store.value];
        s1.(stores := s.stores[s.store.value := c.(closes := c.closes + 1)],
            closings := s.closings + [Closing(s.pool.value, s.store.value, false)])
  }

  function Next(s: Resources, a: Action): Resources
    requires Enabled(s, a)
  {
    match a
    case GetPool => WithPool(s)
    case GetStore => WithStore(s)
    case Close => StartClose(s)
    case StoreClosed(j) => EndPool(s, s.closings[j].pool).(closings := Without(s.closings, j))
    case StoreCloseFails(j) => s.(closings := s.closings[j := s.closings[j].(failed := true)])
  }

  const FRESH := Resources(None, None, [], [], [])

  predicate Valid(s: Resources, acts: seq<Action>)
    decreases |acts|
  {
    acts == [] || (Enabled(s, acts[0]) && Valid(Next(s, acts[0]), acts[1..]))
  }

  function Run(s: Resources, acts: seq<Action>): Resources
    requires Valid(s, acts)
    decreases |acts|
  {
    if acts == [] then s else Run(Next(s, acts[0]), acts[1..])
  }

  // ---------------------------------------------------------------- what holds in every state

  /** The variables hold a live pool, and a store of that very pool. */
  predicate CurrentOk(s: Resources) {
    && (s.pool.Some? ==> s.pool.value < |s.ends| && s.ends[s.pool.value] == 0)
    && (s.store.Some? ==> s.pool.Some? && s.store.value < |s.stores| && s.stores[s.store.value].pool == s.pool.value)
  }

  /** Exactly the current store is unclosed, and no store is closed twice; a pool has one store at most. */
  predicate StoresOk(s: Resources) {
    && (forall i :: 0 <= i < |s.stores| ==>
          s.stores[i].pool < |s.ends| && s.stores[i].closes == if s.store == Some(i) then 0 else 1)
    && (forall i, k :: 0 <= i < k < |s.stores| ==> s.stores[i].pool != s.stores[k].pool)
    && (s.store.None? ==> forall i :: 0 <= i < |s.stores| ==> s.pool != Some(s.stores[i].pool))
  }

  /** A close that waits has a pool of its own, which is neither current nor ended. */
  predicate ClosingsOk(s: Resources) {
    && (forall j :: 0 <= j < |s.closings| ==>
          var c := s.closings[j];
          c.pool < |s.ends| && s.ends[c.pool] == 0 && s.pool != Some(c.pool))
    && (forall j, k :: 0 <= j < k < |s.closings| ==> s.closings[j].pool != s.closings[k].pool)
  }

  predicate HasClosing(s: Resources, p: nat) {
    exists j :: 0 <= j < |s.closings| && s.closings[j].pool == p
  }

  /** Every pool is current, waiting to be ended, or was ended once. */
  predicate PoolsOk(s: Resources) {
    forall p :: 0 <= p < |s.ends| ==>
      s.ends[p] <= 1 && (s.ends[p] == 1 || s.pool == Some(p) || HasClosing(s, p))
  }

  predicate Ok(s: Resources) {
    CurrentOk(s) && StoresOk(s) && ClosingsOk(s) && PoolsOk(s)
  }

  lemma WithPoolKeeps(s: Resources)
    requires Ok(s)
    ensures Ok(WithPool(s))
  {
    var r := WithPool(s);
    forall p | 0 <= p < |r.ends| ensures r.ends[p] <= 1 && (r.ends[p] == 1 || r.pool == Some(p) || HasClosing(r, p)) {
      if p < |s.ends| && HasClosing(s, p) {
        var j :| 0 <= j < |s.closings| && s.closings[j].pool == p;
        assert r.closings[j].pool == p;
      }
    }
  }

  lemma WithStoreKeeps(s: Resources)
    requires Ok(s)
    ensures Ok(WithStore(s))
  {
    WithPoolKeeps(s);
    var s1 := WithPool(s);
    var r := WithStore(s);
    if s.store.None? {
      forall p | 0 <= p < |r.ends| ensures r.ends[p] <= 1 && (r.ends[p] == 1 || r.pool == Some(p) || HasClosing(r, p)) {
        if HasClosing(s1, p) {
          var j :| 0 <= j < |s1.closings| && s1.closings[j].pool == p;
          assert r.closings[j].pool == p;
        }
      }
    }
  }

  lemma StartClosePools(s: Resources)
    requires Ok(s)
    ensures Enabled(s, Close) && PoolsOk(StartClose(s))
  {
    var r := StartClose(s);
    if s.pool.Some? && s.store.Some? { assert r.closings[|s.closings|].pool == s.pool.value; }
    forall p | 0 <= p < |r.ends| ensures r.ends[p] <= 1 && (r.ends[p] == 1 || r.pool == Some(p) || HasClosing(r, p)) {
      if HasClosing(s, p) {
        var j :| 0 <= j < |s.closings| && s.closings[j].pool == p;
        assert r.closings[j].pool == p;
      }
    }
  }

  lemma StartCloseStores(s: Resources)
    requires CurrentOk(s) && StoresOk(s)
    ensures Enabled(s, Close) && CurrentOk(StartClose(s)) && StoresOk(StartClose(s))
  {
    var r := StartClose(s);
    if s.pool.Some? && s.store.Some? {
      assert forall i :: 0 <= i < |s.stores| ==> r.stores[i].pool == s.stores[i].pool;
    }
  }

  lemma StartCloseClosings(s: Resources)
    requires CurrentOk(s) && ClosingsOk(s) && Enabled(s, Close)
    ensures ClosingsOk(StartClose(s))
  {
    var r := StartClose(s);
    if s.pool.Some? && s.store.Some? {
      assert forall j :: 0 <= j < |s.closings| ==> r.closings[j] == s.closings[j];
    }
  }

  lemma StartCloseKeeps(s: Resources)
    requires Ok(s)
    ensures Enabled(s, Close) && Ok(StartClose(s))
  {
    StartCloseStores(s);
    StartCloseClosings(s);
    StartClosePools(s);
  }

  lemma StoreClosedPools(s: Resources, j: nat)
    requires PoolsOk(s) && Enabled(s, StoreClosed(j)) && s.ends[s.closings[j].pool] == 0
    ensures PoolsOk(Next(s, StoreClosed(j)))
  {
    var r := Next(s, StoreClosed(j));
    forall p | 0 <= p < |r.ends| ensures r.ends[p] <= 1 && (r.ends[p] == 1 || r.pool == Some(p) || HasClosing(r, p)) {
      if HasClosing(s, p) && p != s.closings[j].pool {
        var k :| 0 <= k < |s.closings| && s.closings[k].pool == p;
        assert r.closings[if k < j then k else k - 1].pool == p;
      }
    }
  }

  lemma StoreClosedClosings(s: Resources, j: nat)
    requires ClosingsOk(s) && Enabled(s, StoreClosed(j))
    ensures ClosingsOk(Next(s, StoreClosed(j)))
  {
    var r := Next(s, StoreClosed(j));
    assert forall k :: 0 <= k < |r.closings| ==> r.closings[k] == s.closings[if k < j then k else k + 1];
    assert forall k :: 0 <= k < |s.closings| && k != j ==> s.closings[k].pool != s.closings[j].pool;
  }

  lemma StoreClosedKeeps(s: Resources, j: nat)
    requires Ok(s) && Enabled(s, StoreClosed(j))
    ensures Ok(Next(s, StoreClosed(j)))
  {
    StoreClosedPools(s, j);
    StoreClosedClosings(s, j);
  }

  lemma StoreCloseFailsKeeps(s: Resources, j: nat)
    requires Ok(s) && Enabled(s, StoreCloseFails(j))
    ensures Ok(Next(s, StoreCloseFails(j)))
  {
    var r := Next(s, StoreCloseFails(j));
    forall p | 0 <= p < |r.ends| ensures r.ends[p] <= 1 && (r.ends[p] == 1 || r.pool == Some(p) || HasClosing(r, p)) {
      if HasClosing(s, p) {
        var k :| 0 <= k < |s.closings| && s.closings[k].pool == p;
        assert r.closings[k].pool == p;
      }
    }
  }

  lemma {:induction false} RunKeeps(s: Resources, acts: seq<Action>)
    requires Ok(s) && Valid(s, acts)
    ensures Ok(Run(s, acts))
    decreases |acts|
  {
    if acts != [] {
      match acts[0] {
        case GetPool => WithPoolKeeps(s);
        case GetStore => WithStoreKeeps(s);
        case Close => StartCloseKeeps(s);
        case StoreClosed(j) => StoreClosedKeeps(s, j);
        case StoreCloseFails(j) => StoreCloseFailsKeeps(s, j);
      }
      RunKeeps(Next(s, acts[0]), acts[1..]);
    }
  }

  /**
   Over any interleaving of gets and closes: every store that is not closed has a live pool, the current store
   belongs to the current pool, nothing is closed or ended twice, and no pool is ended while the closing of its
   store is still awaited.
   */
  lemma LifecycleContract(acts: seq<Action>, i: nat, p: nat)
    requires Valid(FRESH, acts) && i < |Run(FRESH, acts).stores| && p < |Run(FRESH, acts).ends|
    ensures var s := Run(FRESH, acts);
            && s.ends[p] <= 1 && s.stores[i].closes <= 1
            && s.stores[i].pool < |s.ends|
            && (s.stores[i].closes == 0 ==> s.ends[s.stores[i].pool] == 0)
            && (s.stores[i].closes == 0 <==> s.store == Some(i))
            && (s.store == Some(i) ==> s.pool == Some(s.stores[i].pool))
            && (s.pool == Some(p) ==> s.ends[p] == 0)
            && (forall j :: 0 <= j < |s.closings| ==> s.closings[j].pool < |s.ends| && s.ends[s.closings[j].pool] == 0)
  {
    RunKeeps(FRESH, acts);
    var s := Run(FRESH, acts);
    assert StoresOk(s) && s.stores[i].closes == if s.store == Some(i) then 0 else 1;
  }

  /** Nothing leaks: with no current pool and no close waiting or failed, every pool was ended exactly once. */
  lemma NothingLeaks(acts: seq<Action>, p: nat)
    requires Valid(FRESH, acts) && p < |Run(FRESH, acts).ends|
    requires Run(FRESH, acts).pool == None && Run(FRESH, acts).closings == []
    ensures Run(FRESH, acts).ends[p] == 1
  {
    RunKeeps(FRESH, acts);
  }

  // ---------------------------------------------------------------- the module's functions

  /** The two module variables, with the pools and stores they ever referred to. */
  class SessionModule {
    var sessionPool: Option<nat>
    var sessionStore: Option<nat>
    var ends: seq<nat>
    var stores: seq<SessionStore>
    var closings: seq<Closing>

    ghost function View(): Resources
      reads this
    {
      Resources(sessionPool, sessionStore, ends, stores, closings)
    }

    constructor ()
      ensures View() == FRESH && Ok(View())
    {
      sessionPool, sessionStore, ends, stores, closings := None, None, [], [], [];
    }

    method GetSessionPool() returns (pool: nat)
      requires Ok(View())
      modifies this`sessionPool, this`ends
      ensures Ok(View()) && View() == WithPool(old(View())) && sessionPool == Some(pool)
      ensures old(sessionPool).Some? ==> pool == old(sessionPool).value
    {
      WithPoolKeeps(View());
      if sessionPool == None {
        sessionPool := Some(|ends|);
        ends := ends + [0];
      }
      pool := sessionPool.value;
    }

    method GetSessionStore() returns (store: nat)
      requires Ok(View())
      modifies this`sessionPool, this`ends, this`sessionStore, this`stores
      ensures Ok(View()) && View() == WithStore(old(View())) && sessionStore == Some(store)
      ensures sessionPool == Some(stores[store].pool)
    {
      WithStoreKeeps(View());
      if sessionStore == None {
        var pool := GetSessionPool();
        sessionStore := Some(|stores|);
        stores := stores + [SessionStore(pool, 0)];
      }
      store := sessionStore.value;
    }

    /** `closeSessionPool` up to its first await. */
    method CloseSessionPool()
      requires Ok(View())
      modifies this
      ensures old(Enabled(View(), Close)) && View() == StartClose(old(View())) && Ok(View())
    {
      StartCloseKeeps(View());
      if sessionPool == None {
        return;
      }
      var pool, store := sessionPool.value, sessionStore;
      sessionPool, sessionStore := None, None;
      if store.Some? {
        CloseStore(pool, store.value);
      } else {
        EndPool(pool);
      }
    }

    method CloseStore(pool: nat, store: nat)
      requires store < |stores|
      modifies this`stores, this`closings
      ensures stores == old(stores)[store := old(stores)[store].(closes := old(stores)[store].closes + 1)]
      ensures closings == old(closings) + [Closing(pool, store, false)]
    {
      stores := stores[store := stores[store].(closes := stores[store].closes + 1)];
      closings := closings + [Closing(pool, store, false)];
    }

    method EndPool(pool: nat)
      requires pool < |ends|
      modifies this`ends
      ensures ends == old(ends)[pool := old(ends)[pool] + 1]
    {
      ends := ends[pool := ends[pool] + 1];
    }

    /** Its continuation once the store is closed. */
    method OnStoreClosed(j: nat)
      requires Ok(View()) && Enabled(View(), StoreClosed(j))
      modifies this`ends, this`closings
      ensures Ok(View()) && View() == Next(old(View()), StoreClosed(j))
    {
      StoreClosedKeeps(View(), j);
      EndPool(closings[j].pool);
      closings := Without(closings, j);
    }
  }
}
