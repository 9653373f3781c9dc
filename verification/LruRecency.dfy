/** Without a time to live and on a strictly increasing clock, the timestamp cache is the textbook
    LRU cache: it holds exactly the most recently touched keys, as many as fit. */
module LruRecency {
  import opened Wrappers
  import opened Events
  import opened LruCache

  datatype Op<K, V> = Get(key: K) | Put(key: K, value: V)

  datatype Pair<K, V> = Pair(key: K, value: V)

  // ---------- The textbook model: all keys ever put, last touched first ----------

  function Without<K(==), V>(l: seq<Pair<K, V>>, key: K): seq<Pair<K, V>> {
    if l == [] then []
    else if l[0].key == key then Without(l[1..], key)
    else [l[0]] + Without(l[1..], key)
  }

  predicate Distinct<K(==), V>(l: seq<Pair<K, V>>) {
    forall i, j :: 0 <= i < j < |l| ==> l[i].key != l[j].key
  }

  predicate Has<K(==), V>(l: seq<Pair<K, V>>, key: K) {
    exists i :: 0 <= i < |l| && l[i].key == key
  }

  function ValueIn<K(==), V>(l: seq<Pair<K, V>>, key: K): (v: V)
    requires Has(l, key)
  {
    if l[0].key == key then l[0].value else ValueIn(l[1..], key)
  }

  function Front<T>(l: seq<T>, n: nat): (f: seq<T>) {
    if |l| <= n then l else l[..n]
  }

  /** A put moves its key to the front, and so does a get of one of the first `capacity` keys. */
  function Touched<K(==), V>(all: seq<Pair<K, V>>, capacity: nat, op: Op<K, V>): seq<Pair<K, V>> {
    match op
    case Put(key, value) => [Pair(key, value)] + Without(all, key)
    case Get(key) =>
      if Has(Front(all, capacity), key) then [Pair(key, ValueIn(Front(all, capacity), key))] + Without(all, key)
      else all
  }

  function TouchedBy<K(==), V>(capacity: nat, ops: seq<Op<K, V>>): seq<Pair<K, V>> {
    if ops == [] then [] else Touched(TouchedBy(capacity, ops[..|ops| - 1]), capacity, ops[|ops| - 1])
  }

  function LatestPut<K(==), V>(ops: seq<Op<K, V>>, key: K): Option<V> {
    if ops == [] then None
    else if ops[|ops| - 1].Put? && ops[|ops| - 1].key == key then Some(ops[|ops| - 1].value)
    else LatestPut(ops[..|ops| - 1], key)
  }

  // ---------- The cache's own steps ----------

  ghost predicate CacheStep<K, V>(m: map<K, Stamped<V>>, capacity: nat, op: Op<K, V>, now: Time, m': map<K, Stamped<V>>,
                                  result: Option<V>)
  {
    match op
    case Get(key) => result == Lookup(m, None, key, now) && m' == AfterLookup(m, None, key, now)
    case Put(key, value) => result == None && Evicted(m[key := Stamped(value, now)], capacity, m')
  }

  ghost predicate Increasing(times: seq<Time>) {
    forall i, j :: 0 <= i < j < |times| ==> times[i] < times[j]
  }

  /** A run from the empty cache: states before and after each operation, and its results. */
  ghost predicate CacheRun<K, V>(capacity: nat, ops: seq<Op<K, V>>, times: seq<Time>, states: seq<map<K, Stamped<V>>>,
                                 results: seq<Option<V>>)
  {
    && 1 <= capacity && |times| == |ops| == |results| && |states| == |ops| + 1
    && states[0] == map[] && Increasing(times)
    && forall i :: 0 <= i < |ops| ==> CacheStep(states[i], capacity, ops[i], times[i], states[i + 1], results[i])
  }

  // ---------- Agreement ----------

  /** The map holds the list's pairs, and timestamps fall along the list. */
  ghost predicate Agrees<K, V>(m: map<K, Stamped<V>>, l: seq<Pair<K, V>>) {
    && Distinct(l)
    && (forall i :: 0 <= i < |l| ==> l[i].key in m && m[l[i].key].value == l[i].value)
    && (forall k {:trigger Has(l, k)} :: k in m ==> Has(l, k))
    && (forall i, j :: 0 <= i < j < |l| ==> m[l[j].key].at < m[l[i].key].at)
  }

  predicate Before<K, V>(m: map<K, Stamped<V>>, now: Time) {
    forall k :: k in m ==> m[k].at < now
  }

  lemma {:induction false} WithoutAt<K, V>(l: seq<Pair<K, V>>, i: nat)
    requires Distinct(l) && i < |l|
    ensures Without(l, l[i].key) == l[..i] + l[i + 1..]
  {
    if i == 0 {
      WithoutAbsent(l[1..], l[0].key);
    } else {
      WithoutAt(l[1..], i - 1);
      assert [l[0]] + l[1..][..i - 1] == l[..i];
    }
  }

  lemma {:induction false} WithoutAbsent<K, V>(l: seq<Pair<K, V>>, key: K)
    requires !Has(l, key)
    ensures Without(l, key) == l
  {
    if l != [] {
      assert forall i :: 0 <= i < |l[1..]| ==> l[1..][i] == l[i + 1];
      WithoutAbsent(l[1..], key);
    }
  }

  lemma {:induction false} ValueAt<K, V>(l: seq<Pair<K, V>>, i: nat)
    requires Distinct(l) && i < |l|
    ensures ValueIn(l, l[i].key) == l[i].value
  {
    if i > 0 {
      assert l[1..][i - 1] == l[i];
      ValueAt(l[1..], i - 1);
    }
  }

  lemma {:induction false} SameSize<K, V>(m: map<K, Stamped<V>>, l: seq<Pair<K, V>>)
    requires Agrees(m, l)
    ensures |m| == |l|
  {
    if l == [] {
      assert forall k :: k in m ==> Has(l, k);
      assert m == map[];
    } else {
      var k := l[0].key;
      forall k' | k' in m - {k}
        ensures Has(l[1..], k')
      {
        assert Has(l, k');
        var i :| 0 <= i < |l| && l[i].key == k';
        assert l[1..][i - 1].key == k';
      }
      RemovedSize(m, {k});
      SameSize(m - {k}, l[1..]);
    }
  }

  lemma {:induction false} TouchAbsent<K, V>(m: map<K, Stamped<V>>, l: seq<Pair<K, V>>, key: K, value: V, now: Time)
    requires Agrees(m, l) && Before(m, now) && key !in m
    ensures Agrees(m[key := Stamped(value, now)], [Pair(key, value)] + l)
  {
    var l' := [Pair(key, value)] + l;
    forall k | k in m
      ensures Has(l', k)
    {
      assert Has(l, k);
      var j :| 0 <= j < |l| && l[j].key == k;
      assert l'[j + 1].key == k;
    }
    assert l'[0].key == key;
  }

  lemma {:induction false} DropAt<K, V>(m: map<K, Stamped<V>>, l: seq<Pair<K, V>>, i: nat)
    requires Agrees(m, l) && i < |l|
    ensures Agrees(m - {l[i].key}, l[..i] + l[i + 1..])
  {
    var l' := l[..i] + l[i + 1..];
    assert forall j :: 0 <= j < |l'| ==> l'[j] == l[if j < i then j else j + 1];
    forall k | k in m - {l[i].key}
      ensures Has(l', k)
    {
      assert Has(l, k);
      var j :| 0 <= j < |l| && l[j].key == k;
      assert l'[if j < i then j else j - 1].key == k;
    }
  }

  /** Moving a key that is present to the front. */
  lemma {:induction false} TouchPresent<K, V>(m: map<K, Stamped<V>>, l: seq<Pair<K, V>>, i: nat, value: V, now: Time)
    requires Agrees(m, l) && Before(m, now) && i < |l|
    ensures Agrees(m[l[i].key := Stamped(value, now)], [Pair(l[i].key, value)] + l[..i] + l[i + 1..])
  {
    var key := l[i].key;
    DropAt(m, l, i);
    TouchAbsent(m - {key}, l[..i] + l[i + 1..], key, value, now);
    assert (m - {key})[key := Stamped(value, now)] == m[key := Stamped(value, now)];
    assert [Pair(key, value)] + (l[..i] + l[i + 1..]) == [Pair(key, value)] + l[..i] + l[i + 1..];
  }

  /** The entry with the least timestamp is the last of the list. */
  lemma {:induction false} DropOldest<K, V>(m: map<K, Stamped<V>>, l: seq<Pair<K, V>>, key: K)
    requires Agrees(m, l) && IsOldest(m, key)
    ensures l != [] && Agrees(m - {key}, l[..|l| - 1])
  {
    assert Has(l, key);
    var i :| 0 <= i < |l| && l[i].key == key;
    var last := |l| - 1;
    assert i == last by {
      assert m[l[i].key].at <= m[l[last].key].at;
    }
    DropAt(m, l, i);
    assert l[..i] + l[i + 1..] == l[..last];
  }

  lemma {:induction false} MovedFront<T>(all: seq<T>, n: nat, i: nat, x: T)
    requires i < |Front(all, n)|
    ensures Front([x] + (all[..i] + all[i + 1..]), n) == [x] + Front(all, n)[..i] + Front(all, n)[i + 1..]
  {
    var moved := [x] + (all[..i] + all[i + 1..]);
    assert moved == [x] + all[..i] + all[i + 1..];
    if |all| > n {
      assert all[..n][..i] == all[..i] && all[..n][i + 1..] == all[i + 1..n];
      assert moved[..n] == [x] + all[..i] + all[i + 1..n];
    }
  }

  lemma {:induction false} MovedDistinct<K, V>(all: seq<Pair<K, V>>, i: nat, value: V)
    requires Distinct(all) && i < |all|
    ensures Distinct([Pair(all[i].key, value)] + (all[..i] + all[i + 1..]))
  {
  }

  /** What touching one of the first `n` keys does to them. */
  lemma {:induction false} FrontPresent<K, V>(all: seq<Pair<K, V>>, n: nat, i: nat, value: V)
    requires Distinct(all) && i < |Front(all, n)|
    ensures var l, all' := Front(all, n), [Pair(all[i].key, value)] + Without(all, all[i].key);
            Distinct(all') && l[i].key == all[i].key && Front(all', n) == [Pair(l[i].key, value)] + l[..i] + l[i + 1..]
  {
    WithoutAt(all, i);
    MovedDistinct(all, i, value);
    MovedFront(all, n, i, Pair(all[i].key, value));
  }

  /** Any other key pushes the last of them out. */
  lemma {:induction false} FrontAbsent<K, V>(all: seq<Pair<K, V>>, n: nat, key: K, value: V)
    requires Distinct(all) && 1 <= n && !Has(Front(all, n), key)
    ensures var all' := [Pair(key, value)] + Without(all, key);
            Distinct(all') && Front(all', n) == Front([Pair(key, value)] + Front(all, n), n)
  {
    assert forall j :: 0 <= j < |Front(all, n)| ==> Front(all, n)[j] == all[j];
    if i :| 0 <= i < |all| && all[i].key == key {
      assert n <= i;
      WithoutAt(all, i);
      assert (all[..i] + all[i + 1..])[..n - 1] == all[..n][..n - 1];
    } else {
      WithoutAbsent(all, key);
    }
  }

  lemma {:induction false} EvictedAgrees<K,
      V>(m: map<K, Stamped<V>>, l: seq<Pair<K, V>>, capacity: nat, m': map<K, Stamped<V>>)
    requires 1 <= capacity && Agrees(m, l) && |l| <= capacity + 1 && Evicted(m, capacity, m')
    ensures Agrees(m', Front(l, capacity))
  {
    SameSize(m, l);
    if |l| > capacity {
      var oldest :| oldest in m && IsOldest(m, oldest) && m' == m - {oldest};
      DropOldest(m, l, oldest);
    }
  }

  lemma {:induction false} PutAgrees<K,
      V>(m: map<K, Stamped<V>>, all: seq<Pair<K, V>>, capacity: nat, key: K, value: V, now: Time,
         m': map<K, Stamped<V>>)
    requires 1 <= capacity && Distinct(all) && Agrees(m, Front(all, capacity)) && Before(m, now)
    requires Evicted(m[key := Stamped(value, now)], capacity, m')
    ensures Agrees(m', Front([Pair(key, value)] + Without(all, key), capacity))
  {
    var l, m1 := Front(all, capacity), m[key := Stamped(value, now)];
    if i :| 0 <= i < |l| && l[i].key == key {
      var l1 := [Pair(key, value)] + l[..i] + l[i + 1..];
      FrontPresent(all, capacity, i, value);
      TouchPresent(m, l, i, value, now);
      EvictedAgrees(m1, l1, capacity, m');
      assert Front(l1, capacity) == l1;
    } else {
      FrontAbsent(all, capacity, key, value);
      TouchAbsent(m, l, key, value, now);
      EvictedAgrees(m1, [Pair(key, value)] + l, capacity, m');
    }
  }

  lemma {:induction false} GetAgrees<K,
      V>(m: map<K, Stamped<V>>, all: seq<Pair<K, V>>, capacity: nat, key: K, now: Time)
    requires 1 <= capacity && Distinct(all) && Agrees(m, Front(all, capacity)) && Before(m, now)
    ensures Agrees(AfterLookup(m, None, key, now), Front(Touched(all, capacity, Get(key)), capacity))
    ensures Lookup(m, None, key, now) == if Has(Front(all, capacity), key) then Some(ValueIn(Front(all, capacity), key))
                                         else None
  {
    var l := Front(all, capacity);
    if Has(l, key) {
      var i :| 0 <= i < |l| && l[i].key == key;
      ValueAt(l, i);
      FrontPresent(all, capacity, i, l[i].value);
      TouchPresent(m, l, i, l[i].value, now);
    }
  }

  lemma {:induction false} TouchedDistinct<K, V>(all: seq<Pair<K, V>>, capacity: nat, op: Op<K, V>)
    requires 1 <= capacity && Distinct(all)
    ensures Distinct(Touched(all, capacity, op))
  {
    var l := Front(all, capacity);
    if Has(l, op.key) {
      var i :| 0 <= i < |l| && l[i].key == op.key;
      FrontPresent(all, capacity, i, if op.Put? then op.value else ValueIn(l, op.key));
    } else if op.Put? {
      FrontAbsent(all, capacity, op.key, op.value);
    }
  }

  lemma {:induction false} StepAgrees<K, V>(m: map<K, Stamped<V>>, all: seq<Pair<K, V>>, capacity: nat, op: Op<K, V>,
                                            now: Time, m': map<K, Stamped<V>>, result: Option<V>)
    requires 1 <= capacity && Distinct(all) && Agrees(m, Front(all, capacity)) && Before(m, now)
    requires CacheStep(m, capacity, op, now, m', result)
    ensures Distinct(Touched(all, capacity, op)) && Agrees(m', Front(Touched(all, capacity, op), capacity))
    ensures forall k :: k in m' ==> m'[k].at <= now
    ensures op.Get? ==> result == if Has(Front(all, capacity), op.key) then Some(ValueIn(Front(all, capacity), op.key))
                                  else None
  {
    TouchedDistinct(all, capacity, op);
    if op.Put? {
      PutAgrees(m, all, capacity, op.key, op.value, now, m');
    } else {
      GetAgrees(m, all, capacity, op.key, now);
    }
  }

  /** In every run the cache is the first `capacity` keys in the order of their last touches. */
  lemma {:induction false} HoldsMostRecent<K, V>(capacity: nat, ops: seq<Op<K, V>>, times: seq<Time>,
                                                 states: seq<map<K, Stamped<V>>>, results: seq<Option<V>>)
    requires CacheRun(capacity, ops, times, states, results)
    ensures Distinct(TouchedBy(capacity, ops))
    ensures Agrees(states[|ops|], Front(TouchedBy(capacity, ops), capacity))
    ensures ops != [] ==> forall k :: k in states[|ops|] ==> states[|ops|][k].at <= times[|ops| - 1]
    decreases |ops|
  {
    if ops != [] {
      var n := |ops| - 1;
      RunPrefix(capacity, ops, times, states, results);
      HoldsMostRecent(capacity, ops[..n], times[..n], states[..n + 1], results[..n]);
      StepAgrees(states[n], TouchedBy(capacity, ops[..n]), capacity, ops[n], times[n], states[n + 1], results[n]);
    }
  }

  lemma {:induction false} RunPrefix<K, V>(capacity: nat, ops: seq<Op<K, V>>, times: seq<Time>,
                                           states: seq<map<K, Stamped<V>>>, results: seq<Option<V>>)
    requires CacheRun(capacity, ops, times, states, results) && ops != []
    ensures var n := |ops| - 1; CacheRun(capacity, ops[..n], times[..n], states[..n + 1], results[..n])
  {
  }

  lemma {:induction false} ValueKept<K, V>(l: seq<Pair<K, V>>, key: K, other: K)
    requires Has(Without(l, other), key) && key != other
    ensures Has(l, key) && ValueIn(Without(l, other), key) == ValueIn(l, key)
  {
    var w := Without(l, other);
    var j :| 0 <= j < |w| && w[j].key == key;
    var tail := Without(l[1..], other);
    if l[0].key == key {
      assert Has(l, key);
    } else {
      if l[0].key != other {
        assert w == [l[0]] + tail && tail[j - 1].key == key;
        assert w[1..] == tail;
      }
      ValueKept(l[1..], key, other);
      var i :| 0 <= i < |l[1..]| && l[1..][i].key == key;
      assert l[i + 1].key == key;
    }
  }

  lemma {:induction false} FrontValue<K, V>(all: seq<Pair<K, V>>, n: nat, key: K)
    requires Distinct(all) && Has(Front(all, n), key)
    ensures Has(all, key) && ValueIn(Front(all, n), key) == ValueIn(all, key)
  {
    var l := Front(all, n);
    var i :| 0 <= i < |l| && l[i].key == key;
    assert all[i] == l[i];
    ValueAt(l, i);
    ValueAt(all, i);
  }

  /** The value kept for a key is the one put last under it. */
  lemma {:induction false} TouchedValue<K, V>(capacity: nat, ops: seq<Op<K, V>>, key: K)
    requires 1 <= capacity && Has(TouchedBy(capacity, ops), key)
    ensures LatestPut(ops, key) == Some(ValueIn(TouchedBy(capacity, ops), key))
    decreases |ops|
  {
    var init, op := ops[..|ops| - 1], ops[|ops| - 1];
    var all := TouchedBy(capacity, init);
    AllDistinct(capacity, init);
    if op.Get? && Has(Front(all, capacity), op.key) {
      FrontValue(all, capacity, op.key);
    }
    if op.key != key && (op.Put? || Has(Front(all, capacity), op.key)) {
      TailHas(TouchedBy(capacity, ops), Without(all, op.key), key);
      ValueKept(all, key, op.key);
    }
    if op.Get? || op.key != key {
      TouchedValue(capacity, init, key);
    }
  }

  lemma {:induction false} TailHas<K, V>(l: seq<Pair<K, V>>, tail: seq<Pair<K, V>>, key: K)
    requires l != [] && l[1..] == tail && Has(l, key) && l[0].key != key
    ensures Has(tail, key)
  {
    var i :| 0 <= i < |l| && l[i].key == key;
    assert tail[i - 1].key == key;
  }

  lemma {:induction false} AllDistinct<K, V>(capacity: nat, ops: seq<Op<K, V>>)
    requires 1 <= capacity
    ensures Distinct(TouchedBy(capacity, ops))
    decreases |ops|
  {
    if ops != [] {
      AllDistinct(capacity, ops[..|ops| - 1]);
      TouchedDistinct(TouchedBy(capacity, ops[..|ops| - 1]), capacity, ops[|ops| - 1]);
    }
  }

  /** Both together, for the next lookup: a key is a hit exactly when it is among the `capacity`
      most recently touched, and then the answer is the value put last. */
  lemma {:induction false} HitsAreRecentAndLatest<K, V>(capacity: nat, ops: seq<Op<K, V>>, times: seq<Time>,
                                                        states: seq<map<K, Stamped<V>>>, results: seq<Option<V>>,
                                                        key: K, now: Time)
    requires CacheRun(capacity, ops, times, states, results)
    ensures var recent := Front(TouchedBy(capacity, ops), capacity);
            Lookup(states[|ops|], None, key, now) == if Has(recent, key) then LatestPut(ops, key) else None
    ensures |states[|ops|]| == |Front(TouchedBy(capacity, ops), capacity)| <= capacity
  {
    var all, m := TouchedBy(capacity, ops), states[|ops|];
    var recent := Front(all, capacity);
    HoldsMostRecent(capacity, ops, times, states, results);
    SameSize(m, recent);
    if Has(recent, key) {
      var i :| 0 <= i < |recent| && recent[i].key == key;
      ValueAt(recent, i);
      FrontValue(all, capacity, key);
      TouchedValue(capacity, ops, key);
    }
  }
}
