/** `LRUCache` of `patterns/14_caching/bounded_lru.go`: a map from keys to list elements and a list
    of elements, most recently used first.  A `Get` that misses does not change the cache. */
module LRU {
  import opened Common

  datatype Entry<K, V> = Entry(key: K, value: V)

  /** What the cache holds, most recently used first. */
  type Recency<K, V> = seq<Entry<K, V>>

  datatype Op<K, V> = Get(key: K) | Put(key: K, value: V)

  predicate HasKey<K(==), V>(s: Recency<K, V>, k: K) {
    exists i :: 0 <= i < |s| && s[i].key == k
  }

  function Find<K(==), V>(s: Recency<K, V>, k: K): (r: Option<V>)
    ensures r.Some? <==> HasKey(s, k)
    ensures r.Some? ==> Entry(k, r.value) in s
  {
    if s == [] then None
    else if s[0].key == k then Some(s[0].value)
    else
      var r := Find(s[1..], k);
      assert HasKey(s[1..], k) ==> HasKey(s, k) by {
        if i :| 0 <= i < |s[1..]| && s[1..][i].key == k { assert s[i + 1].key == k; }
      }
      assert HasKey(s, k) ==> HasKey(s[1..], k) by {
        if i :| 0 <= i < |s| && s[i].key == k { assert s[1..][i - 1].key == k; }
      }
      r
  }

  function Without<K(==), V>(s: Recency<K, V>, k: K): Recency<K, V> {
    if s == [] then []
    else if s[0].key == k then s[1..]
    else [s[0]] + Without(s[1..], k)
  }

  function Step<K(==), V>(s: Recency<K, V>, capacity: nat, op: Op<K, V>): Recency<K, V> {
    match op
    case Get(k) =>
      (match Find(s, k)
       case Some(v) => [Entry(k, v)] + Without(s, k)
       case None => s)
    case Put(k, v) =>
      if HasKey(s, k) then [Entry(k, v)] + Without(s, k)
      else if |s| >= capacity && s != [] then [Entry(k, v)] + s[..|s| - 1]
      else [Entry(k, v)] + s
  }

  /** The cache after a trace, starting empty. */
  function Run<K(==), V>(capacity: nat, ops: seq<Op<K, V>>): Recency<K, V> {
    if ops == [] then []
    else Step(Run(capacity, ops[..|ops| - 1]), capacity, ops[|ops| - 1])
  }

  ghost predicate DistinctKeys<K, V>(s: Recency<K, V>) {
    forall i, j :: 0 <= i < j < |s| ==> s[i].key != s[j].key
  }

  lemma TailKeysDiffer<K, V>(s: Recency<K, V>, e: Entry<K, V>)
    requires DistinctKeys(s) && s != [] && e in s[1..]
    ensures e.key != s[0].key
  {
    var i :| 0 <= i < |s[1..]| && s[1..][i] == e;
    assert s[i + 1] == e;
  }

  lemma HasKeyTail<K, V>(s: Recency<K, V>, k: K)
    requires s != []
    ensures HasKey(s, k) <==> s[0].key == k || HasKey(s[1..], k)
  {
    if i :| 0 <= i < |s| && s[i].key == k { if i > 0 { assert s[1..][i - 1].key == k; } }
    if i :| 0 <= i < |s[1..]| && s[1..][i].key == k { assert s[i + 1].key == k; }
  }

  lemma {:induction false} WithoutMember<K, V>(s: Recency<K, V>, k: K, e: Entry<K, V>)
    requires DistinctKeys(s)
    ensures e in Without(s, k) <==> e in s && e.key != k
    decreases |s|
  {
    if s != [] {
      if e in s[1..] { TailKeysDiffer(s, e); }
      if s[0].key != k { WithoutMember(s[1..], k, e); }
    }
  }

  lemma {:induction false} WithoutIs<K, V>(s: Recency<K, V>, k: K)
    requires DistinctKeys(s)
    ensures DistinctKeys(Without(s, k)) && !HasKey(Without(s, k), k)
    ensures |Without(s, k)| == |s| - (if HasKey(s, k) then 1 else 0)
    decreases |s|
  {
    if s != [] {
      HasKeyTail(s, k);
      WithoutIs(s[1..], k);
      var t := Without(s[1..], k);
      if s[0].key == k {
        forall i | 0 <= i < |s[1..]| ensures s[1..][i].key != k { TailKeysDiffer(s, s[1..][i]); }
      } else {
        forall i | 0 <= i < |t| ensures t[i].key != s[0].key {
          WithoutMember(s[1..], k, t[i]);
          TailKeysDiffer(s, t[i]);
        }
        forall i, j | 0 <= i < j < |[s[0]] + t| ensures ([s[0]] + t)[i].key != ([s[0]] + t)[j].key {
          if i > 0 { assert t[i - 1].key != t[j - 1].key; }
        }
        HasKeyTail([s[0]] + t, k);
      }
    }
  }

  /** Bounded, and no key twice. */
  ghost predicate WellFormed<K, V>(s: Recency<K, V>, capacity: nat) {
    DistinctKeys(s) && |s| <= capacity
  }

  lemma FrontKeepsDistinct<K, V>(e: Entry<K, V>, s: Recency<K, V>)
    requires DistinctKeys(s) && !HasKey(s, e.key)
    ensures DistinctKeys([e] + s)
  {
    var t := [e] + s;
    forall i, j | 0 <= i < j < |t| ensures t[i].key != t[j].key {
      if i > 0 { assert s[i - 1].key != s[j - 1].key; }
    }
  }

  lemma StepKeepsWellFormed<K, V>(s: Recency<K, V>, capacity: nat, op: Op<K, V>)
    requires WellFormed(s, capacity) && capacity > 0
    ensures WellFormed(Step(s, capacity, op), capacity)
  {
    WithoutIs(s, op.key);
    match op
    case Get(k) =>
      if HasKey(s, k) { FrontKeepsDistinct(Entry(k, Find(s, k).value), Without(s, k)); }
    case Put(k, v) =>
      if HasKey(s, k) { FrontKeepsDistinct(Entry(k, v), Without(s, k)); }
      else if |s| >= capacity { FrontKeepsDistinct(Entry(k, v), s[..|s| - 1]); }
      else { FrontKeepsDistinct(Entry(k, v), s); }
  }

  lemma {:induction false} RunWellFormed<K, V>(capacity: nat, ops: seq<Op<K, V>>)
    requires capacity > 0
    ensures WellFormed(Run(capacity, ops), capacity)
    decreases |ops|
  {
    if ops != [] {
      RunWellFormed(capacity, ops[..|ops| - 1]);
      StepKeepsWellFormed(Run(capacity, ops[..|ops| - 1]), capacity, ops[|ops| - 1]);
    }
  }

  // ---- A hit returns the last value put ----

  function LastPut<K(==), V>(ops: seq<Op<K, V>>, k: K): Option<V> {
    if ops == [] then None
    else
      var op := ops[|ops| - 1];
      if op.Put? && op.key == k then Some(op.value) else LastPut(ops[..|ops| - 1], k)
  }

  /** An entry after a step was there before under another key, or has the key of the operation. */
  lemma StepEntries<K, V>(s: Recency<K, V>, capacity: nat, op: Op<K, V>, e: Entry<K, V>)
    requires DistinctKeys(s) && e in Step(s, capacity, op)
    ensures (e in s && (e.key != op.key || op.Get?)) || (op.Put? && e == Entry(op.key, op.value))
  {
    WithoutMember(s, op.key, e);
    HasKeyMember(s, op.key);
  }

  lemma {:induction false} HitsAreLastPut<K, V>(capacity: nat, ops: seq<Op<K, V>>, e: Entry<K, V>)
    requires capacity > 0 && e in Run(capacity, ops)
    ensures LastPut(ops, e.key) == Some(e.value)
    decreases |ops|
  {
    var before, op := ops[..|ops| - 1], ops[|ops| - 1];
    RunWellFormed(capacity, before);
    StepEntries(Run(capacity, before), capacity, op, e);
    if e in Run(capacity, before) { HitsAreLastPut(capacity, before, e); }
  }

  // ---- Least recently used is what leaves ----

  /** The number of the last operation that used `k`: a Put, or a Get that hit; 0 if none did. */
  function LastUse<K(==), V>(capacity: nat, ops: seq<Op<K, V>>, k: K): nat {
    if ops == [] then 0
    else
      var before, op := ops[..|ops| - 1], ops[|ops| - 1];
      if op.key == k && (op.Put? || HasKey(Run(capacity, before), k)) then |ops|
      else LastUse(capacity, before, k)
  }

  lemma {:induction false} LastUseBound<K, V>(capacity: nat, ops: seq<Op<K, V>>, k: K)
    ensures LastUse(capacity, ops, k) <= |ops|
    decreases |ops|
  {
    if ops != [] { LastUseBound(capacity, ops[..|ops| - 1], k); }
  }

  /** Ordered by last use `f`; what was used but is gone was used before everything that is still
      there, and only leaves a full cache. */
  ghost predicate MostRecent<K(!new), V>(s: Recency<K, V>, capacity: nat, f: K -> nat) {
    && (forall i :: 0 <= i < |s| ==> f(s[i].key) > 0)
    && (forall i, j :: 0 <= i < j < |s| ==> f(s[i].key) > f(s[j].key))
    && (forall k, i :: f(k) > 0 && !HasKey(s, k) && 0 <= i < |s| ==> f(k) < f(s[i].key))
    && (forall k :: f(k) > 0 && !HasKey(s, k) ==> |s| == capacity)
  }

  lemma {:induction false} WithoutKeepsOrder<K, V>(s: Recency<K, V>, k: K, f: K -> nat)
    requires DistinctKeys(s)
    requires forall i, j :: 0 <= i < j < |s| ==> f(s[i].key) > f(s[j].key)
    ensures forall i, j :: 0 <= i < j < |Without(s, k)| ==> f(Without(s, k)[i].key) > f(Without(s, k)[j].key)
    decreases |s|
  {
    if s != [] && s[0].key != k {
      WithoutKeepsOrder(s[1..], k, f);
      WithoutIs(s[1..], k);
      var t := Without(s[1..], k);
      forall i, j | 0 <= i < j < |[s[0]] + t| ensures f(([s[0]] + t)[i].key) > f(([s[0]] + t)[j].key) {
        if i == 0 {
          WithoutMember(s[1..], k, t[j - 1]);
          var n :| 0 <= n < |s[1..]| && s[1..][n] == t[j - 1];
          assert s[n + 1] == t[j - 1];
        } else {
          assert f(t[i - 1].key) > f(t[j - 1].key);
        }
      }
    }
  }

  lemma HasKeyFront<K, V>(e: Entry<K, V>, t: Recency<K, V>, k: K)
    ensures HasKey([e] + t, k) <==> k == e.key || HasKey(t, k)
  {
    var s := [e] + t;
    if i :| 0 <= i < |t| && t[i].key == k { assert s[i + 1].key == k; }
    if i :| 0 <= i < |s| && s[i].key == k { if i > 0 { assert t[i - 1].key == k; } }
    assert s[0].key == e.key;
  }

  /** Keys other than `e`'s that were used but are not in `t` were used before all of `t`. */
  ghost predicate GoneBefore<K(!new), V>(t: Recency<K, V>, e: Entry<K, V>, capacity: nat, f: K -> nat) {
    forall k :: k != e.key && f(k) > 0 && !HasKey(t, k) ==>
      |t| + 1 == capacity && forall i :: 0 <= i < |t| ==> f(k) < f(t[i].key)
  }

  /** Using `e` at a time later than everything before, in front of a list `t` of other entries. */
  lemma UseKeepsMostRecent<K(!new), V>(t: Recency<K, V>, e: Entry<K, V>, capacity: nat, f: K -> nat, f': K -> nat)
    requires f'(e.key) > 0 && forall k :: k != e.key ==> f'(k) == f(k) < f'(e.key)
    requires !HasKey(t, e.key) && GoneBefore(t, e, capacity, f)
    requires forall i :: 0 <= i < |t| ==> f(t[i].key) > 0
    requires forall i, j :: 0 <= i < j < |t| ==> f(t[i].key) > f(t[j].key)
    ensures MostRecent([e] + t, capacity, f')
  {
    var s := [e] + t;
    forall i | 0 <= i < |t| ensures t[i].key != e.key {}
    forall i, j | 0 <= i < j < |s| ensures f'(s[i].key) > f'(s[j].key) {
      if i > 0 { assert f(t[i - 1].key) > f(t[j - 1].key); }
    }
    forall k | f'(k) > 0 && !HasKey(s, k)
      ensures |s| == capacity && forall i :: 0 <= i < |s| ==> f'(k) < f'(s[i].key)
    {
      HasKeyFront(e, t, k);
      forall i | 0 <= i < |s| ensures f'(k) < f'(s[i].key) {
        if i > 0 { assert f(k) < f(t[i - 1].key); }
      }
    }
  }

  lemma {:induction false} HasKeyMember<K, V>(s: Recency<K, V>, k: K)
    ensures HasKey(s, k) <==> exists e :: e in s && e.key == k
  {
    if e :| e in s && e.key == k {
      var i :| 0 <= i < |s| && s[i] == e;
      assert s[i].key == k;
    }
    if i :| 0 <= i < |s| && s[i].key == k { assert s[i] in s; }
  }

  lemma WithoutPlace<K, V>(s: Recency<K, V>, k: K, i: nat) returns (n: nat)
    requires DistinctKeys(s) && i < |Without(s, k)|
    ensures n < |s| && s[n] == Without(s, k)[i]
  {
    WithoutMember(s, k, Without(s, k)[i]);
    n :| 0 <= n < |s| && s[n] == Without(s, k)[i];
  }

  lemma KeptKeys<K, V>(s: Recency<K, V>, gone: K, k: K)
    requires DistinctKeys(s) && k != gone && HasKey(s, k)
    ensures HasKey(Without(s, gone), k)
  {
    HasKeyMember(s, k);
    HasKeyMember(Without(s, gone), k);
    var e :| e in s && e.key == k;
    WithoutMember(s, gone, e);
  }

  lemma RefreshKeepsMostRecent<K(!new), V>(s: Recency<K, V>, e: Entry<K, V>, capacity: nat, f: K -> nat, f': K -> nat)
    requires DistinctKeys(s) && MostRecent(s, capacity, f) && HasKey(s, e.key)
    requires f'(e.key) > 0 && forall k :: k != e.key ==> f'(k) == f(k) < f'(e.key)
    ensures MostRecent([e] + Without(s, e.key), capacity, f')
  {
    var t := Without(s, e.key);
    WithoutIs(s, e.key);
    WithoutKeepsOrder(s, e.key, f);
    forall i | 0 <= i < |t| ensures f(t[i].key) > 0 {
      var n := WithoutPlace(s, e.key, i);
    }
    forall k | k != e.key && f(k) > 0 && !HasKey(t, k)
      ensures |t| + 1 == capacity && forall i :: 0 <= i < |t| ==> f(k) < f(t[i].key)
    {
      if HasKey(s, k) { KeptKeys(s, e.key, k); }
      forall i | 0 <= i < |t| ensures f(k) < f(t[i].key) {
        var n := WithoutPlace(s, e.key, i);
      }
    }
    UseKeepsMostRecent(t, e, capacity, f, f');
  }

  lemma KeyIsInPart<K, V>(s: Recency<K, V>, n: nat, k: K)
    requires HasKey(s, k) && n <= |s|
    ensures HasKey(s[..n], k) || exists i :: n <= i < |s| && s[i].key == k
  {
    var i :| 0 <= i < |s| && s[i].key == k;
    if i < n { assert s[..n][i].key == k; }
  }

  lemma EvictKeepsMostRecent<K(!new), V>(s: Recency<K, V>, e: Entry<K, V>, capacity: nat, f: K -> nat, f': K -> nat)
    requires MostRecent(s, capacity, f) && !HasKey(s, e.key) && |s| == capacity > 0
    requires f'(e.key) > 0 && forall k :: k != e.key ==> f'(k) == f(k) < f'(e.key)
    ensures MostRecent([e] + s[..|s| - 1], capacity, f')
  {
    var n := |s| - 1;
    var t := s[..n];
    forall k | k != e.key && f(k) > 0 && !HasKey(t, k)
      ensures |t| + 1 == capacity && forall i :: 0 <= i < |t| ==> f(k) < f(t[i].key)
    {
      if HasKey(s, k) { KeyIsInPart(s, n, k); }
    }
    UseKeepsMostRecent(t, e, capacity, f, f');
  }

  /** One operation that uses its key keeps the order, and evicts the least recently used. */
  lemma StepKeepsMostRecent<K(!new), V>(s: Recency<K, V>, capacity: nat, op: Op<K, V>, f: K -> nat, f': K -> nat)
    requires WellFormed(s, capacity) && capacity > 0 && MostRecent(s, capacity, f)
    requires op.Put? || HasKey(s, op.key)
    requires f'(op.key) > 0 && forall k :: k != op.key ==> f'(k) == f(k) < f'(op.key)
    ensures MostRecent(Step(s, capacity, op), capacity, f')
  {
    if HasKey(s, op.key) {
      RefreshKeepsMostRecent(s, Entry(op.key, if op.Put? then op.value else Find(s, op.key).value), capacity, f, f');
    } else if |s| >= capacity {
      EvictKeepsMostRecent(s, Entry(op.key, op.value), capacity, f, f');
    } else {
      UseKeepsMostRecent(s, Entry(op.key, op.value), capacity, f, f');
    }
  }

  /** After any trace the cache holds exactly the most recently used keys, in order of last use: what
      is evicted is always what was used longest ago, and only when the cache is full. */
  lemma {:induction false} EvictsLeastRecent<K(!new), V>(capacity: nat, ops: seq<Op<K, V>>)
    requires capacity > 0
    ensures MostRecent(Run(capacity, ops), capacity, (k: K) => LastUse(capacity, ops, k))
    decreases |ops|
  {
    if ops != [] {
      var before, op := ops[..|ops| - 1], ops[|ops| - 1];
      var s := Run(capacity, before);
      var f, f' := (k: K) => LastUse(capacity, before, k), (k: K) => LastUse(capacity, ops, k);
      EvictsLeastRecent<K, V>(capacity, before);
      RunWellFormed(capacity, before);
      forall k ensures f(k) <= |before| { LastUseBound(capacity, before, k); }
      if op.Put? || HasKey(s, op.key) {
        StepKeepsMostRecent(s, capacity, op, f, f');
      } else {
        forall k ensures f'(k) == f(k) {}
      }
    }
  }

  // ---- Inclusion ----

  /** `a` can be obtained from `b` by leaving entries out. */
  ghost predicate Subsequence<T>(a: seq<T>, b: seq<T>) {
    a == [] || (b != [] && (if a[0] == b[0] then Subsequence(a[1..], b[1..]) else Subsequence(a, b[1..])))
  }

  lemma {:induction false} SubsequenceRefl<T>(a: seq<T>)
    ensures Subsequence(a, a)
    decreases |a|
  {
    if a != [] { SubsequenceRefl(a[1..]); }
  }

  lemma {:induction false} SubsequenceTail<T>(a: seq<T>, b: seq<T>)
    requires a != [] && Subsequence(a, b)
    ensures Subsequence(a[1..], b)
    decreases |b|, 0
  {
    if a[0] == b[0] {
      SubsequenceSkip(b[0], a[1..], b[1..]);
      assert [b[0]] + b[1..] == b;
    } else {
      SubsequenceTail(a, b[1..]);
      SubsequenceSkip(b[0], a[1..], b[1..]);
      assert [b[0]] + b[1..] == b;
    }
  }

  lemma {:induction false} SubsequenceSkip<T>(x: T, a: seq<T>, b: seq<T>)
    requires Subsequence(a, b)
    ensures Subsequence(a, [x] + b)
    decreases |b|, 1
  {
    assert ([x] + b)[1..] == b;
    if a != [] && a[0] == x {
      SubsequenceTail(a, b);
    }
  }

  lemma SubsequenceFront<T>(x: T, a: seq<T>, b: seq<T>)
    requires Subsequence(a, b)
    ensures Subsequence([x] + a, [x] + b)
  {
    assert ([x] + a)[1..] == a && ([x] + b)[1..] == b;
  }

  lemma {:induction false} SubsequenceMember<T>(a: seq<T>, b: seq<T>, x: T)
    requires Subsequence(a, b) && x in a
    ensures x in b
    decreases |b|
  {
    if a[0] == b[0] {
      if x != a[0] { SubsequenceMember(a[1..], b[1..], x); }
    } else {
      SubsequenceMember(a, b[1..], x);
    }
  }

  /** Dropping the last entry on the left, or on both sides. */
  lemma {:induction false} SubsequenceInit<T>(a: seq<T>, b: seq<T>)
    requires a != [] && Subsequence(a, b)
    ensures Subsequence(a[..|a| - 1], b) && Subsequence(a[..|a| - 1], b[..|b| - 1])
    decreases |b|
  {
    var a', b' := a[..|a| - 1], b[..|b| - 1];
    if a' == [] {
    } else if a[0] == b[0] {
      SubsequenceInit(a[1..], b[1..]);
      assert a'[1..] == a[1..][..|a[1..]| - 1] && b'[1..] == b[1..][..|b[1..]| - 1];
    } else {
      SubsequenceInit(a, b[1..]);
      assert b'[1..] == b[1..][..|b[1..]| - 1];
    }
  }

  lemma {:induction false} SubsequenceWithout<K, V>(a: Recency<K, V>, b: Recency<K, V>, k: K)
    requires DistinctKeys(a) && DistinctKeys(b) && Subsequence(a, b)
    ensures Subsequence(Without(a, k), Without(b, k))
    decreases |b|
  {
    if a != [] {
      if a[0] == b[0] {
        SubsequenceWithout(a[1..], b[1..], k);
        if a[0].key != k { SubsequenceFront(a[0], Without(a[1..], k), Without(b[1..], k)); }
      } else if b[0].key == k {
        WithoutAbsent(a, b, k);
      } else {
        SubsequenceWithout(a, b[1..], k);
        SubsequenceSkip(b[0], Without(a, k), Without(b[1..], k));
      }
    }
  }

  /** If the first entry of `b` is left out of `a`, its key is not in `a`. */
  lemma WithoutAbsent<K, V>(a: Recency<K, V>, b: Recency<K, V>, k: K)
    requires a != [] && DistinctKeys(b) && Subsequence(a, b) && a[0] != b[0] && b[0].key == k
    ensures Without(a, k) == a
  {
    forall i | 0 <= i < |a| ensures a[i].key != k {
      SubsequenceMember(a, b[1..], a[i]);
    }
    WithoutNothing(a, k);
  }

  lemma {:induction false} WithoutNothing<K, V>(a: Recency<K, V>, k: K)
    requires forall i :: 0 <= i < |a| ==> a[i].key != k
    ensures Without(a, k) == a
    decreases |a|
  {
    if a != [] { WithoutNothing(a[1..], k); }
  }

  /** The small cache's list is part of the large one's, and it lacks something only if it is full. */
  ghost predicate Included<K, V>(small: Recency<K, V>, large: Recency<K, V>, c: nat) {
    Subsequence(small, large) && (|small| == c || small == large)
  }

  lemma IncludedKeys<K, V>(small: Recency<K, V>, large: Recency<K, V>, k: K)
    requires Subsequence(small, large) && DistinctKeys(small) && DistinctKeys(large)
    ensures HasKey(small, k) ==> HasKey(large, k) && Find(small, k) == Find(large, k)
  {
    if HasKey(small, k) {
      SubsequenceMember(small, large, Entry(k, Find(small, k).value));
      HasKeyMember(large, k);
      SameEntry(large, Entry(k, Find(small, k).value), Entry(k, Find(large, k).value));
    }
  }

  lemma SameEntry<K, V>(s: Recency<K, V>, a: Entry<K, V>, b: Entry<K, V>)
    requires DistinctKeys(s) && a in s && b in s && a.key == b.key
    ensures a == b
  {
    var i :| 0 <= i < |s| && s[i] == a;
    var j :| 0 <= j < |s| && s[j] == b;
    assert !(i < j) && !(j < i);
  }

  lemma StepKeepsIncluded<K, V>(small: Recency<K, V>, large: Recency<K, V>, c: nat, d: nat, op: Op<K, V>)
    requires 0 < c <= d && WellFormed(small, c) && WellFormed(large, d) && Included(small, large, c)
    ensures Included(Step(small, c, op), Step(large, d, op), c)
  {
    var k := op.key;
    IncludedKeys(small, large, k);
    WithoutIs(small, k);
    WithoutIs(large, k);
    SubsequenceWithout(small, large, k);
    if HasKey(small, k) {
      var e := Entry(k, if op.Put? then op.value else Find(small, k).value);
      SubsequenceFront(e, Without(small, k), Without(large, k));
    } else if HasKey(large, k) {
      LargeOnly(small, large, c, op);
    } else if op.Put? {
      NewKeyKeepsIncluded(small, large, c, d, Entry(k, op.value));
    }
  }

  /** The key is only in the large cache: a Get moves it there, a Put brings it into the small one. */
  lemma LargeOnly<K, V>(small: Recency<K, V>, large: Recency<K, V>, c: nat, op: Op<K, V>)
    requires 0 < c && WellFormed(small, c) && Included(small, large, c)
    requires !HasKey(small, op.key) && HasKey(large, op.key)
    requires Subsequence(Without(small, op.key), Without(large, op.key))
    ensures var e := Entry(op.key, if op.Put? then op.value else Find(large, op.key).value);
      Included(Step(small, c, op), [e] + Without(large, op.key), c)
  {
    var rest := Without(large, op.key);
    WithoutNothing(small, op.key);
    if op.Put? {
      SubsequenceInit(small, rest);
      SubsequenceFront(Entry(op.key, op.value), small[..|small| - 1], rest);
    } else {
      SubsequenceSkip(Entry(op.key, Find(large, op.key).value), small, rest);
    }
  }

  lemma NewKeyKeepsIncluded<K, V>(small: Recency<K, V>, large: Recency<K, V>, c: nat, d: nat, e: Entry<K, V>)
    requires 0 < c <= d && WellFormed(small, c) && WellFormed(large, d) && Included(small, large, c)
    requires !HasKey(small, e.key) && !HasKey(large, e.key)
    ensures Included(Step(small, c, Put(e.key, e.value)), Step(large, d, Put(e.key, e.value)), c)
  {
    if |small| == c {
      SubsequenceInit(small, large);
      SubsequenceFront(e, small[..|small| - 1], large);
      SubsequenceFront(e, small[..|small| - 1], large[..|large| - 1]);
    } else {
      SubsequenceRefl([e] + small);
    }
  }

  lemma {:induction false} RunIncluded<K, V>(c: nat, d: nat, ops: seq<Op<K, V>>)
    requires 0 < c <= d
    ensures Included(Run(c, ops), Run(d, ops), c)
    decreases |ops|
  {
    if ops != [] {
      var before := ops[..|ops| - 1];
      RunIncluded(c, d, before);
      RunWellFormed(c, before);
      RunWellFormed(d, before);
      StepKeepsIncluded(Run(c, before), Run(d, before), c, d, ops[|ops| - 1]);
    }
  }

  /** Inclusion: on the same trace of Gets and Puts, the smaller cache's recency list is always a
      subsequence of the larger one's, so whatever hits in the smaller one hits in the larger one,
      with the same value, which is the last one put. */
  lemma Inclusion<K, V>(c: nat, d: nat, ops: seq<Op<K, V>>, k: K)
    requires 0 < c <= d
    ensures Subsequence(Run(c, ops), Run(d, ops))
    ensures Find(Run(c, ops), k).Some? ==>
      Find(Run(d, ops), k) == Find(Run(c, ops), k) == LastPut(ops, k)
  {
    RunIncluded(c, d, ops);
    RunWellFormed(c, ops);
    RunWellFormed(d, ops);
    IncludedKeys(Run(c, ops), Run(d, ops), k);
    if Find(Run(c, ops), k).Some? { HitsAreLastPut(c, ops, Entry(k, Find(Run(c, ops), k).value)); }
  }

  // ---- The code, on heap objects ----

  class Element<K, V> {
    const key: K
    var value: V

    constructor (key: K, value: V)
      ensures this.key == key && this.value == value
    {
      this.key, this.value := key, value;
    }
  }

  /** `container/list`, front first: the list without one of its elements. */
  function Unlink<T(==)>(l: seq<T>, e: T): seq<T> {
    if l == [] then [] else if l[0] == e then l[1..] else [l[0]] + Unlink(l[1..], e)
  }

  lemma {:induction false} UnlinkMembers<T>(l: seq<T>, e: T, x: T)
    ensures x in Unlink(l, e) ==> x in l
    ensures x in l && x != e ==> x in Unlink(l, e)
    decreases |l|
  {
    if l != [] && l[0] != e { UnlinkMembers(l[1..], e, x); }
  }

  ghost function Entries<K, V>(l: seq<Element<K, V>>): Recency<K, V>
    reads l
  {
    if l == [] then [] else [Entry(l[0].key, l[0].value)] + Entries(l[1..])
  }

  lemma {:induction false} EntriesAt<K, V>(l: seq<Element<K, V>>)
    ensures |Entries(l)| == |l|
    ensures forall i :: 0 <= i < |l| ==> Entries(l)[i] == Entry(l[i].key, l[i].value)
    decreases |l|
  {
    if l != [] { EntriesAt(l[1..]); }
  }

  ghost predicate DistinctElements<K, V>(l: seq<Element<K, V>>) {
    forall i, j :: 0 <= i < j < |l| ==> l[i].key != l[j].key
  }

  lemma {:induction false} UnlinkEntries<K, V>(l: seq<Element<K, V>>, e: Element<K, V>)
    requires DistinctElements(l) && e in l
    ensures Entries(Unlink(l, e)) == Without(Entries(l), e.key)
    ensures DistinctElements(Unlink(l, e)) && |Unlink(l, e)| == |l| - 1 && e !in Unlink(l, e)
    decreases |l|
  {
    if l[0] == e {
    } else {
      var i :| 0 < i < |l| && l[i] == e;
      UnlinkEntries(l[1..], e);
      var t := Unlink(l[1..], e);
      forall j | 0 <= j < |t| ensures t[j].key != l[0].key {
        UnlinkMembers(l[1..], e, t[j]);
      }
      forall j, k | 0 <= j < k < |[l[0]] + t| ensures ([l[0]] + t)[j].key != ([l[0]] + t)[k].key {
        if j > 0 { assert t[j - 1].key != t[k - 1].key; }
      }
    }
  }

  class LRUCache<K(==), V> {
    const capacity: nat
    var items: map<K, Element<K, V>>
    var evictList: seq<Element<K, V>>

    /** Map and list hold the same elements, under the same keys, at most `capacity` of them. */
    ghost predicate Valid()
      reads this
    {
      && |evictList| <= capacity && capacity > 0
      && DistinctElements(evictList)
      && (forall e :: e in evictList ==> e.key in items && items[e.key] == e)
      && (forall k :: k in items ==> items[k] in evictList && items[k].key == k)
    }

    ghost function Contents(): Recency<K, V>
      reads this, evictList
    {
      Entries(evictList)
    }

    constructor (capacity: int)
      ensures this.capacity == if capacity <= 0 then 100 else capacity
      ensures Valid() && Contents() == []
    {
      this.capacity := if capacity <= 0 then 100 else capacity;
      items, evictList := map[], [];
    }

    lemma KeysAreShared(k: K)
      requires Valid()
      ensures k in items <==> HasKey(Contents(), k)
    {
      EntriesAt(evictList);
      if k in items {
        var i :| 0 <= i < |evictList| && evictList[i] == items[k];
        assert Contents()[i].key == k;
      }
      if i :| 0 <= i < |Contents()| && Contents()[i].key == k {
        assert evictList[i] in evictList;
      }
    }

    lemma ValueIsFound(k: K)
      requires Valid() && k in items
      ensures Find(Contents(), k) == Some(items[k].value)
    {
      KeysAreShared(k);
      EntriesAt(evictList);
      var i :| 0 <= i < |evictList| && evictList[i] == items[k];
      var found := Entry(k, Find(Contents(), k).value);
      var j :| 0 <= j < |Contents()| && Contents()[j] == found;
      assert !(i < j) && !(j < i);
    }

    method Get(key: K) returns (value: Option<V>)
      requires Valid()
      modifies this`evictList
      ensures Valid() && Contents() == Step(old(Contents()), capacity, Op.Get(key))
      ensures value == Find(old(Contents()), key)
      ensures forall e :: e in evictList <==> e in old(evictList)
    {
      KeysAreShared(key);
      if key in items {
        ValueIsFound(key);
        var elem := items[key];
        MoveToFront(elem);
        return Some(elem.value);
      }
      return None;
    }

    /** Moving an element of a list to its front, and what that does to the entries. */
    lemma MovedToFront(l: seq<Element<K, V>>, elem: Element<K, V>)
      requires DistinctElements(l) && elem in l
      ensures var l' := [elem] + Unlink(l, elem);
        && DistinctElements(l') && |l'| == |l|
        && Entries(l') == [Entry(elem.key, elem.value)] + Without(Entries(l), elem.key)
        && forall e :: e in l' <==> e in l
    {
      UnlinkEntries(l, elem);
      var rest := Unlink(l, elem);
      forall e ensures e in [elem] + rest <==> e in l { UnlinkMembers(l, elem, e); }
      forall i | 0 <= i < |rest| ensures rest[i].key != elem.key {
        UnlinkMembers(l, elem, rest[i]);
        var j :| 0 <= j < |l| && l[j] == rest[i];
        var n :| 0 <= n < |l| && l[n] == elem;
      }
      FrontIsDistinct(elem, rest);
      assert ([elem] + rest)[1..] == rest;
    }

    lemma FrontIsDistinct(elem: Element<K, V>, rest: seq<Element<K, V>>)
      requires DistinctElements(rest) && forall i :: 0 <= i < |rest| ==> rest[i].key != elem.key
      ensures DistinctElements([elem] + rest)
    {
      var l := [elem] + rest;
      forall i, j | 0 <= i < j < |l| ensures l[i].key != l[j].key {
        if i > 0 { assert rest[i - 1].key != rest[j - 1].key; }
      }
    }

    method MoveToFront(elem: Element<K, V>)
      requires Valid() && elem in evictList
      modifies this`evictList
      ensures Valid()
      ensures evictList == [elem] + Unlink(old(evictList), elem)
      ensures Contents() == [Entry(elem.key, elem.value)] + Without(old(Contents()), elem.key)
      ensures forall e :: e in evictList <==> e in old(evictList)
    {
      MovedToFront(evictList, elem);
      evictList := [elem] + Unlink(evictList, elem);
    }

    /** Assigning to the element at the front. */
    method SetFrontValue(elem: Element<K, V>, value: V)
      requires Valid() && evictList != [] && evictList[0] == elem
      modifies elem
      ensures Valid() && Contents() == [Entry(elem.key, value)] + old(Contents())[1..]
    {
      ghost var rest := evictList[1..];
      ghost var others := Entries(rest);
      assert forall i :: 0 <= i < |rest| ==> rest[i] == evictList[i + 1] && rest[i].key != elem.key;
      elem.value := value;
      assert Entries(rest) == others;
    }

    /** The hit branch of `Put`. */
    method Update(elem: Element<K, V>, value: V)
      requires Valid() && elem in evictList
      modifies this`evictList, elem
      ensures Valid()
      ensures Contents() == [Entry(elem.key, value)] + Without(old(Contents()), elem.key)
      ensures forall e :: e in evictList <==> e in old(evictList)
    {
      MoveToFront(elem);
      SetFrontValue(elem, value);
    }

    /** Making room for a new key. */
    method Evict()
      requires Valid() && |evictList| >= capacity
      modifies this
      ensures Valid() && |evictList| < capacity
      ensures evictList == old(evictList)[..|old(evictList)| - 1]
      ensures items == old(items) - {old(evictList)[|old(evictList)| - 1].key}
    {
      var oldest := evictList[|evictList| - 1];
      evictList := evictList[..|evictList| - 1];
      items := items - {oldest.key};
      forall e | e in evictList ensures e.key != oldest.key {
        var i :| 0 <= i < |evictList| && evictList[i] == e;
        assert old(evictList)[i] == e;
      }
      forall k | k in items ensures items[k] in evictList {
        var i :| 0 <= i < |old(evictList)| && old(evictList)[i] == items[k];
        assert i < |evictList| ==> evictList[i] == items[k];
      }
    }

    method Put(key: K, value: V)
      requires Valid()
      modifies this, evictList
      ensures Valid() && Contents() == Step(old(Contents()), capacity, Op.Put(key, value))
      ensures forall e :: e in evictList ==> e in old(evictList) || fresh(e)
    {
      KeysAreShared(key);
      if key in items {
        Update(items[key], value);
        return;
      }
      MakeRoom(key);
      Insert(key, value);
    }

    method MakeRoom(key: K)
      requires Valid() && key !in items
      modifies this
      ensures Valid() && key !in items && |evictList| < capacity
      ensures var was := old(Contents()); Contents() == if |was| >= capacity then was[..|was| - 1] else was
      ensures forall e :: e in evictList ==> e in old(evictList)
    {
      EntriesAt(evictList);
      if |evictList| >= capacity {
        Evict();
        EntriesAt(evictList);
      }
    }

    /** Inserting a new key when there is room. */
    method Insert(key: K, value: V)
      requires Valid() && key !in items && |evictList| < capacity
      modifies this
      ensures Valid() && Contents() == [Entry(key, value)] + old(Contents())
      ensures fresh(evictList[0]) && evictList[1..] == old(evictList)
    {
      ghost var rest := evictList;
      ghost var entries := Entries(rest);
      var elem := new Element(key, value);
      forall i | 0 <= i < |rest| ensures rest[i].key != key { assert rest[i] in rest; }
      FrontIsDistinct(elem, rest);
      assert Entries(rest) == entries;
      evictList := [elem] + evictList;
      assert evictList[1..] == rest;
      items := items[key := elem];
    }

    method Len() returns (n: nat)
      requires Valid()
      ensures n == |Contents()| <= capacity
    {
      EntriesAt(evictList);
      SameSize();
      return |items|;
    }

    lemma SameSize()
      requires Valid()
      ensures |items| == |evictList|
    {
      var l := evictList;
      var keys := seq(|l|, i requires 0 <= i < |l| => l[i].key);
      forall k ensures k in items <==> k in keys {
        if k in items {
          var i :| 0 <= i < |evictList| && evictList[i] == items[k];
          assert keys[i] == k;
        }
        if k in keys {
          var i :| 0 <= i < |keys| && keys[i] == k;
          assert evictList[i] in evictList;
        }
      }
      assert items.Keys == set k | k in keys;
      NoDuplicatesSize(keys);
    }
  }

  lemma {:induction false} NoDuplicatesSize<T>(s: seq<T>)
    requires forall i, j :: 0 <= i < j < |s| ==> s[i] != s[j]
    ensures |set x | x in s| == |s|
    decreases |s|
  {
    if s != [] {
      var n := |s| - 1;
      NoDuplicatesSize(s[..n]);
      assert (set x | x in s) == (set x | x in s[..n]) + {s[n]};
    }
  }
}
