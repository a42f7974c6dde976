/** The keyed, reference-counted mutex of `patterns/23_dataintegrity/pessimistic_lock.go`.

    A goroutine that calls `Lock(key)` and then its unlock closure takes four atomic steps: look up
    or create the entry and count itself in, take the entry's mutex, release it, and count itself
    out.  `State`, `Enabled` and `Apply` describe those steps for any number of goroutines; the
    class at the end runs them on heap objects, so that the entry a closure captured may already
    have left the map. */
module KeyedMutex {

  type Key = string
  type Tid = nat

  /** Where one goroutine stands; `E` is the type of references to entries. */
  datatype Pc<E> =
    | Waiting(key: Key, entry: E)   // counted in, entry mutex not yet taken
    | Holding(key: Key, entry: E)   // inside the critical section of `key`
    | Leaving(key: Key, entry: E)   // entry mutex released, not yet counted out
    | Finished(key: Key)

  datatype State<E(==)> = State(
    locks: map<Key, E>,       // the registry
    refCount: map<E, int>,    // fields of every entry ever allocated
    locked: map<E, bool>,
    pc: map<Tid, Pc<E>>)

  datatype Event<E> =
    | Enter(t: Tid, key: Key, made: E)
    | Acquire(t: Tid)
    | Release(t: Tid)
    | Leave(t: Tid)

  function Init<E>(): State<E> {
    State(map[], map[], map[], map[])
  }

  predicate IsWaiting<E>(s: State<E>, t: Tid) { t in s.pc && s.pc[t].Waiting? }
  predicate IsHolding<E>(s: State<E>, t: Tid) { t in s.pc && s.pc[t].Holding? }
  predicate IsLeaving<E>(s: State<E>, t: Tid) { t in s.pc && s.pc[t].Leaving? }

  /** Between the increment and the decrement of an entry's count. */
  predicate IsInside<E>(s: State<E>, t: Tid) {
    t in s.pc && !s.pc[t].Finished?
  }

  /** When a step can be taken.  `made` must be a new object if the step allocates one; a
      goroutine blocks in `entry.mu.Lock()` while the mutex is locked. */
  predicate Enabled<E(==)>(s: State<E>, e: Event<E>) {
    match e
    case Enter(t, key, made) => t !in s.pc && (key in s.locks || made !in s.refCount)
    case Acquire(t) => IsWaiting(s, t) && !(s.pc[t].entry in s.locked && s.locked[s.pc[t].entry])
    case Release(t) => IsHolding(s, t)
    case Leave(t) => IsLeaving(s, t)
  }

  function Count<E>(s: State<E>, e: E): int {
    if e in s.refCount then s.refCount[e] else 0
  }

  function Apply<E(==)>(s: State<E>, e: Event<E>): State<E>
    requires Enabled(s, e)
  {
    match e
    case Enter(t, key, made) =>
      var entry := if key in s.locks then s.locks[key] else made;
      s.(locks := s.locks[key := entry],
         refCount := s.refCount[entry := Count(s, entry) + 1],
         locked := if key in s.locks then s.locked else s.locked[entry := false],
         pc := s.pc[t := Waiting(key, entry)])
    case Acquire(t) =>
      var entry := s.pc[t].entry;
      s.(locked := s.locked[entry := true], pc := s.pc[t := Holding(s.pc[t].key, entry)])
    case Release(t) =>
      var entry := s.pc[t].entry;
      s.(locked := s.locked[entry := false], pc := s.pc[t := Leaving(s.pc[t].key, entry)])
    case Leave(t) =>
      var key, entry := s.pc[t].key, s.pc[t].entry;
      s.(locks := if Count(s, entry) - 1 == 0 then s.locks - {key} else s.locks,
         refCount := s.refCount[entry := Count(s, entry) - 1],
         pc := s.pc[t := Finished(key)])
  }

  /** `es` takes `s` to `s'`: one interleaving of the goroutines' steps. */
  ghost predicate IsRun<E>(s: State<E>, es: seq<Event<E>>, s': State<E>)
    decreases |es|
  {
    if es == [] then s == s'
    else Enabled(s, es[0]) && IsRun(Apply(s, es[0]), es[1..], s')
  }

  // ---- The invariant ----

  /** The goroutines counted in on entry `e`. */
  ghost function Users<E>(s: State<E>, e: E): set<Tid> {
    set t | t in s.pc && IsInside(s, t) && s.pc[t].entry == e
  }

  /** Every goroutine inside works on the entry the registry maps its key to. */
  ghost predicate SharedEntry<E>(s: State<E>) {
    && (forall t :: IsInside(s, t) ==> s.pc[t].key in s.locks && s.locks[s.pc[t].key] == s.pc[t].entry)
    && (forall j, k :: j in s.locks && k in s.locks && s.locks[j] == s.locks[k] ==> j == k)
  }

  ghost predicate Counted<E>(s: State<E>) {
    && s.refCount.Keys == s.locked.Keys
    && (forall k :: k in s.locks ==> s.locks[k] in s.refCount && s.refCount[s.locks[k]] > 0)
    && (forall e :: e in s.refCount ==> s.refCount[e] == |Users(s, e)|)
  }

  ghost predicate Exclusive<E>(s: State<E>) {
    && (forall t :: IsHolding(s, t) ==> s.pc[t].entry in s.locked && s.locked[s.pc[t].entry])
    && (forall e :: e in s.locked && s.locked[e] ==> exists t :: IsHolding(s, t) && s.pc[t].entry == e)
    && (forall t, u :: IsHolding(s, t) && IsHolding(s, u) && s.pc[t].entry == s.pc[u].entry ==> t == u)
  }

  ghost predicate Inv<E>(s: State<E>) {
    SharedEntry(s) && Counted(s) && Exclusive(s)
  }

  lemma UsersAfter<E>(s: State<E>, t: Tid, p: Pc<E>, e: E)
    ensures var s' := s.(pc := s.pc[t := p]);
      Users(s', e) == if !p.Finished? && p.entry == e then Users(s, e) + {t} else Users(s, e) - {t}
  {
    var s' := s.(pc := s.pc[t := p]);
    forall u | u != t ensures u in Users(s', e) <==> u in Users(s, e) {
    }
  }

  lemma EnterKeepsSharing<E>(s: State<E>, t: Tid, key: Key, made: E)
    requires Inv(s) && Enabled(s, Enter(t, key, made))
    ensures SharedEntry(Apply(s, Enter(t, key, made)))
  {
    var s' := Apply(s, Enter(t, key, made));
    forall u | IsInside(s', u)
      ensures s'.pc[u].key in s'.locks && s'.locks[s'.pc[u].key] == s'.pc[u].entry {
      if u != t { assert IsInside(s, u); }
    }
  }

  /** A goroutine that joins or leaves entry `e` changes its count by one. */
  lemma CountAfter<E>(s: State<E>, t: Tid, p: Pc<E>, e: E)
    ensures var s' := s.(pc := s.pc[t := p]);
      |Users(s', e)| == |Users(s, e)|
        + (if !p.Finished? && p.entry == e then 1 else 0)
        - (if t in Users(s, e) then 1 else 0)
  {
    UsersAfter(s, t, p, e);
  }

  lemma EnterKeepsCounts<E>(s: State<E>, t: Tid, key: Key, made: E)
    requires Inv(s) && Enabled(s, Enter(t, key, made))
    ensures Counted(Apply(s, Enter(t, key, made)))
  {
    var s' := Apply(s, Enter(t, key, made));
    forall e | e in s'.refCount ensures s'.refCount[e] == |Users(s', e)| {
      CountAfter(s, t, s'.pc[t], e);
      assert Users(s', e) == Users(s.(pc := s'.pc), e);
      assert t !in Users(s, e);
      if e !in s.refCount {
        if u :| u in Users(s, e) { assert false; }
        assert Users(s, e) == {};
      }
    }
  }

  lemma EnterKeepsInv<E>(s: State<E>, t: Tid, key: Key, made: E)
    requires Inv(s) && Enabled(s, Enter(t, key, made))
    ensures Inv(Apply(s, Enter(t, key, made)))
  {
    EnterKeepsSharing(s, t, key, made);
    EnterKeepsCounts(s, t, key, made);
    var s' := Apply(s, Enter(t, key, made));
    forall u | IsHolding(s', u) ensures IsHolding(s, u) && s'.pc[u] == s.pc[u] {}
    forall e | e in s'.locked && s'.locked[e] ensures exists u :: IsHolding(s', u) && s'.pc[u].entry == e {
      var u :| IsHolding(s, u) && s.pc[u].entry == e;
      assert IsHolding(s', u);
    }
  }

  lemma AcquireKeepsInv<E>(s: State<E>, t: Tid)
    requires Inv(s) && Enabled(s, Event<E>.Acquire(t))
    ensures Inv(Apply(s, Event<E>.Acquire(t)))
  {
    var s' := Apply(s, Event<E>.Acquire(t));
    PcOnly(s, s', t);
    assert IsInside(s, t);
    forall e | e in s'.locked && s'.locked[e] ensures exists u :: IsHolding(s', u) && s'.pc[u].entry == e {
      if e == s.pc[t].entry {
        assert IsHolding(s', t);
      } else {
        var u :| IsHolding(s, u) && s.pc[u].entry == e;
        assert IsHolding(s', u);
      }
    }
    forall u | IsHolding(s', u) && u != t ensures IsHolding(s, u) && s'.pc[u] == s.pc[u] {}
  }

  lemma ReleaseKeepsInv<E>(s: State<E>, t: Tid)
    requires Inv(s) && Enabled(s, Event<E>.Release(t))
    ensures Inv(Apply(s, Event<E>.Release(t)))
  {
    var s' := Apply(s, Event<E>.Release(t));
    PcOnly(s, s', t);
    assert IsInside(s, t);
    forall u | IsHolding(s', u) ensures u != t && IsHolding(s, u) && s'.pc[u] == s.pc[u] {}
    forall e | e in s'.locked && s'.locked[e] ensures exists u :: IsHolding(s', u) && s'.pc[u].entry == e {
      var u :| IsHolding(s, u) && s.pc[u].entry == e;
      assert IsHolding(s', u);
    }
  }

  /** Moving a goroutine from one place inside to another keeps sharing and counts. */
  lemma PcOnly<E>(s: State<E>, s': State<E>, t: Tid)
    requires SharedEntry(s) && Counted(s) && IsInside(s, t)
    requires s'.locks == s.locks && s'.refCount == s.refCount && s'.locked.Keys == s.locked.Keys
    requires IsInside(s', t) && s'.pc == s.pc[t := s'.pc[t]]
    requires s'.pc[t].key == s.pc[t].key && s'.pc[t].entry == s.pc[t].entry
    ensures SharedEntry(s') && Counted(s')
  {
    forall u | IsInside(s', u)
      ensures IsInside(s, u) && s'.pc[u].key == s.pc[u].key && s'.pc[u].entry == s.pc[u].entry
    {
    }
    forall e | e in s'.refCount ensures s'.refCount[e] == |Users(s', e)| {
      assert Users(s', e) == Users(s, e) by {
        forall u ensures u in Users(s', e) <==> u in Users(s, e) {
          assert IsInside(s', u) <==> IsInside(s, u);
        }
      }
    }
  }

  lemma LeaveKeepsCounts<E>(s: State<E>, t: Tid)
    requires Inv(s) && Enabled(s, Event<E>.Leave(t))
    ensures Counted(Apply(s, Event<E>.Leave(t)))
  {
    var s' := Apply(s, Event<E>.Leave(t));
    var entry := s.pc[t].entry;
    assert IsInside(s, t);
    forall e | e in s'.refCount ensures s'.refCount[e] == |Users(s', e)| {
      CountAfter(s, t, s'.pc[t], e);
      assert Users(s', e) == Users(s.(pc := s'.pc), e);
      assert t in Users(s, e) <==> e == entry;
    }
  }

  lemma LeaveKeepsSharing<E>(s: State<E>, t: Tid)
    requires Inv(s) && Enabled(s, Event<E>.Leave(t))
    ensures SharedEntry(Apply(s, Event<E>.Leave(t)))
  {
    LeaveKeepsCounts(s, t);
    var s' := Apply(s, Event<E>.Leave(t));
    var key, entry := s.pc[t].key, s.pc[t].entry;
    assert IsInside(s, t);
    forall u | IsInside(s', u)
      ensures s'.pc[u].key in s'.locks && s'.locks[s'.pc[u].key] == s'.pc[u].entry {
      assert u != t && IsInside(s, u);
      assert s.pc[u].key == key ==> u in Users(s', entry);
    }
  }

  lemma LeaveKeepsInv<E>(s: State<E>, t: Tid)
    requires Inv(s) && Enabled(s, Event<E>.Leave(t))
    ensures Inv(Apply(s, Event<E>.Leave(t)))
  {
    LeaveKeepsCounts(s, t);
    LeaveKeepsSharing(s, t);
    var s' := Apply(s, Event<E>.Leave(t));
    forall u | IsHolding(s', u) ensures IsHolding(s, u) && s'.pc[u] == s.pc[u] {}
    forall e | e in s'.locked && s'.locked[e] ensures exists u :: IsHolding(s', u) && s'.pc[u].entry == e {
      var u :| IsHolding(s, u) && s.pc[u].entry == e;
      assert IsHolding(s', u);
    }
  }

  lemma StepKeepsInv<E>(s: State<E>, e: Event<E>)
    requires Inv(s) && Enabled(s, e)
    ensures Inv(Apply(s, e))
  {
    match e
    case Enter(t, key, made) => EnterKeepsInv(s, t, key, made);
    case Acquire(t) => AcquireKeepsInv(s, t);
    case Release(t) => ReleaseKeepsInv(s, t);
    case Leave(t) => LeaveKeepsInv(s, t);
  }

  lemma {:induction false} RunKeepsInv<E>(s: State<E>, es: seq<Event<E>>, s': State<E>)
    requires Inv(s) && IsRun(s, es, s')
    ensures Inv(s')
    decreases |es|
  {
    if es != [] {
      StepKeepsInv(s, es[0]);
      RunKeepsInv(Apply(s, es[0]), es[1..], s');
    }
  }

  // ---- What every interleaving guarantees ----

  /** At most one goroutine holds a key, and the mutex a closure unlocks is always locked. */
  lemma MutualExclusion<E>(es: seq<Event<E>>, s: State<E>)
    requires IsRun(Init(), es, s)
    ensures forall t, u :: IsHolding(s, t) && IsHolding(s, u) && s.pc[t].key == s.pc[u].key ==> t == u
    ensures forall t :: IsHolding(s, t) ==> s.pc[t].entry in s.locked && s.locked[s.pc[t].entry]
  {
    RunKeepsInv(Init(), es, s);
    forall t, u | IsHolding(s, t) && IsHolding(s, u) && s.pc[t].key == s.pc[u].key ensures t == u {
      assert IsInside(s, t) && IsInside(s, u);
    }
  }

  /** A mapped entry's count is the number of goroutines inside for its key, a key is mapped exactly
      while there is one, and so nothing is left in the map when none is inside. */
  lemma RegistryIsExact<E>(es: seq<Event<E>>, s: State<E>)
    requires IsRun(Init(), es, s)
    ensures forall k :: k in s.locks <==> exists t :: IsInside(s, t) && s.pc[t].key == k
    ensures forall k :: k in s.locks ==>
      Count(s, s.locks[k]) == |set t | t in s.pc && IsInside(s, t) && s.pc[t].key == k|
    ensures (forall t :: !IsInside(s, t)) ==> s.locks == map[]
  {
    RunKeepsInv(Init(), es, s);
    forall k | k in s.locks
      ensures exists t :: IsInside(s, t) && s.pc[t].key == k
      ensures Count(s, s.locks[k]) == |set t | t in s.pc && IsInside(s, t) && s.pc[t].key == k|
    {
      var users := Users(s, s.locks[k]);
      assert users == set t | t in s.pc && IsInside(s, t) && s.pc[t].key == k;
      assert users != {};
      var t :| t in users;
      assert IsInside(s, t);
    }
  }

  /** A waiting goroutine can enter exactly when nobody holds its key: keys never block one
      another, and a key that is released is never stuck. */
  lemma BlockedOnlyByHolder<E>(es: seq<Event<E>>, s: State<E>, t: Tid)
    requires IsRun(Init(), es, s) && IsWaiting(s, t)
    ensures Enabled(s, Event<E>.Acquire(t)) <==> !exists u :: IsHolding(s, u) && s.pc[u].key == s.pc[t].key
  {
    RunKeepsInv(Init(), es, s);
    assert IsInside(s, t);
    if u :| IsHolding(s, u) && s.pc[u].key == s.pc[t].key {
      assert IsInside(s, u);
    }
    if !Enabled(s, Event<E>.Acquire(t)) {
      var u :| IsHolding(s, u) && s.pc[u].entry == s.pc[t].entry;
      assert IsInside(s, u);
      assert s.locks[s.pc[u].key] == s.locks[s.pc[t].key];
    }
  }

  // ---- The code, on heap objects ----

  class KeyRefMutex {
    var locked: bool
    var refCount: int

    constructor ()
      ensures !locked && refCount == 0
    {
      locked, refCount := false, 0;
    }
  }

  class KeyedMutexLock {
    var locks: map<Key, KeyRefMutex>
    ghost var entries: set<KeyRefMutex>            // every entry ever allocated
    ghost var pc: map<Tid, Pc<KeyRefMutex>>

    ghost predicate Valid()
      reads this
    {
      && locks.Values <= entries
      && (forall t :: t in pc && !pc[t].Finished? ==> pc[t].entry in entries)
    }

    ghost function View(): State<KeyRefMutex>
      reads this, entries
    {
      State(locks, map e | e in entries :: e.refCount, map e | e in entries :: e.locked, pc)
    }

    constructor ()
      ensures Valid() && View() == Init()
    {
      locks, entries, pc := map[], {}, map[];
    }

    /** The first critical section of `Lock`. */
    method Enter(ghost t: Tid, key: Key) returns (entry: KeyRefMutex)
      requires Valid() && t !in pc
      modifies this, entries
      ensures Valid()
      ensures Enabled(old(View()), Event.Enter(t, key, entry))
      ensures View() == Apply(old(View()), Event.Enter(t, key, entry))
    {
      if key in locks {
        entry := locks[key];
        assert entry in locks.Values;
      } else {
        entry := new KeyRefMutex();
        locks := locks[key := entry];
        entries := entries + {entry};
      }
      entry.refCount := entry.refCount + 1;
      pc := pc[t := Waiting(key, entry)];
    }

    /** `entry.mu.Lock()`, at the moment it returns. */
    method Acquire(ghost t: Tid, entry: KeyRefMutex)
      requires Valid() && IsWaiting(View(), t) && pc[t].entry == entry && !entry.locked
      modifies this`pc, entry`locked
      ensures Valid() && Enabled(old(View()), Event.Acquire(t))
      ensures View() == Apply(old(View()), Event.Acquire(t))
    {
      entry.locked := true;
      pc := pc[t := Holding(pc[t].key, entry)];
    }

    /** `entry.mu.Unlock()` in the closure. */
    method Release(ghost t: Tid, entry: KeyRefMutex)
      requires Valid() && IsHolding(View(), t) && pc[t].entry == entry
      modifies this`pc, entry`locked
      ensures Valid() && View() == Apply(old(View()), Event.Release(t))
    {
      entry.locked := false;
      pc := pc[t := Leaving(pc[t].key, entry)];
    }

    /** The second critical section of the closure. */
    method Leave(ghost t: Tid, key: Key, entry: KeyRefMutex)
      requires Valid() && IsLeaving(View(), t) && pc[t].key == key && pc[t].entry == entry
      modifies this, entry`refCount
      ensures Valid() && View() == Apply(old(View()), Event.Leave(t))
    {
      entry.refCount := entry.refCount - 1;
      if entry.refCount == 0 {
        locks := locks - {key};
      }
      pc := pc[t := Finished(key)];
    }
  }
}
