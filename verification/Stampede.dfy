/** `StampedeProtectedCache.GetOrCompute` of `patterns/14_caching/stampede_prevention.go`: a cache
    with expiry in front of a singleflight group, with a second look at the cache inside the call.

    Every step of the group is a step of `Singleflight`; the steps in between are the cache
    accesses and the caller's fetch, which succeeds or fails as it likes. */
module Stampede {
  import opened Common
  import opened MemoryCaching
  import SF = Singleflight

  type Tid = nat

  datatype Phase<V> =
    | Hit(key: Key, val: V)                        // answered by the fast path
    | Missed(key: Key, ttl: int)                   // about to call group.Do
    | Checking(key: Key, ttl: int)                 // leader, before the double check
    | Fetching(key: Key, ttl: int, start: int)     // leader, fetchFn running since `start`
    | Storing(key: Key, ttl: int, val: V)          // leader, fetchFn succeeded, before cache.Set
    | Filled(key: Key, val: V)                     // leader, about to return val from fn
    | InGroup(key: Key)                            // waiting, publishing, deleting or returned

  /** A fetch that succeeded, and when it was started. */
  datatype Fetch<V> = Fetch(val: V, start: int)

  datatype State<C(==), V, X> = State(
    group: SF.State<C, Result<V, X>>,
    items: map<Key, Item<V>>,
    phase: map<Tid, Phase<V>>,
    now: int,                                      // latest reading of the clock
    fetched: map<Key, seq<Fetch<V>>>,              // history: fetches that succeeded
    stored: map<Key, seq<Item<V>>>,                // history: what was put in the cache
    failed: map<Key, seq<X>>)                      // history: errors of fetches that failed

  datatype Event<C, V, X> =
    | FastGet(t: Tid, key: Key, ttl: int, now: int)
    | EnterDo(t: Tid, made: C)
    | DoubleCheck(t: Tid, now: int)
    | FetchFails(t: Tid, error: X)
    | FetchSucceeds(t: Tid, val: V)
    | Store(t: Tid, now: int)
    | EndFn(t: Tid)
    | Finish(e: SF.Event<C, Result<V, X>>)         // Publish, Delete or Wake

  function Init<C, V, X>(): State<C, V, X> {
    State(SF.Init(), map[], map[], 0, map[], map[], map[])
  }

  function Log<T>(m: map<Key, seq<T>>, k: Key): seq<T> {
    if k in m then m[k] else []
  }

  /** What `EnterDo` does in the group: join the call in flight or lead a new one. */
  function DoEvent<C(==), V, X>(s: State<C, V, X>, t: Tid, key: Key, made: C): SF.Event<C, Result<V, X>> {
    if key in s.group.m then SF.Join(t, key) else SF.Lead(t, key, made)
  }

  predicate Enabled<C(==), V, X>(s: State<C, V, X>, e: Event<C, V, X>) {
    match e
    case FastGet(t, key, ttl, now) => t !in s.phase && now >= s.now
    case EnterDo(t, made) =>
      t in s.phase && s.phase[t].Missed? && SF.Enabled(s.group, DoEvent(s, t, s.phase[t].key, made))
    case DoubleCheck(t, now) =>
      t in s.phase && s.phase[t].Checking? && now >= s.now
    case FetchFails(t, x) =>
      t in s.phase && s.phase[t].Fetching? && SF.Enabled(s.group, SF.FnReturns(t, Err(x)))
    case FetchSucceeds(t, v) => t in s.phase && s.phase[t].Fetching?
    case Store(t, now) =>
      t in s.phase && s.phase[t].Storing? && now >= s.now
    case EndFn(t) =>
      t in s.phase && s.phase[t].Filled? && SF.Enabled(s.group, SF.FnReturns(t, Ok(s.phase[t].val)))
    case Finish(g) => (g.Publish? || g.Delete? || g.Wake?) && SF.Enabled(s.group, g)
  }

  function Apply<C(==), V, X>(s: State<C, V, X>, e: Event<C, V, X>): State<C, V, X>
    requires Enabled(s, e)
  {
    match e
    case FastGet(t, key, ttl, now) =>
      var p := match Lookup(s.items, key, now) case Some(v) => Hit(key, v) case None => Missed(key, ttl);
      s.(now := now, phase := s.phase[t := p])
    case EnterDo(t, made) =>
      var key, ttl := s.phase[t].key, s.phase[t].ttl;
      var g := DoEvent(s, t, key, made);
      s.(group := SF.Apply(s.group, g),
         phase := s.phase[t := if g.Lead? then Checking(key, ttl) else InGroup(key)])
    case DoubleCheck(t, now) =>
      var key, ttl := s.phase[t].key, s.phase[t].ttl;
      var p := match Lookup(s.items, key, now) case Some(v) => Filled(key, v) case None => Fetching(key, ttl, now);
      s.(now := now, phase := s.phase[t := p])
    case FetchFails(t, x) =>
      var key := s.phase[t].key;
      s.(group := SF.Apply(s.group, SF.FnReturns(t, Err(x))),
         phase := s.phase[t := InGroup(key)],
         failed := s.failed[key := Log(s.failed, key) + [x]])
    case FetchSucceeds(t, v) =>
      var key := s.phase[t].key;
      s.(phase := s.phase[t := Storing(key, s.phase[t].ttl, v)],
         fetched := s.fetched[key := Log(s.fetched, key) + [Fetch(v, s.phase[t].start)]])
    case Store(t, now) =>
      var key, ttl, v := s.phase[t].key, s.phase[t].ttl, s.phase[t].val;
      s.(now := now,
         items := Stored(s.items, key, v, ttl, now),
         stored := s.stored[key := Log(s.stored, key) + [Item(v, now + ttl)]],
         phase := s.phase[t := Filled(key, v)])
    case EndFn(t) =>
      var key, v := s.phase[t].key, s.phase[t].val;
      s.(group := SF.Apply(s.group, SF.FnReturns(t, Ok(v))), phase := s.phase[t := InGroup(key)])
    case Finish(g) => s.(group := SF.Apply(s.group, g))
  }

  ghost predicate IsRun<C, V, X>(s: State<C, V, X>, es: seq<Event<C, V, X>>, s': State<C, V, X>)
    decreases |es|
  {
    if es == [] then s == s'
    else Enabled(s, es[0]) && IsRun(Apply(s, es[0]), es[1..], s')
  }

  predicate IsFetching<C, V, X>(s: State<C, V, X>, t: Tid, k: Key) {
    t in s.phase && s.phase[t].Fetching? && s.phase[t].key == k
  }

  predicate IsStoring<C, V, X>(s: State<C, V, X>, t: Tid, k: Key) {
    t in s.phase && s.phase[t].Storing? && s.phase[t].key == k
  }

  /** `v` is the value of some successful fetch for `k`. */
  ghost predicate WasFetched<C, V, X>(s: State<C, V, X>, k: Key, v: V) {
    exists i :: 0 <= i < |Log(s.fetched, k)| && Log(s.fetched, k)[i].val == v
  }

  /** What `GetOrCompute` returned to `t`, if it has returned. */
  function Returned<C, V, X>(s: State<C, V, X>, t: Tid): Option<Result<V, X>> {
    if t in s.phase && s.phase[t].Hit? then Some(Ok(s.phase[t].val))
    else if SF.IsReturned(s.group, t) then s.group.pc[t].res
    else None
  }

  // ---- The invariant ----

  ghost predicate SomeoneStores<C, V, X>(s: State<C, V, X>, k: Key) {
    exists t :: IsStoring(s, t, k)
  }

  /** Fetches and stores alternate, and every fetch but the first was started after the store before
      it had expired. */
  ghost predicate Alternate<V>(f: seq<Fetch<V>>, st: seq<Item<V>>, now: int, storing: bool) {
    && |f| == |st| + (if storing then 1 else 0)
    && (forall i :: 0 <= i < |st| ==> st[i].val == f[i].val)
    && (forall i :: 0 < i < |f| ==> f[i].start > st[i - 1].expiresAt)
    && (forall i :: 0 <= i < |f| ==> f[i].start <= now)
  }

  /** The histories of a key alternate, and the cache holds the last store. */
  ghost predicate LogOk<C, V, X>(s: State<C, V, X>, k: Key) {
    var st := Log(s.stored, k);
    && Alternate(Log(s.fetched, k), st, s.now, SomeoneStores(s, k))
    && (k in s.items <==> st != [])
    && (k in s.items ==> s.items[k] == st[|st| - 1])
  }

  ghost predicate PhaseOk<C, V, X>(s: State<C, V, X>, t: Tid)
    requires t in s.phase
  {
    match s.phase[t]
    case Hit(k, v) => t !in s.group.pc && WasFetched(s, k, v)
    case Missed(k, _) => t !in s.group.pc
    case Checking(k, _) => SF.IsRunning(s.group, t) && s.group.pc[t].key == k
    case Fetching(k, _, start) =>
      && SF.IsRunning(s.group, t) && s.group.pc[t].key == k && start <= s.now
      && (Log(s.stored, k) != [] ==> start > Log(s.stored, k)[|Log(s.stored, k)| - 1].expiresAt)
    case Storing(k, _, v) =>
      && SF.IsRunning(s.group, t) && s.group.pc[t].key == k
      && Log(s.fetched, k) != [] && Log(s.fetched, k)[|Log(s.fetched, k)| - 1].val == v
    case Filled(k, v) =>
      SF.IsRunning(s.group, t) && s.group.pc[t].key == k && WasFetched(s, k, v)
    case InGroup(k) => t in s.group.pc && !SF.IsRunning(s.group, t) && s.group.pc[t].key == k
  }

  /** `r` is the value or the error of some fetch for `k`. */
  ghost predicate IsGenuine<C, V, X>(s: State<C, V, X>, k: Key, r: Result<V, X>) {
    match r
    case Ok(v) => WasFetched(s, k, v)
    case Err(x) => x in Log(s.failed, k)
  }

  ghost predicate CallOk<C, V, X>(s: State<C, V, X>, c: C)
    requires c in s.group.calls
  {
    var call := s.group.calls[c];
    call.res.Some? ==> IsGenuine(s, call.key, call.res.value)
  }

  ghost predicate Phases<C, V, X>(s: State<C, V, X>) {
    && (forall t :: t in s.phase ==> PhaseOk(s, t))
    && (forall t :: t in s.group.pc ==> t in s.phase)
  }

  ghost predicate Logs<C, V, X>(s: State<C, V, X>) {
    forall k :: LogOk(s, k)
  }

  ghost predicate Calls<C, V, X>(s: State<C, V, X>) {
    forall c :: c in s.group.calls ==> CallOk(s, c)
  }

  ghost predicate Inv<C, V, X>(s: State<C, V, X>) {
    SF.Inv(s.group) && Phases(s) && Logs(s) && Calls(s)
  }

  /** Leader of its key's call and inside fn. */
  predicate InFn<C, V, X>(s: State<C, V, X>, t: Tid) {
    t in s.phase && (s.phase[t].Checking? || s.phase[t].Fetching? || s.phase[t].Storing?
                     || s.phase[t].Filled?)
  }

  /** Nobody else is inside fn for `t`'s key. */
  ghost predicate Alone<C, V, X>(s: State<C, V, X>, t: Tid)
    requires t in s.phase
  {
    forall u :: InFn(s, u) && s.phase[u].key == s.phase[t].key ==> u == t
  }

  lemma LeaderIsAlone<C, V, X>(s: State<C, V, X>, t: Tid)
    requires Inv(s) && InFn(s, t)
    ensures Alone(s, t) && SF.PcOk(s.group, t) && s.group.pc[t].key == s.phase[t].key
  {
    assert PhaseOk(s, t);
    forall u | InFn(s, u) && s.phase[u].key == s.phase[t].key ensures u == t {
      assert PhaseOk(s, u);
      assert SF.IsLeading(s.group, t) && SF.IsLeading(s.group, u);
    }
  }

  lemma OnlyLeaderStores<C, V, X>(s: State<C, V, X>, t: Tid)
    requires InFn(s, t) && Alone(s, t)
    ensures SomeoneStores(s, s.phase[t].key) <==> IsStoring(s, t, s.phase[t].key)
  {
    if u :| IsStoring(s, u, s.phase[t].key) {
      assert InFn(s, u);
    }
  }

  /** A cached value was fetched. */
  lemma CachedWasFetched<C, V, X>(s: State<C, V, X>, k: Key)
    requires Logs(s) && k in s.items
    ensures WasFetched(s, k, s.items[k].val)
  {
    assert LogOk(s, k);
    var st := Log(s.stored, k);
    assert Log(s.fetched, k)[|st| - 1].val == s.items[k].val;
  }

  /** The log of a key stays right while its history and its storing goroutines stay as they are. */
  lemma SameLog<C, V, X>(s: State<C, V, X>, s': State<C, V, X>, k: Key)
    requires LogOk(s, k)
    requires Log(s'.fetched, k) == Log(s.fetched, k) && Log(s'.stored, k) == Log(s.stored, k)
    requires k in s'.items <==> k in s.items
    requires k in s.items ==> s'.items[k] == s.items[k]
    requires s'.now >= s.now
    requires forall t :: IsStoring(s', t, k) <==> IsStoring(s, t, k)
    ensures LogOk(s', k)
  {
    assert SomeoneStores(s', k) <==> SomeoneStores(s, k);
  }

  lemma SameLogs<C, V, X>(s: State<C, V, X>, s': State<C, V, X>)
    requires Logs(s)
    requires s'.items == s.items && s'.fetched == s.fetched && s'.stored == s.stored && s'.now >= s.now
    requires forall t, k :: IsStoring(s', t, k) <==> IsStoring(s, t, k)
    ensures Logs(s')
  {
    forall k ensures LogOk(s', k) {
      assert LogOk(s, k);
      SameLog(s, s', k);
    }
  }

  lemma FastGetKeepsInv<C, V, X>(s: State<C, V, X>, t: Tid, key: Key, ttl: int, now: int)
    requires Inv(s) && Enabled(s, Event<C, V, X>.FastGet(t, key, ttl, now))
    ensures Inv(Apply(s, Event<C, V, X>.FastGet(t, key, ttl, now)))
  {
    var s' := Apply(s, Event<C, V, X>.FastGet(t, key, ttl, now));
    SameLogs(s, s');
    if key in s.items { CachedWasFetched(s, key); }
    forall u | u in s'.phase ensures PhaseOk(s', u) {
      assert u != t ==> PhaseOk(s, u);
    }
    forall c | c in s'.group.calls ensures CallOk(s', c) { assert CallOk(s, c); }
  }

  lemma EnterDoKeepsPhases<C, V, X>(s: State<C, V, X>, t: Tid, made: C)
    requires Phases(s) && Enabled(s, Event<C, V, X>.EnterDo(t, made))
    ensures Phases(Apply(s, Event<C, V, X>.EnterDo(t, made)))
  {
    var s' := Apply(s, Event<C, V, X>.EnterDo(t, made));
    forall u | u in s'.phase ensures PhaseOk(s', u) { assert PhaseOk(s, u); }
  }

  lemma EnterDoKeepsCalls<C, V, X>(s: State<C, V, X>, t: Tid, made: C)
    requires Calls(s) && Enabled(s, Event<C, V, X>.EnterDo(t, made))
    ensures Calls(Apply(s, Event<C, V, X>.EnterDo(t, made)))
  {
    var s' := Apply(s, Event<C, V, X>.EnterDo(t, made));
    forall c | c in s'.group.calls ensures CallOk(s', c) {
      if c in s.group.calls { assert CallOk(s, c); }
    }
  }

  lemma EnterDoKeepsInv<C, V, X>(s: State<C, V, X>, t: Tid, made: C)
    requires Inv(s) && Enabled(s, Event<C, V, X>.EnterDo(t, made))
    ensures Inv(Apply(s, Event<C, V, X>.EnterDo(t, made)))
  {
    SF.StepKeepsInv(s.group, DoEvent(s, t, s.phase[t].key, made));
    SameLogs(s, Apply(s, Event<C, V, X>.EnterDo(t, made)));
    EnterDoKeepsPhases(s, t, made);
    EnterDoKeepsCalls(s, t, made);
  }

  /** When the leader's fn returns, with a fetched value or an error, phases and calls stay right. */
  lemma FnReturnKeeps<C, V, X>(s: State<C, V, X>, s': State<C, V, X>, t: Tid, r: Result<V, X>)
    requires Phases(s) && Calls(s)
    requires InFn(s, t) && Alone(s, t) && SF.IsRunning(s.group, t) && SF.PcOk(s.group, t)
    requires s.group.pc[t].key == s.phase[t].key
    requires s'.group == SF.Apply(s.group, SF.FnReturns(t, r))
    requires s'.phase == s.phase[t := InGroup(s.phase[t].key)] && s'.fetched == s.fetched && s'.now >= s.now
    requires s'.stored == s.stored
    requires forall k, x :: x in Log(s.failed, k) ==> x in Log(s'.failed, k)
    requires IsGenuine(s', s.phase[t].key, r)
    ensures Phases(s') && Calls(s')
  {
    forall u | u in s'.phase ensures PhaseOk(s', u) {
      assert PhaseOk(s, u);
      assert u != t && InFn(s, u) ==> s.phase[u].key != s.phase[t].key;
    }
    forall c | c in s'.group.calls ensures CallOk(s', c) { assert CallOk(s, c); }
  }

  /** A double check that misses may start a fetch: whatever was stored before has expired. */
  lemma DoubleCheckKeepsPhases<C, V, X>(s: State<C, V, X>, t: Tid, now: int)
    requires Phases(s) && Logs(s) && Enabled(s, Event<C, V, X>.DoubleCheck(t, now))
    ensures Phases(Apply(s, Event<C, V, X>.DoubleCheck(t, now)))
  {
    var s' := Apply(s, Event<C, V, X>.DoubleCheck(t, now));
    var key := s.phase[t].key;
    assert LogOk(s, key);
    if key in s.items { CachedWasFetched(s, key); }
    forall u | u in s'.phase ensures PhaseOk(s', u) { assert PhaseOk(s, u); }
  }

  lemma DoubleCheckKeepsInv<C, V, X>(s: State<C, V, X>, t: Tid, now: int)
    requires Inv(s) && Enabled(s, Event<C, V, X>.DoubleCheck(t, now))
    ensures Inv(Apply(s, Event<C, V, X>.DoubleCheck(t, now)))
  {
    var s' := Apply(s, Event<C, V, X>.DoubleCheck(t, now));
    SameLogs(s, s');
    DoubleCheckKeepsPhases(s, t, now);
    forall c | c in s'.group.calls ensures CallOk(s', c) { assert CallOk(s, c); }
  }

  lemma FetchFailsIsGenuine<C, V, X>(s: State<C, V, X>, t: Tid, x: X)
    requires Enabled(s, Event<C, V, X>.FetchFails(t, x))
    ensures var s' := Apply(s, Event<C, V, X>.FetchFails(t, x));
      && IsGenuine(s', s.phase[t].key, Err(x))
      && (forall k, y :: y in Log(s.failed, k) ==> y in Log(s'.failed, k))
  {
  }

  lemma FetchFailsKeepsInv<C, V, X>(s: State<C, V, X>, t: Tid, x: X)
    requires Inv(s) && Enabled(s, Event<C, V, X>.FetchFails(t, x))
    ensures Inv(Apply(s, Event<C, V, X>.FetchFails(t, x)))
  {
    var s' := Apply(s, Event<C, V, X>.FetchFails(t, x));
    SF.StepKeepsInv(s.group, SF.FnReturns(t, Err(x)));
    SameLogs(s, s');
    LeaderIsAlone(s, t);
    FetchFailsIsGenuine(s, t, x);
    FnReturnKeeps(s, s', t, Err(x));
  }

  lemma OneMoreFetch<V>(f: seq<Fetch<V>>, st: seq<Item<V>>, now: int, made: Fetch<V>)
    requires Alternate(f, st, now, false) && made.start <= now
    requires st != [] ==> made.start > st[|st| - 1].expiresAt
    ensures Alternate(f + [made], st, now, true)
  {
  }

  lemma OneMoreStore<V>(f: seq<Fetch<V>>, st: seq<Item<V>>, now: int, later: int, put: Item<V>)
    requires Alternate(f, st, now, true) && now <= later && put.val == f[|f| - 1].val
    ensures Alternate(f, st + [put], later, false)
  {
  }

  lemma FetchKeepsOwnLog<C, V, X>(s: State<C, V, X>, t: Tid, v: V)
    requires Enabled(s, Event<C, V, X>.FetchSucceeds(t, v)) && Alone(s, t) && PhaseOk(s, t)
    requires LogOk(s, s.phase[t].key)
    ensures LogOk(Apply(s, Event<C, V, X>.FetchSucceeds(t, v)), s.phase[t].key)
  {
    var s', key := Apply(s, Event<C, V, X>.FetchSucceeds(t, v)), s.phase[t].key;
    OnlyLeaderStores(s, t);
    OneMoreFetch(Log(s.fetched, key), Log(s.stored, key), s.now, Fetch(v, s.phase[t].start));
    assert IsStoring(s', t, key) && SomeoneStores(s', key);
    assert Log(s'.fetched, key) == Log(s.fetched, key) + [Fetch(v, s.phase[t].start)];
  }

  lemma FetchKeepsLogs<C, V, X>(s: State<C, V, X>, t: Tid, v: V)
    requires Logs(s) && Enabled(s, Event<C, V, X>.FetchSucceeds(t, v)) && Alone(s, t) && PhaseOk(s, t)
    ensures Logs(Apply(s, Event<C, V, X>.FetchSucceeds(t, v)))
  {
    var s' := Apply(s, Event<C, V, X>.FetchSucceeds(t, v));
    forall k ensures LogOk(s', k) {
      assert LogOk(s, k);
      if k == s.phase[t].key {
        FetchKeepsOwnLog(s, t, v);
      } else {
        SameLog(s, s', k);
      }
    }
  }

  lemma FetchKeepsPhases<C, V, X>(s: State<C, V, X>, t: Tid, v: V)
    requires Phases(s) && Calls(s) && Enabled(s, Event<C, V, X>.FetchSucceeds(t, v)) && Alone(s, t)
    ensures Phases(Apply(s, Event<C, V, X>.FetchSucceeds(t, v)))
    ensures Calls(Apply(s, Event<C, V, X>.FetchSucceeds(t, v)))
  {
    var s' := Apply(s, Event<C, V, X>.FetchSucceeds(t, v));
    forall k, w | WasFetched(s, k, w) ensures WasFetched(s', k, w) {
      var i :| 0 <= i < |Log(s.fetched, k)| && Log(s.fetched, k)[i].val == w;
      assert Log(s'.fetched, k)[i].val == w;
    }
    forall u | u in s'.phase ensures PhaseOk(s', u) {
      assert PhaseOk(s, u);
      assert u != t && InFn(s, u) ==> s.phase[u].key != s.phase[t].key;
    }
    forall c | c in s'.group.calls ensures CallOk(s', c) { assert CallOk(s, c); }
  }

  lemma FetchSucceedsKeepsInv<C, V, X>(s: State<C, V, X>, t: Tid, v: V)
    requires Inv(s) && Enabled(s, Event<C, V, X>.FetchSucceeds(t, v))
    ensures Inv(Apply(s, Event<C, V, X>.FetchSucceeds(t, v)))
  {
    LeaderIsAlone(s, t);
    FetchKeepsLogs(s, t, v);
    FetchKeepsPhases(s, t, v);
  }

  lemma StoreKeepsOwnLog<C, V, X>(s: State<C, V, X>, t: Tid, now: int)
    requires Enabled(s, Event<C, V, X>.Store(t, now)) && Alone(s, t) && PhaseOk(s, t)
    requires LogOk(s, s.phase[t].key)
    ensures LogOk(Apply(s, Event<C, V, X>.Store(t, now)), s.phase[t].key)
  {
    var s' := Apply(s, Event<C, V, X>.Store(t, now));
    var key := s.phase[t].key;
    assert IsStoring(s, t, key) && SomeoneStores(s, key);
    forall u | InFn(s', u) && s'.phase[u].key == key ensures u == t { assert InFn(s, u); }
    OnlyLeaderStores(s', t);
    var put := Item(s.phase[t].val, now + s.phase[t].ttl);
    OneMoreStore(Log(s.fetched, key), Log(s.stored, key), s.now, now, put);
    assert Log(s'.stored, key) == Log(s.stored, key) + [put];
  }

  lemma StoreKeepsLogs<C, V, X>(s: State<C, V, X>, t: Tid, now: int)
    requires Logs(s) && Enabled(s, Event<C, V, X>.Store(t, now)) && Alone(s, t) && PhaseOk(s, t)
    ensures Logs(Apply(s, Event<C, V, X>.Store(t, now)))
  {
    var s' := Apply(s, Event<C, V, X>.Store(t, now));
    var key := s.phase[t].key;
    forall k ensures LogOk(s', k) {
      assert LogOk(s, k);
      if k == key {
        StoreKeepsOwnLog(s, t, now);
      } else {
        SameLog(s, s', k);
      }
    }
  }

  lemma StoreKeepsPhases<C, V, X>(s: State<C, V, X>, t: Tid, now: int)
    requires Phases(s) && Calls(s) && Enabled(s, Event<C, V, X>.Store(t, now)) && Alone(s, t)
    ensures Phases(Apply(s, Event<C, V, X>.Store(t, now)))
    ensures Calls(Apply(s, Event<C, V, X>.Store(t, now)))
  {
    var s' := Apply(s, Event<C, V, X>.Store(t, now));
    assert PhaseOk(s, t);
    var f := Log(s.fetched, s.phase[t].key);
    assert f[|f| - 1].val == s.phase[t].val;
    assert WasFetched(s, s.phase[t].key, s.phase[t].val);
    forall u | u in s'.phase ensures PhaseOk(s', u) {
      assert PhaseOk(s, u);
      assert u != t && InFn(s, u) ==> s.phase[u].key != s.phase[t].key;
    }
    forall c | c in s'.group.calls ensures CallOk(s', c) { assert CallOk(s, c); }
  }

  lemma StoreKeepsInv<C, V, X>(s: State<C, V, X>, t: Tid, now: int)
    requires Inv(s) && Enabled(s, Event<C, V, X>.Store(t, now))
    ensures Inv(Apply(s, Event<C, V, X>.Store(t, now)))
  {
    LeaderIsAlone(s, t);
    StoreKeepsLogs(s, t, now);
    StoreKeepsPhases(s, t, now);
  }

  lemma EndFnKeepsInv<C, V, X>(s: State<C, V, X>, t: Tid)
    requires Inv(s) && Enabled(s, Event<C, V, X>.EndFn(t))
    ensures Inv(Apply(s, Event<C, V, X>.EndFn(t)))
  {
    var s' := Apply(s, Event<C, V, X>.EndFn(t));
    SF.StepKeepsInv(s.group, SF.FnReturns(t, Ok(s.phase[t].val)));
    SameLogs(s, s');
    assert PhaseOk(s, t);
    LeaderIsAlone(s, t);
    FnReturnKeeps(s, s', t, Ok(s.phase[t].val));
  }

  lemma FinishKeepsPhases<C, V, X>(s: State<C, V, X>, g: SF.Event<C, Result<V, X>>)
    requires Phases(s) && Calls(s) && Enabled(s, Event<C, V, X>.Finish(g))
    ensures Phases(Apply(s, Event<C, V, X>.Finish(g)))
    ensures Calls(Apply(s, Event<C, V, X>.Finish(g)))
  {
    var s' := Apply(s, Event<C, V, X>.Finish(g));
    forall u | u in s'.phase ensures PhaseOk(s', u) { assert PhaseOk(s, u); }
    forall c | c in s'.group.calls ensures CallOk(s', c) { assert CallOk(s, c); }
  }

  lemma FinishKeepsInv<C, V, X>(s: State<C, V, X>, g: SF.Event<C, Result<V, X>>)
    requires Inv(s) && Enabled(s, Event<C, V, X>.Finish(g))
    ensures Inv(Apply(s, Event<C, V, X>.Finish(g)))
  {
    SF.StepKeepsInv(s.group, g);
    SameLogs(s, Apply(s, Event<C, V, X>.Finish(g)));
    FinishKeepsPhases(s, g);
  }

  lemma StepKeepsInv<C, V, X>(s: State<C, V, X>, e: Event<C, V, X>)
    requires Inv(s) && Enabled(s, e)
    ensures Inv(Apply(s, e))
  {
    match e
    case FastGet(t, key, ttl, now) => FastGetKeepsInv(s, t, key, ttl, now);
    case EnterDo(t, made) => EnterDoKeepsInv(s, t, made);
    case DoubleCheck(t, now) => DoubleCheckKeepsInv(s, t, now);
    case FetchFails(t, x) => FetchFailsKeepsInv(s, t, x);
    case FetchSucceeds(t, v) => FetchSucceedsKeepsInv(s, t, v);
    case Store(t, now) => StoreKeepsInv(s, t, now);
    case EndFn(t) => EndFnKeepsInv(s, t);
    case Finish(g) => FinishKeepsInv(s, g);
  }

  lemma {:induction false} RunKeepsInv<C, V, X>(s: State<C, V, X>, es: seq<Event<C, V, X>>, s': State<C, V, X>)
    requires Inv(s) && IsRun(s, es, s')
    ensures Inv(s')
    decreases |es|
  {
    if es != [] {
      StepKeepsInv(s, es[0]);
      RunKeepsInv(Apply(s, es[0]), es[1..], s');
    }
  }

  // ---- What every interleaving guarantees ----

  /** However entries expire: one fetch in flight per key, every value returned came from a successful
      fetch of that key and every error from a failed one, and no fetch is started while the last
      stored value is fresh. */
  lemma NoStampede<C, V, X>(es: seq<Event<C, V, X>>, s: State<C, V, X>)
    requires IsRun(Init(), es, s)
    ensures forall k, t, u :: IsFetching(s, t, k) && IsFetching(s, u, k) ==> t == u
    ensures forall t :: Returned(s, t).Some? ==> t in s.phase && IsGenuine(s, s.phase[t].key, Returned(s, t).value)
    ensures forall k :: |Log(s.fetched, k)| <= |Log(s.stored, k)| + 1
    ensures forall k, i :: 0 < i < |Log(s.fetched, k)| ==>
      Log(s.fetched, k)[i].start > Log(s.stored, k)[i - 1].expiresAt
  {
    RunKeepsInv(Init(), es, s);
    forall k, t, u | IsFetching(s, t, k) && IsFetching(s, u, k) ensures t == u {
      LeaderIsAlone(s, t);
      assert InFn(s, u);
    }
    forall t | Returned(s, t).Some?
      ensures t in s.phase && IsGenuine(s, s.phase[t].key, Returned(s, t).value)
    {
      ReturnedIsGenuine(s, t);
    }
    forall k ensures |Log(s.fetched, k)| <= |Log(s.stored, k)| + 1 {
      assert LogOk(s, k);
    }
    forall k, i | 0 < i < |Log(s.fetched, k)|
      ensures Log(s.fetched, k)[i].start > Log(s.stored, k)[i - 1].expiresAt
    {
      assert LogOk(s, k);
    }
  }

  lemma ReturnedIsGenuine<C, V, X>(s: State<C, V, X>, t: Tid)
    requires Inv(s) && Returned(s, t).Some?
    ensures t in s.phase && IsGenuine(s, s.phase[t].key, Returned(s, t).value)
  {
    assert PhaseOk(s, t);
    if !s.phase[t].Hit? {
      assert SF.PcOk(s.group, t) && CallOk(s, s.group.pc[t].call);
    }
  }

  /** A second successful fetch means that the first store had expired. */
  lemma SecondFetchIsLate<C, V, X>(s: State<C, V, X>, k: Key)
    requires LogOk(s, k)
    ensures |Log(s.fetched, k)| <= 1 || (Log(s.stored, k) != [] && Log(s.stored, k)[0].expiresAt < s.now)
  {
    var f := Log(s.fetched, k);
    if |f| > 1 {
      var second := f[1];
      assert Log(s.stored, k)[0].expiresAt < second.start <= s.now;
    }
  }

  /** As long as nothing stored for a key has expired, at most one fetch of it has succeeded, and all
      the callers that got no error got that one value. */
  lemma FetchedOnce<C, V, X>(es: seq<Event<C, V, X>>, s: State<C, V, X>, k: Key)
    requires IsRun(Init(), es, s)
    requires forall i :: 0 <= i < |Log(s.stored, k)| ==> Log(s.stored, k)[i].expiresAt >= s.now
    ensures |Log(s.fetched, k)| <= 1
    ensures forall t :: t in s.phase && s.phase[t].key == k && Returned(s, t).Some? && Returned(s, t).value.Ok? ==>
      |Log(s.fetched, k)| == 1 && Returned(s, t).value.value == Log(s.fetched, k)[0].val
  {
    RunKeepsInv(Init(), es, s);
    SecondFetchIsLate(s, k);
    forall t | t in s.phase && s.phase[t].key == k && Returned(s, t).Some? && Returned(s, t).value.Ok?
      ensures |Log(s.fetched, k)| == 1 && Returned(s, t).value.value == Log(s.fetched, k)[0].val
    {
      ReturnedIsGenuine(s, t);
    }
  }

  // ---- The code, on heap objects ----

  type CallRef<V, X> = SF.CallObject<Result<V, X>>

  class StampedeProtectedCache<V, X> {
    const cache: MemoryCache<V>
    const group: SF.SingleflightGroup<Result<V, X>>
    ghost var phase: map<Tid, Phase<V>>
    ghost var clock: int
    ghost var fetched: map<Key, seq<Fetch<V>>>
    ghost var stored: map<Key, seq<Item<V>>>
    ghost var failed: map<Key, seq<X>>

    ghost function View(): State<CallRef<V, X>, V, X>
      reads this, cache, group, group.objects
    {
      State(group.View(), cache.items, phase, clock, fetched, stored, failed)
    }

    constructor ()
      ensures group.Valid() && View() == Init()
      ensures fresh(cache) && fresh(group) && fresh(group.objects)
    {
      cache := new MemoryCache();
      group := new SF.SingleflightGroup();
      phase, clock, fetched, stored, failed := map[], 0, map[], map[], map[];
    }

    /** Step 1 of `GetOrCompute`: the fast path. */
    method FastGet(ghost t: Tid, key: Key, ttl: int, now: int) returns (hit: Result<V, CacheError>)
      requires group.Valid() && Enabled(View(), Event<CallRef<V, X>, V, X>.FastGet(t, key, ttl, now))
      modifies this
      ensures View() == Apply(old(View()), Event<CallRef<V, X>, V, X>.FastGet(t, key, ttl, now))
      ensures t in phase && phase[t] == match hit case Ok(v) => Hit(key, v) case Err(_) => Missed(key, ttl)
      ensures hit.Ok? <==> key in cache.items && now <= cache.items[key].expiresAt
      ensures hit.Ok? ==> hit.value == cache.items[key].val
    {
      hit := cache.Get(key, now);
      clock := now;
      phase := phase[t := match hit case Ok(v) => Hit(key, v) case Err(_) => Missed(key, ttl)];
    }

    /** Step 2: `group.Do`, up to the moment this goroutine waits or leads. */
    method EnterDo(ghost t: Tid, key: Key, ghost ttl: int) returns (call: CallRef<V, X>, leader: bool)
      requires group.Valid() && t in phase && phase[t] == Missed(key, ttl) && t !in group.pc
      modifies this, group, group.objects
      ensures group.Valid() && Enabled(old(View()), Event<CallRef<V, X>, V, X>.EnterDo(t, call))
      ensures View() == Apply(old(View()), Event<CallRef<V, X>, V, X>.EnterDo(t, call))
      ensures t in phase && phase[t] == if leader then Checking(key, ttl) else InGroup(key)
    {
      call, leader := group.Start(t, key);
      phase := phase[t := if leader then Checking(key, ttl) else InGroup(key)];
    }

    /** The leader's second look at the cache. */
    method DoubleCheck(ghost t: Tid, key: Key, ghost ttl: int, now: int) returns (hit: Result<V, CacheError>)
      requires t in phase && phase[t] == Checking(key, ttl) && now >= clock
      modifies this
      ensures Enabled(old(View()), Event<CallRef<V, X>, V, X>.DoubleCheck(t, now))
      ensures View() == Apply(old(View()), Event<CallRef<V, X>, V, X>.DoubleCheck(t, now))
      ensures t in phase && phase[t] == match hit case Ok(v) => Filled(key, v) case Err(_) => Fetching(key, ttl, now)
      ensures hit.Ok? <==> key in cache.items && now <= cache.items[key].expiresAt
      ensures hit.Ok? ==> hit.value == cache.items[key].val
    {
      hit := cache.Get(key, now);
      clock := now;
      phase := phase[t := match hit case Ok(v) => Filled(key, v) case Err(_) => Fetching(key, ttl, now)];
    }

    /** `fetchFn` returned an error. */
    method FetchFails(ghost t: Tid, call: CallRef<V, X>, error: X)
      requires group.Valid() && t in phase && phase[t].Fetching?
      requires SF.IsRunning(group.View(), t) && group.pc[t].call == call
      modifies this, group, group.objects
      ensures group.Valid() && Enabled(old(View()), Event<CallRef<V, X>, V, X>.FetchFails(t, error))
      ensures View() == Apply(old(View()), Event<CallRef<V, X>, V, X>.FetchFails(t, error))
    {
      group.FnReturns(t, call, Err(error));
      var key := phase[t].key;
      phase, failed := phase[t := InGroup(key)], failed[key := Log(failed, key) + [error]];
    }

    /** `fetchFn` returned a value. */
    method FetchSucceeds(ghost t: Tid, val: V)
      requires Enabled(View(), Event<CallRef<V, X>, V, X>.FetchSucceeds(t, val))
      modifies this
      ensures View() == Apply(old(View()), Event<CallRef<V, X>, V, X>.FetchSucceeds(t, val))
    {
      var key := phase[t].key;
      fetched := fetched[key := Log(fetched, key) + [Fetch(val, phase[t].start)]];
      phase := phase[t := Storing(key, phase[t].ttl, val)];
    }

    /** `s.cache.Set`. */
    method Store(ghost t: Tid, key: Key, ttl: int, val: V, now: int)
      requires t in phase && phase[t] == Storing(key, ttl, val) && now >= clock
      modifies this, cache
      ensures Enabled(old(View()), Event<CallRef<V, X>, V, X>.Store(t, now))
      ensures View() == Apply(old(View()), Event<CallRef<V, X>, V, X>.Store(t, now))
    {
      cache.Set(key, val, ttl, now);
      clock := now;
      stored := stored[key := Log(stored, key) + [Item(val, now + ttl)]];
      phase := phase[t := Filled(key, val)];
    }

    /** fn returns the fetched value to the group. */
    method EndFn(ghost t: Tid, key: Key, val: V, call: CallRef<V, X>)
      requires group.Valid() && t in phase && phase[t] == Filled(key, val)
      requires SF.IsRunning(group.View(), t) && group.pc[t].call == call
      modifies this, group, group.objects
      ensures group.Valid() && Enabled(old(View()), Event<CallRef<V, X>, V, X>.EndFn(t))
      ensures View() == Apply(old(View()), Event<CallRef<V, X>, V, X>.EndFn(t))
    {
      group.FnReturns(t, call, Ok(val));
      phase := phase[t := InGroup(key)];
    }
  }
}
