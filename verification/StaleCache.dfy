/** `SingleflightWithStaleCache.Fetch` of `patterns/26_advanced/singleflight_cache.go`: a cache, a
    singleflight group for the misses, and a map of old values for when the database fails.

    Unlike `Stampede` there is no second look at the cache, so a key may be queried again while its
    entry is fresh: exactly if the entry was stored after the goroutine's own look at the cache. What
    holds always is that answers are genuine and that a fallback is the newest one. */
module StaleCache {
  import opened Common
  import opened MemoryCaching
  import SF = Singleflight

  type Tid = nat

  datatype Phase<V, X> =
    | Hit(key: Key, val: V)                        // answered by the fresh cache
    | Missed(key: Key, ttl: int)                   // about to call group.Do
    | Querying(key: Key, ttl: int)                 // leader, dbQuery running
    | Queried(key: Key, ttl: int, val: V)          // leader, before cache.Set
    | Cached(key: Key, val: V)                     // leader, before the write to stale
    | Filled(key: Key, val: V)                     // leader, about to return val from fn
    | InGroup(key: Key)                            // inside group.Do, or returned from it
    | Fallback(key: Key, error: X, last: Option<V>, seen: nat)
      // group.Do failed and the stale map has been read, after `seen` writes for the key

  datatype State<C(==), V, X> = State(
    group: SF.State<C, Result<V, X>>,
    items: map<Key, Item<V>>,
    stale: map<Key, V>,
    phase: map<Tid, Phase<V, X>>,
    queried: map<Key, seq<V>>,                     // history: values of successful queries
    written: map<Key, seq<V>>,                     // history: values written to `stale`
    failed: map<Key, seq<X>>)                      // history: errors of failed queries

  datatype Event<C, V, X> =
    | FastGet(t: Tid, key: Key, ttl: int, now: int)
    | EnterDo(t: Tid, made: C)
    | QueryFails(t: Tid, error: X)
    | QuerySucceeds(t: Tid, val: V)
    | SetCache(t: Tid, now: int)
    | SetStale(t: Tid)
    | EndFn(t: Tid)
    | Finish(e: SF.Event<C, Result<V, X>>)         // Publish, Delete or Wake
    | ReadStale(t: Tid)

  function Init<C, V, X>(): State<C, V, X> {
    State(SF.Init(), map[], map[], map[], map[], map[], map[])
  }

  function Log<T>(m: map<Key, seq<T>>, k: Key): seq<T> {
    if k in m then m[k] else []
  }

  function DoEvent<C(==), V, X>(s: State<C, V, X>, t: Tid, key: Key, made: C): SF.Event<C, Result<V, X>> {
    if key in s.group.m then SF.Join(t, key) else SF.Lead(t, key, made)
  }

  /** `group.Do` has returned an error to `t`. */
  predicate GotError<C, V, X>(s: State<C, V, X>, t: Tid) {
    SF.IsReturned(s.group, t) && s.group.pc[t].res.Some? && s.group.pc[t].res.value.Err?
  }

  predicate Enabled<C(==), V, X>(s: State<C, V, X>, e: Event<C, V, X>) {
    match e
    case FastGet(t, key, ttl, now) => t !in s.phase
    case EnterDo(t, made) =>
      t in s.phase && s.phase[t].Missed? && SF.Enabled(s.group, DoEvent(s, t, s.phase[t].key, made))
    case QueryFails(t, x) =>
      t in s.phase && s.phase[t].Querying? && SF.Enabled(s.group, SF.FnReturns(t, Err(x)))
    case QuerySucceeds(t, v) => t in s.phase && s.phase[t].Querying?
    case SetCache(t, now) => t in s.phase && s.phase[t].Queried?
    case SetStale(t) => t in s.phase && s.phase[t].Cached?
    case EndFn(t) =>
      t in s.phase && s.phase[t].Filled? && SF.Enabled(s.group, SF.FnReturns(t, Ok(s.phase[t].val)))
    case Finish(g) => (g.Publish? || g.Delete? || g.Wake?) && SF.Enabled(s.group, g)
    case ReadStale(t) => t in s.phase && s.phase[t].InGroup? && GotError(s, t)
  }

  function Apply<C(==), V, X>(s: State<C, V, X>, e: Event<C, V, X>): State<C, V, X>
    requires Enabled(s, e)
  {
    match e
    case FastGet(t, key, ttl, now) =>
      var p := match Lookup(s.items, key, now) case Some(v) => Hit(key, v) case None => Missed(key, ttl);
      s.(phase := s.phase[t := p])
    case EnterDo(t, made) =>
      var key, ttl := s.phase[t].key, s.phase[t].ttl;
      var g := DoEvent(s, t, key, made);
      s.(group := SF.Apply(s.group, g),
         phase := s.phase[t := if g.Lead? then Querying(key, ttl) else InGroup(key)])
    case QueryFails(t, x) =>
      var key := s.phase[t].key;
      s.(group := SF.Apply(s.group, SF.FnReturns(t, Err(x))),
         phase := s.phase[t := InGroup(key)],
         failed := s.failed[key := Log(s.failed, key) + [x]])
    case QuerySucceeds(t, v) =>
      var key := s.phase[t].key;
      s.(phase := s.phase[t := Queried(key, s.phase[t].ttl, v)],
         queried := s.queried[key := Log(s.queried, key) + [v]])
    case SetCache(t, now) =>
      var key, ttl, v := s.phase[t].key, s.phase[t].ttl, s.phase[t].val;
      s.(items := Stored(s.items, key, v, ttl, now), phase := s.phase[t := Cached(key, v)])
    case SetStale(t) =>
      var key, v := s.phase[t].key, s.phase[t].val;
      s.(stale := s.stale[key := v],
         written := s.written[key := Log(s.written, key) + [v]],
         phase := s.phase[t := Filled(key, v)])
    case EndFn(t) =>
      var key, v := s.phase[t].key, s.phase[t].val;
      s.(group := SF.Apply(s.group, SF.FnReturns(t, Ok(v))), phase := s.phase[t := InGroup(key)])
    case Finish(g) => s.(group := SF.Apply(s.group, g))
    case ReadStale(t) =>
      var key := s.phase[t].key;
      var last := if key in s.stale then Some(s.stale[key]) else None;
      s.(phase := s.phase[t := Fallback(key, s.group.pc[t].res.value.error, last, |Log(s.written, key)|)])
  }

  ghost predicate IsRun<C, V, X>(s: State<C, V, X>, es: seq<Event<C, V, X>>, s': State<C, V, X>)
    decreases |es|
  {
    if es == [] then s == s'
    else Enabled(s, es[0]) && IsRun(Apply(s, es[0]), es[1..], s')
  }

  /** What `Fetch` returned, if it has returned. */
  datatype Outcome<V, X> = Pending | Fresh(val: V) | Stale(val: V, seen: nat) | Failed(error: X, seen: nat)

  function Returned<C, V, X>(s: State<C, V, X>, t: Tid): Outcome<V, X> {
    if t !in s.phase then Pending
    else
      match s.phase[t]
      case Hit(_, v) => Fresh(v)
      case Fallback(_, x, last, seen) => if last.Some? then Stale(last.value, seen) else Failed(x, seen)
      case InGroup(_) =>
        if SF.IsReturned(s.group, t) && s.group.pc[t].res.Some? && s.group.pc[t].res.value.Ok?
        then Fresh(s.group.pc[t].res.value.value) else Pending
      case _ => Pending
  }

  /** Leader of its key's call and inside fn. */
  predicate InFn<C, V, X>(s: State<C, V, X>, t: Tid) {
    t in s.phase && (s.phase[t].Querying? || s.phase[t].Queried? || s.phase[t].Cached? || s.phase[t].Filled?)
  }

  /** A query has succeeded and its value is not yet in the stale map. */
  predicate IsWriting<C, V, X>(s: State<C, V, X>, t: Tid, k: Key) {
    t in s.phase && (s.phase[t].Queried? || s.phase[t].Cached?) && s.phase[t].key == k
  }

  // ---- The invariant ----

  ghost predicate SomeoneWrites<C, V, X>(s: State<C, V, X>, k: Key) {
    exists t :: IsWriting(s, t, k)
  }

  /** The stale map follows the successful queries, one write behind at most. */
  ghost predicate LogOk<C, V, X>(s: State<C, V, X>, k: Key) {
    var q, w := Log(s.queried, k), Log(s.written, k);
    && w <= q && |q| == |w| + (if SomeoneWrites(s, k) then 1 else 0)
    && (k in s.stale <==> w != [])
    && (k in s.stale ==> s.stale[k] == w[|w| - 1])
    && (k in s.items ==> s.items[k].val in q)
  }

  ghost predicate PhaseOk<C, V, X>(s: State<C, V, X>, t: Tid)
    requires t in s.phase
  {
    match s.phase[t]
    case Hit(k, v) => t !in s.group.pc && v in Log(s.queried, k)
    case Missed(k, _) => t !in s.group.pc
    case Querying(k, _) => SF.IsRunning(s.group, t) && s.group.pc[t].key == k
    case Queried(k, _, v) =>
      SF.IsRunning(s.group, t) && s.group.pc[t].key == k && v in Log(s.queried, k)
      && Log(s.queried, k)[|Log(s.queried, k)| - 1] == v
    case Cached(k, v) =>
      SF.IsRunning(s.group, t) && s.group.pc[t].key == k && v in Log(s.queried, k)
      && Log(s.queried, k)[|Log(s.queried, k)| - 1] == v
    case Filled(k, v) => SF.IsRunning(s.group, t) && s.group.pc[t].key == k && v in Log(s.queried, k)
    case InGroup(k) => t in s.group.pc && !SF.IsRunning(s.group, t) && s.group.pc[t].key == k
    case Fallback(k, x, last, seen) =>
      && SF.IsReturned(s.group, t) && s.group.pc[t].res == Some(Err(x)) && s.group.pc[t].key == k
      && seen <= |Log(s.written, k)| && (last.Some? <==> seen > 0)
      && (seen > 0 ==> last.value == Log(s.written, k)[seen - 1])
  }

  /** `r` is the value or the error of some query for `k`. */
  ghost predicate IsGenuine<C, V, X>(s: State<C, V, X>, k: Key, r: Result<V, X>) {
    match r
    case Ok(v) => v in Log(s.queried, k)
    case Err(x) => x in Log(s.failed, k)
  }

  ghost predicate CallOk<C, V, X>(s: State<C, V, X>, c: C)
    requires c in s.group.calls
  {
    var call := s.group.calls[c];
    call.res.Some? ==> IsGenuine(s, call.key, call.res.value)
  }

  ghost predicate Phases<C, V, X>(s: State<C, V, X>) {
    && (forall t :: t in s.phase ==> PhaseOk(s, t))
    && (forall t :: t in s.group.pc ==> t in s.phase)
  }

  ghost predicate Logs<C, V, X>(s: State<C, V, X>) {
    forall k :: LogOk(s, k)
  }

  ghost predicate Calls<C, V, X>(s: State<C, V, X>) {
    forall c :: c in s.group.calls ==> CallOk(s, c)
  }

  ghost predicate Inv<C, V, X>(s: State<C, V, X>) {
    SF.Inv(s.group) && Phases(s) && Logs(s) && Calls(s)
  }

  ghost predicate Alone<C, V, X>(s: State<C, V, X>, t: Tid)
    requires t in s.phase
  {
    forall u :: InFn(s, u) && s.phase[u].key == s.phase[t].key ==> u == t
  }

  lemma LeaderIsAlone<C, V, X>(s: State<C, V, X>, t: Tid)
    requires Inv(s) && InFn(s, t)
    ensures Alone(s, t) && SF.PcOk(s.group, t) && s.group.pc[t].key == s.phase[t].key
  {
    assert PhaseOk(s, t);
    forall u | InFn(s, u) && s.phase[u].key == s.phase[t].key ensures u == t {
      assert PhaseOk(s, u);
      assert SF.IsLeading(s.group, t) && SF.IsLeading(s.group, u);
    }
  }

  lemma OnlyLeaderWrites<C, V, X>(s: State<C, V, X>, t: Tid)
    requires InFn(s, t) && Alone(s, t)
    ensures SomeoneWrites(s, s.phase[t].key) <==> IsWriting(s, t, s.phase[t].key)
  {
    if u :| IsWriting(s, u, s.phase[t].key) {
      assert InFn(s, u);
    }
  }

  lemma SameLog<C, V, X>(s: State<C, V, X>, s': State<C, V, X>, k: Key)
    requires LogOk(s, k)
    requires Log(s'.queried, k) == Log(s.queried, k) && Log(s'.written, k) == Log(s.written, k)
    requires k in s'.items <==> k in s.items
    requires k in s.items ==> s'.items[k] == s.items[k]
    requires k in s'.stale <==> k in s.stale
    requires k in s.stale ==> s'.stale[k] == s.stale[k]
    requires forall t :: IsWriting(s', t, k) <==> IsWriting(s, t, k)
    ensures LogOk(s', k)
  {
    assert SomeoneWrites(s', k) <==> SomeoneWrites(s, k);
  }

  lemma SameLogs<C, V, X>(s: State<C, V, X>, s': State<C, V, X>)
    requires Logs(s)
    requires s'.items == s.items && s'.stale == s.stale && s'.queried == s.queried && s'.written == s.written
    requires forall t, k :: IsWriting(s', t, k) <==> IsWriting(s, t, k)
    ensures Logs(s')
  {
    forall k ensures LogOk(s', k) {
      assert LogOk(s, k);
      SameLog(s, s', k);
    }
  }

  lemma FastGetKeepsPhases<C, V, X>(s: State<C, V, X>, t: Tid, key: Key, ttl: int, now: int)
    requires Inv(s) && Enabled(s, Event<C, V, X>.FastGet(t, key, ttl, now))
    ensures Phases(Apply(s, Event<C, V, X>.FastGet(t, key, ttl, now)))
  {
    var s' := Apply(s, Event<C, V, X>.FastGet(t, key, ttl, now));
    assert LogOk(s, key);
    forall u | u in s'.phase ensures PhaseOk(s', u) {
      assert u != t ==> PhaseOk(s, u);
    }
  }

  lemma FastGetKeepsInv<C, V, X>(s: State<C, V, X>, t: Tid, key: Key, ttl: int, now: int)
    requires Inv(s) && Enabled(s, Event<C, V, X>.FastGet(t, key, ttl, now))
    ensures Inv(Apply(s, Event<C, V, X>.FastGet(t, key, ttl, now)))
  {
    var s' := Apply(s, Event<C, V, X>.FastGet(t, key, ttl, now));
    SameLogs(s, s');
    FastGetKeepsPhases(s, t, key, ttl, now);
    forall c | c in s'.group.calls ensures CallOk(s', c) { assert CallOk(s, c); }
  }

  lemma EnterDoKeepsPhases<C, V, X>(s: State<C, V, X>, t: Tid, made: C)
    requires Phases(s) && Calls(s) && Enabled(s, Event<C, V, X>.EnterDo(t, made))
    ensures Phases(Apply(s, Event<C, V, X>.EnterDo(t, made)))
    ensures Calls(Apply(s, Event<C, V, X>.EnterDo(t, made)))
  {
    var s' := Apply(s, Event<C, V, X>.EnterDo(t, made));
    forall u | u in s'.phase ensures PhaseOk(s', u) { assert PhaseOk(s, u); }
    forall c | c in s'.group.calls ensures CallOk(s', c) {
      if c in s.group.calls { assert CallOk(s, c); }
    }
  }

  lemma EnterDoKeepsInv<C, V, X>(s: State<C, V, X>, t: Tid, made: C)
    requires Inv(s) && Enabled(s, Event<C, V, X>.EnterDo(t, made))
    ensures Inv(Apply(s, Event<C, V, X>.EnterDo(t, made)))
  {
    SF.StepKeepsInv(s.group, DoEvent(s, t, s.phase[t].key, made));
    SameLogs(s, Apply(s, Event<C, V, X>.EnterDo(t, made)));
    EnterDoKeepsPhases(s, t, made);
  }

  /** When the leader's fn returns, with a queried value or an error, phases and calls stay right. */
  lemma FnReturnKeeps<C, V, X>(s: State<C, V, X>, s': State<C, V, X>, t: Tid, r: Result<V, X>)
    requires Phases(s) && Calls(s)
    requires InFn(s, t) && SF.IsRunning(s.group, t) && SF.PcOk(s.group, t)
    requires s.group.pc[t].key == s.phase[t].key
    requires s' == s.(group := SF.Apply(s.group, SF.FnReturns(t, r)),
                      phase := s.phase[t := InGroup(s.phase[t].key)],
                      failed := s'.failed)
    requires forall k, x :: x in Log(s.failed, k) ==> x in Log(s'.failed, k)
    requires IsGenuine(s', s.phase[t].key, r)
    ensures Phases(s') && Calls(s')
  {
    forall u | u in s'.phase ensures PhaseOk(s', u) { assert PhaseOk(s, u); }
    forall c | c in s'.group.calls ensures CallOk(s', c) { assert CallOk(s, c); }
  }

  lemma QueryFailsIsGenuine<C, V, X>(s: State<C, V, X>, t: Tid, x: X)
    requires Enabled(s, Event<C, V, X>.QueryFails(t, x))
    ensures var s' := Apply(s, Event<C, V, X>.QueryFails(t, x));
      && IsGenuine(s', s.phase[t].key, Err(x))
      && (forall k, y :: y in Log(s.failed, k) ==> y in Log(s'.failed, k))
  {
  }

  lemma QueryFailsKeepsInv<C, V, X>(s: State<C, V, X>, t: Tid, x: X)
    requires Inv(s) && Enabled(s, Event<C, V, X>.QueryFails(t, x))
    ensures Inv(Apply(s, Event<C, V, X>.QueryFails(t, x)))
  {
    var s' := Apply(s, Event<C, V, X>.QueryFails(t, x));
    SF.StepKeepsInv(s.group, SF.FnReturns(t, Err(x)));
    SameLogs(s, s');
    LeaderIsAlone(s, t);
    QueryFailsIsGenuine(s, t, x);
    FnReturnKeeps(s, s', t, Err(x));
  }

  lemma EndFnKeepsInv<C, V, X>(s: State<C, V, X>, t: Tid)
    requires Inv(s) && Enabled(s, Event<C, V, X>.EndFn(t))
    ensures Inv(Apply(s, Event<C, V, X>.EndFn(t)))
  {
    var s' := Apply(s, Event<C, V, X>.EndFn(t));
    SF.StepKeepsInv(s.group, SF.FnReturns(t, Ok(s.phase[t].val)));
    SameLogs(s, s');
    assert PhaseOk(s, t);
    LeaderIsAlone(s, t);
    FnReturnKeeps(s, s', t, Ok(s.phase[t].val));
  }

  lemma QueryKeepsLogs<C, V, X>(s: State<C, V, X>, t: Tid, v: V)
    requires Logs(s) && Enabled(s, Event<C, V, X>.QuerySucceeds(t, v)) && Alone(s, t)
    ensures Logs(Apply(s, Event<C, V, X>.QuerySucceeds(t, v)))
  {
    var s' := Apply(s, Event<C, V, X>.QuerySucceeds(t, v));
    var key := s.phase[t].key;
    forall k ensures LogOk(s', k) {
      assert LogOk(s, k);
      if k == key {
        OnlyLeaderWrites(s, t);
        assert IsWriting(s', t, key);
      } else {
        SameLog(s, s', k);
      }
    }
  }

  lemma QueryKeepsPhases<C, V, X>(s: State<C, V, X>, t: Tid, v: V)
    requires Phases(s) && Calls(s) && Enabled(s, Event<C, V, X>.QuerySucceeds(t, v)) && Alone(s, t)
    ensures Phases(Apply(s, Event<C, V, X>.QuerySucceeds(t, v)))
    ensures Calls(Apply(s, Event<C, V, X>.QuerySucceeds(t, v)))
  {
    var s' := Apply(s, Event<C, V, X>.QuerySucceeds(t, v));
    forall u | u in s'.phase ensures PhaseOk(s', u) {
      assert PhaseOk(s, u);
      assert u != t && InFn(s, u) ==> s.phase[u].key != s.phase[t].key;
    }
    forall c | c in s'.group.calls ensures CallOk(s', c) { assert CallOk(s, c); }
  }

  lemma QuerySucceedsKeepsInv<C, V, X>(s: State<C, V, X>, t: Tid, v: V)
    requires Inv(s) && Enabled(s, Event<C, V, X>.QuerySucceeds(t, v))
    ensures Inv(Apply(s, Event<C, V, X>.QuerySucceeds(t, v)))
  {
    LeaderIsAlone(s, t);
    QueryKeepsLogs(s, t, v);
    QueryKeepsPhases(s, t, v);
  }

  lemma SetCacheKeepsLogs<C, V, X>(s: State<C, V, X>, t: Tid, now: int)
    requires Logs(s) && Enabled(s, Event<C, V, X>.SetCache(t, now)) && PhaseOk(s, t)
    ensures Logs(Apply(s, Event<C, V, X>.SetCache(t, now)))
  {
    var s' := Apply(s, Event<C, V, X>.SetCache(t, now));
    forall k ensures LogOk(s', k) {
      assert LogOk(s, k);
      assert forall u :: IsWriting(s', u, k) <==> IsWriting(s, u, k);
      assert SomeoneWrites(s', k) <==> SomeoneWrites(s, k);
    }
  }

  lemma SetCacheKeepsPhases<C, V, X>(s: State<C, V, X>, t: Tid, now: int)
    requires Phases(s) && Calls(s) && Enabled(s, Event<C, V, X>.SetCache(t, now))
    ensures Phases(Apply(s, Event<C, V, X>.SetCache(t, now)))
    ensures Calls(Apply(s, Event<C, V, X>.SetCache(t, now)))
  {
    var s' := Apply(s, Event<C, V, X>.SetCache(t, now));
    forall u | u in s'.phase ensures PhaseOk(s', u) { assert PhaseOk(s, u); }
    forall c | c in s'.group.calls ensures CallOk(s', c) { assert CallOk(s, c); }
  }

  lemma SetCacheKeepsInv<C, V, X>(s: State<C, V, X>, t: Tid, now: int)
    requires Inv(s) && Enabled(s, Event<C, V, X>.SetCache(t, now))
    ensures Inv(Apply(s, Event<C, V, X>.SetCache(t, now)))
  {
    assert PhaseOk(s, t);
    SetCacheKeepsLogs(s, t, now);
    SetCacheKeepsPhases(s, t, now);
  }

  lemma SetStaleKeepsLogs<C, V, X>(s: State<C, V, X>, t: Tid)
    requires Logs(s) && Enabled(s, Event<C, V, X>.SetStale(t)) && Alone(s, t) && PhaseOk(s, t)
    ensures Logs(Apply(s, Event<C, V, X>.SetStale(t)))
  {
    var s' := Apply(s, Event<C, V, X>.SetStale(t));
    var key := s.phase[t].key;
    forall k ensures LogOk(s', k) {
      assert LogOk(s, k);
      if k == key {
        assert IsWriting(s, t, key);
        forall u | InFn(s', u) && s'.phase[u].key == key ensures u == t { assert InFn(s, u); }
        OnlyLeaderWrites(s', t);
      } else {
        SameLog(s, s', k);
      }
    }
  }

  lemma SetStaleKeepsPhases<C, V, X>(s: State<C, V, X>, t: Tid)
    requires Phases(s) && Calls(s) && Enabled(s, Event<C, V, X>.SetStale(t))
    ensures Phases(Apply(s, Event<C, V, X>.SetStale(t)))
    ensures Calls(Apply(s, Event<C, V, X>.SetStale(t)))
  {
    var s' := Apply(s, Event<C, V, X>.SetStale(t));
    forall u | u in s'.phase ensures PhaseOk(s', u) { assert PhaseOk(s, u); }
    forall c | c in s'.group.calls ensures CallOk(s', c) { assert CallOk(s, c); }
  }

  lemma SetStaleKeepsInv<C, V, X>(s: State<C, V, X>, t: Tid)
    requires Inv(s) && Enabled(s, Event<C, V, X>.SetStale(t))
    ensures Inv(Apply(s, Event<C, V, X>.SetStale(t)))
  {
    LeaderIsAlone(s, t);
    assert PhaseOk(s, t);
    SetStaleKeepsLogs(s, t);
    SetStaleKeepsPhases(s, t);
  }

  lemma FinishKeepsPhases<C, V, X>(s: State<C, V, X>, g: SF.Event<C, Result<V, X>>)
    requires Phases(s) && Calls(s) && Enabled(s, Event<C, V, X>.Finish(g))
    ensures Phases(Apply(s, Event<C, V, X>.Finish(g)))
    ensures Calls(Apply(s, Event<C, V, X>.Finish(g)))
  {
    var s' := Apply(s, Event<C, V, X>.Finish(g));
    forall u | u in s'.phase ensures PhaseOk(s', u) { assert PhaseOk(s, u); }
    forall c | c in s'.group.calls ensures CallOk(s', c) { assert CallOk(s, c); }
  }

  lemma FinishKeepsInv<C, V, X>(s: State<C, V, X>, g: SF.Event<C, Result<V, X>>)
    requires Inv(s) && Enabled(s, Event<C, V, X>.Finish(g))
    ensures Inv(Apply(s, Event<C, V, X>.Finish(g)))
  {
    SF.StepKeepsInv(s.group, g);
    SameLogs(s, Apply(s, Event<C, V, X>.Finish(g)));
    FinishKeepsPhases(s, g);
  }

  lemma ReadStaleKeepsPhases<C, V, X>(s: State<C, V, X>, t: Tid)
    requires Phases(s) && Calls(s) && Enabled(s, Event<C, V, X>.ReadStale(t)) && LogOk(s, s.phase[t].key)
    ensures Phases(Apply(s, Event<C, V, X>.ReadStale(t)))
    ensures Calls(Apply(s, Event<C, V, X>.ReadStale(t)))
  {
    var s' := Apply(s, Event<C, V, X>.ReadStale(t));
    forall u | u in s'.phase ensures PhaseOk(s', u) { assert PhaseOk(s, u); }
    forall c | c in s'.group.calls ensures CallOk(s', c) { assert CallOk(s, c); }
  }

  lemma ReadStaleKeepsInv<C, V, X>(s: State<C, V, X>, t: Tid)
    requires Inv(s) && Enabled(s, Event<C, V, X>.ReadStale(t))
    ensures Inv(Apply(s, Event<C, V, X>.ReadStale(t)))
  {
    SameLogs(s, Apply(s, Event<C, V, X>.ReadStale(t)));
    ReadStaleKeepsPhases(s, t);
  }

  lemma StepKeepsInv<C, V, X>(s: State<C, V, X>, e: Event<C, V, X>)
    requires Inv(s) && Enabled(s, e)
    ensures Inv(Apply(s, e))
  {
    match e
    case FastGet(t, key, ttl, now) => FastGetKeepsInv(s, t, key, ttl, now);
    case EnterDo(t, made) => EnterDoKeepsInv(s, t, made);
    case QueryFails(t, x) => QueryFailsKeepsInv(s, t, x);
    case QuerySucceeds(t, v) => QuerySucceedsKeepsInv(s, t, v);
    case SetCache(t, now) => SetCacheKeepsInv(s, t, now);
    case SetStale(t) => SetStaleKeepsInv(s, t);
    case EndFn(t) => EndFnKeepsInv(s, t);
    case Finish(g) => FinishKeepsInv(s, g);
    case ReadStale(t) => ReadStaleKeepsInv(s, t);
  }

  lemma {:induction false} RunKeepsInv<C, V, X>(s: State<C, V, X>, es: seq<Event<C, V, X>>, s': State<C, V, X>)
    requires Inv(s) && IsRun(s, es, s')
    ensures Inv(s')
    decreases |es|
  {
    if es != [] {
      StepKeepsInv(s, es[0]);
      RunKeepsInv(Apply(s, es[0]), es[1..], s');
    }
  }

  // ---- What every interleaving guarantees ----

  /** Queries of one key never overlap, every value that `Fetch` returns was produced by a successful
      query of the key that was asked for, and every error by a failed one. */
  lemma AnswersAreGenuine<C, V, X>(es: seq<Event<C, V, X>>, s: State<C, V, X>)
    requires IsRun(Init(), es, s)
    ensures forall t, u :: InFn(s, t) && InFn(s, u) && s.phase[t].key == s.phase[u].key ==> t == u
    ensures forall t :: Returned(s, t).Fresh? || Returned(s, t).Stale? ==>
      t in s.phase && Returned(s, t).val in Log(s.queried, s.phase[t].key)
    ensures forall t :: Returned(s, t).Failed? ==>
      t in s.phase && Returned(s, t).error in Log(s.failed, s.phase[t].key)
  {
    RunKeepsInv(Init(), es, s);
    forall t, u | InFn(s, t) && InFn(s, u) && s.phase[t].key == s.phase[u].key ensures t == u {
      LeaderIsAlone(s, t);
    }
    forall t | Returned(s, t).Fresh? || Returned(s, t).Stale?
      ensures t in s.phase && Returned(s, t).val in Log(s.queried, s.phase[t].key)
    {
      assert PhaseOk(s, t) && LogOk(s, s.phase[t].key);
      if s.phase[t].InGroup? {
        assert SF.PcOk(s.group, t) && CallOk(s, s.group.pc[t].call);
      }
    }
    forall t | Returned(s, t).Failed?
      ensures t in s.phase && Returned(s, t).error in Log(s.failed, s.phase[t].key)
    {
      ErrorIsGenuine(s, t);
    }
  }

  lemma ErrorIsGenuine<C, V, X>(s: State<C, V, X>, t: Tid)
    requires Inv(s) && Returned(s, t).Failed?
    ensures t in s.phase && Returned(s, t).error in Log(s.failed, s.phase[t].key)
  {
    assert PhaseOk(s, t);
    assert SF.PcOk(s.group, t) && CallOk(s, s.group.pc[t].call);
  }

  /** A fallback is the newest value written when the stale map was read, and an error is reported
      only if nothing had ever been written for the key; both only after the shared query failed. */
  lemma FallbackIsNewest<C, V, X>(es: seq<Event<C, V, X>>, s: State<C, V, X>, t: Tid)
    requires IsRun(Init(), es, s) && (Returned(s, t).Stale? || Returned(s, t).Failed?)
    ensures GotError(s, t) && t in s.phase && Log(s.written, s.phase[t].key) <= Log(s.queried, s.phase[t].key)
    ensures IsNewest(s, t, Log(s.written, s.phase[t].key))
  {
    RunKeepsInv(Init(), es, s);
    assert LogOk(s, s.phase[t].key);
    FallbackIs(s, t);
  }

  ghost predicate IsNewest<C, V, X>(s: State<C, V, X>, t: Tid, written: seq<V>)
    requires GotError(s, t)
  {
    var r := Returned(s, t);
    && (r.Failed? ==> r.seen == 0 && s.group.pc[t].res == Some(Err(r.error)))
    && (r.Stale? ==> 0 < r.seen <= |written| && r.val == written[r.seen - 1])
  }

  lemma FallbackIs<C, V, X>(s: State<C, V, X>, t: Tid)
    requires t in s.phase && PhaseOk(s, t) && (Returned(s, t).Stale? || Returned(s, t).Failed?)
    ensures GotError(s, t) && IsNewest(s, t, Log(s.written, s.phase[t].key))
  {
  }

  // ---- Querying while the entry is fresh ----

  ghost predicate QueriesFreshEntry<C, V, X>(s: State<C, V, X>, t: Tid, now: int) {
    t in s.phase && s.phase[t].Querying? && Lookup(s.items, s.phase[t].key, now).Some?
  }

  /** What `e` puts in the cache for `k`. */
  ghost function Put<C, V, X>(s: State<C, V, X>, e: Event<C, V, X>, k: Key): Option<Item<V>>
    requires Enabled(s, e)
  {
    match e
    case SetCache(t, now) =>
      if s.phase[t].key == k then Some(Item(s.phase[t].val, now + s.phase[t].ttl)) else None
    case _ => None
  }

  /** The last item that the run `es` from `s` puts in the cache for `k`. */
  ghost function LastStore<C, V, X>(s: State<C, V, X>, es: seq<Event<C, V, X>>, k: Key): Option<Item<V>>
    decreases |es|
  {
    if es == [] || !Enabled(s, es[0]) then None
    else
      var later := LastStore(Apply(s, es[0]), es[1..], k);
      if later.Some? then later else Put(s, es[0], k)
  }

  /** The cache holds what was stored last, or what it held before. */
  lemma {:induction false} ItemIsLastStore<C, V, X>(
      s: State<C, V, X>, es: seq<Event<C, V, X>>, s': State<C, V, X>, k: Key)
    requires IsRun(s, es, s')
    ensures match LastStore(s, es, k)
            case Some(item) => k in s'.items && s'.items[k] == item
            case None => (k in s'.items <==> k in s.items) && (k in s.items ==> s'.items[k] == s.items[k])
    decreases |es|
  {
    if es != [] {
      ItemIsLastStore(Apply(s, es[0]), es[1..], s', k);
    }
  }

  /** `t` has missed `key` at time `at` and whatever happens next has led to `s'`. */
  ghost predicate HasMissed<C, V, X>(
      s: State<C, V, X>, t: Tid, key: Key, ttl: int, at: int, es: seq<Event<C, V, X>>, s': State<C, V, X>)
  {
    var look := Event<C, V, X>.FastGet(t, key, ttl, at);
    && Enabled(s, look) && Apply(s, look).phase[t].Missed? && IsRun(Apply(s, look), es, s')
    && t in s'.phase && s'.phase[t] == Missed(key, ttl)
  }

  /** A goroutine that has missed goes on to query while the entry is fresh exactly if nobody is
      leading a call for the key and the entry was stored after its own look and has not expired. */
  lemma QueriesFreshExactlyWhen<C, V, X>(
      s: State<C, V, X>, t: Tid, key: Key, ttl: int, at: int, es: seq<Event<C, V, X>>, s': State<C, V, X>,
      made: C, now: int)
    requires HasMissed(s, t, key, ttl, at, es, s') && at <= now
    requires Enabled(s', Event<C, V, X>.EnterDo(t, made))
    ensures var stored := LastStore(Apply(s, Event<C, V, X>.FastGet(t, key, ttl, at)), es, key);
      QueriesFreshEntry(Apply(s', Event<C, V, X>.EnterDo(t, made)), t, now)
      <==> key !in s'.group.m && stored.Some? && now <= stored.value.expiresAt
  {
    ItemIsLastStore(Apply(s, Event<C, V, X>.FastGet(t, key, ttl, at)), es, s', key);
  }

  lemma Before<C, V, X>(s: State<C, V, X>, e: Event<C, V, X>, es: seq<Event<C, V, X>>, s': State<C, V, X>)
    requires Enabled(s, e) && IsRun(Apply(s, e), es, s')
    ensures IsRun(s, [e] + es, s')
  {
    assert ([e] + es)[1..] == es;
  }

  /** Two goroutines miss, and the first has queried and stored the value. */
  ghost function FirstQuery(): seq<Event<nat, int, int>> {
    [FastGet(1, "k", 60, 0)]
      + ([FastGet(2, "k", 60, 0)] + ([EnterDo(1, 7)] + ([QuerySucceeds(1, 5)] + [SetCache(1, 0)])))
  }

  /** The first one returns from its function. */
  ghost function FirstEnd(): seq<Event<nat, int, int>> {
    [SetStale(1)] + [EndFn(1)]
  }

  /** The first one returns from the group. */
  ghost function FirstReturn(): seq<Event<nat, int, int>> {
    [Finish(SF.Publish(1))] + [Finish(SF.Delete(1))]
  }

  ghost predicate IsStored(s: State<nat, int, int>) {
    && s.group == SF.State(map["k" := 7], map[7 := SF.Call("k", None, false, false)], map[1 := SF.Running("k", 7)])
    && s.items == map["k" := Item(5, 60)] && s.stale == map[] && s.written == map[]
    && s.phase == map[1 := Cached("k", 5), 2 := Missed("k", 60)]
  }

  lemma FirstQueryStores()
    ensures exists s :: IsRun(Init(), FirstQuery(), s) && IsStored(s)
  {
    var s0 := Init<nat, int, int>();
    var s1 := Apply(s0, FastGet(1, "k", 60, 0));
    var s2 := Apply(s1, FastGet(2, "k", 60, 0));
    var s3 := Apply(s2, EnterDo(1, 7));
    var s4 := Apply(s3, QuerySucceeds(1, 5));
    var s5 := Apply(s4, SetCache(1, 0));
    assert IsStored(s5);
    Before(s4, SetCache(1, 0), [], s5);
    Before(s3, QuerySucceeds(1, 5), [SetCache(1, 0)], s5);
    Before(s2, EnterDo(1, 7), [QuerySucceeds(1, 5)] + [SetCache(1, 0)], s5);
    Before(s1, FastGet(2, "k", 60, 0), [EnterDo(1, 7)] + ([QuerySucceeds(1, 5)] + [SetCache(1, 0)]), s5);
    Before(s0, FastGet(1, "k", 60, 0),
           [FastGet(2, "k", 60, 0)] + ([EnterDo(1, 7)] + ([QuerySucceeds(1, 5)] + [SetCache(1, 0)])), s5);
  }

  ghost predicate IsFinished(s: State<nat, int, int>) {
    && s.group.m == map[] && s.group.calls.Keys == {7} && s.group.pc.Keys == {1}
    && s.items == map["k" := Item(5, 60)]
    && s.phase == map[1 := InGroup("k"), 2 := Missed("k", 60)]
  }

  ghost predicate IsEnded(s: State<nat, int, int>) {
    && s.group.m == map["k" := 7] && s.group.calls.Keys == {7} && s.group.pc == map[1 := SF.Publishing("k", 7)]
    && s.items == map["k" := Item(5, 60)]
    && s.phase == map[1 := InGroup("k"), 2 := Missed("k", 60)]
  }

  lemma FirstEnds(s: State<nat, int, int>)
    requires IsStored(s)
    ensures exists s' :: IsRun(s, FirstEnd(), s') && IsEnded(s')
  {
    var s1 := Apply(s, SetStale(1));
    var s' := Apply(s1, EndFn(1));
    assert IsEnded(s');
    Before(s1, EndFn(1), [], s');
    Before(s, SetStale(1), [EndFn(1)], s');
  }

  lemma FirstReturns(s: State<nat, int, int>)
    requires IsEnded(s)
    ensures exists s' :: IsRun(s, FirstReturn(), s') && IsFinished(s')
  {
    var s1 := Apply(s, Finish(SF.Publish(1)));
    var s' := Apply(s1, Finish(SF.Delete(1)));
    assert IsFinished(s');
    Before(s1, Finish(SF.Delete(1)), [], s');
    Before(s, Finish(SF.Publish(1)), [Finish(SF.Delete(1))], s');
  }

  lemma SecondQueryStarts(s: State<nat, int, int>)
    requires IsFinished(s)
    ensures exists s' :: IsRun(s, [EnterDo(2, 8)], s') && QueriesFreshEntry(s', 2, 0)
  {
    var e: Event<nat, int, int> := EnterDo(2, 8);
    var s' := Apply(s, e);
    assert s'.phase[2] == Querying("k", 60);
    Before(s, e, [], s');
    assert [e] + [] == [e];
  }

  lemma {:induction false} OneAfterAnother<C, V, X>(
      s: State<C, V, X>, es: seq<Event<C, V, X>>, s': State<C, V, X>, es': seq<Event<C, V, X>>, s'': State<C, V, X>)
    requires IsRun(s, es, s') && IsRun(s', es', s'')
    ensures IsRun(s, es + es', s'')
    decreases |es|
  {
    if es == [] {
      assert es + es' == es';
    } else {
      OneAfterAnother(Apply(s, es[0]), es[1..], s', es', s'');
      assert (es + es')[1..] == es[1..] + es';
    }
  }

  ghost function SecondQuery(): seq<Event<nat, int, int>> {
    FirstQuery() + FirstEnd() + FirstReturn() + [EnterDo(2, 8)]
  }

  /** It does happen: a goroutine that missed before the first call ended queries the database again
      although the entry has just been stored and is fresh. */
  lemma QueriesAgainWhileFresh()
    ensures exists s :: IsRun(Init(), SecondQuery(), s) && QueriesFreshEntry(s, 2, 0)
  {
    FirstQueryStores();
    var s5 :| IsRun(Init(), FirstQuery(), s5) && IsStored(s5);
    FirstEnds(s5);
    var s7 :| IsRun(s5, FirstEnd(), s7) && IsEnded(s7);
    OneAfterAnother(Init(), FirstQuery(), s5, FirstEnd(), s7);
    FirstReturns(s7);
    var s9 :| IsRun(s7, FirstReturn(), s9) && IsFinished(s9);
    OneAfterAnother(Init(), FirstQuery() + FirstEnd(), s7, FirstReturn(), s9);
    SecondQueryStarts(s9);
    var s :| IsRun(s9, [EnterDo(2, 8)], s) && QueriesFreshEntry(s, 2, 0);
    OneAfterAnother(Init(), FirstQuery() + FirstEnd() + FirstReturn(), s9, [EnterDo(2, 8)], s);
  }

  // ---- The code, on heap objects ----

  type CallRef<V, X> = SF.CallObject<Result<V, X>>

  class SingleflightWithStaleCache<V, X> {
    const cache: MemoryCache<V>
    const group: SF.SingleflightGroup<Result<V, X>>
    var stale: map<Key, V>
    ghost var phase: map<Tid, Phase<V, X>>
    ghost var queried: map<Key, seq<V>>
    ghost var written: map<Key, seq<V>>
    ghost var failed: map<Key, seq<X>>

    ghost function View(): State<CallRef<V, X>, V, X>
      reads this, cache, group, group.objects
    {
      State(group.View(), cache.items, stale, phase, queried, written, failed)
    }

    constructor ()
      ensures group.Valid() && View() == Init()
      ensures fresh(cache) && fresh(group) && fresh(group.objects)
    {
      cache := new MemoryCache();
      group := new SF.SingleflightGroup();
      stale, phase, queried, written, failed := map[], map[], map[], map[], map[];
    }

    /** Step 1 of `Fetch`. */
    method FastGet(ghost t: Tid, key: Key, ttl: int, now: int) returns (hit: Result<V, CacheError>)
      requires t !in phase
      modifies this
      ensures Enabled(old(View()), Event<CallRef<V, X>, V, X>.FastGet(t, key, ttl, now))
      ensures View() == Apply(old(View()), Event<CallRef<V, X>, V, X>.FastGet(t, key, ttl, now))
      ensures t in phase && phase[t] == match hit case Ok(v) => Hit(key, v) case Err(_) => Missed(key, ttl)
      ensures hit.Ok? <==> key in cache.items && now <= cache.items[key].expiresAt
      ensures hit.Ok? ==> hit.value == cache.items[key].val
    {
      hit := cache.Get(key, now);
      phase := phase[t := match hit case Ok(v) => Hit(key, v) case Err(_) => Missed(key, ttl)];
    }

    /** Step 2: `group.Do`, up to the moment this goroutine waits or leads. */
    method EnterDo(ghost t: Tid, key: Key, ghost ttl: int) returns (call: CallRef<V, X>, leader: bool)
      requires group.Valid() && t in phase && phase[t] == Missed(key, ttl) && t !in group.pc
      modifies this, group, group.objects
      ensures group.Valid() && Enabled(old(View()), Event<CallRef<V, X>, V, X>.EnterDo(t, call))
      ensures View() == Apply(old(View()), Event<CallRef<V, X>, V, X>.EnterDo(t, call))
      ensures t in phase && phase[t] == if leader then Querying(key, ttl) else InGroup(key)
    {
      call, leader := group.Start(t, key);
      phase := phase[t := if leader then Querying(key, ttl) else InGroup(key)];
    }

    /** `dbQuery` returned an error. */
    method QueryFails(ghost t: Tid, call: CallRef<V, X>, error: X)
      requires group.Valid() && t in phase && phase[t].Querying?
      requires SF.IsRunning(group.View(), t) && group.pc[t].call == call
      modifies this, group, group.objects
      ensures group.Valid() && Enabled(old(View()), Event<CallRef<V, X>, V, X>.QueryFails(t, error))
      ensures View() == Apply(old(View()), Event<CallRef<V, X>, V, X>.QueryFails(t, error))
    {
      group.FnReturns(t, call, Err(error));
      var key := phase[t].key;
      phase, failed := phase[t := InGroup(key)], failed[key := Log(failed, key) + [error]];
    }

    /** `dbQuery` returned a value. */
    method QuerySucceeds(ghost t: Tid, val: V)
      requires t in phase && phase[t].Querying?
      modifies this
      ensures View() == Apply(old(View()), Event<CallRef<V, X>, V, X>.QuerySucceeds(t, val))
    {
      var key := phase[t].key;
      queried := queried[key := Log(queried, key) + [val]];
      phase := phase[t := Queried(key, phase[t].ttl, val)];
    }

    method SetCache(ghost t: Tid, key: Key, ttl: int, val: V, now: int)
      requires t in phase && phase[t] == Queried(key, ttl, val)
      modifies this, cache
      ensures View() == Apply(old(View()), Event<CallRef<V, X>, V, X>.SetCache(t, now))
    {
      cache.Set(key, val, ttl, now);
      phase := phase[t := Cached(key, val)];
    }

    method SetStale(ghost t: Tid, key: Key, val: V)
      requires t in phase && phase[t] == Cached(key, val)
      modifies this
      ensures View() == Apply(old(View()), Event<CallRef<V, X>, V, X>.SetStale(t))
    {
      stale := stale[key := val];
      written := written[key := Log(written, key) + [val]];
      phase := phase[t := Filled(key, val)];
    }

    /** fn returns the queried value to the group. */
    method EndFn(ghost t: Tid, key: Key, val: V, call: CallRef<V, X>)
      requires group.Valid() && t in phase && phase[t] == Filled(key, val)
      requires SF.IsRunning(group.View(), t) && group.pc[t].call == call
      modifies this, group, group.objects
      ensures group.Valid() && Enabled(old(View()), Event<CallRef<V, X>, V, X>.EndFn(t))
      ensures View() == Apply(old(View()), Event<CallRef<V, X>, V, X>.EndFn(t))
    {
      group.FnReturns(t, call, Ok(val));
      phase := phase[t := InGroup(key)];
    }

    /** Step 3: the fallback after `group.Do` returned `error`. */
    method ReadStale(ghost t: Tid, key: Key, error: X) returns (r: Result<V, X>, isStale: bool)
      requires t in phase && phase[t] == InGroup(key)
      requires GotError(View(), t) && group.pc[t].res == Some(Err(error))
      modifies this
      ensures View() == Apply(old(View()), Event<CallRef<V, X>, V, X>.ReadStale(t))
      ensures isStale == r.Ok? && r == if key in stale then Ok(stale[key]) else Err(error)
      ensures match Returned(View(), t)
              case Stale(v, _) => r == Ok(v)
              case Failed(x, _) => r == Err(x)
              case _ => false
    {
      if key in stale {
        r, isStale := Ok(stale[key]), true;
      } else {
        r, isStale := Err(error), false;
      }
      phase := phase[t := Fallback(key, error, if r.Ok? then Some(r.value) else None, |Log(written, key)|)];
    }
  }
}
