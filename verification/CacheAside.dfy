/** `CacheAsideService` of `patterns/14_caching/cache_aside.go`.

    The database behind `dbGet` and `dbSet` is a map; every call to it may fail, as `up` says.  The
    agreement law is about operations that run one after another. */
module CacheAside {
  import opened Common
  import opened MemoryCaching

  datatype ServiceError = DbFetchFailed | DbUpdateFailed

  datatype State<V> = State(db: map<Key, V>, items: map<Key, Item<V>>)

  datatype Op<V> =
    | Read(key: Key, now: int, up: bool)
    | Write(key: Key, val: V, up: bool)

  datatype Answer<V> =
    | Got(r: Result<V, ServiceError>)
    | Written(ok: bool)

  function Step<V>(s: State<V>, op: Op<V>, ttl: int): (State<V>, Answer<V>) {
    match op
    case Read(key, now, up) =>
      (match Lookup(s.items, key, now)
       case Some(v) => (s, Got(Ok(v)))
       case None =>
         if !up || key !in s.db then (s, Got(Err(DbFetchFailed)))
         else (s.(items := Stored(s.items, key, s.db[key], ttl, now)), Got(Ok(s.db[key]))))
    case Write(key, val, up) =>
      if !up then (s, Written(false))
      else (State(s.db[key := val], s.items - {key}), Written(true))
  }

  function Answers<V>(s: State<V>, ops: seq<Op<V>>, ttl: int): seq<Answer<V>>
    decreases |ops|
  {
    if ops == [] then []
    else
      var (s', a) := Step(s, ops[0], ttl);
      [a] + Answers(s', ops[1..], ttl)
  }

  /** The same operations on the database alone; `Err` only if the database itself would say so. */
  function DirectAnswers<V>(db: map<Key, V>, ops: seq<Op<V>>): seq<Answer<V>>
    decreases |ops|
  {
    if ops == [] then []
    else
      match ops[0]
      case Read(key, now, up) =>
        [Got(if up && key in db then Ok(db[key]) else Err(DbFetchFailed))] + DirectAnswers(db, ops[1..])
      case Write(key, val, up) =>
        [Written(up)] + DirectAnswers(if up then db[key := val] else db, ops[1..])
  }

  /** The database after the writes among `ops` that succeeded. */
  function DbAfter<V>(db: map<Key, V>, ops: seq<Op<V>>): map<Key, V>
    decreases |ops|
  {
    if ops == [] then db
    else DbAfter(if ops[0].Write? && ops[0].up then db[ops[0].key := ops[0].val] else db, ops[1..])
  }

  /** Whatever is cached, fresh or expired, is what the database holds. */
  ghost predicate Agrees<V>(s: State<V>) {
    forall k :: k in s.items ==> k in s.db && s.items[k].val == s.db[k]
  }

  lemma StepKeepsAgreement<V>(s: State<V>, op: Op<V>, ttl: int)
    requires Agrees(s)
    ensures Agrees(Step(s, op, ttl).0)
    ensures Step(s, op, ttl).0.db == DbAfter(s.db, [op])
  {
  }

  /** A read never returns a stale value: at any point of a run, a value returned is the one the
      last successful write of that key left in the database, whatever expired or failed before; and
      it fails only if the database is down or has no such row. */
  lemma {:induction false} ReadsAreCurrent<V>(s: State<V>, ops: seq<Op<V>>, ttl: int, i: nat)
    requires Agrees(s) && i < |ops|
    ensures |Answers(s, ops, ttl)| == |ops|
    ensures ops[i].Read? ==> Answers(s, ops, ttl)[i].Got?
    ensures ops[i].Read? && Answers(s, ops, ttl)[i].r.Ok? ==>
      var db := DbAfter(s.db, ops[..i]);
      ops[i].key in db && Answers(s, ops, ttl)[i].r.value == db[ops[i].key]
    ensures ops[i].Read? && Answers(s, ops, ttl)[i].r.Err? ==>
      !ops[i].up || ops[i].key !in DbAfter(s.db, ops[..i])
    decreases |ops|
  {
    var (s', a) := Step(s, ops[0], ttl);
    AnswersLength(s', ops[1..], ttl);
    if i > 0 {
      StepKeepsAgreement(s, ops[0], ttl);
      ReadsAreCurrent(s', ops[1..], ttl, i - 1);
      assert ops[1..][..i - 1] == ops[..i][1..];
      assert DbAfter(s.db, ops[..i]) == DbAfter(s'.db, ops[1..][..i - 1]);
    }
  }

  lemma {:induction false} AnswersLength<V>(s: State<V>, ops: seq<Op<V>>, ttl: int)
    ensures |Answers(s, ops, ttl)| == |ops|
    decreases |ops|
  {
    if ops != [] {
      AnswersLength(Step(s, ops[0], ttl).0, ops[1..], ttl);
    }
  }

  /** With a database that is up, nobody can tell the service from the bare database. */
  lemma {:induction false} CacheIsTransparent<V>(s: State<V>, ops: seq<Op<V>>, ttl: int)
    requires Agrees(s)
    requires forall i :: 0 <= i < |ops| ==> ops[i].up
    ensures Answers(s, ops, ttl) == DirectAnswers(s.db, ops)
    decreases |ops|
  {
    if ops != [] {
      StepKeepsAgreement(s, ops[0], ttl);
      CacheIsTransparent(Step(s, ops[0], ttl).0, ops[1..], ttl);
    }
  }

  // ---- What the cache is for ----

  /** The state after `ops`. */
  function After<V>(s: State<V>, ops: seq<Op<V>>, ttl: int): State<V>
    decreases |ops|
  {
    if ops == [] then s else After(Step(s, ops[0], ttl).0, ops[1..], ttl)
  }

  /** No successful write of `key`, and nobody reads it after the time `till`. */
  ghost predicate Undisturbed<V>(ops: seq<Op<V>>, key: Key, till: int) {
    && (forall i :: 0 <= i < |ops| && ops[i].Write? && ops[i].up ==> ops[i].key != key)
    && (forall i :: 0 <= i < |ops| && ops[i].Read? && ops[i].key == key ==> ops[i].now <= till)
  }

  ghost predicate Holds<V>(s: State<V>, key: Key, val: V, till: int) {
    key in s.items && s.items[key] == Item(val, till)
  }

  lemma {:induction false} EntryStays<V>(s: State<V>, ops: seq<Op<V>>, ttl: int, key: Key, val: V, till: int)
    requires Holds(s, key, val, till) && Undisturbed(ops, key, till)
    ensures Holds(After(s, ops, ttl), key, val, till)
    decreases |ops|
  {
    if ops != [] {
      var s' := Step(s, ops[0], ttl).0;
      assert Holds(s', key, val, till);
      EntryStays(s', ops[1..], ttl, key, val, till);
    }
  }

  /** A read that goes to the database is remembered for `ttl`: until then, and as long as nobody
      writes the key, every read of it has that value although the database may be down. */
  lemma OutageIsBridged<V>(s: State<V>, key: Key, now: int, ops: seq<Op<V>>, later: int, up: bool, ttl: int)
    requires key in s.db && (key in s.items ==> s.items[key].expiresAt < now)
    requires Undisturbed(ops, key, now + ttl) && later <= now + ttl
    ensures Step(s, Read(key, now, true), ttl).1 == Got(Ok(s.db[key]))
    ensures var s' := After(Step(s, Read(key, now, true), ttl).0, ops, ttl);
      Step(s', Read(key, later, up), ttl).1 == Got(Ok(s.db[key]))
  {
    EntryStays(Step(s, Read(key, now, true), ttl).0, ops, ttl, key, s.db[key], now + ttl);
  }

  /** And for no longer: a read past that time asks the database, and fails if it is down. */
  lemma ExpiryIsSeen<V>(s: State<V>, key: Key, now: int, ops: seq<Op<V>>, later: int, ttl: int)
    requires key in s.db && (key in s.items ==> s.items[key].expiresAt < now)
    requires Undisturbed(ops, key, now + ttl) && later > now + ttl
    ensures var s' := After(Step(s, Read(key, now, true), ttl).0, ops, ttl);
      Step(s', Read(key, later, false), ttl).1 == Got(Err(DbFetchFailed))
  {
    EntryStays(Step(s, Read(key, now, true), ttl).0, ops, ttl, key, s.db[key], now + ttl);
  }

  class CacheAsideService<V> {
    const cache: MemoryCache<V>
    const ttl: int
    var db: map<Key, V>

    ghost function View(): State<V>
      reads this, cache
    {
      State(db, cache.items)
    }

    constructor (cache: MemoryCache<V>, ttl: int, db: map<Key, V>)
      ensures this.cache == cache && this.ttl == ttl && this.db == db
    {
      this.cache, this.ttl, this.db := cache, ttl, db;
    }

    method Get(key: Key, now: int, up: bool) returns (r: Result<V, ServiceError>)
      modifies cache
      ensures (View(), Got(r)) == Step(old(View()), Read(key, now, up), ttl)
      ensures r.Ok? && (key !in old(cache.items) || now > old(cache.items[key].expiresAt)) ==>
        key in cache.items && cache.items[key] == Item(r.value, now + ttl)
    {
      var hit := cache.Get(key, now);
      if hit.Ok? {
        return Ok(hit.value);
      }
      if !up || key !in db {
        return Err(DbFetchFailed);
      }
      var val := db[key];
      cache.Set(key, val, ttl, now);
      return Ok(val);
    }

    method Set(key: Key, val: V, up: bool) returns (r: Result<(), ServiceError>)
      modifies this`db, cache
      ensures (View(), Written(r.Ok?)) == Step(old(View()), Write(key, val, up), ttl)
      ensures r.Err? ==> r.error == DbUpdateFailed
    {
      if !up {
        return Err(DbUpdateFailed);
      }
      db := db[key := val];
      cache.Delete(key);
      return Ok(());
    }
  }
}
