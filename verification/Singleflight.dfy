/** `SingleflightGroup.Do` of `patterns/09_concurrency/singleflight.go` as a protocol.

    `fn` is whatever the caller passes in: it starts when its goroutine becomes the leader for the
    key and ends with an arbitrary result `R`.  The leader then publishes the result (`wg.Done`) and
    only later deletes the map entry, so callers may still join a call that is already finished. */
module Singleflight {
  import opened Common

  type Key = string
  type Tid = nat

  /** A `call` object.  `res` is None until `c.val, c.err = fn()` has run; `done` says that the
      wait group has reached zero. */
  datatype Call<R> = Call(key: Key, res: Option<R>, done: bool, shared: bool)

  datatype Pc<C, R> =
    | Joined(key: Key, call: C)       // waits for somebody else's call
    | Running(key: Key, call: C)      // leader, inside fn
    | Publishing(key: Key, call: C)   // leader, result written, before wg.Done
    | Deleting(key: Key, call: C)     // leader, before the delete
    | Returned(key: Key, call: C, res: Option<R>, shared: bool, led: bool)

  datatype State<C(==), R> = State(
    m: map<Key, C>,
    calls: map<C, Call<R>>,           // every call ever allocated
    pc: map<Tid, Pc<C, R>>)

  datatype Event<C, R> =
    | Join(t: Tid, key: Key)
    | Lead(t: Tid, key: Key, made: C)
    | FnReturns(t: Tid, r: R)
    | Publish(t: Tid)
    | Delete(t: Tid)
    | Wake(t: Tid)

  function Init<C, R>(): State<C, R> {
    State(map[], map[], map[])
  }

  predicate IsJoined<C, R>(s: State<C, R>, t: Tid) { t in s.pc && s.pc[t].Joined? }
  predicate IsRunning<C, R>(s: State<C, R>, t: Tid) { t in s.pc && s.pc[t].Running? }
  predicate IsPublishing<C, R>(s: State<C, R>, t: Tid) { t in s.pc && s.pc[t].Publishing? }
  predicate IsDeleting<C, R>(s: State<C, R>, t: Tid) { t in s.pc && s.pc[t].Deleting? }
  predicate IsReturned<C, R>(s: State<C, R>, t: Tid) { t in s.pc && s.pc[t].Returned? }

  /** From becoming leader until the map entry is deleted. */
  predicate IsLeading<C, R>(s: State<C, R>, t: Tid) {
    t in s.pc && (s.pc[t].Running? || s.pc[t].Publishing? || s.pc[t].Deleting?)
  }

  /** Goroutines that got, or will get, the result of a call they did not run. */
  predicate IsSharing<C, R>(s: State<C, R>, t: Tid) {
    t in s.pc && (s.pc[t].Joined? || (s.pc[t].Returned? && !s.pc[t].led))
  }

  predicate Enabled<C(==), R>(s: State<C, R>, e: Event<C, R>) {
    match e
    case Join(t, key) => t !in s.pc && key in s.m && s.m[key] in s.calls
    case Lead(t, key, made) => t !in s.pc && key !in s.m && made !in s.calls
    case FnReturns(t, r) => IsRunning(s, t) && s.pc[t].call in s.calls
    case Publish(t) => IsPublishing(s, t) && s.pc[t].call in s.calls
    case Delete(t) => IsDeleting(s, t) && s.pc[t].call in s.calls
    case Wake(t) => IsJoined(s, t) && s.pc[t].call in s.calls && s.calls[s.pc[t].call].done
  }

  function Apply<C(==), R>(s: State<C, R>, e: Event<C, R>): State<C, R>
    requires Enabled(s, e)
  {
    match e
    case Join(t, key) =>
      var c := s.m[key];
      s.(calls := s.calls[c := s.calls[c].(shared := true)], pc := s.pc[t := Joined(key, c)])
    case Lead(t, key, made) =>
      s.(m := s.m[key := made],
         calls := s.calls[made := Call(key, None, false, false)],
         pc := s.pc[t := Running(key, made)])
    case FnReturns(t, r) =>
      var p := s.pc[t];
      s.(calls := s.calls[p.call := s.calls[p.call].(res := Some(r))],
         pc := s.pc[t := Publishing(p.key, p.call)])
    case Publish(t) =>
      var p := s.pc[t];
      s.(calls := s.calls[p.call := s.calls[p.call].(done := true)],
         pc := s.pc[t := Deleting(p.key, p.call)])
    case Delete(t) =>
      var p := s.pc[t];
      var c := s.calls[p.call];
      s.(m := s.m - {p.key}, pc := s.pc[t := Returned(p.key, p.call, c.res, c.shared, true)])
    case Wake(t) =>
      var p := s.pc[t];
      s.(pc := s.pc[t := Returned(p.key, p.call, s.calls[p.call].res, true, false)])
  }

  ghost predicate IsRun<C, R>(s: State<C, R>, es: seq<Event<C, R>>, s': State<C, R>)
    decreases |es|
  {
    if es == [] then s == s'
    else Enabled(s, es[0]) && IsRun(Apply(s, es[0]), es[1..], s')
  }

  // ---- The invariant ----

  ghost predicate HasLeader<C, R>(s: State<C, R>, k: Key) {
    exists t :: IsLeading(s, t) && s.pc[t].key == k
  }

  ghost predicate HasSharer<C, R>(s: State<C, R>, c: C) {
    exists t :: IsSharing(s, t) && s.pc[t].call == c
  }

  /** Mapped calls are exactly those that have a leader, and a leader's call is its own. */
  ghost predicate OneLeader<C, R>(s: State<C, R>) {
    && (forall t :: IsLeading(s, t) ==> s.pc[t].key in s.m && s.m[s.pc[t].key] == s.pc[t].call)
    && (forall k :: k in s.m ==> s.m[k] in s.calls && s.calls[s.m[k]].key == k)
    && (forall k :: k in s.m ==> HasLeader(s, k))
    && (forall t, u :: IsLeading(s, t) && IsLeading(s, u) && s.pc[t].key == s.pc[u].key ==> t == u)
  }

  /** What a goroutine's position says about the call it refers to. */
  ghost predicate PcOk<C, R>(s: State<C, R>, t: Tid)
    requires t in s.pc
  {
    var p := s.pc[t];
    && p.call in s.calls && s.calls[p.call].key == p.key
    && match p
       case Joined(k, c) => s.calls[c].done || (k in s.m && s.m[k] == c)
       case Running(_, c) => s.calls[c].res == None && !s.calls[c].done
       case Publishing(_, c) => s.calls[c].res.Some? && !s.calls[c].done
       case Deleting(_, c) => s.calls[c].res.Some? && s.calls[c].done
       case Returned(k, c, res, shared, led) =>
         && res.Some? && s.calls[c].res == res && s.calls[c].done && s.calls[c].shared == shared
         && (led ==> !(k in s.m && s.m[k] == c))
  }

  ghost predicate CallsOk<C, R>(s: State<C, R>) {
    && (forall t :: t in s.pc ==> PcOk(s, t))
    && (forall c :: c in s.calls ==>
         && (s.calls[c].done ==> s.calls[c].res.Some?)
         && (s.calls[c].shared <==> HasSharer(s, c)))
  }

  ghost predicate Inv<C, R>(s: State<C, R>) {
    OneLeader(s) && CallsOk(s)
  }

  /** A step by `t` that leaves the map alone and does not change what `t` leads keeps the leaders. */
  lemma SameLeaders<C, R>(s: State<C, R>, s': State<C, R>, t: Tid)
    requires OneLeader(s)
    requires s'.m == s.m && t in s'.pc && s'.pc == s.pc[t := s'.pc[t]]
    requires IsLeading(s', t) <==> IsLeading(s, t)
    requires IsLeading(s, t) ==> s'.pc[t].key == s.pc[t].key && s'.pc[t].call == s.pc[t].call
    requires forall c :: c in s.calls ==> c in s'.calls && s'.calls[c].key == s.calls[c].key
    ensures OneLeader(s')
  {
    forall u | IsLeading(s', u)
      ensures IsLeading(s, u) && s'.pc[u].key == s.pc[u].key && s'.pc[u].call == s.pc[u].call {
      if u != t { assert s'.pc[u] == s.pc[u]; }
    }
    forall k | k in s'.m ensures HasLeader(s', k) {
      assert HasLeader(s, k);
      var u :| IsLeading(s, u) && s.pc[u].key == k;
      assert u != t ==> s'.pc[u] == s.pc[u];
      assert IsLeading(s', u) && s'.pc[u].key == k;
    }
  }

  /** Only `t` moves, to or from a position that is not sharing; only `c` changes, and not its flag. */
  lemma SameSharing<C, R>(s: State<C, R>, s': State<C, R>, t: Tid)
    requires CallsOk(s)
    requires t in s'.pc && s'.pc == s.pc[t := s'.pc[t]] && !IsSharing(s, t) && !IsSharing(s', t)
    requires s'.calls.Keys == s.calls.Keys
    requires forall c :: c in s.calls ==> s'.calls[c].shared == s.calls[c].shared
    ensures forall c :: c in s'.calls ==>
      (s'.calls[c].shared <==> HasSharer(s', c))
  {
    assert forall u :: IsSharing(s', u) <==> IsSharing(s, u);
    forall c | c in s'.calls
      ensures s'.calls[c].shared <==> HasSharer(s', c)
    {
      if s'.calls[c].shared {
        var u :| IsSharing(s, u) && s.pc[u].call == c;
        assert IsSharing(s', u) && s'.pc[u].call == c;
      }
      if u :| IsSharing(s', u) && s'.pc[u].call == c {
        assert IsSharing(s, u) && s.pc[u].call == c;
      }
    }
  }

  lemma JoinKeepsInv<C, R>(s: State<C, R>, t: Tid, key: Key)
    requires Inv(s) && Enabled(s, Event<C, R>.Join(t, key))
    ensures Inv(Apply(s, Event<C, R>.Join(t, key)))
  {
    var s' := Apply(s, Event<C, R>.Join(t, key));
    SameLeaders(s, s', t);
    assert HasLeader(s, key);
    var l :| IsLeading(s, l) && s.pc[l].key == key;
    assert PcOk(s, l);
    JoinKeepsCalls(s, t, key, l);
  }

  lemma JoinKeepsCalls<C, R>(s: State<C, R>, t: Tid, key: Key, l: Tid)
    requires Inv(s) && Enabled(s, Event<C, R>.Join(t, key))
    requires IsLeading(s, l) && s.pc[l].key == key
    ensures CallsOk(Apply(s, Event<C, R>.Join(t, key)))
  {
    var s' := Apply(s, Event<C, R>.Join(t, key));
    var joined := s.m[key];
    assert s.pc[l].call == joined && s.calls[joined].key == key;
    forall u | u in s'.pc ensures PcOk(s', u) {
      if u != t {
        assert PcOk(s, u);
        if s.pc[u].Returned? && !s.pc[u].led { assert IsSharing(s, u); }
      }
    }
    assert IsSharing(s', t);
    forall c | c in s'.calls
      ensures s'.calls[c].shared <==> HasSharer(s', c)
    {
      if c != joined && s.calls[c].shared {
        var u :| IsSharing(s, u) && s.pc[u].call == c;
        assert IsSharing(s', u) && s'.pc[u].call == c;
      }
      if u :| IsSharing(s', u) && s'.pc[u].call == c {
        if u != t { assert IsSharing(s, u); }
      }
    }
  }

  lemma LeadKeepsLeaders<C, R>(s: State<C, R>, t: Tid, key: Key, made: C)
    requires OneLeader(s) && Enabled(s, Event<C, R>.Lead(t, key, made))
    ensures OneLeader(Apply(s, Event<C, R>.Lead(t, key, made)))
  {
    var s' := Apply(s, Event<C, R>.Lead(t, key, made));
    forall u | IsLeading(s', u) ensures u == t || (IsLeading(s, u) && s.pc[u] == s'.pc[u]) {}
    forall k | k in s'.m ensures HasLeader(s', k) {
      if k == key {
        assert IsLeading(s', t) && s'.pc[t].key == k;
      } else {
        assert HasLeader(s, k);
        var u :| IsLeading(s, u) && s.pc[u].key == k;
        assert s'.pc[u] == s.pc[u];
        assert IsLeading(s', u) && s'.pc[u].key == k;
      }
    }
  }

  lemma LeadKeepsInv<C, R>(s: State<C, R>, t: Tid, key: Key, made: C)
    requires Inv(s) && Enabled(s, Event<C, R>.Lead(t, key, made))
    ensures Inv(Apply(s, Event<C, R>.Lead(t, key, made)))
  {
    LeadKeepsLeaders(s, t, key, made);
    LeadKeepsCalls(s, t, key, made);
  }

  lemma LeadKeepsCalls<C, R>(s: State<C, R>, t: Tid, key: Key, made: C)
    requires Inv(s) && Enabled(s, Event<C, R>.Lead(t, key, made))
    ensures CallsOk(Apply(s, Event<C, R>.Lead(t, key, made)))
  {
    var s' := Apply(s, Event<C, R>.Lead(t, key, made));
    forall u | u in s'.pc ensures PcOk(s', u) {
      if u != t { assert PcOk(s, u); }
    }
    forall c | c in s'.calls
      ensures s'.calls[c].shared <==> HasSharer(s', c)
    {
      if u :| IsSharing(s', u) && s'.pc[u].call == c {
        assert u != t && IsSharing(s, u) && PcOk(s, u);
      }
      if c in s.calls && s.calls[c].shared {
        var u :| IsSharing(s, u) && s.pc[u].call == c;
        assert IsSharing(s', u) && s'.pc[u].call == c;
      }
    }
  }

  lemma FnReturnsKeepsInv<C, R>(s: State<C, R>, t: Tid, r: R)
    requires Inv(s) && Enabled(s, Event<C, R>.FnReturns(t, r))
    ensures Inv(Apply(s, Event<C, R>.FnReturns(t, r)))
  {
    var s' := Apply(s, Event<C, R>.FnReturns(t, r));
    SameLeaders(s, s', t);
    SameSharing(s, s', t);
    OwnCall(s, t);
    forall u | u in s'.pc ensures PcOk(s', u) {
      assert u in s.pc && PcOk(s, u) && PcOk(s, t);
    }
  }

  lemma PublishKeepsInv<C, R>(s: State<C, R>, t: Tid)
    requires Inv(s) && Enabled(s, Event<C, R>.Publish(t))
    ensures Inv(Apply(s, Event<C, R>.Publish(t)))
  {
    var s' := Apply(s, Event<C, R>.Publish(t));
    SameLeaders(s, s', t);
    SameSharing(s, s', t);
    OwnCall(s, t);
    forall u | u in s'.pc ensures PcOk(s', u) {
      assert u in s.pc && PcOk(s, u) && PcOk(s, t);
    }
  }

  /** No two goroutines lead the same call. */
  lemma OwnCall<C, R>(s: State<C, R>, t: Tid)
    requires Inv(s) && IsLeading(s, t)
    ensures forall u :: IsLeading(s, u) && s.pc[u].call == s.pc[t].call ==> u == t
  {
    forall u | IsLeading(s, u) && s.pc[u].call == s.pc[t].call ensures u == t {
      assert PcOk(s, u) && PcOk(s, t);
    }
  }

  lemma DeleteKeepsCalls<C, R>(s: State<C, R>, t: Tid)
    requires Inv(s) && Enabled(s, Event<C, R>.Delete(t))
    ensures CallsOk(Apply(s, Event<C, R>.Delete(t)))
  {
    var s' := Apply(s, Event<C, R>.Delete(t));
    SameSharing(s, s', t);
    OwnCall(s, t);
    forall u | u in s'.pc ensures PcOk(s', u) {
      assert u in s.pc && PcOk(s, u) && PcOk(s, t);
    }
  }

  lemma DeleteKeepsInv<C, R>(s: State<C, R>, t: Tid)
    requires Inv(s) && Enabled(s, Event<C, R>.Delete(t))
    ensures Inv(Apply(s, Event<C, R>.Delete(t)))
  {
    var s' := Apply(s, Event<C, R>.Delete(t));
    DeleteKeepsCalls(s, t);
    forall u | IsLeading(s', u) ensures IsLeading(s, u) && u != t && s'.pc[u] == s.pc[u] {}
    assert IsLeading(s, t);
    forall k | k in s'.m ensures HasLeader(s', k) {
      assert HasLeader(s, k);
      var u :| IsLeading(s, u) && s.pc[u].key == k;
      assert IsLeading(s', u) && s'.pc[u].key == k;
    }
  }

  /** A joiner that wakes goes on sharing its call. */
  lemma WakeKeepsSharing<C, R>(s: State<C, R>, t: Tid)
    requires CallsOk(s) && Enabled(s, Event<C, R>.Wake(t))
    ensures var s' := Apply(s, Event<C, R>.Wake(t));
      forall c :: c in s'.calls ==> (s'.calls[c].shared <==> HasSharer(s', c))
  {
    var s' := Apply(s, Event<C, R>.Wake(t));
    assert forall u :: IsSharing(s', u) <==> IsSharing(s, u);
    forall c | c in s'.calls
      ensures s'.calls[c].shared <==> HasSharer(s', c)
    {
      if s.calls[c].shared {
        var u :| IsSharing(s, u) && s.pc[u].call == c;
        assert IsSharing(s', u) && s'.pc[u].call == c;
      }
    }
  }

  lemma WakeKeepsInv<C, R>(s: State<C, R>, t: Tid)
    requires Inv(s) && Enabled(s, Event<C, R>.Wake(t))
    ensures Inv(Apply(s, Event<C, R>.Wake(t)))
  {
    var s' := Apply(s, Event<C, R>.Wake(t));
    SameLeaders(s, s', t);
    WakeKeepsSharing(s, t);
    assert PcOk(s, t) && IsSharing(s, t);
    forall u | u in s'.pc ensures PcOk(s', u) {
      assert u in s.pc && PcOk(s, u);
    }
  }

  lemma StepKeepsInv<C, R>(s: State<C, R>, e: Event<C, R>)
    requires Inv(s) && Enabled(s, e)
    ensures Inv(Apply(s, e))
  {
    match e
    case Join(t, key) => JoinKeepsInv(s, t, key);
    case Lead(t, key, made) => LeadKeepsInv(s, t, key, made);
    case FnReturns(t, r) => FnReturnsKeepsInv(s, t, r);
    case Publish(t) => PublishKeepsInv(s, t);
    case Delete(t) => DeleteKeepsInv(s, t);
    case Wake(t) => WakeKeepsInv(s, t);
  }

  lemma {:induction false} RunKeepsInv<C, R>(s: State<C, R>, es: seq<Event<C, R>>, s': State<C, R>)
    requires Inv(s) && IsRun(s, es, s')
    ensures Inv(s')
    decreases |es|
  {
    if es != [] {
      StepKeepsInv(s, es[0]);
      RunKeepsInv(Apply(s, es[0]), es[1..], s');
    }
  }

  // ---- What every interleaving guarantees ----

  /** At most one execution of fn is in flight per key, and the delete that ends it removes the
      leader's own call, never a later one. */
  lemma OneExecutionPerKey<C, R>(es: seq<Event<C, R>>, s: State<C, R>)
    requires IsRun(Init(), es, s)
    ensures forall t, u :: IsLeading(s, t) && IsLeading(s, u) && s.pc[t].key == s.pc[u].key ==> t == u
    ensures forall t :: IsLeading(s, t) ==> s.pc[t].key in s.m && s.m[s.pc[t].key] == s.pc[t].call
    ensures (forall t :: !IsLeading(s, t)) ==> s.m == map[]
  {
    RunKeepsInv(Init(), es, s);
  }

  /** Everybody who returns from one call has the same result, the key asked for, and a `shared`
      flag that tells the truth: it is set exactly if somebody other than the leader took part. */
  lemma SameResult<C, R>(es: seq<Event<C, R>>, s: State<C, R>, t: Tid)
    requires IsRun(Init(), es, s) && IsReturned(s, t)
    ensures s.pc[t].res.Some?
    ensures forall u :: IsReturned(s, u) && s.pc[u].call == s.pc[t].call ==>
      s.pc[u].res == s.pc[t].res && s.pc[u].key == s.pc[t].key
    ensures s.pc[t].shared <==> exists u :: IsSharing(s, u) && s.pc[u].call == s.pc[t].call
  {
    RunKeepsInv(Init(), es, s);
    assert PcOk(s, t);
    forall u | IsReturned(s, u) && s.pc[u].call == s.pc[t].call
      ensures s.pc[u].res == s.pc[t].res && s.pc[u].key == s.pc[t].key
    {
      assert PcOk(s, u);
    }
  }

  /** A joiner is never stranded: it can return, or the leader of its very call has yet to publish. */
  lemma JoinerHasLeader<C, R>(es: seq<Event<C, R>>, s: State<C, R>, t: Tid)
    requires IsRun(Init(), es, s) && IsJoined(s, t)
    ensures Enabled(s, Event<C, R>.Wake(t)) ||
      exists u :: (IsRunning(s, u) || IsPublishing(s, u)) && s.pc[u].call == s.pc[t].call
  {
    RunKeepsInv(Init(), es, s);
    assert PcOk(s, t);
    if !s.calls[s.pc[t].call].done {
      assert HasLeader(s, s.pc[t].key);
      var u :| IsLeading(s, u) && s.pc[u].key == s.pc[t].key;
      assert PcOk(s, u);
      assert s.pc[u].call == s.pc[t].call && !IsDeleting(s, u);
    }
  }

  // ---- The code, on heap objects ----

  class CallObject<R> {
    const key: Key
    var res: Option<R>
    var done: bool
    var shared: bool

    constructor (key: Key)
      ensures this.key == key && res == None && !done && !shared
    {
      this.key := key;
      res, done, shared := None, false, false;
    }

    ghost function Value(): Call<R>
      reads this
    {
      Call(key, res, done, shared)
    }
  }

  class SingleflightGroup<R> {
    var m: map<Key, CallObject<R>>
    ghost var objects: set<CallObject<R>>
    ghost var pc: map<Tid, Pc<CallObject<R>, R>>

    ghost predicate Valid()
      reads this
    {
      m.Values <= objects && forall t :: t in pc ==> pc[t].call in objects
    }

    ghost function View(): State<CallObject<R>, R>
      reads this, objects
    {
      State(m, map c | c in objects :: c.Value(), pc)
    }

    constructor ()
      ensures Valid() && View() == Init() && fresh(objects)
    {
      m, objects, pc := map[], {}, map[];
    }

    /** The critical section at the start of `Do`: `call` is the call to wait for, or to run. */
    method Start(ghost t: Tid, key: Key) returns (call: CallObject<R>, leader: bool)
      requires Valid() && t !in pc
      modifies this, objects
      ensures Valid() && fresh(objects - old(objects)) && call in objects
      ensures leader <==> key !in old(m)
      ensures var e := if leader then Event.Lead(t, key, call) else Event.Join(t, key);
        Enabled(old(View()), e) && View() == Apply(old(View()), e)
      ensures t in pc && pc[t] == if leader then Running(key, call) else Joined(key, call)
    {
      leader := key !in m;
      if leader {
        call := Lead(t, key);
      } else {
        call := m[key];
        Join(t, key, call);
      }
    }

    method Join(ghost t: Tid, key: Key, call: CallObject<R>)
      requires Valid() && t !in pc && key in m && m[key] == call
      modifies this`pc, call`shared
      ensures Valid() && call in objects && Enabled(old(View()), Event<CallObject<R>, R>.Join(t, key))
      ensures View() == Apply(old(View()), Event<CallObject<R>, R>.Join(t, key))
      ensures pc == old(pc)[t := Joined(key, call)]
    {
      assert call in m.Values;
      call.shared := true;
      pc := pc[t := Joined(key, call)];
    }

    method Lead(ghost t: Tid, key: Key) returns (call: CallObject<R>)
      requires Valid() && t !in pc && key !in m
      modifies this
      ensures Valid() && fresh(call) && objects == old(objects) + {call}
      ensures Enabled(old(View()), Event.Lead(t, key, call))
      ensures View() == Apply(old(View()), Event.Lead(t, key, call))
      ensures pc == old(pc)[t := Running(key, call)]
    {
      call := new CallObject(key);
      m := m[key := call];
      objects := objects + {call};
      pc := pc[t := Running(key, call)];
    }

    /** `c.val, c.err = fn()`, when fn returns. */
    method FnReturns(ghost t: Tid, call: CallObject<R>, r: R)
      requires Valid() && IsRunning(View(), t) && pc[t].call == call
      modifies this`pc, call`res
      ensures Valid() && Enabled(old(View()), Event.FnReturns(t, r))
      ensures View() == Apply(old(View()), Event.FnReturns(t, r))
    {
      call.res := Some(r);
      pc := pc[t := Publishing(pc[t].key, call)];
    }

    /** `c.wg.Done()`. */
    method Publish(ghost t: Tid, call: CallObject<R>)
      requires Valid() && IsPublishing(View(), t) && pc[t].call == call
      modifies this`pc, call`done
      ensures Valid() && Enabled(old(View()), Event<CallObject<R>, R>.Publish(t))
      ensures View() == Apply(old(View()), Event<CallObject<R>, R>.Publish(t))
    {
      call.done := true;
      pc := pc[t := Deleting(pc[t].key, call)];
    }

    /** The closing critical section of the leader and its return. */
    method Delete(ghost t: Tid, key: Key, call: CallObject<R>) returns (res: Option<R>, shared: bool)
      requires Valid() && IsDeleting(View(), t) && pc[t].key == key && pc[t].call == call
      modifies this`m, this`pc
      ensures Valid() && Enabled(old(View()), Event<CallObject<R>, R>.Delete(t))
      ensures View() == Apply(old(View()), Event<CallObject<R>, R>.Delete(t))
      ensures pc[t] == Returned(key, call, res, shared, true)
    {
      m := m - {key};
      res, shared := call.res, call.shared;
      pc := pc[t := Returned(key, call, res, shared, true)];
    }

    /** `c.wg.Wait()`, at the moment it returns, and the return of a joiner. */
    method Wake(ghost t: Tid, call: CallObject<R>) returns (res: Option<R>, shared: bool)
      requires Valid() && IsJoined(View(), t) && pc[t].call == call && call.done
      modifies this`pc
      ensures Valid() && Enabled(old(View()), Event<CallObject<R>, R>.Wake(t))
      ensures View() == Apply(old(View()), Event<CallObject<R>, R>.Wake(t))
      ensures pc[t] == Returned(old(pc[t].key), call, res, shared, false)
    {
      res, shared := call.res, true;
      pc := pc[t := Returned(pc[t].key, call, res, shared, false)];
    }
  }
}
