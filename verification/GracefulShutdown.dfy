/** The hook order of `patterns/01_lifecycle/graceful_shutdown.go`: an insertion sort by falling
    priority, in place on a copy of the registered hooks. */
module HookOrder {

  /** `fn` names the cleanup function. */
  datatype Hook = Hook(name: string, priority: int, fn: nat)

  /** Puts `key` behind the last hook of `s` that it does not outrank. */
  function Insert(s: seq<Hook>, key: Hook): seq<Hook>
    decreases |s|
  {
    if s == [] || s[|s| - 1].priority >= key.priority then s + [key]
    else Insert(s[..|s| - 1], key) + [s[|s| - 1]]
  }

  function Sort(s: seq<Hook>): seq<Hook>
    decreases |s|
  {
    if s == [] then [] else Insert(Sort(s[..|s| - 1]), s[|s| - 1])
  }

  // ---- What the order is ----------------------------------------------------------------------

  ghost predicate Descending(s: seq<Hook>) {
    forall i, j :: 0 <= i < j < |s| ==> s[i].priority >= s[j].priority
  }

  /** The hooks of one priority, in their order. */
  function OfPriority(s: seq<Hook>, p: int): seq<Hook>
    decreases |s|
  {
    if s == [] then []
    else OfPriority(s[..|s| - 1], p) + if s[|s| - 1].priority == p then [s[|s| - 1]] else []
  }

  ghost predicate SameByPriority(s: seq<Hook>, t: seq<Hook>) {
    forall p :: OfPriority(s, p) == OfPriority(t, p)
  }

  lemma OfPriorityEnd(s: seq<Hook>, h: Hook, p: int)
    ensures OfPriority(s + [h], p) == OfPriority(s, p) + if h.priority == p then [h] else []
  {
    assert (s + [h])[..|s|] == s;
  }

  lemma {:induction false} InsertIsStable(s: seq<Hook>, key: Hook, p: int)
    ensures OfPriority(Insert(s, key), p) == OfPriority(s, p) + if key.priority == p then [key] else []
    decreases |s|
  {
    if s == [] || s[|s| - 1].priority >= key.priority {
      OfPriorityEnd(s, key, p);
    } else {
      var front, last := s[..|s| - 1], s[|s| - 1];
      InsertIsStable(front, key, p);
      OfPriorityEnd(Insert(front, key), last, p);
    }
  }

  lemma {:induction false} InsertBounds(s: seq<Hook>, key: Hook, low: int)
    requires (forall i :: 0 <= i < |s| ==> s[i].priority >= low) && key.priority >= low
    ensures forall i :: 0 <= i < |Insert(s, key)| ==> Insert(s, key)[i].priority >= low
    decreases |s|
  {
    if s != [] && s[|s| - 1].priority < key.priority {
      InsertBounds(s[..|s| - 1], key, low);
    }
  }

  lemma {:induction false} InsertKeepsDescending(s: seq<Hook>, key: Hook)
    requires Descending(s)
    ensures Descending(Insert(s, key))
    decreases |s|
  {
    if s != [] && s[|s| - 1].priority < key.priority {
      InsertKeepsDescending(s[..|s| - 1], key);
      InsertBounds(s[..|s| - 1], key, s[|s| - 1].priority);
    }
  }

  /** The hooks come out in falling priority, and those of equal priority as they were registered. */
  lemma {:induction false} SortIsStable(s: seq<Hook>)
    ensures Descending(Sort(s)) && SameByPriority(Sort(s), s)
    decreases |s|
  {
    if s != [] {
      var front, last := s[..|s| - 1], s[|s| - 1];
      SortIsStable(front);
      InsertKeepsDescending(Sort(front), last);
      forall p
        ensures OfPriority(Sort(s), p) == OfPriority(s, p)
      {
        InsertIsStable(Sort(front), last, p);
      }
    }
  }

  /** There is no other such order. */
  lemma {:induction false} OrderIsUnique(s: seq<Hook>, t: seq<Hook>)
    requires Descending(s) && Descending(t) && SameByPriority(s, t)
    ensures s == t
    decreases |s|
  {
    if s == [] {
      if t != [] { LastIsLast(t, t[|t| - 1].priority); assert false; }
    } else {
      var h := s[|s| - 1];
      LastIsLast(s, h.priority);
      assert OfPriority(t, h.priority) != [];
      HasPriority(t, h.priority);
      var k := t[|t| - 1];
      LastIsLast(t, k.priority);
      HasPriority(s, k.priority);
      assert h.priority == k.priority;
      var front, rest := s[..|s| - 1], t[..|t| - 1];
      forall p
        ensures OfPriority(front, p) == OfPriority(rest, p)
      {
        assert OfPriority(s, p) == OfPriority(t, p);
        SameFront(OfPriority(front, p), OfPriority(rest, p), if h.priority == p then [h] else []);
      }
      OrderIsUnique(front, rest);
    }
  }

  lemma SameFront(x: seq<Hook>, y: seq<Hook>, end: seq<Hook>)
    requires x + end == y + end
    ensures x == y
  {
    assert x == (x + end)[..|x|] && |x| == |y|;
  }

  lemma LastIsLast(s: seq<Hook>, p: int)
    requires s != [] && s[|s| - 1].priority == p
    ensures OfPriority(s, p) != [] && OfPriority(s, p)[|OfPriority(s, p)| - 1] == s[|s| - 1]
  {
  }

  lemma {:induction false} HasPriority(s: seq<Hook>, p: int)
    ensures OfPriority(s, p) != [] ==> exists i :: 0 <= i < |s| && s[i].priority == p
    decreases |s|
  {
    if s != [] {
      HasPriority(s[..|s| - 1], p);
    }
  }

  lemma {:induction false} SortIsPermutation(s: seq<Hook>)
    ensures multiset(Sort(s)) == multiset(s)
    decreases |s|
  {
    if s != [] {
      var front, last := s[..|s| - 1], s[|s| - 1];
      SortIsPermutation(front);
      InsertAdds(Sort(front), last);
      assert s == front + [last];
    }
  }

  lemma {:induction false} InsertAdds(s: seq<Hook>, key: Hook)
    ensures multiset(Insert(s, key)) == multiset(s) + multiset{key}
    decreases |s|
  {
    if s != [] && s[|s| - 1].priority < key.priority {
      InsertAdds(s[..|s| - 1], key);
      assert s == s[..|s| - 1] + [s[|s| - 1]];
    }
  }

  lemma {:induction false} InsertLength(s: seq<Hook>, key: Hook)
    ensures |Insert(s, key)| == |s| + 1
    decreases |s|
  {
    if s != [] && s[|s| - 1].priority < key.priority {
      InsertLength(s[..|s| - 1], key);
    }
  }

  // ---- The code -------------------------------------------------------------------------------

  method SortHooks(sorted: array<Hook>)
    modifies sorted
    ensures sorted[..] == Sort(old(sorted[..]))
  {
    ghost var given := sorted[..];
    var i := 1;
    if sorted.Length > 0 {
      SortOne(given);
    }
    while i < sorted.Length
      invariant sorted.Length == 0 || 1 <= i <= sorted.Length
      invariant sorted.Length > 0 ==> sorted[..i] == Sort(given[..i]) && sorted[i..] == given[i..]
    {
      ghost var was := sorted[..];
      InsertInPlace(sorted, i);
      SortStep(given, was, sorted[..], i);
      i := i + 1;
    }
    if sorted.Length > 0 {
      assert given[..i] == given && sorted[..i] == sorted[..];
    }
  }

  lemma SortStep(given: seq<Hook>, was: seq<Hook>, now: seq<Hook>, i: nat)
    requires i < |given| == |was| && was[..i] == Sort(given[..i]) && was[i..] == given[i..]
    requires now == Insert(was[..i], was[i]) + was[i + 1..]
    ensures |now| == |given| && now[..i + 1] == Sort(given[..i + 1]) && now[i + 1..] == given[i + 1..]
  {
    assert given[..i + 1][..i] == given[..i] && given[i] == was[i..][0];
    InsertLength(was[..i], was[i]);
    assert was[i + 1..] == was[i..][1..] && given[i + 1..] == given[i..][1..];
  }

  lemma SortOne(s: seq<Hook>)
    requires s != []
    ensures s[..1] == Sort(s[..1])
  {
    assert s[..1][..0] == [] && s[..1] == [s[0]];
  }

  /** The inner loop: moves the hook at `i` to its place among the first `i`. */
  method InsertInPlace(sorted: array<Hook>, i: nat)
    requires 0 < i < sorted.Length
    modifies sorted
    ensures sorted[..] == Insert(old(sorted[..i]), old(sorted[i])) + old(sorted[i + 1..])
  {
    ghost var was := sorted[..];
    var key := sorted[i];
    var j := i - 1;
    while j >= 0 && sorted[j].priority < key.priority
      invariant -1 <= j < i
      invariant MovedUp(was, sorted[..], i, j)
      invariant forall k :: j < k < i ==> was[k].priority < key.priority
    {
      sorted[j + 1] := sorted[j];
      j := j - 1;
    }
    sorted[j + 1] := key;
    Filled(was, sorted[..], i, j + 1);
  }

  /** All but the place after `j` hold what they should; what stood between `j` and `i` is one further on. */
  ghost predicate MovedUp(was: seq<Hook>, now: seq<Hook>, i: nat, j: int)
    requires -1 <= j < i < |was|
  {
    && |now| == |was|
    && (forall k :: 0 <= k <= j ==> now[k] == was[k])
    && (forall k :: j + 2 <= k <= i ==> now[k] == was[k - 1])
    && (forall k :: i < k < |was| ==> now[k] == was[k])
  }

  lemma Filled(was: seq<Hook>, now: seq<Hook>, i: nat, at: nat)
    requires at <= i < |was| && MovedUp(was, now, i, at - 1) && now[at] == was[i]
    requires at == 0 || was[at - 1].priority >= was[i].priority
    requires forall k :: at <= k < i ==> was[k].priority < was[i].priority
    ensures now == Insert(was[..i], was[i]) + was[i + 1..]
  {
    var front := was[..i];
    InsertAt(front, was[i], at);
    assert now[..at] == front[..at];
    assert now[at + 1..i + 1] == front[at..];
    assert now[i + 1..] == was[i + 1..];
    Rejoin(now, at, i + 1);
  }

  lemma Rejoin(s: seq<Hook>, m: nat, n: nat)
    requires m < n <= |s|
    ensures s == s[..m] + [s[m]] + s[m + 1..n] + s[n..]
  {
  }

  lemma {:induction false} InsertAt(s: seq<Hook>, key: Hook, at: nat)
    requires at <= |s| && (at == 0 || s[at - 1].priority >= key.priority)
    requires forall k :: at <= k < |s| ==> s[k].priority < key.priority
    ensures Insert(s, key) == s[..at] + [key] + s[at..]
    decreases |s|
  {
    if at < |s| {
      var front := s[..|s| - 1];
      InsertAt(front, key, at);
      assert front[..at] == s[..at] && s[at..] == front[at..] + [s[|s| - 1]];
    }
  }
}

/** `GracefulShutdownManager`: registrations and any number of `Shutdown` calls interleave. The check
    of the closed flag with the sort is one step, and so is each turn of the hook loop. */
module GracefulShutdown {
  import opened Common
  import opened HookOrder

  type Caller = nat

  datatype Failure = Failure(name: string, err: string)

  /** A hook that was run, with what it returned. */
  datatype Ran = Ran(hook: Hook, err: Option<string>)

  /** A nil error is `Joined([])`. */
  datatype Reply = AlreadyExecuted | TimedOut | Joined(errs: seq<Failure>)

  datatype Phase =
    | Open
    | Executing(runner: Caller, left: seq<Hook>, errs: seq<Failure>)
    | Over(runner: Caller, left: seq<Hook>, errs: seq<Failure>)

  datatype State = State(hooks: seq<Hook>, isClosed: bool, phase: Phase, ran: seq<Ran>, replies: map<Caller, Reply>)

  datatype Event =
    | Register(hook: Hook)
    | Shutdown(c: Caller)
    | RunHook(err: Option<string>)
    | Expire
    | Finish

  function Init(): State {
    State([], false, Open, [], map[])
  }

  predicate Enabled(s: State, e: Event) {
    match e
    case Register(_) => true
    case Shutdown(c) => c !in s.replies && !(s.phase.Executing? && s.phase.runner == c)
    case RunHook(_) => s.phase.Executing? && s.phase.left != []
    case Expire => s.phase.Executing? && s.phase.left != []
    case Finish => s.phase.Executing? && s.phase.left == []
  }

  function FailureOf(r: Ran): seq<Failure> {
    if r.err.Some? then [Failure(r.hook.name, r.err.value)] else []
  }

  function Apply(s: State, e: Event): State
    requires Enabled(s, e)
  {
    match e
    case Register(h) => if s.isClosed then s else s.(hooks := s.hooks + [h])
    case Shutdown(c) =>
      if s.isClosed then s.(replies := s.replies[c := AlreadyExecuted])
      else s.(isClosed := true, phase := Executing(c, Sort(s.hooks), []))
    case RunHook(err) =>
      var p := s.phase;
      var r := Ran(p.left[0], err);
      s.(ran := s.ran + [r], phase := Executing(p.runner, p.left[1..], p.errs + FailureOf(r)))
    case Expire =>
      var p := s.phase;
      s.(phase := Over(p.runner, p.left, p.errs), replies := s.replies[p.runner := TimedOut])
    case Finish =>
      var p := s.phase;
      s.(phase := Over(p.runner, [], p.errs), replies := s.replies[p.runner := Joined(p.errs)])
  }

  ghost predicate IsRun(s: State, es: seq<Event>, s': State)
    decreases |es|
  {
    if es == [] then s' == s else Enabled(s, es[0]) && IsRun(Apply(s, es[0]), es[1..], s')
  }

  // ---- Invariant ------------------------------------------------------------------------------

  function HooksOf(rs: seq<Ran>): seq<Hook>
    decreases |rs|
  {
    if rs == [] then [] else HooksOf(rs[..|rs| - 1]) + [rs[|rs| - 1].hook]
  }

  function Failures(rs: seq<Ran>): seq<Failure>
    decreases |rs|
  {
    if rs == [] then [] else Failures(rs[..|rs| - 1]) + FailureOf(rs[|rs| - 1])
  }

  ghost predicate Progress(s: State) {
    if s.phase.Open? then !s.isClosed && s.ran == [] && s.replies == map[]
    else s.isClosed && HooksOf(s.ran) + s.phase.left == Sort(s.hooks) && s.phase.errs == Failures(s.ran)
  }

  ghost predicate Replied(s: State) {
    && (s.phase.Executing? ==> s.phase.runner !in s.replies)
    && (s.phase.Over? ==> s.phase.runner in s.replies)
    && (s.phase.Over? ==> s.replies[s.phase.runner] == if s.phase.left == [] then Joined(s.phase.errs) else TimedOut)
    && (forall c :: c in s.replies ==> s.replies[c].AlreadyExecuted? || (s.phase.Over? && c == s.phase.runner))
  }

  ghost predicate Inv(s: State) {
    Progress(s) && Replied(s)
  }

  lemma RunHookKeepsInv(s: State, err: Option<string>)
    requires Inv(s) && Enabled(s, RunHook(err))
    ensures Inv(Apply(s, RunHook(err)))
  {
    var p := s.phase;
    var rs := s.ran + [Ran(p.left[0], err)];
    assert rs[..|rs| - 1] == s.ran;
    assert HooksOf(s.ran) + p.left == HooksOf(s.ran) + [p.left[0]] + p.left[1..];
  }

  lemma StepKeepsInv(s: State, e: Event)
    requires Inv(s) && Enabled(s, e)
    ensures Inv(Apply(s, e))
    ensures s.isClosed ==> Apply(s, e).hooks == s.hooks
    ensures s.isClosed ==> Apply(s, e).isClosed
  {
    if e.RunHook? { RunHookKeepsInv(s, e.err); }
  }

  lemma {:induction false} RunKeepsInv(s: State, es: seq<Event>, s': State)
    requires Inv(s) && IsRun(s, es, s')
    ensures Inv(s')
    ensures s.isClosed ==> s'.isClosed && s'.hooks == s.hooks
    decreases |es|
  {
    if es != [] {
      StepKeepsInv(s, es[0]);
      RunKeepsInv(Apply(s, es[0]), es[1..], s');
    }
  }

  // ---- What every interleaving guarantees ------------------------------------------------------

  /** Over all `Shutdown` calls together, the hooks that have been run are at every moment the first
      ones of the sorted list, so each registered hook is run at most once. */
  lemma HooksRunInOrder(es: seq<Event>, s: State)
    requires IsRun(Init(), es, s)
    ensures HooksOf(s.ran) <= Sort(s.hooks)
    ensures multiset(HooksOf(s.ran)) <= multiset(s.hooks)
  {
    RunKeepsInv(Init(), es, s);
    SortIsPermutation(s.hooks);
    var left := Sort(s.hooks)[|HooksOf(s.ran)|..];
    assert Sort(s.hooks) == HooksOf(s.ran) + left;
  }

  /** The caller that gets to run the hooks is told of a timeout when some were left, and otherwise of
      all the failures, in order, none of which kept a later hook from running. */
  lemma RepliesAreTrue(es: seq<Event>, s: State, c: Caller)
    requires IsRun(Init(), es, s) && c in s.replies
    ensures s.replies[c].TimedOut? ==> HooksOf(s.ran) < Sort(s.hooks)
    ensures s.replies[c].Joined? ==> HooksOf(s.ran) == Sort(s.hooks) && s.replies[c].errs == Failures(s.ran)
    ensures forall d :: d in s.replies && d != c && !s.replies[c].AlreadyExecuted? ==> s.replies[d].AlreadyExecuted?
  {
    RunKeepsInv(Init(), es, s);
  }

  // ---- What is registered and what is reported --------------------------------------------------

  /** The hooks registered before the first `Shutdown`. */
  function Registered(es: seq<Event>): seq<Hook>
    decreases |es|
  {
    if es == [] || es[0].Shutdown? then []
    else (if es[0].Register? then [es[0].hook] else []) + Registered(es[1..])
  }

  /** What the hooks returned, one after another. */
  function Returns(es: seq<Event>): seq<Option<string>>
    decreases |es|
  {
    if es == [] then [] else (if es[0].RunHook? then [es[0].err] else []) + Returns(es[1..])
  }

  function Errors(rs: seq<Ran>): seq<Option<string>> {
    seq(|rs|, i requires 0 <= i < |rs| => rs[i].err)
  }

  lemma {:induction false} RunRecords(s: State, es: seq<Event>, s': State)
    requires IsRun(s, es, s')
    ensures s'.hooks == s.hooks + (if s.isClosed then [] else Registered(es))
    ensures Errors(s'.ran) == Errors(s.ran) + Returns(es)
    decreases |es|
  {
    if es != [] {
      var s1 := Apply(s, es[0]);
      StepRecords(s, es[0]);
      RunRecords(s1, es[1..], s');
      Regroup(s.hooks, if es[0].Register? && !s.isClosed then [es[0].hook] else [], Registered(es[1..]));
      Regroup(Errors(s.ran), if es[0].RunHook? then [es[0].err] else [], Returns(es[1..]));
    }
  }

  lemma StepRecords(s: State, e: Event)
    requires Enabled(s, e)
    ensures var s' := Apply(s, e);
      && s'.hooks == s.hooks + (if e.Register? && !s.isClosed then [e.hook] else [])
      && Errors(s'.ran) == Errors(s.ran) + (if e.RunHook? then [e.err] else [])
      && (s'.isClosed <==> s.isClosed || e.Shutdown?)
  {
  }

  lemma Regroup<T>(a: seq<T>, b: seq<T>, c: seq<T>)
    ensures a + (b + c) == a + b + c
  {
  }

  /** The hooks are those registered before the first `Shutdown`, in that order, and what is recorded for
      each one that was run is what it returned. */
  lemma RecordsAreTrue(es: seq<Event>, s: State)
    requires IsRun(Init(), es, s)
    ensures s.hooks == Registered(es) && Errors(s.ran) == Returns(es)
  {
    RunRecords(Init(), es, s);
  }

  /** `fs` are, in order, exactly the failures among `rs`, each with the name of its hook and its error;
      `at` are their places. */
  ghost predicate Lists(rs: seq<Ran>, fs: seq<Failure>, at: seq<nat>) {
    && |at| == |fs|
    && (forall a, b :: 0 <= a < b < |at| ==> at[a] < at[b])
    && (forall a :: 0 <= a < |at| ==> at[a] < |rs| && IsFailureOf(fs[a], rs[at[a]]))
    && (forall i :: 0 <= i < |rs| && rs[i].err.Some? ==> i in at)
  }

  ghost predicate IsFailureOf(f: Failure, r: Ran) {
    r.err == Some(f.err) && r.hook.name == f.name
  }

  lemma ListsOneMore(rs: seq<Ran>, r: Ran, fs: seq<Failure>, at: seq<nat>)
    requires Lists(rs, fs, at)
    ensures r.err.None? ==> Lists(rs + [r], fs, at)
    ensures r.err.Some? ==> Lists(rs + [r], fs + [Failure(r.hook.name, r.err.value)], at + [|rs|])
  {
  }

  lemma {:induction false} FailuresAre(rs: seq<Ran>) returns (at: seq<nat>)
    ensures Lists(rs, Failures(rs), at)
    decreases |rs|
  {
    if rs == [] {
      at := [];
    } else {
      var n := |rs| - 1;
      at := FailuresAre(rs[..n]);
      ListsOneMore(rs[..n], rs[n], Failures(rs[..n]), at);
      assert rs == rs[..n] + [rs[n]];
      if rs[n].err.Some? {
        at := at + [n];
      } else {
        assert Failures(rs) == Failures(rs[..n]);
      }
    }
  }

  /** So a caller that is told of no timeout is told of every hook's error, in order, and of nothing else;
      with `RecordsAreTrue`, of everything that the hooks returned. */
  lemma EveryErrorIsReported(es: seq<Event>, s: State, c: Caller) returns (at: seq<nat>)
    requires IsRun(Init(), es, s) && c in s.replies && s.replies[c].Joined?
    ensures Lists(s.ran, s.replies[c].errs, at) && Errors(s.ran) == Returns(es)
  {
    RepliesAreTrue(es, s, c);
    RecordsAreTrue(es, s);
    at := FailuresAre(s.ran);
  }

  /** What is registered after the first `Shutdown` changes nothing. */
  lemma LateHooksAreIgnored(es: seq<Event>, s: State, later: seq<Event>, s': State)
    requires IsRun(Init(), es, s) && s.isClosed && IsRun(s, later, s')
    ensures s'.hooks == s.hooks && HooksOf(s'.ran) <= Sort(s.hooks)
  {
    RunKeepsInv(Init(), es, s);
    RunKeepsInv(s, later, s');
  }

  // ---- The code -------------------------------------------------------------------------------

  /** What the context and the hook do at one turn of the loop. */
  datatype Turn = Expired | Returned(err: Option<string>)

  /** What happens to the loop from turn `i` on, until its context has expired or it has ended. */
  function Script(turns: seq<Turn>, i: nat): seq<Event>
    requires i <= |turns|
    decreases |turns| - i
  {
    if i == |turns| then [Finish]
    else
      match turns[i]
      case Expired => [Expire]
      case Returned(err) => [RunHook(err)] + Script(turns, i + 1)
  }

  class GracefulShutdownManager {
    var hooks: seq<Hook>
    var isClosed: bool
    ghost var phase: Phase
    ghost var ran: seq<Ran>
    ghost var replies: map<Caller, Reply>

    ghost function View(): State
      reads this
    {
      State(hooks, isClosed, phase, ran, replies)
    }

    constructor ()
      ensures View() == Init()
    {
      hooks, isClosed, phase, ran, replies := [], false, Open, [], map[];
    }

    method Register(h: Hook)
      modifies this
      ensures View() == Apply(old(View()), Event.Register(h))
    {
      if isClosed {
        return;
      }
      hooks := hooks + [h];
    }

    /** `Shutdown` up to the release of the mutex: the sorted hooks, or null when it was called before. */
    method BeginShutdown(ghost c: Caller) returns (sorted: array?<Hook>)
      requires Enabled(View(), Event.Shutdown(c))
      modifies this
      ensures View() == Apply(old(View()), Event.Shutdown(c))
      ensures sorted == null <==> old(isClosed)
      ensures sorted != null ==> fresh(sorted) && phase == Executing(c, sorted[..], [])
    {
      if isClosed {
        replies := replies[c := AlreadyExecuted];
        return null;
      }
      isClosed := true;
      sorted := new Hook[|hooks|](i requires 0 <= i < |hooks| reads this => hooks[i]);
      assert sorted[..] == hooks;
      SortHooks(sorted);
      phase := Executing(c, sorted[..], []);
    }

    /** The hook loop; `turns` is what happens at each turn. */
    method RunHooks(ghost c: Caller, sorted: array<Hook>, turns: seq<Turn>) returns (reply: Reply, ghost es: seq<Event>)
      requires phase == Executing(c, sorted[..], []) && |turns| == sorted.Length
      modifies this
      ensures IsRun(old(View()), es, View()) && es == Script(turns, 0)
      ensures phase.Over? && c in replies && replies[c] == reply
    {
      es := [];
      var errs: seq<Failure> := [];
      var i := 0;
      while i < sorted.Length
        invariant 0 <= i <= sorted.Length && phase == Executing(c, sorted[i..], errs)
        invariant IsRun(old(View()), es, View()) && Script(turns, 0) == es + Script(turns, i)
      {
        ghost var before := View();
        match turns[i] {
          case Expired =>
            TimeOut(c);
            RunExtends(old(View()), es, before, Expire);
            return TimedOut, es + [Expire];
          case Returned(err) =>
            errs := RunOne(c, sorted[i], err, errs);
            RunExtends(old(View()), es, before, RunHook(err));
            Regroup(es, [RunHook(err)], Script(turns, i + 1));
            es := es + [RunHook(err)];
            assert sorted[i..][1..] == sorted[i + 1..];
        }
        i := i + 1;
      }
      ghost var before := View();
      phase, replies := Over(c, [], errs), replies[c := Joined(errs)];
      RunExtends(old(View()), es, before, Finish);
      return Joined(errs), es + [Finish];
    }

    method TimeOut(ghost c: Caller)
      requires Enabled(View(), Expire) && phase.runner == c
      modifies this
      ensures View() == Apply(old(View()), Expire)
    {
      phase, replies := Over(c, phase.left, phase.errs), replies[c := TimedOut];
    }

    /** One turn: the failure, if any, joins the others. */
    method RunOne(ghost c: Caller, hook: Hook, err: Option<string>, errs: seq<Failure>) returns (all: seq<Failure>)
      requires Enabled(View(), RunHook(err)) && phase == Executing(c, phase.left, errs) && phase.left[0] == hook
      modifies this
      ensures View() == Apply(old(View()), RunHook(err))
      ensures phase == Executing(c, old(phase).left[1..], all)
    {
      all := errs;
      if err.Some? {
        all := all + [Failure(hook.name, err.value)];
      }
      assert all == errs + FailureOf(Ran(hook, err));
      ran, phase := ran + [Ran(hook, err)], Executing(c, phase.left[1..], all);
    }
  }

  lemma {:induction false} RunExtends(s: State, es: seq<Event>, s': State, e: Event)
    requires IsRun(s, es, s') && Enabled(s', e)
    ensures IsRun(s, es + [e], Apply(s', e))
    decreases |es|
  {
    if es == [] {
      assert (es + [e])[1..] == [];
      assert IsRun(Apply(s', e), [], Apply(s', e));
    } else {
      RunExtends(Apply(s, es[0]), es[1..], s', e);
      assert (es + [e])[1..] == es[1..] + [e];
    }
  }
}
