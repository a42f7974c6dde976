/** `ConnectionPoolLimiter` of `patterns/04_persistence/pool_limiter.go`.

    A use of the pool is one `Acquire` with the one `Close` that ends it; every channel operation,
    every operation on the `released` flag and every increment of the next id is a step, and any
    number of uses interleave. */
module ConnectionPool {

  type UseId = nat
  type ConnId = nat

  datatype Pc =
    | Asking                     // no idle connection seen, about to try for a token
    | Waiting                    // in the select over the context, the tokens and the idle connections
    | Opening                    // has a token, new connection not yet numbered
    | Reviving(c: ConnId)        // has taken `c` off the idle channel, flag not yet cleared
    | Holding(c: ConnId)
    | Releasing(c: ConnId)       // has set the flag, connection not yet handed back

  datatype State = State(max: nat, tokens: nat, idle: seq<ConnId>, released: map<ConnId, bool>,
                         nextId: nat, waits: nat, uses: map<UseId, Pc>,
                         past: map<UseId, ConnId>)   // history: what each finished use has closed

  datatype Event =
    | TryIdle(u: UseId)
    | TryToken(u: UseId)
    | Number(u: UseId)
    | WaitToken(u: UseId)
    | WaitIdle(u: UseId)
    | GiveUp(u: UseId)
    | Revive(u: UseId)
    | Close(u: UseId)
    | Release(u: UseId)

  function Init(max: nat): State {
    State(max, max, [], map[], 0, 0, map[], map[])
  }

  predicate Enabled(s: State, e: Event) {
    match e
    case TryIdle(u) => u !in s.uses
    case TryToken(u) => u in s.uses && s.uses[u].Asking?
    case Number(u) => u in s.uses && s.uses[u].Opening?
    case WaitToken(u) => u in s.uses && s.uses[u].Waiting? && s.tokens > 0
    case WaitIdle(u) => u in s.uses && s.uses[u].Waiting? && s.idle != []
    case GiveUp(u) => u in s.uses && s.uses[u].Waiting?
    case Revive(u) => u in s.uses && s.uses[u].Reviving? && s.uses[u].c in s.released
    case Close(u) => u in s.uses && s.uses[u].Holding? && s.uses[u].c in s.released
    case Release(u) => u in s.uses && s.uses[u].Releasing? && (HasRoom(s) || s.tokens < s.max)
  }

  predicate HasRoom(s: State) {
    |s.idle| < s.max
  }

  function TakeIdle(s: State, u: UseId): State
    requires s.idle != []
  {
    s.(idle := s.idle[1..], uses := s.uses[u := Reviving(s.idle[0])])
  }

  function TakeToken(s: State, u: UseId): State
    requires s.tokens > 0
  {
    s.(tokens := s.tokens - 1, uses := s.uses[u := Opening])
  }

  function Apply(s: State, e: Event): State
    requires Enabled(s, e)
  {
    match e
    case TryIdle(u) => if s.idle != [] then TakeIdle(s, u) else s.(uses := s.uses[u := Asking])
    case TryToken(u) =>
      if s.tokens > 0 then TakeToken(s, u) else s.(waits := s.waits + 1, uses := s.uses[u := Waiting])
    case Number(u) =>
      var c := s.nextId + 1;
      s.(nextId := c, released := s.released[c := false], uses := s.uses[u := Holding(c)])
    case WaitToken(u) => TakeToken(s, u)
    case WaitIdle(u) => TakeIdle(s, u)
    case GiveUp(u) => s.(uses := s.uses - {u})
    case Revive(u) =>
      var c := s.uses[u].c;
      s.(released := s.released[c := false], uses := s.uses[u := Holding(c)])
    case Close(u) =>
      var c := s.uses[u].c;
      if s.released[c] then s.(uses := s.uses - {u})
      else s.(released := s.released[c := true], uses := s.uses[u := Releasing(c)])
    case Release(u) =>
      var c := s.uses[u].c;
      var s := s.(uses := s.uses - {u}, past := s.past[u := c]);
      if HasRoom(s) then s.(idle := s.idle + [c]) else s.(tokens := s.tokens + 1)
  }

  ghost predicate IsRun(s: State, es: seq<Event>, s': State)
    decreases |es|
  {
    if es == [] then s' == s else Enabled(s, es[0]) && IsRun(Apply(s, es[0]), es[1..], s')
  }

  // ---- Invariant ------------------------------------------------------------------------------

  predicate HasConn(s: State, u: UseId) {
    u in s.uses && (s.uses[u].Reviving? || s.uses[u].Holding? || s.uses[u].Releasing?)
  }

  /** Some use has `c`. */
  ghost predicate IsOut(s: State, c: ConnId) {
    exists u :: HasConn(s, u) && s.uses[u].c == c
  }

  /** The connections that are out of the pool. */
  function Out(s: State): set<ConnId> {
    set u | u in s.uses && HasConn(s, u) :: s.uses[u].c
  }

  /** The uses that have a token in hand. */
  function Openings(s: State): set<UseId> {
    set u | u in s.uses && s.uses[u].Opening?
  }

  predicate IsOpening(s: State, u: UseId) {
    u in s.uses && s.uses[u].Opening?
  }

  function Created(n: nat): (r: set<ConnId>)
    ensures forall c :: c in r <==> 1 <= c <= n
  {
    if n == 0 then {} else Created(n - 1) + {n}
  }

  function Elems(q: seq<ConnId>): set<ConnId> {
    set c | c in q
  }

  ghost predicate NoTwins(q: seq<ConnId>) {
    forall i, j :: 0 <= i < j < |q| ==> q[i] != q[j]
  }

  /** No two uses have the same connection. */
  ghost predicate OneUseEach(s: State) {
    forall u, v :: HasConn(s, u) && HasConn(s, v) && u != v ==> s.uses[u].c != s.uses[v].c
  }

  /** Every connection opened so far is either idle or out. */
  ghost predicate Placed(s: State) {
    && NoTwins(s.idle)
    && (forall c :: c in s.idle ==> !IsOut(s, c))
    && (forall c: ConnId :: 1 <= c <= s.nextId <==> c in s.idle || IsOut(s, c))
  }

  ghost predicate FlagsAgree(s: State) {
    && s.released.Keys == Created(s.nextId)
    && (forall c :: c in s.released ==> (s.released[c] <==> !HeldBySome(s, c)))
  }

  ghost predicate HeldBySome(s: State, c: ConnId) {
    exists u :: u in s.uses && s.uses[u] == Holding(c)
  }

  /** Every token is spent on one connection. */
  ghost predicate Spent(s: State) {
    s.tokens + |Openings(s)| + s.nextId == s.max
  }

  ghost predicate PastAgrees(s: State) {
    forall u :: u in s.past ==> s.past[u] in s.released
  }

  ghost predicate Inv(s: State) {
    OneUseEach(s) && Placed(s) && FlagsAgree(s) && Spent(s) && PastAgrees(s)
  }

  lemma {:induction false} CreatedSize(n: nat)
    ensures |Created(n)| == n
  {
    if n > 0 {
      CreatedSize(n - 1);
    }
  }

  lemma {:induction false} SeqSetSize(q: seq<ConnId>)
    requires NoTwins(q)
    ensures |Elems(q)| == |q|
    decreases |q|
  {
    if q == [] {
      assert Elems(q) == {};
    } else {
      SeqSetSize(q[1..]);
      assert Elems(q) == Elems(q[1..]) + {q[0]};
    }
  }

  /** Tokens, idle connections and connections that are out or being opened add up to the capacity. */
  lemma Conserved(s: State)
    requires Inv(s)
    ensures s.tokens + |s.idle| + |Out(s)| + |Openings(s)| == s.max
  {
    SeqSetSize(s.idle);
    CreatedSize(s.nextId);
    forall c
      ensures c in Out(s) <==> IsOut(s, c)
    {
    }
    PartsAddUp(Elems(s.idle), Out(s), Created(s.nextId));
  }

  lemma PartsAddUp(a: set<ConnId>, b: set<ConnId>, whole: set<ConnId>)
    requires a !! b && (forall c :: c in whole <==> c in a || c in b)
    ensures |a| + |b| == |whole|
  {
    assert a + b == whole;
  }

  // ---- Steps ----------------------------------------------------------------------------------

  ghost predicate OthersSame(s: State, s': State, u: UseId) {
    forall v :: v != u ==> (v in s.uses <==> v in s'.uses) && (v in s.uses ==> s'.uses[v] == s.uses[v])
  }

  lemma OutStays(s: State, s': State, u: UseId)
    requires OthersSame(s, s', u) && (HasConn(s, u) <==> HasConn(s', u))
    requires HasConn(s, u) ==> s'.uses[u].c == s.uses[u].c
    ensures forall d :: IsOut(s, d) ==> IsOut(s', d)
  {
    forall d | IsOut(s, d)
      ensures IsOut(s', d)
    {
      var v :| HasConn(s, v) && s.uses[v].c == d;
      assert HasConn(s', v);
    }
  }

  lemma OutGrows(s: State, s': State, u: UseId, c: ConnId)
    requires OthersSame(s, s', u) && !HasConn(s, u) && HasConn(s', u) && s'.uses[u].c == c
    requires OneUseEach(s) && !IsOut(s, c)
    ensures OneUseEach(s') && (forall d :: IsOut(s', d) <==> IsOut(s, d) || d == c)
  {
    forall d
      ensures IsOut(s', d) <==> IsOut(s, d) || d == c
    {
      if IsOut(s, d) {
        var v :| HasConn(s, v) && s.uses[v].c == d;
        assert HasConn(s', v);
      }
      if IsOut(s', d) && d != c {
        var v :| HasConn(s', v) && s'.uses[v].c == d;
        assert HasConn(s, v);
      }
    }
    forall v, w | HasConn(s', v) && HasConn(s', w) && v != w
      ensures s'.uses[v].c != s'.uses[w].c
    {
      assert v != u ==> HasConn(s, v);
      assert w != u ==> HasConn(s, w);
    }
  }

  lemma OutShrinks(s: State, s': State, u: UseId)
    requires OthersSame(s, s', u) && HasConn(s, u) && !HasConn(s', u) && OneUseEach(s)
    ensures OneUseEach(s') && (forall d :: IsOut(s', d) <==> IsOut(s, d) && d != s.uses[u].c)
  {
    forall d
      ensures IsOut(s', d) <==> IsOut(s, d) && d != s.uses[u].c
    {
      if IsOut(s, d) && d != s.uses[u].c {
        var v :| HasConn(s, v) && s.uses[v].c == d;
        assert HasConn(s', v);
      }
      if IsOut(s', d) {
        var v :| HasConn(s', v) && s'.uses[v].c == d;
        assert HasConn(s, v) && v != u;
      }
    }
    forall v, w | HasConn(s', v) && HasConn(s', w) && v != w
      ensures s'.uses[v].c != s'.uses[w].c
    {
      assert HasConn(s, v) && HasConn(s, w);
    }
  }

  lemma OpeningsStay(s: State, s': State, u: UseId)
    requires OthersSame(s, s', u) && (IsOpening(s, u) <==> IsOpening(s', u))
    ensures Openings(s') == Openings(s)
  {
  }

  lemma OpeningsGrow(s: State, s': State, u: UseId)
    requires OthersSame(s, s', u) && !IsOpening(s, u) && IsOpening(s', u)
    ensures |Openings(s')| == |Openings(s)| + 1
  {
    assert Openings(s') == Openings(s) + {u};
  }

  /** A use that moves on without taking or giving back a connection. */
  lemma MoveOn(s: State, s': State, u: UseId)
    requires Inv(s) && OthersSame(s, s', u) && (HasConn(s, u) <==> HasConn(s', u))
    requires IsOpening(s, u) <==> IsOpening(s', u)
    requires HasConn(s, u) ==> s'.uses[u].c == s.uses[u].c
    requires s'.max == s.max && s'.tokens == s.tokens && s'.idle == s.idle && s'.nextId == s.nextId
    ensures OneUseEach(s') && Placed(s') && Spent(s')
  {
    OutStays(s, s', u);
    OutStays(s', s, u);
    OpeningsStay(s, s', u);
    forall v, w | HasConn(s', v) && HasConn(s', w) && v != w
      ensures s'.uses[v].c != s'.uses[w].c
    {
      assert HasConn(s, v) && HasConn(s, w);
    }
  }

  /** A use that does not hold its connection before or after does not change who holds what. */
  lemma HoldersStay(s: State, s': State, u: UseId)
    requires OthersSame(s, s', u)
    requires u in s.uses ==> !s.uses[u].Holding?
    ensures forall c :: HeldBySome(s, c) ==> HeldBySome(s', c)
  {
    forall c | HeldBySome(s, c)
      ensures HeldBySome(s', c)
    {
      var v :| v in s.uses && s.uses[v] == Holding(c);
      assert v in s'.uses && s'.uses[v] == Holding(c);
    }
  }

  /** A use that comes to hold `c` changes who holds what for `c` only. */
  lemma NewHolder(s: State, s': State, u: UseId, c: ConnId)
    requires OthersSame(s, s', u)
    requires u in s.uses ==> !s.uses[u].Holding?
    requires u in s'.uses && s'.uses[u] == Holding(c)
    ensures HeldBySome(s', c)
    ensures forall d :: d != c ==> (HeldBySome(s', d) <==> HeldBySome(s, d))
  {
    HoldersStay(s, s', u);
    forall d | d != c && HeldBySome(s', d)
      ensures HeldBySome(s, d)
    {
      var v :| v in s'.uses && s'.uses[v] == Holding(d);
      assert v in s.uses && s.uses[v] == Holding(d);
    }
  }

  lemma TakeIdleKeepsInv(s: State, u: UseId)
    requires Inv(s) && !HasConn(s, u) && !IsOpening(s, u) && s.idle != []
    ensures Inv(TakeIdle(s, u))
  {
    var s' := TakeIdle(s, u);
    OutGrows(s, s', u, s.idle[0]);
    OpeningsStay(s, s', u);
    HoldersStay(s, s', u);
    HoldersStay(s', s, u);
    assert forall c :: c in s.idle <==> c == s.idle[0] || c in s'.idle;
  }

  lemma TakeTokenKeepsInv(s: State, u: UseId)
    requires Inv(s) && !HasConn(s, u) && !IsOpening(s, u) && s.tokens > 0
    ensures Inv(TakeToken(s, u))
  {
    var s' := TakeToken(s, u);
    OutStays(s, s', u);
    OutStays(s', s, u);
    OpeningsGrow(s, s', u);
    HoldersStay(s, s', u);
    HoldersStay(s', s, u);
  }

  lemma NumberKeepsInv(s: State, u: UseId)
    requires Inv(s) && Enabled(s, Number(u))
    ensures Inv(Apply(s, Number(u)))
  {
    var s' := Apply(s, Number(u));
    OutGrows(s, s', u, s'.nextId);
    OpeningsGrow(s', s, u);
    NewHolder(s, s', u, s'.nextId);
  }

  lemma ReviveKeepsInv(s: State, u: UseId)
    requires Inv(s) && Enabled(s, Revive(u))
    ensures Inv(Apply(s, Revive(u)))
  {
    var s' := Apply(s, Revive(u));
    MoveOn(s, s', u);
    NewHolder(s, s', u, s.uses[u].c);
    assert s'.released.Keys == s.released.Keys;
  }

  lemma HolderIsAlone(s: State, s': State, u: UseId)
    requires OneUseEach(s) && OthersSame(s, s', u) && HasConn(s, u) && !(u in s'.uses && s'.uses[u].Holding?)
    ensures !HeldBySome(s', s.uses[u].c)
  {
    var c := s.uses[u].c;
    forall v | v in s'.uses
      ensures s'.uses[v] != Holding(c)
    {
      if s'.uses[v] == Holding(c) {
        assert v != u && HasConn(s, v);
      }
    }
  }

  lemma CloseKeepsInv(s: State, u: UseId)
    requires Inv(s) && Enabled(s, Close(u))
    ensures Inv(Apply(s, Close(u))) && !s.released[s.uses[u].c]
  {
    var s' := Apply(s, Close(u));
    var c := s.uses[u].c;
    assert HeldBySome(s, c);
    MoveOn(s, s', u);
    NewHolder(s', s, u, c);
    HolderIsAlone(s, s', u);
    assert s'.released.Keys == s.released.Keys;
  }

  /** A connection on its way back finds room on the idle channel. */
  lemma ReleaseHasRoom(s: State, u: UseId)
    requires Inv(s) && HasConn(s, u)
    ensures HasRoom(s)
  {
    Conserved(s);
    var rest := Out(s) - {s.uses[u].c};
    assert s.uses[u].c in Out(s) && Out(s) == rest + {s.uses[u].c};
  }

  lemma ReleaseKeepsInv(s: State, u: UseId)
    requires Inv(s) && Enabled(s, Release(u))
    ensures Inv(Apply(s, Release(u)))
  {
    ReleaseHasRoom(s, u);
    var s' := Apply(s, Release(u));
    var c := s.uses[u].c;
    assert IsOut(s, c);
    OutShrinks(s, s', u);
    OpeningsStay(s, s', u);
    HoldersStay(s, s', u);
    HoldersStay(s', s, u);
    assert forall d :: d in s'.idle <==> d in s.idle || d == c;
  }

  lemma StepKeepsInv(s: State, e: Event)
    requires Inv(s) && Enabled(s, e)
    ensures Inv(Apply(s, e)) && Apply(s, e).max == s.max
  {
    match e
    case TryIdle(u) => if s.idle != [] { TakeIdleKeepsInv(s, u); } else { MoveOnKeepsInv(s, Apply(s, e), u); }
    case TryToken(u) => if s.tokens > 0 { TakeTokenKeepsInv(s, u); } else { MoveOnKeepsInv(s, Apply(s, e), u); }
    case Number(u) => NumberKeepsInv(s, u);
    case WaitToken(u) => TakeTokenKeepsInv(s, u);
    case WaitIdle(u) => TakeIdleKeepsInv(s, u);
    case GiveUp(u) => MoveOnKeepsInv(s, Apply(s, e), u);
    case Revive(u) => ReviveKeepsInv(s, u);
    case Close(u) => CloseKeepsInv(s, u);
    case Release(u) => ReleaseKeepsInv(s, u);
  }

  lemma MoveOnKeepsInv(s: State, s': State, u: UseId)
    requires Inv(s) && OthersSame(s, s', u) && !HasConn(s, u) && !HasConn(s', u)
    requires !IsOpening(s, u) && !IsOpening(s', u)
    requires s' == s.(uses := s'.uses, waits := s'.waits)
    ensures Inv(s')
  {
    MoveOn(s, s', u);
    HoldersStay(s, s', u);
    HoldersStay(s', s, u);
  }

  lemma {:induction false} RunKeepsInv(s: State, es: seq<Event>, s': State)
    requires Inv(s) && IsRun(s, es, s')
    ensures Inv(s') && s'.max == s.max
    decreases |es|
  {
    if es != [] {
      StepKeepsInv(s, es[0]);
      RunKeepsInv(Apply(s, es[0]), es[1..], s');
    }
  }

  lemma Reachable(max: nat, es: seq<Event>, s: State)
    requires IsRun(Init(max), es, s)
    ensures Inv(s) && s.max == max
  {
    RunKeepsInv(Init(max), es, s);
  }

  // ---- What every interleaving guarantees ------------------------------------------------------

  /** Tokens, idle and outstanding connections, those being opened included, add up; so no more than
      `max` are ever out. */
  lemma CapacityIsConserved(max: nat, es: seq<Event>, s: State)
    requires IsRun(Init(max), es, s)
    ensures s.tokens + |s.idle| + |Out(s)| + |Openings(s)| == max
    ensures NoTwins(s.idle) && (forall c :: c in s.idle ==> c !in Out(s))
    ensures OneUseEach(s)
  {
    Reachable(max, es, s);
    Conserved(s);
  }

  /** `release` always finds room on the idle channel: it neither blocks nor takes its default
      branch, and the flag that `Close` tests has not been set by anybody else. */
  lemma ReleaseIsDirect(max: nat, es: seq<Event>, s: State, u: UseId)
    requires IsRun(Init(max), es, s) && u in s.uses
    ensures s.uses[u].Releasing? ==> Enabled(s, Release(u)) && HasRoom(s)
    ensures s.uses[u].Holding? ==> Enabled(s, Close(u)) && !s.released[s.uses[u].c]
  {
    Reachable(max, es, s);
    if HasConn(s, u) {
      ReleaseHasRoom(s, u);
      assert IsOut(s, s.uses[u].c);
    }
    if s.uses[u].Holding? { CloseKeepsInv(s, u); }
  }

  /** An `Acquire` is kept waiting only while every connection there may be is out or being opened. */
  lemma BlockedOnlyWhenExhausted(max: nat, es: seq<Event>, s: State, u: UseId)
    requires IsRun(Init(max), es, s) && u in s.uses && s.uses[u].Waiting?
    ensures !Enabled(s, WaitToken(u)) && !Enabled(s, WaitIdle(u)) <==> |Out(s)| + |Openings(s)| == max
  {
    Reachable(max, es, s);
    Conserved(s);
  }

  /** What `Stats` reports as active from two reads made one after the other. */
  function Active(max: nat, idle: nat, tokens: nat): nat {
    var active := max - (idle + tokens);
    if active < 0 then 0 else active
  }

  /** With anything happening between the two reads of `Stats`, the clamp to zero is never needed: it
      counts the connections out at the first read and those begun to be opened before the second. */
  lemma StatsCount(max: nat, es: seq<Event>, s: State, between: seq<Event>, s': State)
    requires IsRun(Init(max), es, s) && IsRun(s, between, s')
    ensures |s.idle| + s'.tokens <= max
    ensures s'.tokens <= s.tokens
    ensures Active(max, |s.idle|, s'.tokens) == |Out(s)| + |Openings(s)| + (s.tokens - s'.tokens)
  {
    Reachable(max, es, s);
    Conserved(s);
    TokensOnlyFall(s, between, s');
  }

  lemma {:induction false} TokensOnlyFall(s: State, es: seq<Event>, s': State)
    requires IsRun(s, es, s') && Inv(s)
    ensures s'.tokens <= s.tokens
    decreases |es|
  {
    if es != [] {
      StepKeepsInv(s, es[0]);
      if es[0].Release? { ReleaseHasRoom(s, es[0].u); }
      TokensOnlyFall(Apply(s, es[0]), es[1..], s');
    }
  }

  // ---- One use from beginning to end ----------------------------------------------------------

  /** What an `Acquire` that nobody gets in between leaves behind: the connection that has been idle
      longest, or else a new one with the next id, or else a wait that is counted. */
  ghost predicate Acquired(s: State, u: UseId, s': State) {
    if s.idle != [] then
      var c := s.idle[0];
      s' == s.(idle := s.idle[1..], released := s.released[c := false], uses := s.uses[u := Holding(c)])
    else if s.tokens > 0 then
      var c := s.nextId + 1;
      s' == s.(tokens := s.tokens - 1, nextId := c, released := s.released[c := false],
               uses := s.uses[u := Holding(c)])
    else
      s' == s.(waits := s.waits + 1, uses := s.uses[u := Waiting])
  }

  ghost function AcquireSteps(s: State, u: UseId): seq<Event> {
    if s.idle != [] then [TryIdle(u), Revive(u)]
    else if s.tokens > 0 then [TryIdle(u), TryToken(u), Number(u)]
    else [TryIdle(u), TryToken(u)]
  }

  lemma UndisturbedAcquire(max: nat, es: seq<Event>, s: State, u: UseId)
    requires IsRun(Init(max), es, s) && u !in s.uses
    ensures exists s' :: IsRun(s, AcquireSteps(s, u), s') && Acquired(s, u, s')
  {
    Reachable(max, es, s);
    if s.idle != [] {
      FirstIdleIsOpen(s);
      ReusesIdle(s, u);
    } else if s.tokens > 0 {
      OpensAnew(s, u);
    } else {
      StartsToWait(s, u);
    }
  }

  lemma FirstIdleIsOpen(s: State)
    requires Inv(s) && s.idle != []
    ensures s.idle[0] in s.released
  {
    assert s.idle[0] in s.idle;
    assert s.idle[0] in Created(s.nextId);
  }

  lemma ReusesIdle(s: State, u: UseId)
    requires u !in s.uses && s.idle != [] && s.idle[0] in s.released
    ensures exists s' :: IsRun(s, [TryIdle(u), Revive(u)], s') && Acquired(s, u, s')
  {
    TwoSteps(s, TryIdle(u), Revive(u));
    assert Acquired(s, u, Apply(Apply(s, TryIdle(u)), Revive(u)));
  }

  lemma OpensAnew(s: State, u: UseId)
    requires u !in s.uses && s.idle == [] && s.tokens > 0
    ensures exists s' :: IsRun(s, [TryIdle(u), TryToken(u), Number(u)], s') && Acquired(s, u, s')
  {
    ThreeSteps(s, TryIdle(u), TryToken(u), Number(u));
    assert Acquired(s, u, Apply(Apply(Apply(s, TryIdle(u)), TryToken(u)), Number(u)));
  }

  lemma StartsToWait(s: State, u: UseId)
    requires u !in s.uses && s.idle == [] && s.tokens == 0
    ensures exists s' :: IsRun(s, [TryIdle(u), TryToken(u)], s') && Acquired(s, u, s')
  {
    TwoSteps(s, TryIdle(u), TryToken(u));
    assert Acquired(s, u, Apply(Apply(s, TryIdle(u)), TryToken(u)));
  }

  /** A `Close` that nobody gets in between puts the connection at the end of the idle channel. */
  lemma UndisturbedClose(max: nat, es: seq<Event>, s: State, u: UseId)
    requires IsRun(Init(max), es, s) && u in s.uses && s.uses[u].Holding?
    ensures var c := s.uses[u].c;
      IsRun(s, [Close(u), Release(u)], s.(idle := s.idle + [c], released := s.released[c := true],
                                          uses := s.uses - {u}, past := s.past[u := c]))
  {
    ReleaseIsDirect(max, es, s, u);
    Reachable(max, es, s);
    StepKeepsInv(s, Close(u));
    var s1 := Apply(s, Close(u));
    ReleaseHasRoom(s1, u);
    TwoSteps(s, Close(u), Release(u));
    assert s1.uses - {u} == s.uses - {u};
  }

  lemma TwoSteps(s: State, e: Event, e': Event)
    requires Enabled(s, e) && Enabled(Apply(s, e), e')
    ensures IsRun(s, [e, e'], Apply(Apply(s, e), e'))
  {
    assert [e, e'][1..] == [e'] && [e'][1..] == [];
    assert IsRun(Apply(s, e), [e'], Apply(Apply(s, e), e'));
  }

  lemma ThreeSteps(s: State, e: Event, e': Event, e'': Event)
    requires Enabled(s, e) && Enabled(Apply(s, e), e') && Enabled(Apply(Apply(s, e), e'), e'')
    ensures IsRun(s, [e, e', e''], Apply(Apply(Apply(s, e), e'), e''))
  {
    assert [e, e', e''][1..] == [e', e''];
    TwoSteps(Apply(s, e), e', e'');
  }

  /** How many tries for a token came when there was none. */
  ghost function TriesInVain(s: State, es: seq<Event>, s': State): nat
    requires IsRun(s, es, s')
    decreases |es|
  {
    if es == [] then 0
    else (if es[0].TryToken? && s.tokens == 0 then 1 else 0) + TriesInVain(Apply(s, es[0]), es[1..], s')
  }

  lemma {:induction false} CountsTries(s: State, es: seq<Event>, s': State)
    requires IsRun(s, es, s')
    ensures s'.waits == s.waits + TriesInVain(s, es, s')
    decreases |es|
  {
    if es != [] {
      CountsTries(Apply(s, es[0]), es[1..], s');
    }
  }

  /** Connections are numbered from 1 on, no more than `max` are ever opened, each for a token that
      never comes back, and the waits that are counted are those that found no token. */
  lemma OpenedForGood(max: nat, es: seq<Event>, s: State)
    requires IsRun(Init(max), es, s)
    ensures s.nextId + |Openings(s)| + s.tokens == max
    ensures forall c :: c in s.idle || c in Out(s) <==> 1 <= c <= s.nextId
    ensures s.waits == TriesInVain(Init(max), es, s)
  {
    Reachable(max, es, s);
    CountsTries(Init(max), es, s);
    forall c
      ensures c in Out(s) <==> IsOut(s, c)
    {
    }
  }

  // ---- Closing twice --------------------------------------------------------------------------

  /** `Close` once more by the use `u`, which has closed its connection before. */
  function CloseAgain(s: State, u: UseId): State
    requires u in s.past && u !in s.uses && s.past[u] in s.released
  {
    var c := s.past[u];
    if s.released[c] then s
    else s.(released := s.released[c := true], uses := s.uses[u := Releasing(c)])
  }

  /** The second `Close` to its end: it comes to nothing, or `release` puts the connection back. */
  function ClosedAgain(s: State, u: UseId): State
    requires u in s.past && u !in s.uses && s.past[u] in s.released && HasRoom(s)
  {
    var s' := CloseAgain(s, u);
    if s.released[s.past[u]] then s' else Apply(s', Release(u))
  }

  /** Closing a connection once more is harmless exactly when its flag is still set, which is to say
      when nobody has acquired the connection since. Otherwise the connection becomes idle while
      somebody holds it, and the pool has one connection more than its capacity. */
  lemma ClosingTwiceIsSafeExactlyWhen(max: nat, es: seq<Event>, s: State, u: UseId)
    requires IsRun(Init(max), es, s) && u in s.past && u !in s.uses
    ensures s.past[u] in s.released
    ensures s.released[s.past[u]] <==> !HeldBySome(s, s.past[u])
    ensures s.released[s.past[u]] ==> CloseAgain(s, u) == s
    ensures !s.released[s.past[u]] ==> HasRoom(s) && Enabled(CloseAgain(s, u), Release(u))
    ensures !s.released[s.past[u]] ==>
      var s', c := ClosedAgain(s, u), s.past[u];
      c in s'.idle && c in Out(s') && s'.tokens + |s'.idle| + |Out(s')| + |Openings(s')| == max + 1
  {
    Reachable(max, es, s);
    var c := s.past[u];
    if !s.released[c] {
      var v :| v in s.uses && s.uses[v] == Holding(c);
      ReleaseHasRoom(s, v);
      var s' := ClosedAgain(s, u);
      assert s'.uses == s.uses;
      assert HasConn(s', v);
      assert Out(s') == Out(s) && Openings(s') == Openings(s);
      Conserved(s);
    }
  }

  ghost predicate ClosingAgainHarms(s: State, u: UseId) {
    u in s.past && u !in s.uses && s.past[u] in s.released && !s.released[s.past[u]]
  }

  /** One use acquires, closes and is done. */
  ghost function FirstUse(): seq<Event> {
    [TryIdle(1), TryToken(1), Number(1), Close(1), Release(1)]
  }

  /** Another acquires the same connection. */
  ghost function SecondUse(): seq<Event> {
    [TryIdle(2), Revive(2)]
  }

  lemma FirstUseEnds()
    ensures IsRun(Init(1), FirstUse(), State(1, 0, [1], map[1 := true], 1, 0, map[], map[1 := 1]))
  {
    var s0 := Init(1);
    var s1 := Apply(s0, TryIdle(1));
    var s2 := Apply(s1, TryToken(1));
    var s3 := Apply(s2, Number(1));
    assert s3 == State(1, 0, [], map[1 := false], 1, 0, map[1 := Holding(1)], map[]);
    var s4 := Apply(s3, Close(1));
    var s5 := Apply(s4, Release(1));
    assert s5 == State(1, 0, [1], map[1 := true], 1, 0, map[], map[1 := 1]);
    var es := FirstUse();
    assert IsRun(s5, es[1..][1..][1..][1..][1..], s5);
    assert IsRun(s4, es[1..][1..][1..][1..], s5);
    assert IsRun(s3, es[1..][1..][1..], s5);
    assert IsRun(s2, es[1..][1..], s5);
    assert IsRun(s1, es[1..], s5);
  }

  lemma SecondUseHolds(s: State)
    requires s == State(1, 0, [1], map[1 := true], 1, 0, map[], map[1 := 1])
    ensures IsRun(s, SecondUse(), State(1, 0, [], map[1 := false], 1, 0, map[2 := Holding(1)], map[1 := 1]))
  {
    var s1 := Apply(s, TryIdle(2));
    var s2 := Apply(s1, Revive(2));
    assert s2 == State(1, 0, [], map[1 := false], 1, 0, map[2 := Holding(1)], map[1 := 1]);
    var es := SecondUse();
    assert IsRun(s2, es[1..][1..], s2);
    assert IsRun(s1, es[1..], s2);
  }

  lemma {:induction false} OneAfterAnother(s: State, es: seq<Event>, s': State, es': seq<Event>, s'': State)
    requires IsRun(s, es, s') && IsRun(s', es', s'')
    ensures IsRun(s, es + es', s'')
    decreases |es|
  {
    if es == [] {
      assert es + es' == es';
    } else {
      OneAfterAnother(Apply(s, es[0]), es[1..], s', es', s'');
      assert (es + es')[1..] == es[1..] + es';
    }
  }

  /** So a second `Close` may indeed come while another use holds the connection. */
  lemma SecondCloseCanHarm()
    ensures exists s :: IsRun(Init(1), FirstUse() + SecondUse(), s) && ClosingAgainHarms(s, 1)
  {
    var s := State(1, 0, [1], map[1 := true], 1, 0, map[], map[1 := 1]);
    var s' := State(1, 0, [], map[1 := false], 1, 0, map[2 := Holding(1)], map[1 := 1]);
    FirstUseEnds();
    SecondUseHolds(s);
    OneAfterAnother(Init(1), FirstUse(), s, SecondUse(), s');
  }

  // ---- The code -------------------------------------------------------------------------------

  class Connection {
    const id: ConnId
    var released: bool

    constructor (id: ConnId)
      ensures this.id == id && !released
    {
      this.id, released := id, false;
    }
  }

  class ConnectionPoolLimiter {
    const maxCapacity: nat
    var tokens: nat                                // messages in the token channel
    var idleConns: seq<Connection>                 // messages in the idle channel
    var totalWaits: nat
    var nextID: nat
    ghost var conns: map<ConnId, Connection>       // every connection opened so far
    ghost var uses: map<UseId, Pc>
    ghost var past: map<UseId, ConnId>

    ghost predicate Valid()
      reads this, conns.Values
    {
      && (forall c :: c in conns ==> conns[c].id == c && c <= nextID)
      && (forall i :: 0 <= i < |idleConns| ==> idleConns[i].id in conns && conns[idleConns[i].id] == idleConns[i])
    }

    ghost function View(): State
      reads this, conns.Values
    {
      State(maxCapacity, tokens, seq(|idleConns|, i requires 0 <= i < |idleConns| reads this => idleConns[i].id),
            map c | c in conns :: conns[c].released, nextID, totalWaits, uses, past)
    }

    constructor (maxCapacity: int)
      ensures Valid() && this.maxCapacity == (if maxCapacity <= 0 then 10 else maxCapacity)
      ensures View() == Init(this.maxCapacity)
    {
      var max: nat := if maxCapacity <= 0 then 10 else maxCapacity;
      var filled := 0;
      while filled < max
        invariant filled <= max
      {
        filled := filled + 1;
      }
      this.maxCapacity, tokens, idleConns, totalWaits, nextID := max, filled, [], 0, 0;
      conns, uses, past := map[], map[], map[];
    }

    ghost predicate IsConn(conn: Connection)
      reads this
    {
      conn.id in conns && conns[conn.id] == conn
    }

    /** The first select of `Acquire`: an idle connection, or null. */
    method TryIdle(ghost u: UseId) returns (conn: Connection?)
      requires Valid() && Enabled(View(), Event.TryIdle(u))
      modifies this
      ensures Valid() && View() == Apply(old(View()), Event.TryIdle(u))
      ensures if conn == null then uses[u] == Asking else IsConn(conn) && uses[u] == Reviving(conn.id)
      ensures conn == null <==> old(idleConns) == []
      ensures conn != null ==> old(idleConns) == [conn] + idleConns
    {
      if idleConns == [] {
        uses := uses[u := Asking];
        return null;
      }
      conn := TakeFirst(u);
    }

    /** Receives from the idle channel. */
    method TakeFirst(ghost u: UseId) returns (conn: Connection)
      requires Valid() && idleConns != []
      modifies this
      ensures Valid() && View() == TakeIdle(old(View()), u)
      ensures IsConn(conn) && uses[u] == Reviving(conn.id)
      ensures old(idleConns) == [conn] + idleConns
    {
      conn := idleConns[0];
      idleConns := idleConns[1..];
      uses := uses[u := Reviving(conn.id)];
    }

    /** Receives a token. */
    method TakeOneToken(ghost u: UseId)
      requires Valid() && tokens > 0
      modifies this
      ensures Valid() && View() == TakeToken(old(View()), u)
    {
      tokens := tokens - 1;
      uses := uses[u := Opening];
    }

    /** The new connection, with the next id. */
    method OpenConnection(ghost u: UseId) returns (conn: Connection)
      requires Valid() && Enabled(View(), Event.Number(u))
      modifies this
      ensures Valid() && View() == Apply(old(View()), Event.Number(u))
      ensures IsConn(conn) && uses[u] == Holding(conn.id)
    {
      nextID := nextID + 1;
      conn := new Connection(nextID);
      conns := conns[nextID := conn];
      uses := uses[u := Holding(nextID)];
    }

    /** The second select of `Acquire`: a token, or the wait is counted. */
    method TryToken(ghost u: UseId) returns (got: bool)
      requires Valid() && Enabled(View(), Event.TryToken(u))
      modifies this
      ensures Valid() && View() == Apply(old(View()), Event.TryToken(u))
      ensures uses[u] == if got then Opening else Waiting
      ensures got <==> old(tokens) > 0
      ensures totalWaits == old(totalWaits) + if got then 0 else 1
    {
      got := tokens > 0;
      if got {
        TakeOneToken(u);
      } else {
        totalWaits := totalWaits + 1;
        uses := uses[u := Waiting];
      }
    }

    /** Marks a connection taken off the idle channel as in use again. */
    method Revive(ghost u: UseId, conn: Connection)
      requires Valid() && IsConn(conn) && Enabled(View(), Event.Revive(u)) && uses[u].c == conn.id
      modifies this, conn
      ensures Valid() && View() == Apply(old(View()), Event.Revive(u))
    {
      conn.released := false;
      uses := uses[u := Holding(conn.id)];
    }

    /** The compare-and-swap of `Close`. */
    method Close(ghost u: UseId, conn: Connection) returns (first: bool)
      requires Valid() && IsConn(conn) && Enabled(View(), Event.Close(u)) && uses[u].c == conn.id
      modifies this, conn
      ensures Valid() && View() == Apply(old(View()), Event.Close(u))
      ensures first <==> !old(conn.released)
    {
      first := !conn.released;
      if first {
        conn.released := true;
        uses := uses[u := Releasing(conn.id)];
      } else {
        uses := uses - {u};
      }
    }

    /** `release`. */
    method Release(ghost u: UseId, conn: Connection)
      requires Valid() && IsConn(conn) && Enabled(View(), Event.Release(u)) && uses[u].c == conn.id
      modifies this
      ensures Valid() && View() == Apply(old(View()), Event.Release(u))
    {
      if |idleConns| < maxCapacity {
        idleConns := idleConns + [conn];
      } else {
        tokens := tokens + 1;
      }
      uses, past := uses - {u}, past[u := conn.id];
    }
  }
}
