/** `BoundedQueue` of `patterns/09_concurrency/backpressure_queue.go` with its two condition variables.

    One step is what a goroutine does between taking the mutex and either returning or waiting.
    `Wait` puts it on a waiting set; `Signal` moves one waiting goroutine, any one, to the woken set,
    and a woken goroutine still has to take the mutex and look again, so others may come first. */
module BoundedQueue {
  import opened Common

  type Tid = nat

  datatype Strategy = Reject | DropOldest | Block

  datatype PushError = QueueClosed | QueueFull | Cancelled

  /** How an accepted item left the queue. */
  datatype Removal<T> = Popped(item: T, taker: Tid) | Dropped(item: T)

  datatype State<T> = State(
    items: seq<T>,
    capacity: nat,
    strategy: Strategy,
    closed: bool,                     // the source has no method that sets it
    droppedCount: nat,
    popWaiting: set<Tid>,             // in notEmpty.Wait()
    popWoken: set<Tid>,               // signalled, mutex not yet taken again
    pushWaiting: set<Tid>,            // in notFull.Wait()
    pushWoken: set<Tid>,
    carried: map<Tid, T>,             // what a blocked Push wants to add
    accepted: seq<T>,                 // history: items added, in order
    removed: seq<Removal<T>>)         // history: items taken from the front, in order

  /** `wake` is the goroutine a Signal picks, if any is waiting; `cancelled` is the answer of
      `ctx.Done()` where the code asks for it. */
  datatype Event<T> =
    | Push(t: Tid, item: T, cancelled: bool, wake: Option<Tid>)
    | PushAgain(t: Tid, cancelled: bool, wake: Option<Tid>)
    | Pop(t: Tid, wake: Option<Tid>)
    | PopAgain(t: Tid, wake: Option<Tid>)

  function Init<T>(capacity: nat, strategy: Strategy): State<T> {
    State([], capacity, strategy, false, 0, {}, {}, {}, {}, map[], [], [])
  }

  predicate IsBlocked<T>(s: State<T>, t: Tid) {
    t in s.popWaiting || t in s.popWoken || t in s.pushWaiting || t in s.pushWoken
  }

  predicate ValidWake(waiting: set<Tid>, wake: Option<Tid>) {
    match wake
    case Some(w) => w in waiting
    case None => waiting == {}
  }

  predicate Enabled<T>(s: State<T>, e: Event<T>) {
    match e
    case Push(t, item, cancelled, wake) => !IsBlocked(s, t) && ValidWake(s.popWaiting, wake)
    case PushAgain(t, cancelled, wake) => t in s.pushWoken && t in s.carried && ValidWake(s.popWaiting, wake)
    case Pop(t, wake) => !IsBlocked(s, t) && ValidWake(s.pushWaiting, wake)
    case PopAgain(t, wake) => t in s.popWoken && ValidWake(s.pushWaiting, wake)
  }

  function One(wake: Option<Tid>): set<Tid> {
    match wake
    case Some(w) => {w}
    case None => {}
  }

  function Drops<T>(items: seq<T>): seq<Removal<T>> {
    seq(|items|, i requires 0 <= i < |items| => Dropped(items[i]))
  }

  /** `items` and the counter after the loop has made room by dropping. */
  function MakeRoom<T>(s: State<T>): State<T> {
    if |s.items| < s.capacity || s.capacity == 0 then s
    else
      var n := |s.items| - s.capacity + 1;
      s.(items := s.items[n..], droppedCount := s.droppedCount + n, removed := s.removed + Drops(s.items[..n]))
  }

  /** Append and `notEmpty.Signal()`. */
  function Add<T>(s: State<T>, item: T, wake: Option<Tid>): State<T> {
    s.(items := s.items + [item], accepted := s.accepted + [item],
       popWaiting := s.popWaiting - One(wake), popWoken := s.popWoken + One(wake))
  }

  /** The loop of `Push` by `t`, who holds the mutex and is on no waiting set: Ok when there is room,
      an error, or None when `t` has to wait. */
  function RoomFor<T>(s: State<T>, t: Tid, item: T, cancelled: bool): (State<T>, Option<Result<(), PushError>>) {
    if |s.items| < s.capacity then (s, Some(Ok(())))
    else
      match s.strategy
      case Reject => (s, Some(Err(QueueFull)))
      case DropOldest => (MakeRoom(s), Some(Ok(())))
      case Block =>
        if cancelled then (s, Some(Err(Cancelled)))
        else (s.(pushWaiting := s.pushWaiting + {t}, carried := s.carried[t := item]), None)
  }

  /** The loop, and with room the append and the signal. */
  function PushLoop<T>(s: State<T>, t: Tid, item: T, cancelled: bool, wake: Option<Tid>)
    : (State<T>, Option<Result<(), PushError>>)
  {
    var (s', r) := RoomFor(s, t, item, cancelled);
    (if r == Some(Ok(())) then Add(s', item, wake) else s', r)
  }

  /** The loop of `Pop` by `t`: None while it waits, `Some(None)` if the queue is closed. */
  function PopLoop<T>(s: State<T>, t: Tid, wake: Option<Tid>): (State<T>, Option<Option<T>>) {
    if s.items != [] then
      (s.(items := s.items[1..], removed := s.removed + [Popped(s.items[0], t)],
          pushWaiting := s.pushWaiting - One(wake), pushWoken := s.pushWoken + One(wake)),
       Some(Some(s.items[0])))
    else if s.closed then (s, Some(None))
    else (s.(popWaiting := s.popWaiting + {t}), None)
  }

  function Apply<T>(s: State<T>, e: Event<T>): State<T>
    requires Enabled(s, e)
  {
    match e
    case Push(t, item, cancelled, wake) => if s.closed then s else PushLoop(s, t, item, cancelled, wake).0
    case PushAgain(t, cancelled, wake) =>
      PushLoop(s.(pushWoken := s.pushWoken - {t}), t, s.carried[t], cancelled, wake).0
    case Pop(t, wake) => PopLoop(s, t, wake).0
    case PopAgain(t, wake) => PopLoop(s.(popWoken := s.popWoken - {t}), t, wake).0
  }

  ghost predicate IsRun<T>(s: State<T>, es: seq<Event<T>>, s': State<T>)
    decreases |es|
  {
    if es == [] then s == s'
    else Enabled(s, es[0]) && IsRun(Apply(s, es[0]), es[1..], s')
  }

  // ---- The invariant ----

  function ItemsOf<T>(rs: seq<Removal<T>>): seq<T> {
    seq(|rs|, i requires 0 <= i < |rs| => rs[i].item)
  }

  function DropsIn<T>(rs: seq<Removal<T>>): nat {
    if rs == [] then 0 else DropsIn(rs[..|rs| - 1]) + (if rs[|rs| - 1].Dropped? then 1 else 0)
  }

  ghost predicate SetsOk<T>(s: State<T>) {
    && s.popWaiting !! s.popWoken && s.pushWaiting !! s.pushWoken
    && (s.popWaiting + s.popWoken) !! (s.pushWaiting + s.pushWoken)
    && s.pushWaiting + s.pushWoken <= s.carried.Keys
    && (s.strategy != Block ==> s.pushWaiting == {} && s.pushWoken == {})
  }

  /** Every item that a waiting popper could have has a woken popper coming for it, and every free
      place that a waiting pusher could have has a woken pusher coming for it. */
  ghost predicate NoLostWakeup<T>(s: State<T>) {
    && (s.popWaiting != {} ==> |s.items| <= |s.popWoken|)
    && (s.pushWaiting != {} ==> s.capacity - |s.items| <= |s.pushWoken|)
  }

  ghost predicate Conserved<T>(s: State<T>) {
    && |s.items| <= s.capacity
    && s.accepted == ItemsOf(s.removed) + s.items
    && s.droppedCount == DropsIn(s.removed)
    && (s.strategy != DropOldest ==> s.droppedCount == 0)
  }

  ghost predicate Inv<T>(s: State<T>) {
    s.capacity > 0 && SetsOk(s) && NoLostWakeup(s) && Conserved(s)
  }

  lemma {:induction false} DropsInAppend<T>(rs: seq<Removal<T>>, ts: seq<Removal<T>>)
    ensures DropsIn(rs + ts) == DropsIn(rs) + DropsIn(ts)
    decreases |ts|
  {
    if ts == [] {
      assert rs + ts == rs;
    } else {
      assert (rs + ts)[..|rs + ts| - 1] == rs + ts[..|ts| - 1];
      DropsInAppend(rs, ts[..|ts| - 1]);
    }
  }

  lemma {:induction false} DropsAreDrops<T>(items: seq<T>)
    ensures DropsIn(Drops(items)) == |items|
    decreases |items|
  {
    if items != [] {
      assert Drops(items)[..|items| - 1] == Drops(items[..|items| - 1]);
      DropsAreDrops(items[..|items| - 1]);
    }
  }

  lemma ItemsOfAppend<T>(rs: seq<Removal<T>>, ts: seq<Removal<T>>)
    ensures ItemsOf(rs + ts) == ItemsOf(rs) + ItemsOf(ts)
  {
  }

  lemma AddConserves<T>(s: State<T>, item: T, wake: Option<Tid>)
    requires Conserved(s) && |s.items| < s.capacity
    ensures Conserved(Add(s, item, wake))
  {
  }

  lemma MakeRoomConserves<T>(s: State<T>)
    requires Conserved(s) && s.capacity > 0 && s.strategy == DropOldest
    ensures Conserved(MakeRoom(s)) && |MakeRoom(s).items| < s.capacity
    ensures |s.items| == s.capacity ==> |MakeRoom(s).items| == s.capacity - 1
  {
    if |s.items| == s.capacity {
      ItemsOfAppend(s.removed, Drops(s.items[..1]));
      DropsInAppend(s.removed, Drops(s.items[..1]));
      DropsAreDrops(s.items[..1]);
      assert ItemsOf(Drops(s.items[..1])) == s.items[..1];
      assert s.items == s.items[..1] + s.items[1..];
    }
  }

  lemma PushConserves<T>(s: State<T>, t: Tid, item: T, cancelled: bool, wake: Option<Tid>)
    requires Conserved(s) && s.capacity > 0
    ensures Conserved(PushLoop(s, t, item, cancelled, wake).0)
  {
    if |s.items| < s.capacity {
      AddConserves(s, item, wake);
    } else if s.strategy == DropOldest {
      MakeRoomConserves(s);
      AddConserves(MakeRoom(s), item, wake);
    }
  }

  lemma PopConserves<T>(s: State<T>, t: Tid, wake: Option<Tid>)
    requires Conserved(s)
    ensures Conserved(PopLoop(s, t, wake).0)
  {
    if s.items != [] {
      ItemsOfAppend(s.removed, [Popped(s.items[0], t)]);
      DropsInAppend(s.removed, [Popped(s.items[0], t)]);
      assert DropsIn([Popped(s.items[0], t)]) == 0 by {
        assert [Popped(s.items[0], t)][..0] == [];
      }
      assert s.items == [s.items[0]] + s.items[1..];
    }
  }

  lemma WokenGrows(waiting: set<Tid>, woken: set<Tid>, wake: Option<Tid>)
    requires ValidWake(waiting, wake) && waiting !! woken
    ensures |woken + One(wake)| == |woken| + (if waiting != {} then 1 else 0)
  {
    if wake.Some? { assert woken + One(wake) == woken + {wake.value}; }
  }

  /** The wakeups due to poppers, and to pushers but for one who is about to take a place. */
  ghost predicate MayPush<T>(s: State<T>) {
    && (s.popWaiting != {} ==> |s.items| <= |s.popWoken|)
    && (s.pushWaiting != {} ==> s.capacity - |s.items| <= |s.pushWoken| + 1)
  }

  lemma AddKeepsWakeups<T>(s: State<T>, item: T, wake: Option<Tid>)
    requires SetsOk(s) && |s.items| < s.capacity && ValidWake(s.popWaiting, wake) && MayPush(s)
    ensures SetsOk(Add(s, item, wake)) && NoLostWakeup(Add(s, item, wake))
  {
    WokenGrows(s.popWaiting, s.popWoken, wake);
  }

  lemma WaiterKeepsSets<T>(s: State<T>, t: Tid, item: T)
    requires SetsOk(s) && !IsBlocked(s, t) && s.strategy == Block
    ensures SetsOk(s.(pushWaiting := s.pushWaiting + {t}, carried := s.carried[t := item]))
  {
  }

  lemma DroppingKeepsSets<T>(s: State<T>)
    requires SetsOk(s) && Conserved(s) && s.capacity > 0 && s.strategy == DropOldest && MayPush(s)
    ensures SetsOk(MakeRoom(s)) && MayPush(MakeRoom(s)) && |MakeRoom(s).items| < s.capacity
  {
  }

  lemma RoomKeepsWakeups<T>(s: State<T>, t: Tid, item: T, cancelled: bool)
    requires s.capacity > 0 && SetsOk(s) && Conserved(s) && !IsBlocked(s, t) && MayPush(s)
    ensures var (s', r) := RoomFor(s, t, item, cancelled);
      SetsOk(s') && (if r == Some(Ok(())) then MayPush(s') && |s'.items| < s'.capacity else NoLostWakeup(s'))
      && s'.popWaiting == s.popWaiting
  {
    if |s.items| == s.capacity {
      match s.strategy
      case Reject =>
      case DropOldest => DroppingKeepsSets(s);
      case Block => WaiterKeepsSets(s, t, item);
    }
  }

  /** A Push by a goroutine that holds the mutex; it may just have left the woken set. */
  lemma PushKeepsWakeups<T>(s: State<T>, t: Tid, item: T, cancelled: bool, wake: Option<Tid>)
    requires s.capacity > 0 && SetsOk(s) && Conserved(s) && !IsBlocked(s, t) && ValidWake(s.popWaiting, wake)
    requires MayPush(s)
    ensures SetsOk(PushLoop(s, t, item, cancelled, wake).0)
    ensures NoLostWakeup(PushLoop(s, t, item, cancelled, wake).0)
  {
    RoomKeepsWakeups(s, t, item, cancelled);
    var (s', r) := RoomFor(s, t, item, cancelled);
    if r == Some(Ok(())) { AddKeepsWakeups(s', item, wake); }
  }

  lemma PopKeepsWakeups<T>(s: State<T>, t: Tid, wake: Option<Tid>)
    requires SetsOk(s) && Conserved(s) && !IsBlocked(s, t) && ValidWake(s.pushWaiting, wake)
    requires s.popWaiting != {} ==> |s.items| <= |s.popWoken| + 1
    requires s.pushWaiting != {} ==> s.capacity - |s.items| <= |s.pushWoken|
    ensures SetsOk(PopLoop(s, t, wake).0)
    ensures NoLostWakeup(PopLoop(s, t, wake).0)
  {
    WokenGrows(s.pushWaiting, s.pushWoken, wake);
  }

  ghost predicate SameQueue<T>(s: State<T>, s': State<T>) {
    s'.capacity == s.capacity && s'.strategy == s.strategy
  }

  lemma PushKeepsInv<T>(s: State<T>, t: Tid, item: T, cancelled: bool, wake: Option<Tid>)
    requires Inv(s) && Enabled(s, Push(t, item, cancelled, wake))
    ensures Inv(Apply(s, Push(t, item, cancelled, wake))) && SameQueue(s, Apply(s, Push(t, item, cancelled, wake)))
  {
    PushConserves(s, t, item, cancelled, wake);
    PushKeepsWakeups(s, t, item, cancelled, wake);
  }

  /** A woken pusher that takes the mutex again. */
  lemma PusherLeaves<T>(s: State<T>, t: Tid)
    requires Inv(s) && t in s.pushWoken
    ensures var s1 := s.(pushWoken := s.pushWoken - {t});
      SetsOk(s1) && Conserved(s1) && !IsBlocked(s1, t) && |s1.pushWoken| == |s.pushWoken| - 1
  {
  }

  lemma PushAgainKeepsInv<T>(s: State<T>, t: Tid, cancelled: bool, wake: Option<Tid>)
    requires Inv(s) && Enabled(s, Event<T>.PushAgain(t, cancelled, wake))
    ensures Inv(Apply(s, Event<T>.PushAgain(t, cancelled, wake)))
    ensures SameQueue(s, Apply(s, Event<T>.PushAgain(t, cancelled, wake)))
  {
    var s1 := s.(pushWoken := s.pushWoken - {t});
    PusherLeaves(s, t);
    PushConserves(s1, t, s.carried[t], cancelled, wake);
    PushKeepsWakeups(s1, t, s.carried[t], cancelled, wake);
  }

  lemma PopKeepsInv<T>(s: State<T>, t: Tid, wake: Option<Tid>)
    requires Inv(s) && Enabled(s, Event<T>.Pop(t, wake))
    ensures Inv(Apply(s, Event<T>.Pop(t, wake))) && SameQueue(s, Apply(s, Event<T>.Pop(t, wake)))
  {
    PopConserves(s, t, wake);
    PopKeepsWakeups(s, t, wake);
  }

  lemma PopAgainKeepsInv<T>(s: State<T>, t: Tid, wake: Option<Tid>)
    requires Inv(s) && Enabled(s, Event<T>.PopAgain(t, wake))
    ensures Inv(Apply(s, Event<T>.PopAgain(t, wake))) && SameQueue(s, Apply(s, Event<T>.PopAgain(t, wake)))
  {
    var s1 := s.(popWoken := s.popWoken - {t});
    assert |s1.popWoken| == |s.popWoken| - 1;
    PopConserves(s1, t, wake);
    PopKeepsWakeups(s1, t, wake);
  }

  lemma StepKeepsInv<T>(s: State<T>, e: Event<T>)
    requires Inv(s) && Enabled(s, e)
    ensures Inv(Apply(s, e)) && SameQueue(s, Apply(s, e))
  {
    match e
    case Push(t, item, cancelled, wake) => PushKeepsInv(s, t, item, cancelled, wake);
    case PushAgain(t, cancelled, wake) => PushAgainKeepsInv(s, t, cancelled, wake);
    case Pop(t, wake) => PopKeepsInv(s, t, wake);
    case PopAgain(t, wake) => PopAgainKeepsInv(s, t, wake);
  }

  lemma {:induction false} RunKeepsInv<T>(s: State<T>, es: seq<Event<T>>, s': State<T>)
    requires Inv(s) && IsRun(s, es, s')
    ensures Inv(s') && SameQueue(s, s')
    decreases |es|
  {
    if es != [] {
      StepKeepsInv(s, es[0]);
      RunKeepsInv(Apply(s, es[0]), es[1..], s');
    }
  }

  // ---- What every interleaving guarantees ----

  /** No wakeup is lost: while poppers wait, at least as many woken ones are on their way as there
      are items; while pushers wait, at least as many as there are free places; and it never happens
      that everybody waits, poppers for pushers and pushers for poppers. */
  lemma NobodySleepsForever<T>(capacity: nat, strategy: Strategy, es: seq<Event<T>>, s: State<T>)
    requires capacity > 0 && IsRun(Init(capacity, strategy), es, s)
    ensures s.popWaiting != {} ==> |s.items| <= |s.popWoken|
    ensures s.pushWaiting != {} ==> capacity - |s.items| <= |s.pushWoken|
    ensures s.popWaiting != {} && s.items != [] ==> s.popWoken != {}
    ensures s.pushWaiting != {} && |s.items| < capacity ==> s.pushWoken != {}
    ensures s.popWaiting != {} && s.pushWaiting != {} ==> s.popWoken != {} || s.pushWoken != {}
  {
    RunKeepsInv(Init(capacity, strategy), es, s);
  }

  /** The queue is bounded, first in first out and loses nothing: what was accepted is what was taken
      from the front, popped or dropped, in that order, followed by what is queued; the counter tells
      how many were dropped, and only DropOldest drops. */
  lemma NothingIsLost<T>(capacity: nat, strategy: Strategy, es: seq<Event<T>>, s: State<T>)
    requires capacity > 0 && IsRun(Init(capacity, strategy), es, s)
    ensures |s.items| <= capacity
    ensures s.accepted == ItemsOf(s.removed) + s.items
    ensures s.droppedCount == DropsIn(s.removed)
    ensures strategy != DropOldest ==> DropsIn(s.removed) == 0
  {
    RunKeepsInv(Init(capacity, strategy), es, s);
  }

  // ---- What Pop and Push answer ----

  /** What a step returns to a popper, if it returns an item. */
  function Handed<T>(s: State<T>, e: Event<T>): Option<T>
    requires Enabled(s, e)
  {
    match e
    case Pop(t, wake) => ItemIn(PopLoop(s, t, wake).1)
    case PopAgain(t, wake) => ItemIn(PopLoop(s.(popWoken := s.popWoken - {t}), t, wake).1)
    case _ => None
  }

  function ItemIn<T>(r: Option<Option<T>>): Option<T> {
    if r.Some? then r.value else None
  }

  /** A Pop returns an item exactly when there is one, and it is the one that was accepted first among
      those not yet taken; the step takes that item for that popper, and nothing else. */
  lemma PopReturnsOldest<T>(s: State<T>, e: Event<T>)
    requires Conserved(s) && Enabled(s, e) && (e.Pop? || e.PopAgain?)
    ensures Handed(s, e).Some? <==> |s.removed| < |s.accepted|
    ensures Handed(s, e).Some? ==>
      Handed(s, e).value == s.accepted[|s.removed|]
      && Apply(s, e).removed == s.removed + [Popped(Handed(s, e).value, e.t)]
    ensures Handed(s, e).None? ==> Apply(s, e).removed == s.removed
    ensures Apply(s, e).accepted == s.accepted
  {
    assert |ItemsOf(s.removed)| == |s.removed|;
  }

  /** All that a run returns to poppers, in order. */
  ghost function AllHanded<T>(s: State<T>, es: seq<Event<T>>): seq<Removal<T>>
    decreases |es|
  {
    if es == [] || !Enabled(s, es[0]) then []
    else
      HandedBy(s, es[0]) + AllHanded(Apply(s, es[0]), es[1..])
  }

  function HandedBy<T>(s: State<T>, e: Event<T>): seq<Removal<T>>
    requires Enabled(s, e)
  {
    match Handed(s, e)
    case Some(x) => [Popped(x, e.t)]
    case None => []
  }

  /** The removals that were not drops. */
  function PoppedIn<T>(rs: seq<Removal<T>>): seq<Removal<T>>
    decreases |rs|
  {
    if rs == [] then [] else PoppedIn(rs[..|rs| - 1]) + (if rs[|rs| - 1].Popped? then [rs[|rs| - 1]] else [])
  }

  lemma PoppedInAppend<T>(rs: seq<Removal<T>>, r: Removal<T>)
    ensures PoppedIn(rs + [r]) == PoppedIn(rs) + (if r.Popped? then [r] else [])
  {
    assert (rs + [r])[..|rs|] == rs;
  }

  lemma {:induction false} DropsAreNotPopped<T>(rs: seq<Removal<T>>, items: seq<T>)
    ensures PoppedIn(rs + Drops(items)) == PoppedIn(rs)
    decreases |items|
  {
    if items == [] {
      assert rs + Drops(items) == rs;
    } else {
      var n := |items| - 1;
      assert rs + Drops(items) == rs + Drops(items[..n]) + [Dropped(items[n])];
      DropsAreNotPopped(rs, items[..n]);
      PoppedInAppend(rs + Drops(items[..n]), Dropped(items[n]));
    }
  }

  lemma MakeRoomHands<T>(s: State<T>)
    requires |s.items| == s.capacity > 0
    ensures PoppedIn(MakeRoom(s).removed) == PoppedIn(s.removed)
  {
    DropsAreNotPopped(s.removed, s.items[..1]);
  }

  lemma PushHands<T>(s: State<T>, t: Tid, item: T, cancelled: bool, wake: Option<Tid>)
    requires |s.items| <= s.capacity && s.capacity > 0
    ensures PoppedIn(PushLoop(s, t, item, cancelled, wake).0.removed) == PoppedIn(s.removed)
  {
    if |s.items| == s.capacity { MakeRoomHands(s); }
  }

  lemma PopHands<T>(s: State<T>, e: Event<T>)
    requires Conserved(s) && Enabled(s, e) && (e.Pop? || e.PopAgain?)
    ensures PoppedIn(Apply(s, e).removed) == PoppedIn(s.removed) + HandedBy(s, e)
  {
    PopReturnsOldest(s, e);
    if Handed(s, e).Some? { PoppedInAppend(s.removed, Popped(Handed(s, e).value, e.t)); }
  }

  lemma StepHands<T>(s: State<T>, e: Event<T>)
    requires Conserved(s) && s.capacity > 0 && Enabled(s, e)
    ensures PoppedIn(Apply(s, e).removed) == PoppedIn(s.removed) + HandedBy(s, e)
  {
    match e
    case Push(t, item, cancelled, wake) => PushHands(s, t, item, cancelled, wake);
    case PushAgain(t, cancelled, wake) =>
      PushHands(s.(pushWoken := s.pushWoken - {t}), t, s.carried[t], cancelled, wake);
    case Pop(t, wake) => PopHands(s, e);
    case PopAgain(t, wake) => PopHands(s, e);
  }

  lemma {:induction false} RunHands<T>(s: State<T>, es: seq<Event<T>>, s': State<T>)
    requires Inv(s) && IsRun(s, es, s')
    ensures PoppedIn(s'.removed) == PoppedIn(s.removed) + AllHanded(s, es)
    decreases |es|
  {
    if es != [] {
      var s1 := Apply(s, es[0]);
      StepHands(s, es[0]);
      StepKeepsInv(s, es[0]);
      RunHands(s1, es[1..], s');
      Regroup(PoppedIn(s.removed), HandedBy(s, es[0]), AllHanded(s1, es[1..]));
    }
  }

  lemma Regroup<T>(a: seq<T>, b: seq<T>, c: seq<T>)
    ensures a + b + c == a + (b + c)
  {
  }

  /** Over a run, what was returned to poppers is what left the queue other than by a drop, each item to
      the popper it was taken for; with `NothingIsLost`, the answers and the drops spell out what was
      accepted, in order. */
  lemma AnswersSpellOutTheQueue<T>(capacity: nat, strategy: Strategy, es: seq<Event<T>>, s: State<T>)
    requires capacity > 0 && IsRun(Init(capacity, strategy), es, s)
    ensures AllHanded(Init(capacity, strategy), es) == PoppedIn(s.removed)
    ensures s.accepted == ItemsOf(s.removed) + s.items
    ensures strategy != DropOldest ==> PoppedIn(s.removed) == s.removed
  {
    RunKeepsInv(Init(capacity, strategy), es, s);
    RunHands(Init(capacity, strategy), es, s);
    if strategy != DropOldest { NoDrops(s.removed); }
  }

  lemma {:induction false} NoDrops<T>(rs: seq<Removal<T>>)
    requires DropsIn(rs) == 0
    ensures PoppedIn(rs) == rs
    decreases |rs|
  {
    if rs != [] {
      NoDrops(rs[..|rs| - 1]);
      assert rs == rs[..|rs| - 1] + [rs[|rs| - 1]];
    }
  }

  /** A Push with room adds its item. On a full queue it is refused under Reject; under DropOldest it
      takes the place of the oldest item; under Block it reports a cancelled context or else waits. */
  lemma PushAnswers<T>(s: State<T>, t: Tid, item: T, cancelled: bool, wake: Option<Tid>)
    requires Conserved(s) && s.capacity > 0
    ensures var (s', r) := PushLoop(s, t, item, cancelled, wake);
      && (|s.items| < s.capacity ==> r == Some(Ok(())) && s'.items == s.items + [item])
      && (|s.items| == s.capacity && s.strategy == Reject ==> r == Some(Err(QueueFull)) && s' == s)
      && (|s.items| == s.capacity && s.strategy == DropOldest ==>
           r == Some(Ok(())) && s'.items == s.items[1..] + [item] && s'.droppedCount == s.droppedCount + 1
           && s'.removed == s.removed + [Dropped(s.items[0])])
      && (|s.items| == s.capacity && s.strategy == Block && cancelled ==> r == Some(Err(Cancelled)) && s' == s)
      && (|s.items| == s.capacity && s.strategy == Block && !cancelled ==>
           r == None && s'.items == s.items && s'.pushWaiting == s.pushWaiting + {t})
  {
    if |s.items| == s.capacity && s.strategy == DropOldest {
      assert Drops(s.items[..1]) == [Dropped(s.items[0])];
    }
  }

  // ---- What ends the waiting of a Push ----

  /** `e` takes an item and its signal picks `t`. */
  predicate Picks<T>(s: State<T>, e: Event<T>, t: Tid) {
    (e.Pop? || e.PopAgain?) && s.items != [] && e.wake == Some(t)
  }

  /** One step ends the waiting of a blocked Push exactly if it is a Pop that takes an item and picks
      it; until then the Push has no step of its own in which it could look at its context. */
  lemma ReleasedExactlyWhen<T>(s: State<T>, e: Event<T>, t: Tid)
    requires SetsOk(s) && t in s.pushWaiting && Enabled(s, e)
    ensures t !in Apply(s, e).pushWaiting <==> Picks(s, e, t)
    ensures Picks(s, e, t) ==> t in Apply(s, e).pushWoken
    ensures e.t != t
  {
  }

  ghost predicate NeverPicked<T>(s: State<T>, es: seq<Event<T>>, t: Tid)
    decreases |es|
  {
    es == [] || (Enabled(s, es[0]) && !Picks(s, es[0], t) && NeverPicked(Apply(s, es[0]), es[1..], t))
  }

  ghost predicate WaitsThroughout<T>(s: State<T>, es: seq<Event<T>>, t: Tid)
    decreases |es|
  {
    t in s.pushWaiting && (es == [] || (Enabled(s, es[0]) && WaitsThroughout(Apply(s, es[0]), es[1..], t)))
  }

  /** A blocked Push is released by a Pop that picks it and by nothing else: in any run, items taken
      for other pushers and cancellations included, it waits throughout exactly if no Pop picks it. */
  lemma {:induction false} OnlyPopReleases<T>(s: State<T>, es: seq<Event<T>>, s': State<T>, t: Tid)
    requires Inv(s) && t in s.pushWaiting && IsRun(s, es, s')
    ensures WaitsThroughout(s, es, t) <==> NeverPicked(s, es, t)
    ensures NeverPicked(s, es, t) ==> t in s'.pushWaiting
    decreases |es|
  {
    if es != [] {
      ReleasedExactlyWhen(s, es[0], t);
      StepKeepsInv(s, es[0]);
      if !Picks(s, es[0], t) {
        OnlyPopReleases(Apply(s, es[0]), es[1..], s', t);
      }
    }
  }

  /** It does happen that a Push waits: the second one on a queue for one item, and nothing that
      other pushers do or give up releases it. */
  lemma PushCanWait()
    ensures exists s :: IsRun(Init(1, Block), FillAndWait(), s) && s.pushWaiting == {2} && s.items == [10]
  {
    var s0: State<int> := Init(1, Block);
    var s1 := Apply(s0, Push(1, 10, false, None));
    var s2 := Apply(s1, Push(2, 20, false, None));
    var s3 := Apply(s2, Push(3, 30, true, None));
    assert s3.pushWaiting == {2} && s3.items == [10];
    var es := FillAndWait();
    assert IsRun(s3, es[1..][1..][1..], s3);
    assert IsRun(s2, es[1..][1..], s3);
    assert IsRun(s1, es[1..], s3);
    assert IsRun(s0, es, s3);
  }

  /** The first Push fills the queue, the second waits, the third finds its context cancelled. */
  ghost function FillAndWait(): seq<Event<int>> {
    [Push(1, 10, false, None), Push(2, 20, false, None), Push(3, 30, true, None)]
  }

  /** The context is looked at only when there is no room: a Push reports a cancellation exactly if
      it would block and the context is done, and with room it adds its item all the same. */
  lemma CancellationSeenExactlyWhen<T>(s: State<T>, t: Tid, item: T, cancelled: bool, wake: Option<Tid>)
    requires Conserved(s) && s.capacity > 0
    ensures PushLoop(s, t, item, cancelled, wake).1 == Some(Err(Cancelled))
      <==> |s.items| == s.capacity && s.strategy == Block && cancelled
    ensures |s.items| < s.capacity ==>
      PushLoop(s, t, item, cancelled, wake).1 == Some(Ok(()))
      && PushLoop(s, t, item, cancelled, wake).0.items == s.items + [item]
  {
  }

  lemma WokenPush<T>(s: State<T>, t: Tid, wake: Option<Tid>)
    requires s.strategy == Block && Enabled(s, Event<T>.PushAgain(t, true, wake))
    ensures var s' := Apply(s, Event<T>.PushAgain(t, true, wake));
      s'.accepted == (if |s.items| < s.capacity then s.accepted + [s.carried[t]] else s.accepted)
  {
  }

  /** So a Push that was woken still adds its item exactly when there is room, though its context has
      been cancelled meanwhile. */
  lemma WokenPushIgnoresCancellation<T>(capacity: nat, es: seq<Event<T>>, s: State<T>, t: Tid, wake: Option<Tid>)
    requires capacity > 0 && IsRun(Init(capacity, Block), es, s)
    requires Enabled(s, Event<T>.PushAgain(t, true, wake))
    ensures var s' := Apply(s, Event<T>.PushAgain(t, true, wake));
      s'.accepted == (if |s.items| < capacity then s.accepted + [s.carried[t]] else s.accepted)
  {
    RunKeepsInv(Init(capacity, Block), es, s);
    WokenPush(s, t, wake);
  }

  // ---- The code ----

  class BoundedQueue<T> {
    const capacity: nat
    const strategy: Strategy
    var items: seq<T>
    var closed: bool
    var droppedCount: nat
    ghost var popWaiting: set<Tid>
    ghost var popWoken: set<Tid>
    ghost var pushWaiting: set<Tid>
    ghost var pushWoken: set<Tid>
    ghost var carried: map<Tid, T>
    ghost var accepted: seq<T>
    ghost var removed: seq<Removal<T>>

    ghost function View(): State<T>
      reads this
    {
      State(items, capacity, strategy, closed, droppedCount, popWaiting, popWoken, pushWaiting, pushWoken,
            carried, accepted, removed)
    }

    constructor (capacity: int, strategy: Strategy)
      ensures this.capacity == if capacity <= 0 then 100 else capacity
      ensures View() == Init(this.capacity, strategy)
    {
      this.capacity := if capacity <= 0 then 100 else capacity;
      this.strategy := strategy;
      items, closed, droppedCount := [], false, 0;
      popWaiting, popWoken, pushWaiting, pushWoken := {}, {}, {}, {};
      carried, accepted, removed := map[], [], [];
    }

    /** A call of `Push` up to its return, or to `notFull.Wait()`. */
    method Push(ghost t: Tid, item: T, cancelled: bool, ghost wake: Option<Tid>)
      returns (r: Option<Result<(), PushError>>)
      requires capacity > 0 && Enabled(View(), Event.Push(t, item, cancelled, wake))
      modifies this
      ensures View() == Apply(old(View()), Event.Push(t, item, cancelled, wake))
      ensures !old(closed) ==> r == PushLoop(old(View()), t, item, cancelled, wake).1
      ensures old(closed) ==> r == Some(Err(QueueClosed))
    {
      if closed {
        return Some(Err(QueueClosed));
      }
      r := Loop(t, item, cancelled, wake);
    }

    /** A Push that was signalled and has the mutex again. */
    method PushAgain(ghost t: Tid, item: T, cancelled: bool, ghost wake: Option<Tid>)
      returns (r: Option<Result<(), PushError>>)
      requires capacity > 0 && Enabled(View(), Event<T>.PushAgain(t, cancelled, wake)) && carried[t] == item
      modifies this
      ensures View() == Apply(old(View()), Event<T>.PushAgain(t, cancelled, wake))
      ensures r == PushLoop(old(View()).(pushWoken := old(pushWoken) - {t}), t, item, cancelled, wake).1
    {
      pushWoken := pushWoken - {t};
      r := Loop(t, item, cancelled, wake);
    }

    /** The loop of `Push`, the append and the signal. */
    method Loop(ghost t: Tid, item: T, cancelled: bool, ghost wake: Option<Tid>)
      returns (r: Option<Result<(), PushError>>)
      requires capacity > 0
      modifies this
      ensures (View(), r) == PushLoop(old(View()), t, item, cancelled, wake)
    {
      var room := FindRoom(t, item, cancelled);
      if room.None? {
        return None;
      }
      if room.value.Err? {
        return room;
      }
      items := items + [item];
      accepted := accepted + [item];
      popWaiting, popWoken := popWaiting - One(wake), popWoken + One(wake);
      return Some(Ok(()));
    }

    /** The loop: Ok when there is room, an error, or None to wait. */
    method FindRoom(ghost t: Tid, item: T, cancelled: bool) returns (r: Option<Result<(), PushError>>)
      requires capacity > 0
      modifies this
      ensures (View(), r) == RoomFor(old(View()), t, item, cancelled)
    {
      ghost var was := View();
      ghost var n := 0;
      while |items| >= capacity
        invariant n <= |was.items| && View() == Dropping(was, n)
        invariant n > 0 ==> strategy == DropOldest && n <= |was.items| - capacity + 1
        decreases |items|
      {
        if strategy == DropOldest {
          DropsStep(was.items, n);
          removed := removed + [Dropped(items[0])];
          items := items[1..];
          droppedCount := droppedCount + 1;
          n := n + 1;
        } else if strategy == Reject {
          return Some(Err(QueueFull));
        } else if cancelled {
          return Some(Err(Cancelled));
        } else {
          pushWaiting := pushWaiting + {t};
          carried := carried[t := item];
          return None;
        }
      }
      return Some(Ok(()));
    }

    /** The first `n` items have been dropped. */
    ghost function Dropping(s: State<T>, n: nat): State<T>
      requires n <= |s.items|
    {
      s.(items := s.items[n..], droppedCount := s.droppedCount + n, removed := s.removed + Drops(s.items[..n]))
    }

    lemma DropsStep(xs: seq<T>, n: nat)
      requires n < |xs|
      ensures xs[n..][0] == xs[n] && xs[n..][1..] == xs[n + 1..]
      ensures Drops(xs[..n + 1]) == Drops(xs[..n]) + [Dropped(xs[n])]
    {
    }

    /** A call of `Pop` up to its return, or to `notEmpty.Wait()`. */
    method Pop(ghost t: Tid, ghost wake: Option<Tid>) returns (r: Option<Option<T>>)
      requires Enabled(View(), Event<T>.Pop(t, wake))
      modifies this
      ensures View() == Apply(old(View()), Event<T>.Pop(t, wake))
      ensures r == PopLoop(old(View()), t, wake).1
      ensures r.Some? && r.value.Some? ==> old(items) == [r.value.value] + items
    {
      r := TryPop(t, wake);
    }

    /** A Pop that was signalled and has the mutex again. */
    method PopAgain(ghost t: Tid, ghost wake: Option<Tid>) returns (r: Option<Option<T>>)
      requires Enabled(View(), Event<T>.PopAgain(t, wake))
      modifies this
      ensures View() == Apply(old(View()), Event<T>.PopAgain(t, wake))
      ensures r == PopLoop(old(View()).(popWoken := old(popWoken) - {t}), t, wake).1
      ensures r.Some? && r.value.Some? ==> old(items) == [r.value.value] + items
    {
      popWoken := popWoken - {t};
      r := TryPop(t, wake);
    }

    method TryPop(ghost t: Tid, ghost wake: Option<Tid>) returns (r: Option<Option<T>>)
      modifies this
      ensures (View(), r) == PopLoop(old(View()), t, wake)
      ensures r.Some? && r.value.Some? ==> old(items) == [r.value.value] + items
    {
      if |items| == 0 {
        if closed {
          return Some(None);
        }
        popWaiting := popWaiting + {t};
        return None;
      }
      var item := items[0];
      items := items[1..];
      removed := removed + [Popped(item, t)];
      pushWaiting, pushWoken := pushWaiting - One(wake), pushWoken + One(wake);
      return Some(Some(item));
    }
  }
}
