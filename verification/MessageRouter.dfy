/** `PartitionedMessageRouter` of `patterns/15_messaging/message_ordering.go` as a protocol.

    Senders put messages on buffered partition channels; one worker per partition takes them off and
    runs the handler; `Stop` closes the channels one by one and waits for the workers; cancelling the
    parent context may make an idle worker leave early. A sender waits while its channel is full, and
    panics if the channel is closed before its message is in. */
module MessageRouter {
  import opened Common

  /** A Go string is a sequence of bytes. */
  type Key = seq<bv8>

  datatype Message = Message(key: Key, sequence: int, payload: string)

  /** One call of `Route`. */
  type SendId = nat

  const QUEUE_CAPACITY: nat := 100

  datatype Worker = Idle | Handling(msg: Message) | Exited

  datatype Stopping = Running | Closing(next: nat) | Stopped

  datatype State = State(
    index: Key -> nat,               // the partition of a key
    queues: seq<seq<Message>>,
    closed: seq<bool>,
    workers: seq<Worker>,
    stop: Stopping,
    cancelled: bool,                 // the parent context was cancelled
    sending: map<SendId, Message>,   // calls of Route whose send is not complete
    panicked: set<SendId>,           // calls of Route that ended in a panic
    routed: seq<Message>,            // history: messages sent, in order
    handled: seq<Message>)           // history: messages whose handler has returned

  datatype Event =
    | Route(c: SendId, msg: Message) // the call
    | Send(c: SendId)                // the message is in the channel, and the call returns
    | SendPanics(c: SendId)
    | Take(p: nat)
    | Finish(p: nat)
    | LeaveDrained(p: nat)           // channel closed and empty
    | LeaveCancelled(p: nat)
    | Cancel
    | BeginStop
    | CloseNext
    | StopReturns

  // ---- Choosing the partition ----

  function MixIn(hash: bv32, b: bv8): bv32 {
    (hash ^ (b as bv32)) * 16777619
  }

  /** 32-bit FNV-1a. */
  function Fnv32a(key: Key): bv32 {
    if key == [] then 2166136261 else MixIn(Fnv32a(key[..|key| - 1]), key[|key| - 1])
  }

  /** `hashKey(key) % numPartitions` where int has 64 bits, so that the conversion is exact. */
  function Index(key: Key, n: nat): (i: nat)
    requires n > 0
    ensures i < n
  {
    (Fnv32a(key) as int) % n
  }

  lemma OneMoreByte(key: Key, b: bv8)
    ensures Fnv32a(key + [b]) == MixIn(Fnv32a(key), b)
  {
    assert (key + [b])[..|key|] == key;
  }

  /** What FNV-1a is: the offset basis, the step for one more byte (xor, then the prime), and the
      remainder that picks the partition. */
  lemma IndexIsFnv(key: Key, b: bv8, n: nat)
    requires n > 0
    ensures Fnv32a([]) == 0x811c_9dc5
    ensures Fnv32a(key + [b]) == (Fnv32a(key) ^ (b as bv32)) * 0x0100_0193
    ensures Index(key, n) == (Fnv32a(key) as int) % n
  {
    OneMoreByte(key, b);
  }

  /** The published test vectors for "a" and "foo". */
  lemma FnvTestVectors()
    ensures Fnv32a([0x61]) == 0xe40c_292c
    ensures Fnv32a([0x66, 0x6f, 0x6f]) == 0xa9f3_7ed7
  {
    assert [0x61] == [] + [0x61 as bv8];
    OneMoreByte([], 0x61);
    assert [0x66] == [] + [0x66 as bv8];
    OneMoreByte([], 0x66);
    assert Fnv32a([0x66]) == 0xe30c_2799;
    assert [0x66, 0x6f] == [0x66] + [0x6f as bv8];
    OneMoreByte([0x66], 0x6f);
    assert Fnv32a([0x66, 0x6f]) == 0x6222_e842;
    assert [0x66, 0x6f, 0x6f] == [0x66, 0x6f] + [0x6f as bv8];
    OneMoreByte([0x66, 0x6f], 0x6f);
  }

  /** The partition function of a router with `n` partitions. */
  function PartitionOf(n: nat): Key -> nat
    requires n > 0
  {
    (k: Key) => Index(k, n)
  }

  /** The laws below hold for any partition function. */
  function Init(n: nat, index: Key -> nat): State {
    State(index, seq(n, _ => []), seq(n, _ => false), seq(n, _ => Idle), Running, false, map[], {}, [], [])
  }

  function Partitions(s: State): nat { |s.queues| }

  ghost predicate Shape(s: State) {
    0 < Partitions(s) == |s.closed| == |s.workers| && forall k :: s.index(k) < Partitions(s)
  }

  ghost predicate Enabled(s: State, e: Event) {
    Shape(s) &&
    match e
    case Route(c, msg) => c !in s.sending
    case Send(c) =>
      c in s.sending && var p := s.index(s.sending[c].key); !s.closed[p] && |s.queues[p]| < QUEUE_CAPACITY
    case SendPanics(c) => c in s.sending && s.closed[s.index(s.sending[c].key)]
    case Take(p) => p < Partitions(s) && s.workers[p].Idle? && s.queues[p] != []
    case Finish(p) => p < Partitions(s) && s.workers[p].Handling?
    case LeaveDrained(p) => p < Partitions(s) && s.workers[p].Idle? && s.closed[p] && s.queues[p] == []
    case LeaveCancelled(p) => p < Partitions(s) && s.workers[p].Idle? && (s.cancelled || s.stop.Stopped?)
    case Cancel => true
    case BeginStop => s.stop.Running?
    case CloseNext => s.stop.Closing? && s.stop.next < Partitions(s)
    case StopReturns =>
      s.stop.Closing? && s.stop.next == Partitions(s) && forall p :: 0 <= p < Partitions(s) ==> s.workers[p].Exited?
  }

  ghost function Apply(s: State, e: Event): State
    requires Enabled(s, e)
  {
    match e
    case Route(c, msg) => s.(sending := s.sending[c := msg])
    case Send(c) =>
      var msg := s.sending[c];
      var p := s.index(msg.key);
      s.(queues := s.queues[p := s.queues[p] + [msg]], routed := s.routed + [msg], sending := s.sending - {c})
    case SendPanics(c) => s.(sending := s.sending - {c}, panicked := s.panicked + {c})
    case Take(p) =>
      s.(queues := s.queues[p := s.queues[p][1..]], workers := s.workers[p := Handling(s.queues[p][0])])
    case Finish(p) =>
      s.(workers := s.workers[p := Idle], handled := s.handled + [s.workers[p].msg])
    case LeaveDrained(p) => s.(workers := s.workers[p := Exited])
    case LeaveCancelled(p) => s.(workers := s.workers[p := Exited])
    case Cancel => s.(cancelled := true)
    case BeginStop => s.(stop := Closing(0))
    case CloseNext => s.(closed := s.closed[s.stop.next := true], stop := Closing(s.stop.next + 1))
    case StopReturns => s.(stop := Stopped)
  }

  ghost predicate IsRun(s: State, es: seq<Event>, s': State)
    decreases |es|
  {
    if es == [] then s == s'
    else Enabled(s, es[0]) && IsRun(Apply(s, es[0]), es[1..], s')
  }

  lemma {:induction false} RunExtends(s: State, es: seq<Event>, s': State, e: Event)
    requires IsRun(s, es, s') && Enabled(s', e)
    ensures IsRun(s, es + [e], Apply(s', e))
    decreases |es|
  {
    if es == [] {
      assert (es + [e])[1..] == [];
    } else {
      RunExtends(Apply(s, es[0]), es[1..], s', e);
      assert (es + [e])[1..] == es[1..] + [e];
    }
  }

  // ---- The messages of a partition and of a key ----

  function OfPartition(ms: seq<Message>, index: Key -> nat, p: nat): seq<Message> {
    if ms == [] then []
    else
      var last := ms[|ms| - 1];
      OfPartition(ms[..|ms| - 1], index, p) + (if index(last.key) == p then [last] else [])
  }

  function OfKey(ms: seq<Message>, k: Key): seq<Message> {
    if ms == [] then []
    else
      var last := ms[|ms| - 1];
      OfKey(ms[..|ms| - 1], k) + (if last.key == k then [last] else [])
  }

  lemma OfPartitionAppend(ms: seq<Message>, m: Message, index: Key -> nat, p: nat)
    ensures OfPartition(ms + [m], index, p) == OfPartition(ms, index, p) + (if index(m.key) == p then [m] else [])
  {
    assert (ms + [m])[..|ms|] == ms;
  }

  lemma OfKeyAppend(ms: seq<Message>, m: Message, k: Key)
    ensures OfKey(ms + [m], k) == OfKey(ms, k) + (if m.key == k then [m] else [])
  {
    assert (ms + [m])[..|ms|] == ms;
  }

  lemma {:induction false} OfKeyConcat(a: seq<Message>, b: seq<Message>, k: Key)
    ensures OfKey(a + b, k) == OfKey(a, k) + OfKey(b, k)
    decreases |b|
  {
    if b == [] {
      assert a + b == a;
    } else {
      var n := |b| - 1;
      assert a + b == (a + b[..n]) + [b[n]];
      OfKeyAppend(a + b[..n], b[n], k);
      OfKeyConcat(a, b[..n], k);
    }
  }

  /** All messages of a key are in one partition. */
  lemma {:induction false} KeyIsInItsPartition(ms: seq<Message>, index: Key -> nat, k: Key)
    ensures OfKey(OfPartition(ms, index, index(k)), k) == OfKey(ms, k)
    decreases |ms|
  {
    if ms != [] {
      var before, last := ms[..|ms| - 1], ms[|ms| - 1];
      KeyIsInItsPartition(before, index, k);
      assert ms == before + [last];
      OfPartitionAppend(before, last, index, index(k));
      OfKeyAppend(before, last, k);
      OfKeyAppend(OfPartition(before, index, index(k)), last, k);
      if index(last.key) != index(k) {
        assert last.key != k;
        assert OfPartition(ms, index, index(k)) == OfPartition(before, index, index(k));
        assert OfKey(ms, k) == OfKey(before, k);
      }
    }
  }

  // ---- The invariant ----

  function InHand(w: Worker): seq<Message> {
    if w.Handling? then [w.msg] else []
  }

  /** What was sent to a partition is what was handled there, then what is being handled, then what
      is queued. */
  ghost predicate PartitionOk(s: State, p: nat)
    requires Shape(s) && p < Partitions(s)
  {
    && OfPartition(s.routed, s.index, p) ==
       OfPartition(s.handled, s.index, p) + InHand(s.workers[p]) + s.queues[p]
    && (s.workers[p].Handling? ==> s.index(s.workers[p].msg.key) == p)
    && (forall i :: 0 <= i < |s.queues[p]| ==> s.index(s.queues[p][i].key) == p)
    && |s.queues[p]| <= QUEUE_CAPACITY
  }

  ghost predicate StopOk(s: State)
    requires Shape(s)
  {
    && (forall p :: 0 <= p < Partitions(s) ==>
         (s.closed[p] <==> s.stop.Stopped? || (s.stop.Closing? && p < s.stop.next)))
    && (s.stop.Closing? ==> s.stop.next <= Partitions(s))
    && (s.stop.Running? ==> s.panicked == {})
    && (s.stop.Stopped? ==> forall p :: 0 <= p < Partitions(s) ==> s.workers[p].Exited?)
    && (forall p :: 0 <= p < Partitions(s) && s.workers[p].Exited? ==>
         s.cancelled || (s.closed[p] && s.queues[p] == []))
  }

  ghost predicate Inv(s: State) {
    Shape(s) && StopOk(s) && forall p :: 0 <= p < Partitions(s) ==> PartitionOk(s, p)
  }

  ghost predicate SameRouter(s: State, s': State) {
    Partitions(s') == Partitions(s) && s'.index == s.index
  }

  lemma SendKeepsInv(s: State, c: SendId)
    requires Inv(s) && Enabled(s, Send(c))
    ensures Inv(Apply(s, Send(c)))
  {
    var s' := Apply(s, Send(c));
    forall p | 0 <= p < Partitions(s') ensures PartitionOk(s', p) {
      assert PartitionOk(s, p);
      OfPartitionAppend(s.routed, s.sending[c], s.index, p);
    }
  }

  lemma TakeKeepsInv(s: State, p: nat)
    requires Inv(s) && Enabled(s, Take(p))
    ensures Inv(Apply(s, Take(p)))
  {
    var s' := Apply(s, Take(p));
    forall q | 0 <= q < Partitions(s') ensures PartitionOk(s', q) {
      assert PartitionOk(s, q);
      if q == p {
        assert s.queues[p] == [s.queues[p][0]] + s.queues[p][1..];
      }
    }
  }

  lemma FinishKeepsInv(s: State, p: nat)
    requires Inv(s) && Enabled(s, Finish(p))
    ensures Inv(Apply(s, Finish(p)))
  {
    var s' := Apply(s, Finish(p));
    assert PartitionOk(s, p);
    forall q | 0 <= q < Partitions(s') ensures PartitionOk(s', q) {
      assert PartitionOk(s, q);
      OfPartitionAppend(s.handled, s.workers[p].msg, s.index, q);
    }
  }

  lemma ControlKeepsInv(s: State, e: Event)
    requires Inv(s) && Enabled(s, e) && !e.Send? && !e.Take? && !e.Finish?
    ensures Inv(Apply(s, e)) && SameRouter(s, Apply(s, e))
  {
    var s' := Apply(s, e);
    forall q | 0 <= q < Partitions(s') ensures PartitionOk(s', q) { assert PartitionOk(s, q); }
  }

  lemma StepKeepsInv(s: State, e: Event)
    requires Inv(s) && Enabled(s, e)
    ensures Inv(Apply(s, e)) && SameRouter(s, Apply(s, e))
  {
    match e
    case Send(c) => SendKeepsInv(s, c);
    case Take(p) => TakeKeepsInv(s, p);
    case Finish(p) => FinishKeepsInv(s, p);
    case _ => ControlKeepsInv(s, e);
  }

  lemma {:induction false} RunKeepsInv(s: State, es: seq<Event>, s': State)
    requires Inv(s) && IsRun(s, es, s')
    ensures Inv(s') && SameRouter(s, s')
    decreases |es|
  {
    if es != [] {
      StepKeepsInv(s, es[0]);
      RunKeepsInv(Apply(s, es[0]), es[1..], s');
    }
  }

  // ---- What every interleaving guarantees ----

  ghost predicate InRange(index: Key -> nat, n: nat) {
    n > 0 && forall k :: index(k) < n
  }

  /** The router's own partition function always stays in range. */
  lemma IndexInRange(n: nat)
    requires n > 0
    ensures InRange(PartitionOf(n), n)
  {
  }

  lemma RunInv(n: nat, index: Key -> nat, es: seq<Event>, s: State)
    requires InRange(index, n) && IsRun(Init(n, index), es, s)
    ensures Inv(s) && Partitions(s) == n && s.index == index
  {
    var s0 := Init(n, index);
    assert forall p :: 0 <= p < n ==> PartitionOk(s0, p);
    RunKeepsInv(s0, es, s);
  }

  /** Per-key order: for every key, what has been handled, what is being handled and what is queued
      are consecutive pieces of what was sent, so the handled ones are a prefix, in order; and no two
      workers handle the same key at once. */
  lemma KeysAreFifo(n: nat, index: Key -> nat, es: seq<Event>, s: State, k: Key)
    requires InRange(index, n) && IsRun(Init(n, index), es, s)
    ensures Shape(s) && Partitions(s) == n && s.index == index
    ensures OfKey(s.routed, k) ==
      OfKey(s.handled, k) + OfKey(InHand(s.workers[index(k)]), k) + OfKey(s.queues[index(k)], k)
    ensures OfKey(s.handled, k) <= OfKey(s.routed, k)
    ensures forall q :: 0 <= q < n && s.workers[q].Handling? && s.workers[q].msg.key == k ==> q == index(k)
  {
    RunInv(n, index, es, s);
    var p := index(k);
    assert PartitionOk(s, p);
    KeyIsInItsPartition(s.routed, index, k);
    KeyIsInItsPartition(s.handled, index, k);
    var h, w, q := OfPartition(s.handled, index, p), InHand(s.workers[p]), s.queues[p];
    OfKeyConcat(h + w, q, k);
    OfKeyConcat(h, w, k);
    forall q | 0 <= q < n && s.workers[q].Handling? && s.workers[q].msg.key == k ensures q == p {
      assert PartitionOk(s, q);
    }
  }

  /** After `Stop` has returned without a cancellation every message sent has been handled. */
  lemma StopHandlesEverything(n: nat, index: Key -> nat, es: seq<Event>, s: State, k: Key)
    requires InRange(index, n) && IsRun(Init(n, index), es, s) && s.stop.Stopped? && !s.cancelled
    ensures OfKey(s.handled, k) == OfKey(s.routed, k)
  {
    KeysAreFifo(n, index, es, s, k);
    RunInv(n, index, es, s);
    assert s.workers[index(k)].Exited?;
  }

  /** `Stop` cannot hang: once every channel is closed, each worker that has not left can take a step
      of its own, and every such step brings it nearer to leaving. */
  lemma WorkersLeave(n: nat, index: Key -> nat, es: seq<Event>, s: State, p: nat)
    requires InRange(index, n) && IsRun(Init(n, index), es, s) && s.stop == Closing(n) && p < n
    ensures Shape(s) && Partitions(s) == n
    ensures !s.workers[p].Exited? ==>
      Enabled(s, Take(p)) || Enabled(s, Finish(p)) || Enabled(s, LeaveDrained(p))
    ensures forall e :: IsWorkerStep(e, p) && Enabled(s, e) ==> WorkLeft(Apply(s, e), p) < WorkLeft(s, p)
  {
    RunInv(n, index, es, s);
  }

  /** The router's own partition function keeps what was proved for any. */
  lemma RouterKeepsOrder(n: nat, es: seq<Event>, s: State, k: Key)
    requires n > 0 && IsRun(Init(n, PartitionOf(n)), es, s)
    ensures OfKey(s.handled, k) <= OfKey(s.routed, k)
    ensures s.stop.Stopped? && !s.cancelled ==> OfKey(s.handled, k) == OfKey(s.routed, k)
  {
    IndexInRange(n);
    KeysAreFifo(n, PartitionOf(n), es, s, k);
    if s.stop.Stopped? && !s.cancelled {
      StopHandlesEverything(n, PartitionOf(n), es, s, k);
    }
  }

  predicate IsWorkerStep(e: Event, p: nat) {
    e == Take(p) || e == Finish(p) || e == LeaveDrained(p) || e == LeaveCancelled(p)
  }

  ghost function WorkLeft(s: State, p: nat): nat
    requires Shape(s) && p < Partitions(s)
  {
    2 * |s.queues[p]| + match s.workers[p] case Handling(_) => 2 case Idle => 1 case Exited => 0
  }

  // ---- Sending on a closed channel ----

  /** In this run no call of `Route` begins. */
  ghost predicate NoNewCalls(es: seq<Event>) {
    forall i :: 0 <= i < |es| ==> !es[i].Route?
  }

  ghost predicate NobodyPanics(s: State, es: seq<Event>, s': State) {
    IsRun(s, es, s') && NoNewCalls(es) ==> s'.panicked == s.panicked
  }

  lemma {:induction false} NoSendersNoPanic(s: State, es: seq<Event>, s': State)
    requires IsRun(s, es, s') && NoNewCalls(es) && s.sending == map[]
    ensures s'.panicked == s.panicked
    decreases |es|
  {
    if es != [] {
      assert !es[0].Route?;
      NoSendersNoPanic(Apply(s, es[0]), es[1..], s');
    }
  }

  /** Left alone, `Stop` closes the next `k` channels. */
  lemma {:induction false} CloseSome(s: State, k: nat) returns (es: seq<Event>, s': State)
    requires Inv(s) && s.stop.Closing? && s.stop.next + k <= Partitions(s)
    ensures IsRun(s, es, s') && NoNewCalls(es) && Inv(s') && SameRouter(s, s')
    ensures s'.stop == Closing(s.stop.next + k) && s'.sending == s.sending && s'.panicked == s.panicked
    decreases k
  {
    if k == 0 {
      es, s' := [], s;
    } else {
      var s1 := Apply(s, CloseNext);
      StepKeepsInv(s, CloseNext);
      var rest;
      rest, s' := CloseSome(s1, k - 1);
      es := [CloseNext] + rest;
      assert es[1..] == rest;
    }
  }

  /** A sender whose message is not in yet can meet a closed channel. */
  lemma SenderCanPanic(s: State, c: SendId) returns (es: seq<Event>, s': State)
    requires Inv(s) && s.stop == Closing(0) && c in s.sending && c !in s.panicked
    ensures IsRun(s, es, s') && NoNewCalls(es) && s'.panicked != s.panicked
  {
    var p := s.index(s.sending[c].key);
    var closing, s1 := CloseSome(s, p + 1);
    assert s1.closed[p];
    es, s' := closing + [SendPanics(c)], Apply(s1, SendPanics(c));
    RunExtends(s, closing, s1, SendPanics(c));
    assert c in s'.panicked;
  }

  /** Once `Stop` begins and nobody calls `Route` any more, no send can meet a closed channel exactly
      when every call of `Route` has returned by then; one that is blocked on a full channel has not. */
  lemma StopIsSafeExactlyWhen(n: nat, index: Key -> nat, es: seq<Event>, s: State)
    requires InRange(index, n) && IsRun(Init(n, index), es, s) && s.stop.Running?
    ensures s.panicked == {} && Enabled(s, BeginStop)
    ensures (forall later, s' :: NobodyPanics(Apply(s, BeginStop), later, s')) <==> s.sending == map[]
  {
    RunInv(n, index, es, s);
    StepKeepsInv(s, BeginStop);
    var s1 := Apply(s, BeginStop);
    if s.sending == map[] {
      forall later, s'
        ensures NobodyPanics(s1, later, s')
      {
        if IsRun(s1, later, s') && NoNewCalls(later) { NoSendersNoPanic(s1, later, s'); }
      }
    } else {
      var c :| c in s.sending;
      var later, s' := SenderCanPanic(s1, c);
      assert !NobodyPanics(s1, later, s');
    }
  }

  /** A call of `Route` may well be under way when `Stop` is called. */
  lemma SenderCanBeWaiting(n: nat, index: Key -> nat, c: SendId, msg: Message)
    requires InRange(index, n)
    ensures exists s :: IsRun(Init(n, index), [Route(c, msg)], s) && s.stop.Running? && s.sending == map[c := msg]
  {
    var s0 := Init(n, index);
    var s := Apply(s0, Route(c, msg));
    assert [Route(c, msg)][1..] == [];
    assert IsRun(s0, [Route(c, msg)], s);
  }

  // ---- The code ----

  class PartitionedMessageRouter {
    const numPartitions: nat
    var queues: seq<seq<Message>>
    var closed: seq<bool>
    ghost var workers: seq<Worker>
    ghost var stop: Stopping
    ghost var cancelled: bool
    ghost var sending: map<SendId, Message>
    ghost var panicked: set<SendId>
    ghost var routed: seq<Message>
    ghost var handled: seq<Message>

    ghost function View(): State
      reads this
      requires numPartitions > 0
    {
      State(PartitionOf(numPartitions), queues, closed, workers, stop, cancelled, sending, panicked, routed, handled)
    }

    constructor (n: int)
      ensures numPartitions == (if n <= 0 then 4 else n)
      ensures View() == Init(numPartitions, PartitionOf(numPartitions))
    {
      var count: nat := if n <= 0 then 4 else n;
      numPartitions := count;
      queues, closed := seq(count, _ => []), seq(count, _ => false);
      workers, stop, cancelled := seq(count, _ => Idle), Running, false;
      sending, panicked, routed, handled := map[], {}, [], [];
    }

    /** `Route` as far as the index; the send may have to wait. */
    method Route(ghost c: SendId, msg: Message) returns (idx: nat)
      requires numPartitions > 0 && Enabled(View(), Event.Route(c, msg))
      modifies this
      ensures View() == Apply(old(View()), Event.Route(c, msg))
      ensures idx == PartitionOf(numPartitions)(msg.key) < numPartitions
      ensures idx == (Fnv32a(msg.key) as int) % numPartitions
    {
      idx := Index(msg.key, numPartitions);
      sending := sending[c := msg];
    }

    /** The send, at the moment it completes. */
    method Send(ghost c: SendId, idx: nat, msg: Message)
      requires 0 < numPartitions == |queues| && Enabled(View(), Event.Send(c))
      requires sending[c] == msg && idx == PartitionOf(numPartitions)(msg.key)
      modifies this
      ensures View() == Apply(old(View()), Event.Send(c))
    {
      queues := queues[idx := queues[idx] + [msg]];
      sending, routed := sending - {c}, routed + [msg];
    }

    /** A worker's receive. */
    method Take(p: nat) returns (msg: Message)
      requires numPartitions > 0 && Enabled(View(), Event.Take(p))
      modifies this
      ensures View() == Apply(old(View()), Event.Take(p)) && workers[p] == Handling(msg)
      ensures old(queues[p]) == [msg] + queues[p]
    {
      msg := queues[p][0];
      queues := queues[p := queues[p][1..]];
      workers := workers[p := Handling(msg)];
    }

    /** One turn of the loop of `Stop`: `close(q)`. */
    method CloseNext(i: nat)
      requires numPartitions > 0 && Enabled(View(), Event.CloseNext) && stop == Closing(i)
      modifies this`closed, this`stop
      ensures View() == Apply(old(View()), Event.CloseNext)
      ensures closed == old(closed)[i := true] && stop == Closing(i + 1)
    {
      closed := closed[i := true];
      stop := Closing(i + 1);
    }

    /** The loop of `Stop`. */
    method CloseAll()
      requires numPartitions > 0 && Shape(View()) && stop.Running?
      modifies this
      ensures queues == old(queues) && workers == old(workers) && stop == Closing(|queues|)
      ensures closed == seq(|queues|, _ => true)
      ensures exists es :: IsRun(old(View()), es, View())
    {
      ghost var start := View();
      stop := Closing(0);
      ghost var es := [BeginStop];
      assert IsRun(Apply(start, BeginStop), [], View());
      var i := 0;
      while i < |queues|
        invariant i <= |queues| && stop == Closing(i)
        invariant unchanged(`queues) && unchanged(`workers) && |closed| == |queues|
        invariant forall p :: 0 <= p < i ==> closed[p]
        invariant IsRun(start, es, View())
      {
        RunExtends(start, es, View(), Event.CloseNext);
        CloseNext(i);
        es := es + [Event.CloseNext];
        i := i + 1;
      }
    }
  }
}
