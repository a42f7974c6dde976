/** `BatchLoader` of `patterns/13_database/batch_loader.go` as a protocol.

    `Load` appends to the pending batch and flushes it when it is full; otherwise a timer will.
    Stopping a timer does not recall a closure that has already been started, so a stale closure may
    run much later and flush a batch that is not its own.  Every flush calls the batch function,
    which answers as it likes, and then sends to each request's buffered channel, one at a time. */
module BatchLoader {
  import opened Common

  type ReqId = nat

  datatype Request<K> = Request(id: ReqId, key: K)

  datatype BatchError = BatchFailed(reason: string) | KeyNotFound

  type Answer<V> = Result<V, BatchError>

  /** What `batchFn` returned. */
  type Outcome<K, V> = Result<map<K, V>, string>

  datatype Timer = Armed | Stopped | Fired | Ran   // Fired: closure started, mutex not yet taken

  datatype Flight<K, V> =
    | Calling(reqs: seq<Request<K>>)
    | Answering(reqs: seq<Request<K>>, outcome: Outcome<K, V>, next: nat)

  datatype State<K(==), V> = State(
    maxBatchSize: nat,
    pending: seq<Request<K>>,
    timer: Option<nat>,                            // b.timer, an index into `timers`
    timers: seq<Timer>,                            // every timer ever started
    flights: seq<Flight<K, V>>,                    // every flush ever started
    mailbox: map<ReqId, seq<Answer<V>>>,           // sent to each request: Ok on result, Err on err
    issued: seq<Request<K>>)                       // history: all requests, in order of arrival

  datatype Event<K, V> =
    | Load(id: ReqId, key: K)
    | TimerFires(timer: nat)
    | TimerRuns(timer: nat)
    | BatchReturns(flight: nat, outcome: Outcome<K, V>)
    | Send(flight: nat)

  function Init<K, V>(maxBatchSize: nat): State<K, V> {
    State(maxBatchSize, [], None, [], [], map[], [])
  }

  function Mail<K, V>(s: State<K, V>, id: ReqId): seq<Answer<V>> {
    SentTo(s.mailbox, id)
  }

  function SentTo<V>(mailbox: map<ReqId, seq<Answer<V>>>, id: ReqId): seq<Answer<V>> {
    if id in mailbox then mailbox[id] else []
  }

  function AnswerFor<K, V>(outcome: Outcome<K, V>, key: K): Answer<V> {
    match outcome
    case Err(reason) => Err(BatchFailed(reason))
    case Ok(m) => if key in m then Ok(m[key]) else Err(KeyNotFound)
  }

  predicate Enabled<K, V>(s: State<K, V>, e: Event<K, V>) {
    match e
    case Load(id, key) => forall r :: r in s.issued ==> r.id != id
    case TimerFires(i) => i < |s.timers| && s.timers[i].Armed?
    case TimerRuns(i) => i < |s.timers| && s.timers[i].Fired?
    case BatchReturns(f, _) => f < |s.flights| && s.flights[f].Calling?
    case Send(f) => f < |s.flights| && s.flights[f].Answering? && s.flights[f].next < |s.flights[f].reqs|
  }

  function Apply<K, V>(s: State<K, V>, e: Event<K, V>): State<K, V>
    requires Enabled(s, e)
  {
    match e
    case Load(id, key) =>
      var batch := s.pending + [Request(id, key)];
      var s := s.(issued := s.issued + [Request(id, key)]);
      if |batch| >= s.maxBatchSize then
        s.(pending := [], flights := s.flights + [Calling(batch)], timer := None,
           timers := match s.timer
                     case Some(i) => if i < |s.timers| && s.timers[i].Armed? then s.timers[i := Stopped] else s.timers
                     case None => s.timers)
      else if s.timer == None then
        s.(pending := batch, timer := Some(|s.timers|), timers := s.timers + [Armed])
      else s.(pending := batch)
    case TimerFires(i) => s.(timers := s.timers[i := Fired])
    case TimerRuns(i) =>
      s.(timers := s.timers[i := Ran], timer := None, pending := [],
         flights := if |s.pending| > 0 then s.flights + [Calling(s.pending)] else s.flights)
    case BatchReturns(f, outcome) =>
      s.(flights := s.flights[f := Answering(s.flights[f].reqs, outcome, 0)])
    case Send(f) =>
      var flight := s.flights[f];
      var req := flight.reqs[flight.next];
      s.(flights := s.flights[f := flight.(next := flight.next + 1)],
         mailbox := s.mailbox[req.id := Mail(s, req.id) + [AnswerFor(flight.outcome, req.key)]])
  }

  ghost predicate IsRun<K, V>(s: State<K, V>, es: seq<Event<K, V>>, s': State<K, V>)
    decreases |es|
  {
    if es == [] then s == s'
    else Enabled(s, es[0]) && IsRun(Apply(s, es[0]), es[1..], s')
  }

  lemma {:induction false} RunExtends<K, V>(s: State<K, V>, es: seq<Event<K, V>>, s': State<K, V>, e: Event<K, V>)
    requires IsRun(s, es, s') && Enabled(s', e)
    ensures IsRun(s, es + [e], Apply(s', e))
    decreases |es|
  {
    if es == [] {
      assert (es + [e])[1..] == [];
    } else {
      RunExtends(Apply(s, es[0]), es[1..], s', e);
      assert (es + [e])[1..] == es[1..] + [e];
    }
  }

  // ---- The invariant ----

  /** The requests of all flushes, in order. */
  function Flat<K, V>(fs: seq<Flight<K, V>>): seq<Request<K>> {
    if fs == [] then [] else fs[0].reqs + Flat(fs[1..])
  }

  ghost predicate Distinct<K>(rs: seq<Request<K>>) {
    forall i, j :: 0 <= i < j < |rs| ==> rs[i].id != rs[j].id
  }

  /** A waiting batch has a timer whose closure is still to come. */
  ghost predicate TimersOk<K, V>(s: State<K, V>) {
    && |s.pending| < s.maxBatchSize
    && (s.pending != [] ==> s.timer.Some?)
    && (s.timer.Some? ==> s.timer.value < |s.timers|
                          && (s.timers[s.timer.value].Armed? || s.timers[s.timer.value].Fired?))
  }

  /** The flushes and the pending batch cut the history into consecutive pieces. */
  ghost predicate Pieces<K, V>(fs: seq<Flight<K, V>>, pending: seq<Request<K>>, issued: seq<Request<K>>, max: nat) {
    && Flat(fs) + pending == issued
    && (forall f :: 0 <= f < |fs| ==> 0 < |fs[f].reqs| <= max)
  }

  ghost predicate BatchesOk<K, V>(s: State<K, V>) {
    Distinct(s.issued) && Pieces(s.flights, s.pending, s.issued, s.maxBatchSize)
  }

  predicate Served<K, V>(flight: Flight<K, V>, i: nat) {
    flight.Answering? && i < flight.next
  }

  ghost predicate FlightOk<K, V>(s: State<K, V>, f: nat)
    requires f < |s.flights|
  {
    var flight := s.flights[f];
    && (flight.Answering? ==> flight.next <= |flight.reqs|)
    && forall i :: 0 <= i < |flight.reqs| ==>
      Mail(s, flight.reqs[i].id) == if Served(flight, i) then [AnswerFor(flight.outcome, flight.reqs[i].key)] else []
  }

  ghost predicate MailOk<K, V>(s: State<K, V>) {
    && (forall f :: 0 <= f < |s.flights| ==> FlightOk(s, f))
    && (forall id :: id in s.mailbox ==> exists r :: r in s.issued && r.id == id)
    && (forall i :: 0 <= i < |s.pending| ==> Mail(s, s.pending[i].id) == [])
  }

  ghost predicate Inv<K, V>(s: State<K, V>) {
    TimersOk(s) && BatchesOk(s) && MailOk(s)
  }

  lemma {:induction false} FlatAppend<K, V>(fs: seq<Flight<K, V>>, f: Flight<K, V>)
    ensures Flat(fs + [f]) == Flat(fs) + f.reqs
    decreases |fs|
  {
    if fs == [] {
      assert (fs + [f])[1..] == [];
    } else {
      FlatAppend(fs[1..], f);
      assert (fs + [f])[1..] == fs[1..] + [f];
    }
  }

  lemma {:induction false} FlatUpdate<K, V>(fs: seq<Flight<K, V>>, i: nat, f: Flight<K, V>)
    requires i < |fs| && f.reqs == fs[i].reqs
    ensures Flat(fs[i := f]) == Flat(fs)
    decreases |fs|
  {
    if i > 0 {
      FlatUpdate(fs[1..], i - 1, f);
      assert fs[i := f][1..] == fs[1..][i - 1 := f];
    } else {
      assert fs[i := f][1..] == fs[1..];
    }
  }

  /** Where the requests of flush `f` start in `Flat`. */
  function Offset<K, V>(fs: seq<Flight<K, V>>, f: nat): nat
    requires f <= |fs|
  {
    if f == 0 then 0 else |fs[0].reqs| + Offset(fs[1..], f - 1)
  }

  lemma {:induction false} FlatAt<K, V>(fs: seq<Flight<K, V>>, f: nat, i: nat)
    requires f < |fs| && i < |fs[f].reqs|
    ensures Offset(fs, f) + i < |Flat(fs)| && Flat(fs)[Offset(fs, f) + i] == fs[f].reqs[i]
    decreases |fs|
  {
    if f > 0 {
      FlatAt(fs[1..], f - 1, i);
    }
  }

  lemma {:induction false} OffsetsGrow<K, V>(fs: seq<Flight<K, V>>, f: nat, g: nat)
    requires f < g < |fs|
    ensures Offset(fs, f) + |fs[f].reqs| <= Offset(fs, g)
    decreases |fs|
  {
    if f > 0 {
      OffsetsGrow(fs[1..], f - 1, g - 1);
    }
  }

  /** A request is at one place only. */
  lemma OnePlace<K, V>(s: State<K, V>, f: nat, i: nat, g: nat, j: nat)
    requires BatchesOk(s) && f < |s.flights| && i < |s.flights[f].reqs| && g < |s.flights| && j < |s.flights[g].reqs|
    requires s.flights[f].reqs[i].id == s.flights[g].reqs[j].id
    ensures f == g && i == j
  {
    FlatAt(s.flights, f, i);
    FlatAt(s.flights, g, j);
    var a, b := Offset(s.flights, f) + i, Offset(s.flights, g) + j;
    assert s.issued[a] == s.flights[f].reqs[i] && s.issued[b] == s.flights[g].reqs[j];
    if f < g { OffsetsGrow(s.flights, f, g); }
    if g < f { OffsetsGrow(s.flights, g, f); }
  }

  lemma NotAlsoPending<K, V>(s: State<K, V>, f: nat, i: nat, j: nat)
    requires BatchesOk(s) && f < |s.flights| && i < |s.flights[f].reqs| && j < |s.pending|
    ensures s.flights[f].reqs[i].id != s.pending[j].id
  {
    FlatAt(s.flights, f, i);
    var n := |Flat(s.flights)|;
    assert s.issued[Offset(s.flights, f) + i] == s.flights[f].reqs[i];
    assert s.issued[n + j] == s.pending[j];
  }

  /** Flushing the waiting batch cuts off one more piece. */
  lemma FlushAddsPiece<K, V>(fs: seq<Flight<K, V>>, batch: seq<Request<K>>, issued: seq<Request<K>>, max: nat)
    requires Pieces(fs, batch, issued, max) && 0 < |batch| <= max
    ensures Pieces(fs + [Calling(batch)], [], issued, max)
  {
    FlatAppend(fs, Calling(batch));
  }

  lemma LoadKeepsBatches<K, V>(s: State<K, V>, id: ReqId, key: K)
    requires TimersOk(s) && BatchesOk(s) && Enabled(s, Event<K, V>.Load(id, key))
    ensures BatchesOk(Apply(s, Event<K, V>.Load(id, key)))
  {
    var batch, issued := s.pending + [Request(id, key)], s.issued + [Request(id, key)];
    LoadKeepsDistinct(s, id, key);
    assert Flat(s.flights) + batch == issued;
    assert Pieces(s.flights, batch, issued, s.maxBatchSize);
    if |batch| >= s.maxBatchSize {
      FlushAddsPiece(s.flights, batch, issued, s.maxBatchSize);
    }
  }

  lemma LoadKeepsDistinct<K, V>(s: State<K, V>, id: ReqId, key: K)
    requires Distinct(s.issued) && Enabled(s, Event<K, V>.Load(id, key))
    ensures Distinct(s.issued + [Request(id, key)])
  {
    forall i | 0 <= i < |s.issued| ensures s.issued[i].id != id { assert s.issued[i] in s.issued; }
  }

  lemma LoadKeepsMail<K, V>(s: State<K, V>, id: ReqId, key: K)
    requires MailOk(s) && Enabled(s, Event<K, V>.Load(id, key))
    ensures MailOk(Apply(s, Event<K, V>.Load(id, key)))
  {
    var s' := Apply(s, Event<K, V>.Load(id, key));
    assert id !in s.mailbox;
    forall f | 0 <= f < |s'.flights| ensures FlightOk(s', f) {
      if f < |s.flights| { assert FlightOk(s, f); }
    }
    forall i | i in s'.mailbox ensures exists r :: r in s'.issued && r.id == i {
      var r :| r in s.issued && r.id == i;
      assert r in s'.issued;
    }
  }

  lemma TimerRunsKeepsInv<K, V>(s: State<K, V>, i: nat)
    requires Inv(s) && Enabled(s, Event<K, V>.TimerRuns(i))
    ensures Inv(Apply(s, Event<K, V>.TimerRuns(i)))
  {
    var s' := Apply(s, Event<K, V>.TimerRuns(i));
    if s.pending != [] { FlushAddsPiece(s.flights, s.pending, s.issued, s.maxBatchSize); }
    forall f | 0 <= f < |s'.flights| ensures FlightOk(s', f) {
      if f < |s.flights| { assert FlightOk(s, f); }
    }
  }

  lemma BatchReturnsKeepsInv<K, V>(s: State<K, V>, f: nat, outcome: Outcome<K, V>)
    requires Inv(s) && Enabled(s, BatchReturns(f, outcome))
    ensures Inv(Apply(s, BatchReturns(f, outcome)))
  {
    var s' := Apply(s, BatchReturns(f, outcome));
    FlatUpdate(s.flights, f, s'.flights[f]);
    forall g | 0 <= g < |s'.flights| ensures FlightOk(s', g) { assert FlightOk(s, g); }
  }

  lemma SendKeepsMail<K, V>(s: State<K, V>, f: nat)
    requires Inv(s) && Enabled(s, Event<K, V>.Send(f))
    ensures MailOk(Apply(s, Event<K, V>.Send(f)))
  {
    var s' := Apply(s, Event<K, V>.Send(f));
    var flight := s.flights[f];
    var n := flight.next;
    var id := flight.reqs[n].id;
    forall g | 0 <= g < |s'.flights| ensures FlightOk(s', g) {
      assert FlightOk(s, g);
      forall j | 0 <= j < |s'.flights[g].reqs|
        ensures Mail(s', s'.flights[g].reqs[j].id) ==
          if Served(s'.flights[g], j)
          then [AnswerFor(s'.flights[g].outcome, s'.flights[g].reqs[j].key)] else []
      {
        if s.flights[g].reqs[j].id == id { OnePlace(s, f, n, g, j); }
      }
    }
    forall i | 0 <= i < |s'.pending| ensures Mail(s', s'.pending[i].id) == [] {
      NotAlsoPending(s, f, n, i);
    }
    FlatAt(s.flights, f, n);
    assert s.issued[Offset(s.flights, f) + n] == flight.reqs[n];
  }

  lemma StepKeepsInv<K, V>(s: State<K, V>, e: Event<K, V>)
    requires Inv(s) && Enabled(s, e)
    ensures Inv(Apply(s, e)) && Apply(s, e).maxBatchSize == s.maxBatchSize
  {
    match e
    case Load(id, key) =>
      LoadKeepsBatches(s, id, key);
      LoadKeepsMail(s, id, key);
    case TimerFires(i) =>
      var s' := Apply(s, e);
      forall f | 0 <= f < |s'.flights| ensures FlightOk(s', f) { assert FlightOk(s, f); }
    case TimerRuns(i) => TimerRunsKeepsInv(s, i);
    case BatchReturns(f, outcome) => BatchReturnsKeepsInv(s, f, outcome);
    case Send(f) =>
      FlatUpdate(s.flights, f, Apply(s, e).flights[f]);
      SendKeepsMail(s, f);
  }

  lemma {:induction false} RunKeepsInv<K, V>(s: State<K, V>, es: seq<Event<K, V>>, s': State<K, V>)
    requires Inv(s) && IsRun(s, es, s')
    ensures Inv(s') && s'.maxBatchSize == s.maxBatchSize
    decreases |es|
  {
    if es != [] {
      StepKeepsInv(s, es[0]);
      RunKeepsInv(Apply(s, es[0]), es[1..], s');
    }
  }

  // ---- What every interleaving guarantees ----

  /** No request is stranded: while a batch waits, `b.timer` is set and its closure has yet to run,
      however many stale closures are around; and whichever closure runs takes the whole batch. */
  lemma NothingStranded<K, V>(max: nat, es: seq<Event<K, V>>, s: State<K, V>)
    requires max > 0 && IsRun(Init(max), es, s) && s.pending != []
    ensures s.timer.Some? && s.timer.value < |s.timers|
    ensures s.timers[s.timer.value].Armed? || s.timers[s.timer.value].Fired?
    ensures forall i :: Enabled(s, Event<K, V>.TimerRuns(i)) ==> TakesAll(s, i)
  {
    RunKeepsInv(Init(max), es, s);
    forall i | Enabled(s, Event<K, V>.TimerRuns(i))
      ensures TakesAll(s, i)
    {
    }
  }

  /** Closure `i` flushes the whole pending batch. */
  ghost predicate TakesAll<K, V>(s: State<K, V>, i: nat)
    requires Enabled(s, Event<K, V>.TimerRuns(i))
  {
    var s' := Apply(s, Event<K, V>.TimerRuns(i));
    s'.pending == [] && s'.flights == s.flights + [Calling(s.pending)]
  }

  /** Each request is in exactly one flush, or waits for one: the flushes are consecutive pieces of
      the arrival order, none empty and none larger than the maximum. */
  lemma FlushesPartitionRequests<K, V>(max: nat, es: seq<Event<K, V>>, s: State<K, V>)
    requires max > 0 && IsRun(Init(max), es, s)
    ensures Flat(s.flights) + s.pending == s.issued && Distinct(s.issued)
    ensures |s.pending| < max
    ensures forall f :: 0 <= f < |s.flights| ==> 0 < |s.flights[f].reqs| <= max
  {
    RunKeepsInv(Init(max), es, s);
  }

  // ---- When a batch is flushed ----

  /** Below the maximum a request joins the waiting batch and nothing is flushed; a timer that was set
      stays as it was, and if there was none a new one is armed. */
  lemma LoadBelowMaximumWaits<K, V>(s: State<K, V>, id: ReqId, key: K)
    requires Enabled(s, Event<K, V>.Load(id, key)) && |s.pending| + 1 < s.maxBatchSize
    ensures var s' := Apply(s, Event<K, V>.Load(id, key));
      && s'.pending == s.pending + [Request(id, key)] && s'.flights == s.flights
      && s'.timer == Some(if s.timer.Some? then s.timer.value else |s.timers|)
      && s'.timers == (if s.timer.Some? then s.timers else s.timers + [Armed])
  {
  }

  /** The request that fills the batch flushes all of it, itself last, and takes its timer away. */
  lemma LoadAtMaximumFlushes<K, V>(s: State<K, V>, id: ReqId, key: K)
    requires Enabled(s, Event<K, V>.Load(id, key)) && |s.pending| + 1 >= s.maxBatchSize
    ensures var s' := Apply(s, Event<K, V>.Load(id, key));
      && s'.pending == [] && s'.flights == s.flights + [Calling(s.pending + [Request(id, key)])]
      && s'.timer == None && |s'.timers| == |s.timers|
      && (forall i :: 0 <= i < |s.timers| ==>
           s'.timers[i] == if s.timer == Some(i) && s.timers[i].Armed? then Stopped else s.timers[i])
  {
  }

  /** How many flushes have fewer than `max` requests. */
  function ShortFlights<K, V>(fs: seq<Flight<K, V>>, max: nat): nat
    decreases |fs|
  {
    if fs == [] then 0
    else ShortFlights(fs[..|fs| - 1], max) + (if |fs[|fs| - 1].reqs| < max then 1 else 0)
  }

  /** How many closures have run. */
  function RanTimers(ts: seq<Timer>): nat
    decreases |ts|
  {
    if ts == [] then 0 else RanTimers(ts[..|ts| - 1]) + (if ts[|ts| - 1].Ran? then 1 else 0)
  }

  lemma ShortFlightsAppend<K, V>(fs: seq<Flight<K, V>>, f: Flight<K, V>, max: nat)
    ensures ShortFlights(fs + [f], max) == ShortFlights(fs, max) + (if |f.reqs| < max then 1 else 0)
  {
    assert (fs + [f])[..|fs|] == fs;
  }

  lemma {:induction false} ShortFlightsUpdate<K, V>(fs: seq<Flight<K, V>>, i: nat, f: Flight<K, V>, max: nat)
    requires i < |fs| && f.reqs == fs[i].reqs
    ensures ShortFlights(fs[i := f], max) == ShortFlights(fs, max)
    decreases |fs|
  {
    var n := |fs| - 1;
    if i < n {
      assert fs[i := f][..n] == fs[..n][i := f];
      ShortFlightsUpdate(fs[..n], i, f, max);
    } else {
      assert fs[i := f][..n] == fs[..n];
    }
  }

  lemma {:induction false} RanTimersUpdate(ts: seq<Timer>, i: nat, t: Timer)
    requires i < |ts| && !ts[i].Ran?
    ensures RanTimers(ts[i := t]) == RanTimers(ts) + (if t.Ran? then 1 else 0)
    decreases |ts|
  {
    var n := |ts| - 1;
    if i < n {
      assert ts[i := t][..n] == ts[..n][i := t];
      RanTimersUpdate(ts[..n], i, t);
    } else {
      assert ts[i := t][..n] == ts[..n];
    }
  }

  ghost predicate ShortAreTimed<K, V>(s: State<K, V>) {
    ShortFlights(s.flights, s.maxBatchSize) <= RanTimers(s.timers)
  }

  lemma LoadKeepsShort<K, V>(s: State<K, V>, id: ReqId, key: K)
    requires ShortAreTimed(s) && Enabled(s, Event<K, V>.Load(id, key))
    ensures ShortAreTimed(Apply(s, Event<K, V>.Load(id, key)))
  {
    var batch := s.pending + [Request(id, key)];
    ShortFlightsAppend(s.flights, Calling(batch), s.maxBatchSize);
    if s.timer.Some? && s.timer.value < |s.timers| && s.timers[s.timer.value].Armed? {
      RanTimersUpdate(s.timers, s.timer.value, Stopped);
    }
    assert (s.timers + [Armed])[..|s.timers|] == s.timers;
  }

  lemma StepKeepsShort<K, V>(s: State<K, V>, e: Event<K, V>)
    requires ShortAreTimed(s) && Enabled(s, e)
    ensures ShortAreTimed(Apply(s, e)) && Apply(s, e).maxBatchSize == s.maxBatchSize
  {
    match e
    case Load(id, key) => LoadKeepsShort(s, id, key);
    case TimerFires(i) => RanTimersUpdate(s.timers, i, Fired);
    case TimerRuns(i) =>
      RanTimersUpdate(s.timers, i, Ran);
      ShortFlightsAppend(s.flights, Calling(s.pending), s.maxBatchSize);
    case BatchReturns(f, outcome) =>
      ShortFlightsUpdate(s.flights, f, Answering(s.flights[f].reqs, outcome, 0), s.maxBatchSize);
    case Send(f) =>
      ShortFlightsUpdate(s.flights, f, Apply(s, e).flights[f], s.maxBatchSize);
  }

  lemma {:induction false} RunKeepsShort<K, V>(s: State<K, V>, es: seq<Event<K, V>>, s': State<K, V>)
    requires ShortAreTimed(s) && IsRun(s, es, s')
    ensures ShortAreTimed(s') && s'.maxBatchSize == s.maxBatchSize
    decreases |es|
  {
    if es != [] {
      StepKeepsShort(s, es[0]);
      RunKeepsShort(Apply(s, es[0]), es[1..], s');
    }
  }

  /** A flush with fewer than the maximum of requests was started by a timer: there are never more of
      them than closures that have run. */
  lemma ShortFlushesAreTimed<K, V>(max: nat, es: seq<Event<K, V>>, s: State<K, V>)
    requires max > 0 && IsRun(Init(max), es, s)
    ensures ShortFlights(s.flights, max) <= RanTimers(s.timers)
  {
    RunKeepsShort(Init(max), es, s);
  }

  /** What is sent: a failed batch fails all its requests with its reason, a good one answers each
      request with the value found for its key, or says that there is none. */
  lemma AnswersSpelledOut<K, V>(max: nat, es: seq<Event<K, V>>, s: State<K, V>, f: nat, i: nat)
    requires max > 0 && IsRun(Init(max), es, s)
    requires f < |s.flights| && i < |s.flights[f].reqs| && Served(s.flights[f], i)
    ensures var flight, mail := s.flights[f], Mail(s, s.flights[f].reqs[i].id);
      var key := flight.reqs[i].key;
      && (flight.outcome.Err? ==> mail == [Err(BatchFailed(flight.outcome.error))])
      && (flight.outcome.Ok? && key in flight.outcome.value ==> mail == [Ok(flight.outcome.value[key])])
      && (flight.outcome.Ok? && key !in flight.outcome.value ==> mail == [Err(KeyNotFound)])
  {
    OneAnswerEach(max, es, s, f, i);
  }

  /** Each request gets at most one answer, and exactly one once its flush is over: the one its flush
      found for its key.  No send ever blocks, since the channel it goes to is empty. */
  lemma OneAnswerEach<K, V>(max: nat, es: seq<Event<K, V>>, s: State<K, V>, f: nat, i: nat)
    requires max > 0 && IsRun(Init(max), es, s)
    requires f < |s.flights| && i < |s.flights[f].reqs|
    ensures Mail(s, s.flights[f].reqs[i].id) ==
      if Served(s.flights[f], i) then [AnswerFor(s.flights[f].outcome, s.flights[f].reqs[i].key)] else []
    ensures Enabled(s, Event<K, V>.Send(f)) ==> Mail(s, s.flights[f].reqs[s.flights[f].next].id) == []
  {
    RunKeepsInv(Init(max), es, s);
    FlightAnswers(s, f, i);
  }

  lemma FlightAnswers<K, V>(s: State<K, V>, f: nat, i: nat)
    requires MailOk(s) && f < |s.flights| && i < |s.flights[f].reqs|
    ensures Mail(s, s.flights[f].reqs[i].id) ==
      if Served(s.flights[f], i) then [AnswerFor(s.flights[f].outcome, s.flights[f].reqs[i].key)] else []
    ensures Enabled(s, Event<K, V>.Send(f)) ==> Mail(s, s.flights[f].reqs[s.flights[f].next].id) == []
  {
    assert FlightOk(s, f);
  }

  /** The keys handed to `batchFn`: the first occurrences, in order. */
  function UniqueKeys<K(==)>(reqs: seq<Request<K>>): seq<K> {
    if reqs == [] then []
    else
      var before := UniqueKeys(reqs[..|reqs| - 1]);
      var key := reqs[|reqs| - 1].key;
      if key in before then before else before + [key]
  }

  lemma {:induction false} UniqueKeysAreTheKeys<K>(reqs: seq<Request<K>>)
    ensures forall i, j :: 0 <= i < j < |UniqueKeys(reqs)| ==> UniqueKeys(reqs)[i] != UniqueKeys(reqs)[j]
    ensures forall k :: k in UniqueKeys(reqs) <==> exists i :: 0 <= i < |reqs| && reqs[i].key == k
    decreases |reqs|
  {
    if reqs != [] {
      var n := |reqs| - 1;
      UniqueKeysAreTheKeys(reqs[..n]);
      forall k ensures k in UniqueKeys(reqs) <==> exists i :: 0 <= i < |reqs| && reqs[i].key == k {
        if i :| 0 <= i < |reqs| && reqs[i].key == k {
          assert i < n ==> reqs[..n][i].key == k;
        }
        if k in UniqueKeys(reqs[..n]) {
          var i :| 0 <= i < n && reqs[..n][i].key == k;
          assert reqs[i].key == k;
        }
      }
    }
  }

  /** `batchFn` answered a query for `keys` key by key, as `lookup` would have. */
  ghost predicate IsPointwise<K, V>(lookup: K -> Option<V>, keys: seq<K>, outcome: Outcome<K, V>) {
    outcome.Ok? && forall k :: k in keys ==>
      (k in outcome.value <==> lookup(k).Some?) && (k in outcome.value ==> outcome.value[k] == lookup(k).value)
  }

  /** Batching cannot be observed: if the batch function answers key by key, every answer that was
      sent, in any run, is that of a query for the one key asked for. */
  lemma BatchingIsTransparent<K, V>(max: nat, es: seq<Event<K, V>>, s: State<K, V>, lookup: K -> Option<V>, n: nat)
    requires max > 0 && IsRun(Init(max), es, s)
    requires forall f :: 0 <= f < |s.flights| && s.flights[f].Answering? ==>
      IsPointwise(lookup, UniqueKeys(s.flights[f].reqs), s.flights[f].outcome)
    requires n < |s.issued| && Mail(s, s.issued[n].id) != []
    ensures Mail(s, s.issued[n].id) ==
      [match lookup(s.issued[n].key) case Some(v) => Ok(v) case None => Err(KeyNotFound)]
  {
    RunKeepsInv(Init(max), es, s);
    AnsweredWasFlushed(s, n);
    var f, i := FlatLocate(s.flights, n);
    assert FlightOk(s, f);
    AnswerIsLookup(s.flights[f].reqs, i, s.flights[f].outcome, lookup);
  }

  lemma AnswerIsLookup<K, V>(reqs: seq<Request<K>>, i: nat, outcome: Outcome<K, V>, lookup: K -> Option<V>)
    requires i < |reqs| && IsPointwise(lookup, UniqueKeys(reqs), outcome)
    ensures AnswerFor(outcome, reqs[i].key) ==
      match lookup(reqs[i].key) case Some(v) => Ok(v) case None => Err(KeyNotFound)
  {
    UniqueKeysAreTheKeys(reqs);
    assert reqs[i].key in UniqueKeys(reqs);
  }

  lemma AnsweredWasFlushed<K, V>(s: State<K, V>, n: nat)
    requires Inv(s) && n < |s.issued|
    ensures Mail(s, s.issued[n].id) != [] ==> n < |Flat(s.flights)|
  {
    if n >= |Flat(s.flights)| {
      assert s.issued[n] == s.pending[n - |Flat(s.flights)|];
    }
  }

  /** The place of a request among the flushes. */
  lemma {:induction false} FlatLocate<K, V>(fs: seq<Flight<K, V>>, n: nat) returns (f: nat, i: nat)
    requires n < |Flat(fs)|
    ensures f < |fs| && i < |fs[f].reqs| && fs[f].reqs[i] == Flat(fs)[n]
    decreases |fs|
  {
    if n < |fs[0].reqs| {
      f, i := 0, n;
    } else {
      f, i := FlatLocate(fs[1..], n - |fs[0].reqs|);
      f := f + 1;
    }
  }

  // ---- The code ----

  class BatchLoader<K(==), V> {
    const maxBatchSize: nat
    var pending: seq<Request<K>>
    var timer: Option<nat>
    var timers: seq<Timer>                         // kept by the Go runtime
    ghost var flights: seq<Flight<K, V>>
    var mailbox: map<ReqId, seq<Answer<V>>>        // the channels of all requests
    ghost var issued: seq<Request<K>>

    ghost function View(): State<K, V>
      reads this
    {
      State(maxBatchSize, pending, timer, timers, flights, mailbox, issued)
    }

    constructor (maxBatchSize: int)
      ensures this.maxBatchSize == if maxBatchSize <= 0 then 100 else maxBatchSize
      ensures View() == Init(this.maxBatchSize)
    {
      this.maxBatchSize := if maxBatchSize <= 0 then 100 else maxBatchSize;
      pending, timer, timers := [], None, [];
      flights, mailbox, issued := [], map[], [];
    }

    /** `Load` up to the release of the mutex; `batch` is what to flush now, if anything. */
    method Load(ghost id: ReqId, req: Request<K>) returns (batch: seq<Request<K>>)
      requires req.id == id && Enabled(View(), Event<K, V>.Load(id, req.key))
      requires timer.Some? ==> timer.value < |timers|
      modifies this
      ensures View() == Apply(old(View()), Event<K, V>.Load(id, req.key))
      ensures batch == if |old(pending)| + 1 >= maxBatchSize then old(pending) + [req] else []
      ensures flights == if batch == [] then old(flights) else old(flights) + [Calling(batch)]
      ensures pending == if batch == [] then old(pending) + [req] else []
    {
      pending := pending + [req];
      issued := issued + [req];
      batch := [];
      if |pending| >= maxBatchSize {
        if timer.Some? {
          if timers[timer.value].Armed? {
            timers := timers[timer.value := Stopped];
          }
          timer := None;
        }
        batch := pending;
        pending := [];
        flights := flights + [Calling(batch)];
      } else if timer == None {
        timers := timers + [Armed];
        timer := Some(|timers| - 1);
      }
    }

    /** The timer's closure, up to the release of the mutex. */
    method TimerRuns(i: nat) returns (batch: seq<Request<K>>)
      requires Enabled(View(), Event<K, V>.TimerRuns(i))
      modifies this
      ensures View() == Apply(old(View()), Event<K, V>.TimerRuns(i))
      ensures batch == old(pending)
    {
      batch := pending;
      pending := [];
      timer := None;
      timers := timers[i := Ran];
      flights := if |batch| > 0 then flights + [Calling(batch)] else flights;
    }

    /** The first loop of `flush`. */
    method CollectKeys(requests: seq<Request<K>>) returns (uniqueKeys: seq<K>)
      ensures uniqueKeys == UniqueKeys(requests)
    {
      var keysMap: set<K> := {};
      uniqueKeys := [];
      for i := 0 to |requests|
        invariant uniqueKeys == UniqueKeys(requests[..i])
        invariant forall k :: k in keysMap <==> k in uniqueKeys
      {
        assert requests[..i + 1][..i] == requests[..i];
        if requests[i].key !in keysMap {
          keysMap := keysMap + {requests[i].key};
          uniqueKeys := uniqueKeys + [requests[i].key];
        }
      }
      assert requests[..|requests|] == requests;
    }

    /** The rest of `flush`: `batchFn` has returned, then one send after another.  Left alone it is a
        run of the steps above that serves every request of the flush. */
    method Deliver(ghost f: nat, requests: seq<Request<K>>, outcome: Outcome<K, V>)
      requires Enabled(View(), BatchReturns(f, outcome)) && flights[f].reqs == requests
      modifies this`mailbox, this`flights
      ensures IsRun(old(View()), Delivery(f, outcome, |requests|), View())
      ensures flights == old(flights)[f := Answering(requests, outcome, |requests|)]
    {
      ghost var start := View();
      flights := flights[f := Answering(requests, outcome, 0)];
      assert Delivery<K, V>(f, outcome, 0)[1..] == [];
      for i := 0 to |requests|
        invariant flights == old(flights)[f := Answering(requests, outcome, i)]
        invariant IsRun(start, Delivery(f, outcome, i), View())
      {
        ghost var before := View();
        SendAnswer(f, requests[i], outcome, i);
        RunExtends(start, Delivery(f, outcome, i), before, Event<K, V>.Send(f));
        assert Delivery(f, outcome, i) + [Event<K, V>.Send(f)] == Delivery<K, V>(f, outcome, i + 1);
      }
    }

    /** The body of the two loops: the value or the error goes to the request's channel. */
    method SendAnswer(ghost f: nat, req: Request<K>, outcome: Outcome<K, V>, ghost i: nat)
      requires f < |flights| && flights[f].Answering? && flights[f].outcome == outcome
      requires flights[f].next == i < |flights[f].reqs| && flights[f].reqs[i] == req
      modifies this`mailbox, this`flights
      ensures View() == Apply(old(View()), Event<K, V>.Send(f))
    {
      var answer: Answer<V>;
      if outcome.Err? {
        answer := Err(BatchFailed(outcome.error));
      } else if req.key in outcome.value {
        answer := Ok(outcome.value[req.key]);
      } else {
        answer := Err(KeyNotFound);
      }
      mailbox := mailbox[req.id := SentTo(mailbox, req.id) + [answer]];
      flights := flights[f := flights[f].(next := i + 1)];
    }
  }

  /** `batchFn` returns, then `n` sends. */
  ghost function Delivery<K, V>(f: nat, outcome: Outcome<K, V>, n: nat): seq<Event<K, V>> {
    [BatchReturns(f, outcome)] + seq(n, _ => Event<K, V>.Send(f))
  }
}
