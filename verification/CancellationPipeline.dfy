/** `RunCancellationPipeline` of `patterns/05_context/cancellation_pipeline.go` as a protocol.

    The jobs are queued and their channel closed before the workers start; each worker alternates
    between taking a job and sending its result; a closer closes the result channel when all workers
    have left; the collector drains it.  The context may be cancelled at any moment. */
module CancellationPipeline {
  import opened Common

  datatype Job = Job(id: int, value: int)
  datatype JobResult = JobResult(jobID: int, square: int)

  /** Go's 64-bit multiplication wraps around. */
  function Wrap64(x: int): int {
    (x + 0x8000_0000_0000_0000) % 0x1_0000_0000_0000_0000 - 0x8000_0000_0000_0000
  }

  function Process(job: Job): JobResult {
    JobResult(job.id, Wrap64(job.value * job.value))
  }

  datatype Worker = Idle | Holding(job: Job) | Left

  datatype Collector = Collecting | Returned(complete: bool)   // complete: the error was nil

  datatype State = State(
    capacity: nat,                  // of the result channel
    jobCh: seq<Job>,                // closed before the first worker starts
    resultCh: seq<JobResult>,
    resultClosed: bool,
    workers: seq<Worker>,
    cancelled: bool,
    results: seq<JobResult>,
    collector: Collector,
    dropped: seq<Job>)              // history: jobs given up by workers on cancellation

  datatype Event =
    | Cancel
    | TakeJob(w: nat)
    | LeaveDrained(w: nat)          // the job channel is closed and empty
    | LeaveCancelled(w: nat)        // idle, ctx.Done
    | SendResult(w: nat)
    | DropJob(w: nat)               // holding a job, ctx.Done
    | CloseResults
    | Collect
    | Return

  function Init(jobs: seq<Job>, workerCount: nat): State {
    State(|jobs|, jobs, [], false, seq(workerCount, _ => Idle), false, [], Collecting, [])
  }

  predicate AllLeft(ws: seq<Worker>) {
    forall w :: 0 <= w < |ws| ==> ws[w].Left?
  }

  predicate Enabled(s: State, e: Event) {
    match e
    case Cancel => !s.cancelled
    case TakeJob(w) => w < |s.workers| && s.workers[w].Idle? && s.jobCh != []
    case LeaveDrained(w) => w < |s.workers| && s.workers[w].Idle? && s.jobCh == []
    case LeaveCancelled(w) => w < |s.workers| && s.workers[w].Idle? && s.cancelled
    case SendResult(w) => w < |s.workers| && s.workers[w].Holding? && |s.resultCh| < s.capacity
    case DropJob(w) => w < |s.workers| && s.workers[w].Holding? && s.cancelled
    case CloseResults => AllLeft(s.workers) && !s.resultClosed
    case Collect => s.collector.Collecting? && s.resultCh != []
    case Return => s.collector.Collecting? && s.resultCh == [] && s.resultClosed
  }

  function Apply(s: State, e: Event): State
    requires Enabled(s, e)
  {
    match e
    case Cancel => s.(cancelled := true)
    case TakeJob(w) => s.(jobCh := s.jobCh[1..], workers := s.workers[w := Holding(s.jobCh[0])])
    case LeaveDrained(w) => s.(workers := s.workers[w := Left])
    case LeaveCancelled(w) => s.(workers := s.workers[w := Left])
    case SendResult(w) =>
      s.(resultCh := s.resultCh + [Process(s.workers[w].job)], workers := s.workers[w := Idle])
    case DropJob(w) =>
      s.(dropped := s.dropped + [s.workers[w].job], workers := s.workers[w := Left])
    case CloseResults => s.(resultClosed := true)
    case Collect => s.(results := s.results + [s.resultCh[0]], resultCh := s.resultCh[1..])
    case Return => s.(collector := Returned(!s.cancelled))
  }

  ghost predicate IsRun(s: State, es: seq<Event>, s': State)
    decreases |es|
  {
    if es == [] then s == s'
    else Enabled(s, es[0]) && IsRun(Apply(s, es[0]), es[1..], s')
  }

  lemma {:induction false} RunExtends(s: State, es: seq<Event>, s': State, e: Event)
    requires IsRun(s, es, s') && Enabled(s', e)
    ensures IsRun(s, es + [e], Apply(s', e))
    decreases |es|
  {
    if es == [] {
      assert (es + [e])[1..] == [];
    } else {
      RunExtends(Apply(s, es[0]), es[1..], s', e);
      assert (es + [e])[1..] == es[1..] + [e];
    }
  }

  // ---- The invariant ----

  /** How many workers hold job `j`; and how many hold any job. */
  function HandCount(ws: seq<Worker>, j: Job): nat {
    if ws == [] then 0
    else HandCount(ws[..|ws| - 1], j) + (if ws[|ws| - 1] == Holding(j) then 1 else 0)
  }

  function Hands(ws: seq<Worker>): nat {
    if ws == [] then 0
    else Hands(ws[..|ws| - 1]) + (if ws[|ws| - 1].Holding? then 1 else 0)
  }

  function Results(jobs: seq<Job>): seq<JobResult> {
    seq(|jobs|, i requires 0 <= i < |jobs| => Process(jobs[i]))
  }

  lemma {:induction false} HandCountUpdate(ws: seq<Worker>, i: nat, w: Worker, j: Job)
    requires i < |ws|
    ensures HandCount(ws[i := w], j) ==
      HandCount(ws, j) - (if ws[i] == Holding(j) then 1 else 0) + (if w == Holding(j) then 1 else 0)
    decreases |ws|
  {
    var n := |ws| - 1;
    if i == n {
      assert ws[i := w][..n] == ws[..n];
    } else {
      HandCountUpdate(ws[..n], i, w, j);
      assert ws[i := w][..n] == ws[..n][i := w];
    }
  }

  lemma {:induction false} HandsUpdate(ws: seq<Worker>, i: nat, w: Worker)
    requires i < |ws|
    ensures Hands(ws[i := w]) == Hands(ws) - (if ws[i].Holding? then 1 else 0) + (if w.Holding? then 1 else 0)
    decreases |ws|
  {
    var n := |ws| - 1;
    if i == n {
      assert ws[i := w][..n] == ws[..n];
    } else {
      HandsUpdate(ws[..n], i, w);
      assert ws[i := w][..n] == ws[..n][i := w];
    }
  }

  lemma {:induction false} EmptyHands(ws: seq<Worker>, j: Job)
    requires forall i :: 0 <= i < |ws| ==> !ws[i].Holding?
    ensures HandCount(ws, j) == 0 && Hands(ws) == 0
    decreases |ws|
  {
    if ws != [] { EmptyHands(ws[..|ws| - 1], j); }
  }

  /** Job `j` is accounted for: each of its occurrences is finished, queued, in a worker's hand or
      dropped. */
  ghost predicate JobOk(s: State, jobs: seq<Job>, finished: seq<Job>, j: Job) {
    multiset(jobs)[j] ==
      multiset(finished)[j] + multiset(s.jobCh)[j] + HandCount(s.workers, j) + multiset(s.dropped)[j]
  }

  /** `finished` are the jobs whose results were sent, in the order of sending. */
  ghost predicate Accounts(s: State, jobs: seq<Job>, finished: seq<Job>) {
    && (forall j :: JobOk(s, jobs, finished, j))
    && |jobs| == |finished| + |s.jobCh| + Hands(s.workers) + |s.dropped|
    && s.results + s.resultCh == Results(finished)
  }

  ghost predicate Inv(s: State, jobs: seq<Job>, finished: seq<Job>) {
    && Accounts(s, jobs, finished) && s.capacity == |jobs|
    && (s.resultClosed ==> AllLeft(s.workers))
    && (!s.cancelled ==> s.dropped == [])
    && (!s.cancelled && AllLeft(s.workers) && s.workers != [] ==> s.jobCh == [])
    && (forall w :: 0 <= w < |s.workers| && s.workers[w].Left? && !s.cancelled ==> s.jobCh == [])
    && (s.collector.Returned? ==> s.resultClosed && s.resultCh == [])
    && (s.collector == Returned(true) ==> s.dropped == [] && (s.workers != [] ==> s.jobCh == []))
  }

  /** The jobs finished after a step. */
  function FinishedAfter(s: State, e: Event, finished: seq<Job>): seq<Job>
    requires Enabled(s, e)
  {
    if e.SendResult? then finished + [s.workers[e.w].job] else finished
  }

  lemma CountCons(x: Job, rest: seq<Job>, j: Job)
    ensures multiset([x] + rest)[j] == (if x == j then 1 else 0) + multiset(rest)[j]
  {
  }

  lemma CountSnoc(front: seq<Job>, x: Job, j: Job)
    ensures multiset(front + [x])[j] == multiset(front)[j] + (if x == j then 1 else 0)
  {
  }

  lemma TakeKeepsJob(s: State, w: nat, jobs: seq<Job>, finished: seq<Job>, j: Job)
    requires JobOk(s, jobs, finished, j) && Enabled(s, TakeJob(w))
    ensures JobOk(Apply(s, TakeJob(w)), jobs, finished, j)
  {
    HandCountUpdate(s.workers, w, Holding(s.jobCh[0]), j);
    assert s.jobCh == [s.jobCh[0]] + s.jobCh[1..];
    CountCons(s.jobCh[0], s.jobCh[1..], j);
  }

  lemma StepKeepsJob(s: State, e: Event, jobs: seq<Job>, finished: seq<Job>, j: Job)
    requires JobOk(s, jobs, finished, j) && Enabled(s, e)
    ensures JobOk(Apply(s, e), jobs, FinishedAfter(s, e, finished), j)
  {
    match e
    case TakeJob(w) => TakeKeepsJob(s, w, jobs, finished, j);
    case SendResult(w) =>
      HandCountUpdate(s.workers, w, Idle, j);
      CountSnoc(finished, s.workers[w].job, j);
    case DropJob(w) =>
      HandCountUpdate(s.workers, w, Left, j);
      CountSnoc(s.dropped, s.workers[w].job, j);
    case LeaveDrained(w) => HandCountUpdate(s.workers, w, Left, j);
    case LeaveCancelled(w) => HandCountUpdate(s.workers, w, Left, j);
    case _ =>
  }

  lemma StepKeepsSizes(s: State, e: Event, jobs: seq<Job>, finished: seq<Job>)
    requires |jobs| == |finished| + |s.jobCh| + Hands(s.workers) + |s.dropped| && Enabled(s, e)
    ensures var s' := Apply(s, e);
      |jobs| == |FinishedAfter(s, e, finished)| + |s'.jobCh| + Hands(s'.workers) + |s'.dropped|
  {
    match e
    case TakeJob(w) => HandsUpdate(s.workers, w, Holding(s.jobCh[0]));
    case SendResult(w) => HandsUpdate(s.workers, w, Idle);
    case DropJob(w) => HandsUpdate(s.workers, w, Left);
    case LeaveDrained(w) => HandsUpdate(s.workers, w, Left);
    case LeaveCancelled(w) => HandsUpdate(s.workers, w, Left);
    case _ =>
  }

  lemma StepKeepsResults(s: State, e: Event, finished: seq<Job>)
    requires s.results + s.resultCh == Results(finished) && Enabled(s, e)
    ensures Apply(s, e).results + Apply(s, e).resultCh == Results(FinishedAfter(s, e, finished))
  {
    if e.SendResult? {
      var job := s.workers[e.w].job;
      assert Results(finished + [job]) == Results(finished) + [Process(job)];
      assert s.results + (s.resultCh + [Process(job)]) == (s.results + s.resultCh) + [Process(job)];
    } else if e.Collect? {
      assert s.results + s.resultCh == (s.results + [s.resultCh[0]]) + s.resultCh[1..];
    }
  }

  lemma StepKeepsAccounts(s: State, e: Event, jobs: seq<Job>, finished: seq<Job>)
    requires Accounts(s, jobs, finished) && Enabled(s, e)
    ensures Accounts(Apply(s, e), jobs, FinishedAfter(s, e, finished))
  {
    forall j ensures JobOk(Apply(s, e), jobs, FinishedAfter(s, e, finished), j) {
      StepKeepsJob(s, e, jobs, finished, j);
    }
    StepKeepsSizes(s, e, jobs, finished);
    StepKeepsResults(s, e, finished);
  }

  lemma StepKeepsInv(s: State, e: Event, jobs: seq<Job>, finished: seq<Job>)
    requires Inv(s, jobs, finished) && Enabled(s, e)
    ensures Inv(Apply(s, e), jobs, FinishedAfter(s, e, finished)) && |Apply(s, e).workers| == |s.workers|
  {
    StepKeepsAccounts(s, e, jobs, finished);
  }

  lemma {:induction false} RunKeepsInv(s: State, es: seq<Event>, s': State, jobs: seq<Job>, finished: seq<Job>)
    returns (finished': seq<Job>)
    requires Inv(s, jobs, finished) && IsRun(s, es, s')
    ensures Inv(s', jobs, finished') && |s'.workers| == |s.workers|
    decreases |es|
  {
    if es == [] {
      finished' := finished;
    } else {
      StepKeepsInv(s, es[0], jobs, finished);
      finished' := RunKeepsInv(Apply(s, es[0]), es[1..], s', jobs, FinishedAfter(s, es[0], finished));
    }
  }

  lemma RunInv(jobs: seq<Job>, n: nat, es: seq<Event>, s: State) returns (finished: seq<Job>)
    requires n > 0 && IsRun(Init(jobs, n), es, s)
    ensures Inv(s, jobs, finished) && |s.workers| == n
  {
    var s0 := Init(jobs, n);
    forall j ensures JobOk(s0, jobs, [], j) { EmptyHands(s0.workers, j); }
    EmptyHands(s0.workers, Job(0, 0));
    assert Results([]) == [];
    finished := RunKeepsInv(Init(jobs, n), es, s, jobs, []);
  }

  // ---- What every schedule guarantees ----

  /** Conservation: at any moment of any run every job is finished, queued, held or dropped, and what
      was emitted and what waits in the result channel are the results of the finished ones. */
  lemma JobsAreConserved(jobs: seq<Job>, n: nat, es: seq<Event>, s: State) returns (finished: seq<Job>)
    requires n > 0 && IsRun(Init(jobs, n), es, s)
    ensures forall j :: JobOk(s, jobs, finished, j)
    ensures s.results + s.resultCh == Results(finished)
  {
    finished := RunInv(jobs, n, es, s);
  }

  lemma RemoveAt<T>(b: seq<T>, i: nat)
    requires i < |b|
    ensures multiset(b) == multiset(b[..i] + b[i + 1..]) + multiset{b[i]}
  {
    assert b == b[..i] + [b[i]] + b[i + 1..];
  }

  lemma CancelOne<T>(a: multiset<T>, b: multiset<T>, x: T)
    requires a + multiset{x} == b + multiset{x}
    ensures a == b
  {
    assert a == (a + multiset{x}) - multiset{x};
    assert b == (b + multiset{x}) - multiset{x};
  }

  lemma {:induction false} SameJobsSameResults(a: seq<Job>, b: seq<Job>)
    requires multiset(a) == multiset(b)
    ensures multiset(Results(a)) == multiset(Results(b))
    decreases |a|
  {
    if a == [] {
      assert |multiset(b)| == 0;
    } else {
      assert a[0] in multiset(b);
      var i :| 0 <= i < |b| && b[i] == a[0];
      var a', b' := a[..0] + a[1..], b[..i] + b[i + 1..];
      RemoveAt(a, 0);
      RemoveAt(b, i);
      CancelOne(multiset(a'), multiset(b'), a[0]);
      SameJobsSameResults(a', b');
      RemoveResult(a, 0);
      RemoveResult(b, i);
    }
  }

  lemma RemoveResult(b: seq<Job>, i: nat)
    requires i < |b|
    ensures multiset(Results(b)) == multiset(Results(b[..i] + b[i + 1..])) + multiset{Process(b[i])}
  {
    RemoveAt(Results(b), i);
    assert Results(b)[..i] + Results(b)[i + 1..] == Results(b[..i] + b[i + 1..]);
  }

  /** If the call returns a nil error its results are exactly the squares of all jobs, whatever the
      schedule and the number of workers. */
  lemma NilErrorMeansAllSquares(jobs: seq<Job>, n: nat, es: seq<Event>, s: State)
    requires n > 0 && IsRun(Init(jobs, n), es, s) && s.collector == Returned(true)
    ensures multiset(s.results) == multiset(Results(jobs))
  {
    var finished := RunInv(jobs, n, es, s);
    forall j ensures multiset(jobs)[j] == multiset(finished)[j] {
      EmptyHands(s.workers, j);
      assert JobOk(s, jobs, finished, j);
    }
    assert s.results == Results(finished);
    SameJobsSameResults(finished, jobs);
  }

  /** `r` is the square of the value of `job`, under its id. */
  ghost predicate IsSquareOf(r: JobResult, job: Job) {
    && r.jobID == job.id
    && (MIN_INT64 <= job.value * job.value <= MAX_INT64 ==> r.square == job.value * job.value)
    && MIN_INT64 <= r.square <= MAX_INT64
    && (r.square - job.value * job.value) % 0x1_0000_0000_0000_0000 == 0
  }

  const MIN_INT64: int := -0x8000_0000_0000_0000
  const MAX_INT64: int := 0x7fff_ffff_ffff_ffff

  /** What is sent for a job is its square; one that does not fit 64 bits is off by a multiple of 2^64. */
  lemma ProcessSquares(job: Job)
    ensures IsSquareOf(Process(job), job)
  {
    WrapsAround(job.value * job.value);
  }

  lemma WrapsAround(x: int)
    ensures MIN_INT64 <= Wrap64(x) <= MAX_INT64 && (Wrap64(x) - x) % 0x1_0000_0000_0000_0000 == 0
    ensures MIN_INT64 <= x <= MAX_INT64 ==> Wrap64(x) == x
  {
  }

  /** Every result emitted, in any run, is the square of one of the jobs. */
  lemma ResultsAreSquares(jobs: seq<Job>, n: nat, es: seq<Event>, s: State, i: nat)
    requires n > 0 && IsRun(Init(jobs, n), es, s) && i < |s.results|
    ensures exists job :: job in jobs && IsSquareOf(s.results[i], job)
  {
    var finished := RunInv(jobs, n, es, s);
    var job := finished[i];
    assert (s.results + s.resultCh)[i] == Process(job);
    ProcessSquares(job);
    assert JobOk(s, jobs, finished, job) && multiset(finished)[job] > 0;
    assert job in multiset(jobs);
  }

  /** Without a cancellation the error is nil. */
  lemma {:induction false} ErrorMeansCancelled(s: State, es: seq<Event>, s': State)
    requires IsRun(s, es, s') && !s'.cancelled && s.collector != Returned(false)
    ensures s'.collector != Returned(false)
    decreases |es|
  {
    if es != [] {
      CancelIsForever(s, es, s');
      ErrorMeansCancelled(Apply(s, es[0]), es[1..], s');
    }
  }

  lemma {:induction false} CancelIsForever(s: State, es: seq<Event>, s': State)
    requires IsRun(s, es, s')
    ensures s.cancelled ==> s'.cancelled
    decreases |es|
  {
    if es != [] { CancelIsForever(Apply(s, es[0]), es[1..], s'); }
  }

  /** A worker with a result can always send it at once: the channel has room and is still open. */
  lemma SendsNeverBlock(jobs: seq<Job>, n: nat, es: seq<Event>, s: State, w: nat)
    requires n > 0 && IsRun(Init(jobs, n), es, s) && w < |s.workers| && s.workers[w].Holding?
    ensures Enabled(s, SendResult(w)) && !s.resultClosed
  {
    var finished := RunInv(jobs, n, es, s);
    HandsUpdate(s.workers, w, Idle);
    assert |s.resultCh| <= |Results(finished)|;
  }

  /** No schedule goes on for ever: every step lowers this measure. */
  function Fuel(s: State): nat {
    4 * |s.jobCh| + WorkerFuel(s.workers) + |s.resultCh|
    + (if s.cancelled then 0 else 1) + (if s.resultClosed then 0 else 1) + (if s.collector.Collecting? then 1 else 0)
  }

  function WorkerFuel(ws: seq<Worker>): nat {
    if ws == [] then 0
    else WorkerFuel(ws[..|ws| - 1]) + Weight(ws[|ws| - 1])
  }

  function Weight(w: Worker): nat {
    match w case Idle => 1 case Holding(_) => 4 case Left => 0
  }

  lemma {:induction false} WorkerFuelUpdate(ws: seq<Worker>, i: nat, w: Worker)
    requires i < |ws|
    ensures WorkerFuel(ws[i := w]) + Weight(ws[i]) == WorkerFuel(ws) + Weight(w)
    decreases |ws|
  {
    var n := |ws| - 1;
    if i == n {
      assert ws[i := w][..n] == ws[..n];
    } else {
      WorkerFuelUpdate(ws[..n], i, w);
      assert ws[i := w][..n] == ws[..n][i := w];
    }
  }

  lemma StepsBurnFuel(s: State, e: Event)
    requires Enabled(s, e)
    ensures Fuel(Apply(s, e)) < Fuel(s)
  {
    match e
    case TakeJob(w) => WorkerFuelUpdate(s.workers, w, Holding(s.jobCh[0]));
    case SendResult(w) => WorkerFuelUpdate(s.workers, w, Idle);
    case DropJob(w) => WorkerFuelUpdate(s.workers, w, Left);
    case LeaveDrained(w) => WorkerFuelUpdate(s.workers, w, Left);
    case LeaveCancelled(w) => WorkerFuelUpdate(s.workers, w, Left);
    case _ =>
  }

  /** Every run is shorter than a bound known at the start, and one that cannot be continued has
      returned: the pipeline terminates under every schedule and never deadlocks. */
  lemma {:induction false} RunsAreBounded(s: State, es: seq<Event>, s': State)
    requires IsRun(s, es, s')
    ensures |es| + Fuel(s') <= Fuel(s)
    decreases |es|
  {
    if es != [] {
      StepsBurnFuel(s, es[0]);
      RunsAreBounded(Apply(s, es[0]), es[1..], s');
    }
  }

  lemma StuckMeansReturned(jobs: seq<Job>, n: nat, es: seq<Event>, s: State)
    requires n > 0 && IsRun(Init(jobs, n), es, s)
    requires forall e :: Enabled(s, e) ==> e.Cancel?
    ensures s.collector.Returned?
  {
    forall w | 0 <= w < |s.workers| ensures s.workers[w].Left? {
      if s.workers[w].Holding? {
        SendsNeverBlock(jobs, n, es, s, w);
      }
      assert !Enabled(s, SendResult(w)) && !Enabled(s, TakeJob(w)) && !Enabled(s, LeaveDrained(w));
    }
    assert !Enabled(s, CloseResults) && !Enabled(s, Collect) && !Enabled(s, Return);
  }

  // ---- The code ----

  class Pipeline {
    var jobCh: seq<Job>
    var resultCh: seq<JobResult>
    var resultClosed: bool
    var results: seq<JobResult>
    var cancelled: bool                             // ctx.Err() != nil
    ghost var capacity: nat
    ghost var workers: seq<Worker>
    ghost var collector: Collector
    ghost var dropped: seq<Job>

    ghost function View(): State
      reads this
    {
      State(capacity, jobCh, resultCh, resultClosed, workers, cancelled, results, collector, dropped)
    }

    /** The channels, the loop that queues the jobs, and the workers' start. */
    constructor (jobs: seq<Job>, workerCount: int)
      ensures View() == Init(jobs, if workerCount <= 0 then 4 else workerCount)
    {
      var count: nat := if workerCount <= 0 then 4 else workerCount;
      jobCh, resultCh, resultClosed, results := [], [], false, [];
      capacity, cancelled, collector, dropped := |jobs|, false, Collecting, [];
      workers := seq(count, _ => Idle);
      new;
      for i := 0 to |jobs|
        invariant View() == Init(jobs, count).(jobCh := jobs[..i])
      {
        jobCh := jobCh + [jobs[i]];
        assert jobs[..i + 1] == jobs[..i] + [jobs[i]];
      }
      assert jobs[..|jobs|] == jobs;
    }

    /** A worker's receive from the job channel; None when it is closed and empty. */
    method Receive(ghost w: nat) returns (job: Option<Job>)
      requires w < |workers| && workers[w].Idle?
      modifies this
      ensures job.Some? <==> old(jobCh) != []
      ensures View() == Apply(old(View()), if job.Some? then TakeJob(w) else LeaveDrained(w))
      ensures job.Some? ==> workers[w] == Holding(job.value)
    {
      if jobCh == [] {
        workers := workers[w := Left];
        return None;
      }
      job := Some(jobCh[0]);
      jobCh := jobCh[1..];
      workers := workers[w := Holding(job.value)];
    }

    /** A worker's send to the result channel. */
    method Send(ghost w: nat, job: Job)
      requires w < |workers| && workers[w] == Holding(job) && Enabled(View(), SendResult(w))
      modifies this
      ensures View() == Apply(old(View()), SendResult(w))
    {
      resultCh := resultCh + [JobResult(job.id, Wrap64(job.value * job.value))];
      workers := workers[w := Idle];
    }

    /** One turn of the collector's loop: a result as soon as there is one, or None when the channel
        is closed and empty. Until then the receive waits. */
    method ReceiveResult() returns (res: Option<JobResult>)
      requires collector.Collecting? && (resultCh != [] || resultClosed)
      modifies this
      ensures res.Some? <==> old(resultCh) != []
      ensures View() == if res.Some? then Apply(old(View()), Collect) else old(View())
      ensures res.Some? ==> results == old(results) + [res.value]
    {
      if resultCh == [] {
        return None;
      }
      res := Some(resultCh[0]);
      resultCh := resultCh[1..];
      results := results + [res.value];
    }

    /** The collector when nothing more will be sent: the rest of its loop, and the return. */
    method Drain() returns (collected: seq<JobResult>, complete: bool)
      requires resultClosed && collector.Collecting?
      modifies this
      ensures collected == old(results) + old(resultCh) && results == collected
      ensures collector == Returned(complete) && (complete <==> !cancelled)
      ensures exists es :: IsRun(old(View()), es, View())
    {
      ghost var start := View();
      ghost var es: seq<Event> := [];
      while resultCh != []
        invariant results + resultCh == old(results) + old(resultCh)
        invariant resultClosed && collector.Collecting? && cancelled == old(cancelled)
        invariant IsRun(start, es, View())
        decreases |resultCh|
      {
        ghost var before := View();
        assert results + resultCh == (results + [resultCh[0]]) + resultCh[1..];
        var _ := ReceiveResult();
        RunExtends(start, es, before, Collect);
        es := es + [Collect];
      }
      ghost var before := View();
      complete := !cancelled;
      collector := Returned(complete);
      RunExtends(start, es, before, Return);
      assert IsRun(start, es + [Return], View());
      return results, complete;
    }
  }
}
