/** `CircuitBreaker` of `patterns/08_httpclient/circuit_breaker.go` under overlapping calls.

    `Execute` is two critical sections around the protected call, so any number of calls may be
    between them; a result is recorded in whatever state the breaker is in by then. Times are
    nanoseconds. Where a critical section reads the clock twice, the second reading is `later`. */
module CircuitBreakers {

  type CallId = nat

  datatype Mode = ModeClosed | ModeOpen | ModeHalfOpen

  datatype Config = Config(failureThreshold: int, successThreshold: int, cooldown: int)

  ghost predicate Positive(g: Config) {
    g.failureThreshold > 0 && g.successThreshold > 0 && g.cooldown > 0
  }

  /** What an observer of the breaker sees happen, in order. */
  datatype Entry =
    | Admitted(at: int)
    | Rejected(at: int)
    | Returned(ok: bool, at: int)
    | Opened(at: int)
    | HalfOpened(at: int)
    | Closed(at: int)

  /** `pending` has the calls in flight, each with the number of half-openings before it was admitted;
      `lateOks` and `lateErrs` count the successes and failures that a half-open breaker took from
      older calls. */
  datatype State = State(g: Config, mode: Mode, fails: nat, succs: nat, changed: int, clock: int,
                         pending: map<CallId, nat>, epoch: nat, lateOks: nat, lateErrs: nat, log: seq<Entry>)

  datatype Event =
    | Query(now: int, later: int)
    | Admit(c: CallId, now: int, later: int)
    | Return(c: CallId, ok: bool, now: int)

  function Init(g: Config, now: int): State {
    State(g, ModeClosed, 0, 0, now, now, map[], 0, 0, 0, [])
  }

  predicate Enabled(s: State, e: Event) {
    && s.clock <= e.now
    && match e
       case Query(now, later) => now <= later
       case Admit(c, now, later) => c !in s.pending && now <= later
       case Return(c, _, _) => c in s.pending
  }

  /** `time.Since` reads `now`; if the cooldown is over `time.Now` reads `later`. */
  function CheckTransition(s: State, now: int, later: int): State {
    if s.mode == ModeOpen && now - s.changed >= s.g.cooldown then
      s.(mode := ModeHalfOpen, succs := 0, fails := 0, changed := later, epoch := s.epoch + 1,
         clock := later, log := s.log + [HalfOpened(later)])
    else s.(clock := now)
  }

  function RecordFailure(s: State, now: int): State {
    match s.mode
    case ModeClosed =>
      if s.fails + 1 >= s.g.failureThreshold
      then s.(fails := s.fails + 1, mode := ModeOpen, changed := now, log := s.log + [Opened(now)])
      else s.(fails := s.fails + 1)
    case ModeHalfOpen => s.(mode := ModeOpen, changed := now, succs := 0, log := s.log + [Opened(now)])
    case ModeOpen => s
  }

  function RecordSuccess(s: State, now: int): State {
    match s.mode
    case ModeHalfOpen =>
      if s.succs + 1 >= s.g.successThreshold
      then s.(mode := ModeClosed, fails := 0, succs := 0, changed := now, log := s.log + [Closed(now)])
      else s.(succs := s.succs + 1)
    case ModeClosed => s.(fails := 0)
    case ModeOpen => s
  }

  /** A half-open breaker takes an answer of a call admitted before it became half-open. */
  predicate TakesLate(s: State, c: CallId) {
    s.mode == ModeHalfOpen && c in s.pending && s.pending[c] != s.epoch
  }

  function Leave(s: State, c: CallId, ok: bool, now: int): State
    requires c in s.pending
  {
    s.(pending := s.pending - {c}, log := s.log + [Returned(ok, now)], clock := now,
       lateOks := s.lateOks + (if ok && TakesLate(s, c) then 1 else 0),
       lateErrs := s.lateErrs + (if !ok && TakesLate(s, c) then 1 else 0))
  }

  function Answer(s: State, c: CallId): State {
    if s.mode == ModeOpen then s.(log := s.log + [Rejected(s.clock)])
    else s.(pending := s.pending[c := s.epoch], log := s.log + [Admitted(s.clock)])
  }

  function Apply(s: State, e: Event): State
    requires Enabled(s, e)
  {
    match e
    case Query(now, later) => CheckTransition(s, now, later)
    case Admit(c, now, later) => Answer(CheckTransition(s, now, later), c)
    case Return(c, ok, now) =>
      var s1 := Leave(s, c, ok, now);
      if ok then RecordSuccess(s1, now) else RecordFailure(s1, now)
  }

  ghost predicate IsRun(s: State, es: seq<Event>, s': State)
    decreases |es|
  {
    if es == [] then s' == s else Enabled(s, es[0]) && IsRun(Apply(s, es[0]), es[1..], s')
  }

  // ---- What the observer may see --------------------------------------------------------------

  function ModeOf(log: seq<Entry>): Mode
    decreases |log|
  {
    if log == [] then ModeClosed
    else match log[|log| - 1]
      case Opened(_) => ModeOpen
      case HalfOpened(_) => ModeHalfOpen
      case Closed(_) => ModeClosed
      case _ => ModeOf(log[..|log| - 1])
  }

  /** Failures in a row up to now, not looking back past a success or a closing. */
  function FailuresInARow(log: seq<Entry>): nat
    decreases |log|
  {
    if log == [] then 0
    else match log[|log| - 1]
      case Returned(ok, _) => if ok then 0 else 1 + FailuresInARow(log[..|log| - 1])
      case Closed(_) => 0
      case _ => FailuresInARow(log[..|log| - 1])
  }

  /** Successes since the breaker last became half-open. */
  function SuccessesInTrial(log: seq<Entry>): nat
    decreases |log|
  {
    if log == [] then 0
    else match log[|log| - 1]
      case Returned(ok, _) => (if ok then 1 else 0) + SuccessesInTrial(log[..|log| - 1])
      case HalfOpened(_) => 0
      case _ => SuccessesInTrial(log[..|log| - 1])
  }

  /** Some opening is less than a cooldown old. */
  ghost predicate CoolingDown(g: Config, log: seq<Entry>, now: int) {
    exists i :: 0 <= i < |log| && log[i].Opened? && now - log[i].at < g.cooldown
  }

  ghost predicate JustReturned(log: seq<Entry>, ok: bool) {
    log != [] && log[|log| - 1].Returned? && log[|log| - 1].ok == ok
  }

  /** A failed trial, or the last failure that the threshold allows. */
  ghost predicate OpeningDue(g: Config, log: seq<Entry>) {
    && JustReturned(log, false)
    && (ModeOf(log) == ModeHalfOpen
        || (ModeOf(log) == ModeClosed && FailuresInARow(log) == g.failureThreshold))
  }

  ghost predicate ClosingDue(g: Config, log: seq<Entry>) {
    JustReturned(log, true) && ModeOf(log) == ModeHalfOpen && SuccessesInTrial(log) == g.successThreshold
  }

  ghost predicate AtRest(g: Config, log: seq<Entry>) {
    !OpeningDue(g, log) && !ClosingDue(g, log)
  }

  /** The rules of a circuit breaker, about what may be seen after `log`. */
  ghost predicate Lawful(g: Config, log: seq<Entry>, e: Entry) {
    match e
    case Opened(_) => OpeningDue(g, log)
    case Closed(_) => ClosingDue(g, log)
    case HalfOpened(now) => AtRest(g, log) && ModeOf(log) == ModeOpen && !CoolingDown(g, log, now)
    case Admitted(now) => AtRest(g, log) && ModeOf(log) != ModeOpen && !CoolingDown(g, log, now)
    case Rejected(now) => AtRest(g, log) && ModeOf(log) == ModeOpen && CoolingDown(g, log, now)
    case Returned(_, _) => AtRest(g, log)
  }

  ghost predicate LawAbiding(g: Config, log: seq<Entry>) {
    forall i :: 0 <= i < |log| ==> Lawful(g, log[..i], log[i])
  }

  // ---- Invariant ------------------------------------------------------------------------------

  /** The counters say what the log says. */
  ghost predicate CountersAgree(s: State) {
    && s.mode == ModeOf(s.log)
    && (s.mode == ModeClosed ==> s.fails == FailuresInARow(s.log) && s.fails < s.g.failureThreshold)
    && (s.mode == ModeHalfOpen ==> s.succs == SuccessesInTrial(s.log) && s.succs < s.g.successThreshold)
    && (s.mode == ModeHalfOpen ==> s.fails == 0)
    && (s.mode != ModeHalfOpen ==> s.succs == 0)
    && !(s.mode == ModeHalfOpen && JustReturned(s.log, false))
  }

  ghost predicate TimesAgree(s: State) {
    && (forall i :: 0 <= i < |s.log| ==> s.log[i].at <= s.clock)
    && (s.mode == ModeOpen ==> Opened(s.changed) in s.log)
    && (s.mode == ModeOpen ==> forall i :: 0 <= i < |s.log| && s.log[i].Opened? ==> s.log[i].at <= s.changed)
    && (s.mode != ModeOpen ==> !CoolingDown(s.g, s.log, s.clock))
  }

  ghost predicate Inv(s: State) {
    Positive(s.g) && CountersAgree(s) && TimesAgree(s) && LawAbiding(s.g, s.log)
  }

  lemma Extend(g: Config, log: seq<Entry>, e: Entry)
    requires LawAbiding(g, log) && Lawful(g, log, e)
    ensures LawAbiding(g, log + [e])
  {
    forall i | 0 <= i < |log + [e]|
      ensures Lawful(g, (log + [e])[..i], (log + [e])[i])
    {
      if i < |log| {
        assert (log + [e])[..i] == log[..i];
      } else {
        assert (log + [e])[..i] == log;
      }
    }
  }

  /** The three readings of a log after one more entry. */
  lemma Reads(log: seq<Entry>, e: Entry)
    ensures ModeOf(log + [e]) == match e
      case Opened(_) => ModeOpen case HalfOpened(_) => ModeHalfOpen case Closed(_) => ModeClosed
      case _ => ModeOf(log)
    ensures FailuresInARow(log + [e]) == match e
      case Returned(ok, _) => (if ok then 0 else 1 + FailuresInARow(log)) case Closed(_) => 0
      case _ => FailuresInARow(log)
    ensures SuccessesInTrial(log + [e]) == match e
      case Returned(ok, _) => (if ok then 1 else 0) + SuccessesInTrial(log) case HalfOpened(_) => 0
      case _ => SuccessesInTrial(log)
  {
    assert (log + [e])[..|log + [e]| - 1] == log;
  }

  lemma InvIsAtRest(s: State)
    requires Inv(s)
    ensures AtRest(s.g, s.log)
  {
  }

  /** The clock moving on does not make an opening younger. */
  lemma LaterCheck(s: State, now: int, later: int)
    requires Inv(s) && s.clock <= now <= later
    ensures var s' := CheckTransition(s, now, later);
      Inv(s') && (s'.mode == ModeOpen <==> CoolingDown(s.g, s.log, now))
      && (s'.mode == ModeOpen <==> CoolingDown(s.g, s'.log, s'.clock))
  {
    InvIsAtRest(s);
    if s.mode == ModeOpen {
      var i :| 0 <= i < |s.log| && s.log[i] == Opened(s.changed);
      if now - s.changed >= s.g.cooldown {
        assert !CoolingDown(s.g, s.log, later);
        HalfOpenKeepsInv(s, later);
      }
    }
  }

  lemma HalfOpenKeepsInv(s: State, later: int)
    requires Inv(s) && s.clock <= later && s.mode == ModeOpen && !CoolingDown(s.g, s.log, later)
    ensures var s' := s.(mode := ModeHalfOpen, succs := 0, fails := 0, changed := later, epoch := s.epoch + 1,
                         clock := later, log := s.log + [HalfOpened(later)]);
      Inv(s') && !CoolingDown(s.g, s'.log, later)
  {
    InvIsAtRest(s);
    Reads(s.log, HalfOpened(later));
    Extend(s.g, s.log, HalfOpened(later));
    SameOpenings(s.g, s.log, HalfOpened(later), later);
  }

  lemma SameOpenings(g: Config, log: seq<Entry>, e: Entry, now: int)
    requires !e.Opened?
    ensures CoolingDown(g, log + [e], now) <==> CoolingDown(g, log, now)
  {
    if CoolingDown(g, log, now) {
      var i :| 0 <= i < |log| && log[i].Opened? && now - log[i].at < g.cooldown;
      assert (log + [e])[i].Opened?;
    }
  }

  lemma AnswerKeepsInv(s: State, c: CallId)
    requires Inv(s) && (s.mode == ModeOpen <==> CoolingDown(s.g, s.log, s.clock))
    ensures Inv(Answer(s, c))
  {
    var e := if s.mode == ModeOpen then Rejected(s.clock) else Admitted(s.clock);
    InvIsAtRest(s);
    Reads(s.log, e);
    Extend(s.g, s.log, e);
    SameOpenings(s.g, s.log, e, s.clock);
  }

  lemma AdmitKeepsInv(s: State, c: CallId, now: int, later: int)
    requires Inv(s) && Enabled(s, Admit(c, now, later))
    ensures Inv(Apply(s, Admit(c, now, later)))
  {
    LaterCheck(s, now, later);
    AnswerKeepsInv(CheckTransition(s, now, later), c);
  }

  /** After an answer is logged and before it is acted on: the law and the times still hold, the
      counters are those from before the answer. */
  ghost predicate Logged(s: State, was: State, ok: bool) {
    && Positive(s.g) && LawAbiding(s.g, s.log) && TimesAgree(s) && JustReturned(s.log, ok)
    && s.g == was.g && s.mode == was.mode == ModeOf(s.log) && s.fails == was.fails && s.succs == was.succs
    && FailuresInARow(s.log) == (if ok then 0 else 1 + FailuresInARow(was.log))
    && SuccessesInTrial(s.log) == (if ok then 1 else 0) + SuccessesInTrial(was.log)
  }

  lemma LeaveLogs(s: State, c: CallId, ok: bool, now: int)
    requires Inv(s) && Enabled(s, Return(c, ok, now))
    ensures Logged(Leave(s, c, ok, now), s, ok)
  {
    var r := Returned(ok, now);
    InvIsAtRest(s);
    Extend(s.g, s.log, r);
    Reads(s.log, r);
    SameOpenings(s.g, s.log, r, now);
  }

  lemma CloseKeepsInv(s: State, now: int)
    requires Positive(s.g) && LawAbiding(s.g, s.log) && TimesAgree(s) && s.clock == now && ClosingDue(s.g, s.log)
    requires s.mode == ModeHalfOpen
    ensures Inv(s.(mode := ModeClosed, fails := 0, succs := 0, changed := now, log := s.log + [Closed(now)]))
  {
    Reads(s.log, Closed(now));
    Extend(s.g, s.log, Closed(now));
    SameOpenings(s.g, s.log, Closed(now), now);
  }

  lemma OpenKeepsInv(s: State, fails: nat, now: int)
    requires Positive(s.g) && LawAbiding(s.g, s.log) && TimesAgree(s) && s.clock == now && OpeningDue(s.g, s.log)
    ensures Inv(s.(mode := ModeOpen, fails := fails, succs := 0, changed := now, log := s.log + [Opened(now)]))
  {
    Reads(s.log, Opened(now));
    Extend(s.g, s.log, Opened(now));
    assert (s.log + [Opened(now)])[|s.log|] == Opened(now);
  }

  lemma SuccessKeepsInv(s: State, was: State, now: int)
    requires Inv(was) && Logged(s, was, true) && s.clock == now
    ensures Inv(RecordSuccess(s, now))
  {
    if s.mode == ModeHalfOpen && s.succs + 1 >= s.g.successThreshold { CloseKeepsInv(s, now); }
  }

  lemma FailureKeepsInv(s: State, was: State, now: int)
    requires Inv(was) && Logged(s, was, false) && s.clock == now
    ensures Inv(RecordFailure(s, now))
  {
    match s.mode
    case ModeHalfOpen =>
      OpenKeepsInv(s, s.fails, now);
    case ModeClosed =>
      if s.fails + 1 >= s.g.failureThreshold { OpenKeepsInv(s, s.fails + 1, now); }
    case ModeOpen =>
  }

  lemma ReturnKeepsInv(s: State, c: CallId, ok: bool, now: int)
    requires Inv(s) && Enabled(s, Return(c, ok, now))
    ensures Inv(Apply(s, Return(c, ok, now)))
  {
    var s1 := Leave(s, c, ok, now);
    LeaveLogs(s, c, ok, now);
    if ok {
      SuccessKeepsInv(s1, s, now);
    } else {
      FailureKeepsInv(s1, s, now);
    }
  }

  lemma StepKeepsInv(s: State, e: Event)
    requires Inv(s) && Enabled(s, e)
    ensures Inv(Apply(s, e)) && Apply(s, e).g == s.g
  {
    match e
    case Query(now, later) => LaterCheck(s, now, later);
    case Admit(c, now, later) => AdmitKeepsInv(s, c, now, later);
    case Return(c, ok, now) => ReturnKeepsInv(s, c, ok, now);
  }

  lemma {:induction false} RunKeepsInv(s: State, es: seq<Event>, s': State)
    requires Inv(s) && IsRun(s, es, s')
    ensures Inv(s') && s'.g == s.g
    decreases |es|
  {
    if es != [] {
      StepKeepsInv(s, es[0]);
      RunKeepsInv(Apply(s, es[0]), es[1..], s');
    }
  }

  lemma InitInv(g: Config, start: int)
    requires Positive(g)
    ensures Inv(Init(g, start))
  {
  }

  // ---- What every interleaving guarantees ------------------------------------------------------

  /** Everything the breaker does follows the rules, and nothing that is due is left undone. */
  lemma FollowsTheRules(g: Config, start: int, es: seq<Event>, s: State)
    requires Positive(g) && IsRun(Init(g, start), es, s)
    ensures LawAbiding(g, s.log) && AtRest(g, s.log)
  {
    InitInv(g, start);
    RunKeepsInv(Init(g, start), es, s);
    InvIsAtRest(s);
  }

  /** The counters stay under their thresholds and count what has been seen. */
  lemma CountersCount(g: Config, start: int, es: seq<Event>, s: State)
    requires Positive(g) && IsRun(Init(g, start), es, s)
    ensures s.mode == ModeOf(s.log)
    ensures s.mode == ModeClosed ==> s.fails == FailuresInARow(s.log) && s.fails < g.failureThreshold
    ensures s.mode == ModeHalfOpen ==> s.succs == SuccessesInTrial(s.log) && s.succs < g.successThreshold
    ensures s.mode != ModeHalfOpen ==> s.succs == 0
  {
    InitInv(g, start);
    RunKeepsInv(Init(g, start), es, s);
  }

  /** A call is turned away exactly when the breaker opened less than a cooldown ago. */
  lemma RejectedExactlyInCooldown(g: Config, start: int, es: seq<Event>, s: State, c: CallId, now: int, later: int)
    requires Positive(g) && IsRun(Init(g, start), es, s) && Enabled(s, Admit(c, now, later))
    ensures c !in Apply(s, Admit(c, now, later)).pending <==> CoolingDown(g, s.log, now)
  {
    InitInv(g, start);
    RunKeepsInv(Init(g, start), es, s);
    LaterCheck(s, now, later);
  }

  /** Whatever overlaps, no admission follows an opening by less than the cooldown. */
  lemma NoAdmissionInCooldown(g: Config, start: int, es: seq<Event>, s: State, i: nat, j: nat)
    requires Positive(g) && IsRun(Init(g, start), es, s)
    requires i < j < |s.log| && s.log[i].Opened? && s.log[j].Admitted?
    ensures s.log[j].at - s.log[i].at >= g.cooldown
  {
    FollowsTheRules(g, start, es, s);
    assert Lawful(g, s.log[..j], s.log[j]);
    assert s.log[..j][i] == s.log[i];
  }

  // ---- Late answers ---------------------------------------------------------------------------

  /** Every call in flight was admitted since the breaker last became half-open. */
  ghost predicate OnlyProbes(s: State) {
    forall c :: c in s.pending ==> s.pending[c] == s.epoch
  }

  lemma {:induction false} ProbesStayProbes(s: State, es: seq<Event>, s': State)
    requires OnlyProbes(s) && IsRun(s, es, s')
    ensures s.epoch <= s'.epoch
    ensures s'.epoch == s.epoch ==> OnlyProbes(s') && s'.lateOks == s.lateOks && s'.lateErrs == s.lateErrs
    decreases |es|
  {
    if es != [] {
      var s1 := Apply(s, es[0]);
      if s1.epoch == s.epoch {
        ProbeStep(s, es[0]);
        ProbesStayProbes(s1, es[1..], s');
      } else {
        EpochsGrow(s1, es[1..], s');
      }
    }
  }

  lemma ProbeStep(s: State, e: Event)
    requires OnlyProbes(s) && Enabled(s, e)
    ensures var s' := Apply(s, e);
      s'.epoch == s.epoch ==> OnlyProbes(s') && s'.lateOks == s.lateOks && s'.lateErrs == s.lateErrs
  {
  }

  lemma {:induction false} EpochsGrow(s: State, es: seq<Event>, s': State)
    requires IsRun(s, es, s')
    ensures s.epoch <= s'.epoch
    decreases |es|
  {
    if es != [] {
      EpochsGrow(Apply(s, es[0]), es[1..], s');
    }
  }

  ghost predicate CountsNoLateOk(s: State, es: seq<Event>, s': State) {
    IsRun(s, es, s') && s'.epoch == s.epoch ==> s'.lateOks == s.lateOks
  }

  ghost predicate CountsNoLateErr(s: State, es: seq<Event>, s': State) {
    IsRun(s, es, s') && s'.epoch == s.epoch ==> s'.lateErrs == s.lateErrs
  }

  /** A half-open breaker does not ask when a call was admitted whose answer it takes. The successes
      it counts are all those of its own trial calls exactly when no older call is still in flight;
      and exactly then it can be reopened by the failure of a trial call only. */
  lemma TrialCountsProbesExactlyWhen(s: State)
    requires s.mode == ModeHalfOpen
    ensures (forall es, s' :: CountsNoLateOk(s, es, s')) <==> OnlyProbes(s)
    ensures (forall es, s' :: CountsNoLateErr(s, es, s')) <==> OnlyProbes(s)
  {
    if OnlyProbes(s) {
      forall es, s'
        ensures CountsNoLateOk(s, es, s') && CountsNoLateErr(s, es, s')
      {
        if IsRun(s, es, s') { ProbesStayProbes(s, es, s'); }
      }
    } else {
      var c :| c in s.pending && s.pending[c] != s.epoch;
      TakesLateAnswers(s, c);
      var ok, err := Return(c, true, s.clock), Return(c, false, s.clock);
      assert !CountsNoLateOk(s, [ok], Apply(s, ok));
      assert !CountsNoLateErr(s, [err], Apply(s, err));
    }
  }

  /** A late success brings it nearer to closing, or closes it; a late failure opens it. */
  lemma TakesLateAnswers(s: State, c: CallId)
    requires TakesLate(s, c)
    ensures var ok := Return(c, true, s.clock);
      var s' := Apply(s, ok);
      && IsRun(s, [ok], s') && s'.epoch == s.epoch && s'.lateOks == s.lateOks + 1
      && (s'.mode == ModeClosed || (s'.mode == ModeHalfOpen && s'.succs == s.succs + 1))
    ensures var err := Return(c, false, s.clock);
      var s' := Apply(s, err);
      IsRun(s, [err], s') && s'.epoch == s.epoch && s'.lateErrs == s.lateErrs + 1 && s'.mode == ModeOpen
  {
    var ok, err := Return(c, true, s.clock), Return(c, false, s.clock);
    assert [ok][1..] == [] && [err][1..] == [];
  }

  /** Two calls, one of which fails and opens the breaker; after the cooldown it is half-open. */
  ghost function TwoCalls(cooldown: int): seq<Event> {
    [Admit(1, 0, 0), Admit(2, 0, 0), Return(2, false, 0), Query(cooldown, cooldown)]
  }

  /** So it happens: with the other call still in flight, its success closes the breaker, no trial
      call having been made at all, and its failure opens it once more. */
  lemma LateAnswerCloses(cooldown: int)
    requires cooldown > 0
    ensures exists s :: IsRun(Init(Config(1, 1, cooldown), 0), TwoCalls(cooldown), s) && CanBeClosedLate(s, 1)
  {
    var s0 := Init(Config(1, 1, cooldown), 0);
    var s1 := Apply(s0, Admit(1, 0, 0));
    var s2 := Apply(s1, Admit(2, 0, 0));
    var s3 := Apply(s2, Return(2, false, 0));
    var s4 := Apply(s3, Query(cooldown, cooldown));
    assert CanBeClosedLate(s4, 1);
    var es := TwoCalls(cooldown);
    assert IsRun(s4, es[1..][1..][1..][1..], s4);
    assert IsRun(s3, es[1..][1..][1..], s4);
    assert IsRun(s2, es[1..][1..], s4);
    assert IsRun(s1, es[1..], s4);
  }

  ghost predicate CanBeClosedLate(s: State, c: CallId) {
    && TakesLate(s, c)
    && Apply(s, Return(c, true, s.clock)).mode == ModeClosed
    && Apply(s, Return(c, false, s.clock)).mode == ModeOpen
  }

  // ---- The code -------------------------------------------------------------------------------

  class CircuitBreaker {
    const config: Config
    var state: Mode
    var consecutiveFails: nat
    var consecutiveSuccess: nat
    var lastStateChange: int
    ghost var clock: int
    ghost var pending: map<CallId, nat>
    ghost var epoch: nat
    ghost var lateOks: nat
    ghost var lateErrs: nat
    ghost var log: seq<Entry>

    ghost function View(): State
      reads this
    {
      State(config, state, consecutiveFails, consecutiveSuccess, lastStateChange, clock, pending, epoch,
            lateOks, lateErrs, log)
    }

    constructor (cfg: Config, now: int)
      ensures Positive(config) && View() == Init(config, now)
      ensures config.failureThreshold == if cfg.failureThreshold <= 0 then 5 else cfg.failureThreshold
      ensures config.successThreshold == if cfg.successThreshold <= 0 then 2 else cfg.successThreshold
      ensures config.cooldown == if cfg.cooldown <= 0 then 10_000_000_000 else cfg.cooldown
    {
      var g := cfg;
      if g.failureThreshold <= 0 {
        g := g.(failureThreshold := 5);
      }
      if g.successThreshold <= 0 {
        g := g.(successThreshold := 2);
      }
      if g.cooldown <= 0 {
        g := g.(cooldown := 10_000_000_000);
      }
      config, state, consecutiveFails, consecutiveSuccess, lastStateChange := g, ModeClosed, 0, 0, now;
      clock, pending, epoch, lateOks, lateErrs, log := now, map[], 0, 0, 0, [];
    }

    /** The two readings of the clock are `now` and, if it comes to that, `later`. */
    method CheckStateTransitionLocked(now: int, later: int)
      modifies this
      ensures View() == CheckTransition(old(View()), now, later)
    {
      clock := now;
      if state == ModeOpen && now - lastStateChange >= config.cooldown {
        state := ModeHalfOpen;
        consecutiveSuccess := 0;
        consecutiveFails := 0;
        lastStateChange := later;
        clock, epoch, log := later, epoch + 1, log + [HalfOpened(later)];
      }
    }

    /** `State`. */
    method Query(now: int, later: int) returns (r: Mode)
      requires Enabled(View(), Event.Query(now, later))
      modifies this
      ensures View() == Apply(old(View()), Event.Query(now, later)) && r == state
    {
      CheckStateTransitionLocked(now, later);
      r := state;
    }

    /** `Execute` before the protected call; without admission it returns the open-circuit error. */
    method Admit(ghost c: CallId, now: int, later: int) returns (admitted: bool)
      requires Enabled(View(), Event.Admit(c, now, later))
      modifies this
      ensures View() == Apply(old(View()), Event.Admit(c, now, later))
      ensures admitted <==> c in pending
    {
      CheckStateTransitionLocked(now, later);
      if state == ModeOpen {
        log := log + [Rejected(clock)];
        return false;
      }
      pending, log := pending[c := epoch], log + [Admitted(clock)];
      return true;
    }

    /** `Execute` after the protected call. */
    method Return(ghost c: CallId, ok: bool, now: int)
      requires Enabled(View(), Event.Return(c, ok, now))
      modifies this
      ensures View() == Apply(old(View()), Event.Return(c, ok, now))
    {
      ghost var left := Leave(View(), c, ok, now);
      lateOks, lateErrs := left.lateOks, left.lateErrs;
      clock, pending, log := now, pending - {c}, log + [Returned(ok, now)];
      if ok {
        RecordSuccessLocked(now);
      } else {
        RecordFailureLocked(now);
      }
    }

    method RecordFailureLocked(now: int)
      modifies this
      ensures View() == RecordFailure(old(View()), now)
    {
      match state
      case ModeClosed =>
        consecutiveFails := consecutiveFails + 1;
        if consecutiveFails >= config.failureThreshold {
          state := ModeOpen;
          lastStateChange := now;
          log := log + [Opened(now)];
        }
      case ModeHalfOpen =>
        state := ModeOpen;
        lastStateChange := now;
        consecutiveSuccess := 0;
        log := log + [Opened(now)];
      case ModeOpen =>
    }

    method RecordSuccessLocked(now: int)
      modifies this
      ensures View() == RecordSuccess(old(View()), now)
    {
      match state
      case ModeHalfOpen =>
        consecutiveSuccess := consecutiveSuccess + 1;
        if consecutiveSuccess >= config.successThreshold {
          state := ModeClosed;
          consecutiveFails := 0;
          consecutiveSuccess := 0;
          lastStateChange := now;
          log := log + [Closed(now)];
        }
      case ModeClosed =>
        consecutiveFails := 0;
      case ModeOpen =>
    }
  }
}
