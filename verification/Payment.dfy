/** `PaymentStateMachine` of `patterns/23_dataintegrity/state_machine.go`. */
module PaymentStates {
  import opened Common

  /** A state is a string; `Other` is any string but the five constants. */
  datatype PaymentState = Pending | Processing | Succeeded | Failed | Refunded | Other(name: string)

  function Name(s: PaymentState): string {
    match s
    case Pending => "PENDING"
    case Processing => "PROCESSING"
    case Succeeded => "SUCCEEDED"
    case Failed => "FAILED"
    case Refunded => "REFUNDED"
    case Other(name) => name
  }

  function AllowedFrom(s: PaymentState): set<PaymentState> {
    match s
    case Pending => {Processing, Failed}
    case Processing => {PaymentState.Succeeded, Failed}
    case Succeeded => {Refunded}
    case Failed => {}
    case Refunded => {}
    case Other(_) => {}
  }

  /** The transitions there are: these five and no others. */
  lemma TransitionsAre(s: PaymentState, target: PaymentState)
    ensures target in AllowedFrom(s) <==>
      || (s == Pending && target == Processing)
      || (s == Pending && target == PaymentState.Failed)
      || (s == Processing && target == PaymentState.Succeeded)
      || (s == Processing && target == PaymentState.Failed)
      || (s == PaymentState.Succeeded && target == Refunded)
  {
  }

  function Next(s: PaymentState, target: PaymentState): PaymentState {
    if target in AllowedFrom(s) then target else s
  }

  /** The state after asking for `targets` one after another, refusals included. */
  function After(s: PaymentState, targets: seq<PaymentState>): PaymentState
    decreases |targets|
  {
    if targets == [] then s else After(Next(s, targets[0]), targets[1..])
  }

  /** Whatever is asked for, a payment that failed or was refunded, or is in no known state, stays so;
      money that was taken is only ever given back by a refund, and nothing is refunded that was not
      taken. */
  lemma {:induction false} OutcomesAreFinal(s: PaymentState, targets: seq<PaymentState>)
    ensures s.Failed? || s.Refunded? || s.Other? ==> After(s, targets) == s
    ensures s.Succeeded? ==> After(s, targets) == s || After(s, targets).Refunded?
    ensures (s.Pending? || s.Processing?) && After(s, targets).Refunded? ==>
      exists i :: 0 <= i < |targets| && After(s, targets[..i]).Succeeded? && targets[i].Refunded?
    decreases |targets|
  {
    if targets != [] {
      var s' := Next(s, targets[0]);
      OutcomesAreFinal(s', targets[1..]);
      if (s.Pending? || s.Processing?) && After(s, targets).Refunded? {
        if s'.Succeeded? {
          RefundFollowsSuccess(s', targets[1..]);
          var i :| 0 <= i < |targets[1..]| && After(s', targets[1..][..i]).Succeeded? && targets[1..][i].Refunded?;
          AfterFirst(s, targets, i);
        } else {
          var i :| 0 <= i < |targets[1..]| && After(s', targets[1..][..i]).Succeeded? && targets[1..][i].Refunded?;
          AfterFirst(s, targets, i);
        }
      }
    }
  }

  /** The first request, then `i` more. */
  lemma AfterFirst(s: PaymentState, targets: seq<PaymentState>, i: nat)
    requires i < |targets| - 1
    ensures After(s, targets[..i + 1]) == After(Next(s, targets[0]), targets[1..][..i])
    ensures targets[i + 1] == targets[1..][i]
  {
    assert targets[..i + 1][0] == targets[0] && targets[..i + 1][1..] == targets[1..][..i];
  }

  lemma {:induction false} RefundFollowsSuccess(s: PaymentState, targets: seq<PaymentState>)
    requires s.Succeeded? && After(s, targets).Refunded?
    ensures exists i :: 0 <= i < |targets| && After(s, targets[..i]).Succeeded? && targets[i].Refunded?
    decreases |targets|
  {
    if targets[0].Refunded? {
      assert After(s, targets[..0]).Succeeded?;
    } else {
      RefundFollowsSuccess(s, targets[1..]);
      var i :| 0 <= i < |targets[1..]| && After(s, targets[1..][..i]).Succeeded? && targets[1..][i].Refunded?;
      AfterFirst(s, targets, i);
    }
  }

  datatype StateError = InvalidStateTransition

  class PaymentStateMachine {
    var currentState: PaymentState

    /** The empty string stands for no choice. */
    constructor (initial: PaymentState)
      ensures currentState == if initial == Other("") then Pending else initial
    {
      currentState := if initial == Other("") then Pending else initial;
    }

    method TransitionTo(target: PaymentState) returns (r: Result<(), StateError>)
      modifies this
      ensures currentState == Next(old(currentState), target)
      ensures r.Ok? <==> target in AllowedFrom(old(currentState))
      ensures r.Ok? ==> currentState == target
      ensures r.Err? ==> currentState == old(currentState)
    {
      if target !in AllowedFrom(currentState) {
        return Err(InvalidStateTransition);
      }
      currentState := target;
      return Ok(());
    }
  }
}

/** `ProcessPayment` of `patterns/26_advanced/idempotent_payment_pipeline.go` as a protocol.

    The two critical sections, the gateway call between them and the deferred clearing of the
    in-flight mark are separate steps; the gateway fails or answers with a charge id as it likes. */
module PaymentPipeline {
  import opened Common
  import opened PaymentStates

  type Key = string
  type Tid = nat

  datatype Request = Request(key: Key, amount: int, customer: string)
  datatype Response = Response(paymentId: string, status: string, amount: int)
  datatype PayError = KeyRequired | InFlight | ChargeFailed(reason: string)
  type Outcome = Result<Response, PayError>

  datatype Pc =
    | Charging(req: Request)                    // gateway call in progress
    | Caching(req: Request, resp: Response)     // charged, response not yet cached
    | Clearing(req: Request, outcome: Outcome)  // before the deferred delete
    | Done(req: Request, outcome: Outcome)

  /** A charge the gateway carried out. */
  datatype Charge = Charge(id: string, customer: string, amount: int)

  datatype State = State(
    idempotency: map<Key, Response>,
    inFlight: set<Key>,
    pc: map<Tid, Pc>,
    charged: map<Key, seq<Charge>>)             // history: successful charges by key

  datatype Event =
    | Submit(t: Tid, req: Request)
    | GatewayFails(t: Tid, reason: string)
    | GatewayCharges(t: Tid, id: string)
    | CacheResponse(t: Tid)
    | Clear(t: Tid)

  function Init(): State { State(map[], {}, map[], map[]) }

  function Charges(s: State, k: Key): seq<Charge> {
    if k in s.charged then s.charged[k] else []
  }

  /** The response built after a successful charge, its status read off the state machine. */
  function ResponseFor(id: string, amount: int): Response {
    Response(id, Name(After(Pending, [Processing, PaymentState.Succeeded])), amount)
  }

  predicate Enabled(s: State, e: Event) {
    match e
    case Submit(t, req) => t !in s.pc
    case GatewayFails(t, _) => t in s.pc && s.pc[t].Charging?
    case GatewayCharges(t, _) => t in s.pc && s.pc[t].Charging?
    case CacheResponse(t) => t in s.pc && s.pc[t].Caching?
    case Clear(t) => t in s.pc && s.pc[t].Clearing?
  }

  function Apply(s: State, e: Event): State
    requires Enabled(s, e)
  {
    match e
    case Submit(t, req) =>
      if req.key == "" then s.(pc := s.pc[t := Done(req, Err(KeyRequired))])
      else if req.key in s.idempotency then s.(pc := s.pc[t := Done(req, Ok(s.idempotency[req.key]))])
      else if req.key in s.inFlight then s.(pc := s.pc[t := Done(req, Err(InFlight))])
      else s.(inFlight := s.inFlight + {req.key}, pc := s.pc[t := Charging(req)])
    case GatewayFails(t, reason) =>
      s.(pc := s.pc[t := Clearing(s.pc[t].req, Err(ChargeFailed(reason)))])
    case GatewayCharges(t, id) =>
      var req := s.pc[t].req;
      s.(pc := s.pc[t := Caching(req, ResponseFor(id, req.amount))],
         charged := s.charged[req.key := Charges(s, req.key) + [Charge(id, req.customer, req.amount)]])
    case CacheResponse(t) =>
      var req, resp := s.pc[t].req, s.pc[t].resp;
      s.(idempotency := s.idempotency[req.key := resp], pc := s.pc[t := Clearing(req, Ok(resp))])
    case Clear(t) =>
      var req := s.pc[t].req;
      s.(inFlight := s.inFlight - {req.key}, pc := s.pc[t := Done(req, s.pc[t].outcome)])
  }

  ghost predicate IsRun(s: State, es: seq<Event>, s': State)
    decreases |es|
  {
    if es == [] then s == s'
    else Enabled(s, es[0]) && IsRun(Apply(s, es[0]), es[1..], s')
  }

  /** Between setting the in-flight mark of `k` and clearing it. */
  predicate IsActive(s: State, t: Tid, k: Key) {
    t in s.pc && !s.pc[t].Done? && s.pc[t].req.key == k
  }

  predicate IsCharging(s: State, t: Tid, k: Key) {
    t in s.pc && s.pc[t].Charging? && s.pc[t].req.key == k
  }

  predicate IsAnswered(s: State, t: Tid, k: Key) {
    t in s.pc && s.pc[t].Done? && s.pc[t].req.key == k
  }

  ghost predicate SomeoneActive(s: State, k: Key) {
    exists t :: IsActive(s, t, k)
  }

  // ---- The invariant ----

  ghost predicate MarksOk(s: State) {
    && (forall k :: k in s.inFlight <==> SomeoneActive(s, k))
    && (forall k, t, u :: IsActive(s, t, k) && IsActive(s, u, k) ==> t == u)
  }

  ghost predicate Cached(s: State, k: Key, resp: Response) {
    && k in s.idempotency && s.idempotency[k] == resp
    && |Charges(s, k)| == 1 && resp == ResponseFor(Charges(s, k)[0].id, Charges(s, k)[0].amount)
  }

  ghost predicate PcOk(s: State, t: Tid)
    requires t in s.pc
  {
    match s.pc[t]
    case Charging(req) => req.key !in s.idempotency && Charges(s, req.key) == []
    case Caching(req, resp) =>
      && req.key !in s.idempotency
      && Charges(s, req.key) == [Charge(resp.paymentId, req.customer, req.amount)]
      && resp == ResponseFor(resp.paymentId, req.amount)
    case Clearing(req, Ok(resp)) => Cached(s, req.key, resp)
    case Clearing(req, Err(_)) => req.key !in s.idempotency && Charges(s, req.key) == []
    case Done(req, Ok(resp)) => Cached(s, req.key, resp)
    case Done(req, Err(_)) => true
  }

  ghost predicate ChargesOk(s: State) {
    && (forall t :: t in s.pc ==> PcOk(s, t))
    && (forall k :: k in s.idempotency ==> Cached(s, k, s.idempotency[k]))
    && (forall k :: k !in s.idempotency && !SomeoneActive(s, k) ==> Charges(s, k) == [])
  }

  ghost predicate Inv(s: State) { MarksOk(s) && ChargesOk(s) }

  lemma SubmitKeepsMarks(s: State, t: Tid, req: Request)
    requires MarksOk(s) && Enabled(s, Submit(t, req))
    ensures var s' := Apply(s, Submit(t, req));
      MarksOk(s') && forall k :: SomeoneActive(s, k) ==> SomeoneActive(s', k)
  {
    var s' := Apply(s, Submit(t, req));
    forall k ensures SomeoneActive(s', k) <==> SomeoneActive(s, k) || (s'.pc[t].Charging? && k == req.key) {
      if u :| IsActive(s, u, k) { assert IsActive(s', u, k); }
      if u :| IsActive(s', u, k) { assert u != t ==> IsActive(s, u, k); }
      if s'.pc[t].Charging? && k == req.key { assert IsActive(s', t, k); }
    }
    forall k, u, v | IsActive(s', u, k) && IsActive(s', v, k) ensures u == v {
      assert u != t ==> IsActive(s, u, k) && SomeoneActive(s, k);
      assert v != t ==> IsActive(s, v, k) && SomeoneActive(s, k);
    }
  }

  lemma SubmitKeepsCharges(s: State, t: Tid, req: Request)
    requires ChargesOk(s) && Enabled(s, Submit(t, req))
    requires req.key !in s.inFlight ==> !SomeoneActive(s, req.key)
    requires forall k :: SomeoneActive(s, k) ==> SomeoneActive(Apply(s, Submit(t, req)), k)
    ensures ChargesOk(Apply(s, Submit(t, req)))
  {
    var s' := Apply(s, Submit(t, req));
    forall u | u in s'.pc ensures PcOk(s', u) {
      if u != t { assert PcOk(s, u); }
    }
    forall k | k in s'.idempotency ensures Cached(s', k, s'.idempotency[k]) {
      assert Cached(s, k, s.idempotency[k]);
    }
  }

  lemma SubmitKeepsInv(s: State, t: Tid, req: Request)
    requires Inv(s) && Enabled(s, Submit(t, req))
    ensures Inv(Apply(s, Submit(t, req)))
  {
    SubmitKeepsMarks(s, t, req);
    SubmitKeepsCharges(s, t, req);
  }

  /** Steps of an active goroutine that stays active keep the in-flight marks. */
  lemma SameMarks(s: State, s': State, t: Tid)
    requires MarksOk(s) && t in s.pc && !s.pc[t].Done?
    requires s'.inFlight == s.inFlight && t in s'.pc && s'.pc == s.pc[t := s'.pc[t]]
    requires !s'.pc[t].Done? && s'.pc[t].req == s.pc[t].req
    ensures MarksOk(s')
    ensures forall k :: SomeoneActive(s', k) <==> SomeoneActive(s, k)
  {
    forall u, k ensures IsActive(s', u, k) <==> IsActive(s, u, k) {}
    forall k ensures SomeoneActive(s', k) <==> SomeoneActive(s, k) {
      if u :| IsActive(s, u, k) { assert IsActive(s', u, k); }
      if u :| IsActive(s', u, k) { assert IsActive(s, u, k); }
    }
  }

  /** What `t` does to its own key concerns nobody else who is active. */
  lemma OthersHaveOtherKeys(s: State, t: Tid, u: Tid)
    requires MarksOk(s) && t in s.pc && !s.pc[t].Done? && u in s.pc && !s.pc[u].Done? && t != u
    ensures s.pc[t].req.key != s.pc[u].req.key
  {
    assert IsActive(s, t, s.pc[t].req.key) && IsActive(s, u, s.pc[u].req.key);
  }

  /** What the step of an active goroutine does to its own key. */
  lemma GatewayKeepsOwn(s: State, t: Tid, e: Event)
    requires Enabled(s, e) && (e.GatewayFails? || e.GatewayCharges? || e.CacheResponse?) && e.t == t
    requires PcOk(s, t)
    ensures PcOk(Apply(s, e), t)
  {
  }

  /** It does not concern the positions of the others. */
  lemma GatewayKeepsOthers(s: State, t: Tid, e: Event, u: Tid)
    requires MarksOk(s) && Enabled(s, e) && t in s.pc && u in s.pc && u != t && PcOk(s, u)
    requires (e.GatewayFails? || e.GatewayCharges? || e.CacheResponse?) && e.t == t && PcOk(s, t)
    ensures PcOk(Apply(s, e), u)
  {
    if !s.pc[u].Done? { OthersHaveOtherKeys(s, t, u); }
  }

  lemma GatewayKeepsCache(s: State, t: Tid, e: Event)
    requires ChargesOk(s) && Enabled(s, e) && t in s.pc
    requires (e.GatewayFails? || e.GatewayCharges? || e.CacheResponse?) && e.t == t && PcOk(s, t)
    ensures var s' := Apply(s, e); forall k :: k in s'.idempotency ==> Cached(s', k, s'.idempotency[k])
  {
    var s' := Apply(s, e);
    forall k | k in s'.idempotency ensures Cached(s', k, s'.idempotency[k]) {
      if k in s.idempotency { assert Cached(s, k, s.idempotency[k]); }
    }
  }

  lemma GatewayKeepsInv(s: State, t: Tid, e: Event)
    requires Inv(s) && Enabled(s, e)
    requires (e.GatewayFails? || e.GatewayCharges? || e.CacheResponse?) && e.t == t
    ensures Inv(Apply(s, e))
  {
    var s' := Apply(s, e);
    SameMarks(s, s', t);
    assert PcOk(s, t) && IsActive(s, t, s.pc[t].req.key);
    assert SomeoneActive(s, s.pc[t].req.key);
    GatewayKeepsOwn(s, t, e);
    GatewayKeepsCache(s, t, e);
    forall u | u in s'.pc && u != t ensures PcOk(s', u) {
      GatewayKeepsOthers(s, t, e, u);
    }
  }

  lemma ClearKeepsInv(s: State, t: Tid)
    requires Inv(s) && Enabled(s, Event.Clear(t))
    ensures Inv(Apply(s, Event.Clear(t)))
  {
    var s' := Apply(s, Event.Clear(t));
    var key := s.pc[t].req.key;
    assert PcOk(s, t) && IsActive(s, t, key);
    forall u, k | IsActive(s', u, k) ensures IsActive(s, u, k) && k != key {
      OthersHaveOtherKeys(s, t, u);
    }
    forall k ensures SomeoneActive(s', k) <==> SomeoneActive(s, k) && k != key {
      if u :| IsActive(s, u, k) { assert k != key ==> IsActive(s', u, k); }
    }
    forall u | u in s'.pc ensures PcOk(s', u) { assert PcOk(s, u); }
  }

  lemma StepKeepsInv(s: State, e: Event)
    requires Inv(s) && Enabled(s, e)
    ensures Inv(Apply(s, e))
  {
    match e
    case Submit(t, req) => SubmitKeepsInv(s, t, req);
    case Clear(t) => ClearKeepsInv(s, t);
    case _ => GatewayKeepsInv(s, e.t, e);
  }

  lemma {:induction false} RunKeepsInv(s: State, es: seq<Event>, s': State)
    requires Inv(s) && IsRun(s, es, s')
    ensures Inv(s')
    decreases |es|
  {
    if es != [] {
      StepKeepsInv(s, es[0]);
      RunKeepsInv(Apply(s, es[0]), es[1..], s');
    }
  }

  // ---- What every interleaving guarantees ----

  /** A customer is charged at most once per idempotency key and charges of one key never overlap. */
  lemma ChargedAtMostOnce(es: seq<Event>, s: State, k: Key)
    requires IsRun(Init(), es, s)
    ensures |Charges(s, k)| <= 1
    ensures forall t, u :: IsCharging(s, t, k) && IsCharging(s, u, k) ==> t == u
    ensures (exists t :: IsCharging(s, t, k)) ==> Charges(s, k) == []
  {
    RunKeepsInv(Init(), es, s);
    if k !in s.idempotency && SomeoneActive(s, k) {
      var t :| IsActive(s, t, k);
      assert PcOk(s, t);
    }
    forall t, u | IsCharging(s, t, k) && IsCharging(s, u, k) ensures t == u {
      assert IsActive(s, t, k) && IsActive(s, u, k);
    }
    forall t | IsCharging(s, t, k) ensures Charges(s, k) == [] { assert PcOk(s, t); }
  }

  /** All successful answers for a key are one and the same response: it reports the single charge
      that was made, with its amount and the status SUCCEEDED. */
  lemma AnswersReportTheCharge(es: seq<Event>, s: State, k: Key, t: Tid)
    requires IsRun(Init(), es, s) && IsAnswered(s, t, k) && s.pc[t].outcome.Ok?
    ensures |Charges(s, k)| == 1
    ensures var resp, c := s.pc[t].outcome.value, Charges(s, k)[0];
      resp.paymentId == c.id && resp.amount == c.amount && resp.status == "SUCCEEDED"
    ensures forall u :: IsAnswered(s, u, k) && s.pc[u].outcome.Ok? ==> s.pc[u].outcome == s.pc[t].outcome
  {
    RunKeepsInv(Init(), es, s);
    assert PcOk(s, t);
    assert After(Pending, [Processing, PaymentState.Succeeded]).Succeeded?;
    forall u | IsAnswered(s, u, k) && s.pc[u].outcome.Ok? ensures s.pc[u].outcome == s.pc[t].outcome {
      assert PcOk(s, u);
    }
  }

  /** What a new request is told depends on the key's past in exactly one way: it may charge iff it has
      a key, nobody is at work on it and no charge has succeeded, so a failed charge leaves the key
      free to try again; it is refused as concurrent only while somebody is at work, and for want of a
      key only if it has none. */
  lemma NewRequest(es: seq<Event>, s: State, t: Tid, req: Request)
    requires IsRun(Init(), es, s) && Enabled(s, Submit(t, req))
    ensures var p := Apply(s, Submit(t, req)).pc[t];
      && (p == Done(req, Err(KeyRequired)) <==> req.key == "")
      && (p == Charging(req) <==> req.key != "" && !SomeoneActive(s, req.key) && Charges(s, req.key) == [])
      && (p == Done(req, Err(InFlight)) <==> SomeoneActive(s, req.key) && req.key !in s.idempotency)
      && (p.Done? && p.outcome.Ok? <==> req.key in s.idempotency)
      && (p.Charging? || p.Done?)
  {
    RunKeepsInv(Init(), es, s);
    RunKeepsKeyless(Init(), es, s);
  }

  // ---- Requests without a key ----

  /** A request without a key is done with, and has left nothing behind. */
  ghost predicate Keyless(s: State) {
    && (forall t :: t in s.pc && s.pc[t].req.key == "" ==> s.pc[t] == Done(s.pc[t].req, Err(KeyRequired)))
    && "" !in s.idempotency && "" !in s.inFlight && Charges(s, "") == []
  }

  lemma StepKeepsKeyless(s: State, e: Event)
    requires Keyless(s) && Enabled(s, e)
    ensures Keyless(Apply(s, e))
  {
  }

  lemma {:induction false} RunKeepsKeyless(s: State, es: seq<Event>, s': State)
    requires Keyless(s) && IsRun(s, es, s')
    ensures Keyless(s')
    decreases |es|
  {
    if es != [] {
      StepKeepsKeyless(s, es[0]);
      RunKeepsKeyless(Apply(s, es[0]), es[1..], s');
    }
  }

  /** In no run is a request without a key ever charged, cached or in flight: it is answered with the
      error that says so. */
  lemma NoKeyNoCharge(es: seq<Event>, s: State)
    requires IsRun(Init(), es, s)
    ensures Charges(s, "") == [] && "" !in s.idempotency && "" !in s.inFlight
    ensures forall t :: t in s.pc && s.pc[t].req.key == "" ==> s.pc[t] == Done(s.pc[t].req, Err(KeyRequired))
  {
    RunKeepsKeyless(Init(), es, s);
  }

  // ---- What is charged ----

  /** `c` is what the request of some goroutine with key `k` asked for. */
  ghost predicate AskedFor(s: State, k: Key, c: Charge) {
    exists t :: t in s.pc && s.pc[t].req.key == k
      && s.pc[t].req.customer == c.customer && s.pc[t].req.amount == c.amount
  }

  ghost predicate AllAskedFor(s: State) {
    forall k, i :: 0 <= i < |Charges(s, k)| ==> AskedFor(s, k, Charges(s, k)[i])
  }

  lemma StaysAskedFor(s: State, s': State, k: Key, c: Charge)
    requires AskedFor(s, k, c) && forall t :: t in s.pc ==> t in s'.pc && s'.pc[t].req == s.pc[t].req
    ensures AskedFor(s', k, c)
  {
  }

  lemma StepKeepsAskedFor(s: State, e: Event)
    requires AllAskedFor(s) && Enabled(s, e)
    ensures AllAskedFor(Apply(s, e))
  {
    var s' := Apply(s, e);
    forall k, i | 0 <= i < |Charges(s', k)| ensures AskedFor(s', k, Charges(s', k)[i]) {
      if i < |Charges(s, k)| {
        StaysAskedFor(s, s', k, Charges(s, k)[i]);
      } else {
        assert s'.pc[e.t].req.key == k;
      }
    }
  }

  lemma {:induction false} RunKeepsAskedFor(s: State, es: seq<Event>, s': State)
    requires AllAskedFor(s) && IsRun(s, es, s')
    ensures AllAskedFor(s')
    decreases |es|
  {
    if es != [] {
      StepKeepsAskedFor(s, es[0]);
      RunKeepsAskedFor(Apply(s, es[0]), es[1..], s');
    }
  }

  /** Whoever is charged asked for it: customer and amount are those of a request with that key. */
  lemma ChargesWereAskedFor(es: seq<Event>, s: State, k: Key, i: nat)
    requires IsRun(Init(), es, s) && i < |Charges(s, k)|
    ensures exists t :: t in s.pc && s.pc[t].req == Request(k, Charges(s, k)[i].amount, Charges(s, k)[i].customer)
  {
    RunKeepsAskedFor(Init(), es, s);
    assert AskedFor(s, k, Charges(s, k)[i]);
  }

  /** A gateway failure is what its own request is told, whatever happens between. */
  lemma FailureIsReported(s: State, t: Tid, reason: string, es: seq<Event>, s': State)
    requires Enabled(s, GatewayFails(t, reason)) && IsRun(Apply(s, GatewayFails(t, reason)), es, s')
    ensures t in s'.pc && (s'.pc[t] == Clearing(s.pc[t].req, Err(ChargeFailed(reason)))
                           || s'.pc[t] == Done(s.pc[t].req, Err(ChargeFailed(reason))))
  {
    OutcomeStays(Apply(s, GatewayFails(t, reason)), es, s', t, s.pc[t].req, Err(ChargeFailed(reason)));
  }

  lemma {:induction false} OutcomeStays(
      s: State, es: seq<Event>, s': State, t: Tid, req: Request, outcome: Outcome)
    requires IsRun(s, es, s') && t in s.pc && (s.pc[t] == Clearing(req, outcome) || s.pc[t] == Done(req, outcome))
    ensures t in s'.pc && (s'.pc[t] == Clearing(req, outcome) || s'.pc[t] == Done(req, outcome))
    decreases |es|
  {
    if es != [] {
      OutcomeStays(Apply(s, es[0]), es[1..], s', t, req, outcome);
    }
  }

  // ---- The code ----

  class IdempotentPaymentPipeline {
    var idempotency: map<Key, Response>
    var inFlightKeys: set<Key>
    ghost var pc: map<Tid, Pc>
    ghost var charged: map<Key, seq<Charge>>

    ghost function View(): State
      reads this
    {
      State(idempotency, inFlightKeys, pc, charged)
    }

    constructor ()
      ensures View() == Init()
    {
      idempotency, inFlightKeys, pc, charged := map[], {}, map[], map[];
    }

    /** From the call to the release of the mutex: an answer, or None to go on and charge. */
    method Submit(ghost t: Tid, req: Request) returns (answer: Option<Outcome>)
      requires t !in pc
      modifies this
      ensures View() == Apply(old(View()), Event.Submit(t, req))
      ensures t in pc && pc[t] == match answer case Some(o) => Done(req, o) case None => Charging(req)
    {
      if req.key == "" {
        answer := Some(Err(KeyRequired));
      } else if req.key in idempotency {
        answer := Some(Ok(idempotency[req.key]));
      } else if req.key in inFlightKeys {
        answer := Some(Err(InFlight));
      } else {
        inFlightKeys := inFlightKeys + {req.key};
        answer := None;
      }
      pc := pc[t := match answer case Some(o) => Done(req, o) case None => Charging(req)];
    }

    /** After `gateway.Charge` has returned `charge`: the state machine and the response. */
    method GatewayReturns(ghost t: Tid, req: Request, charge: Result<string, string>) returns (outcome: Outcome)
      requires t in pc && pc[t] == Charging(req)
      modifies this
      ensures View() == Apply(old(View()), match charge
                                           case Ok(id) => GatewayCharges(t, id)
                                           case Err(reason) => GatewayFails(t, reason))
      ensures pc == old(pc)[t := if outcome.Ok? then Caching(req, outcome.value) else Clearing(req, outcome)]
    {
      var sm := new PaymentStateMachine(Pending);
      var _ := sm.TransitionTo(Processing);
      match charge
      case Err(reason) =>
        var _ := sm.TransitionTo(PaymentState.Failed);
        outcome := Err(ChargeFailed(reason));
        pc := pc[t := Clearing(req, outcome)];
      case Ok(id) =>
        var _ := sm.TransitionTo(PaymentState.Succeeded);
        outcome := Ok(Response(id, Name(sm.currentState), req.amount));
        charged := charged[req.key := Charges(View(), req.key) + [Charge(id, req.customer, req.amount)]];
        pc := pc[t := Caching(req, outcome.value)];
    }

    method CacheResponse(ghost t: Tid, req: Request, resp: Response)
      requires t in pc && pc[t] == Caching(req, resp)
      modifies this
      ensures View() == Apply(old(View()), Event.CacheResponse(t))
    {
      idempotency := idempotency[req.key := resp];
      pc := pc[t := Clearing(req, Ok(resp))];
    }

    /** The deferred function. */
    method Clear(ghost t: Tid, req: Request, ghost outcome: Outcome)
      requires t in pc && pc[t] == Clearing(req, outcome)
      modifies this
      ensures View() == Apply(old(View()), Event.Clear(t))
    {
      inFlightKeys := inFlightKeys - {req.key};
      pc := pc[t := Done(req, outcome)];
    }
  }
}
