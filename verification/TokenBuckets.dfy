/** The arithmetic shared by the token buckets of `patterns/09_concurrency/rate_limiter.go`,
    `patterns/08_httpclient/retry_budget.go` and `patterns/11_middleware/rate_limit_middleware.go`.

    Times are seconds and tokens are `real`; `time.Now()` is an input that never goes back. What a
    bucket earns over a stretch of time is a function `earn` here, `Earn(rate)` in the three users. */
module TokenBuckets {

  datatype Bucket = Bucket(tokens: real, lastRefill: real)

  /** A call at a time: one that asks for a token, or one that adds `amount`. */
  datatype Call = Take(at: real) | Deposit(at: real, amount: real)

  function Min(a: real, b: real): real { if a > b then b else a }

  function Refill(b: Bucket, earn: real -> real, max: real, now: real): Bucket {
    Bucket(Min(b.tokens + earn(now - b.lastRefill), max), now)
  }

  /** What a call does to a bucket that has just been refilled. */
  function Serve(r: Bucket, max: real, c: Call): (Bucket, bool) {
    match c
    case Take(_) => if r.tokens >= 1.0 then (r.(tokens := r.tokens - 1.0), true) else (r, false)
    case Deposit(_, amount) => (r.(tokens := Min(r.tokens + amount, max)), false)
  }

  function Step(b: Bucket, earn: real -> real, max: real, c: Call): (Bucket, bool) {
    Serve(Refill(b, earn, max, c.at), max, c)
  }

  function Run(b: Bucket, earn: real -> real, max: real, cs: seq<Call>): Bucket
    decreases |cs|
  {
    if cs == [] then b else Run(Step(b, earn, max, cs[0]).0, earn, max, cs[1..])
  }

  /** How many of the calls were given a token. */
  function Admitted(b: Bucket, earn: real -> real, max: real, cs: seq<Call>): nat
    decreases |cs|
  {
    if cs == [] then 0
    else
      var (b', ok) := Step(b, earn, max, cs[0]);
      (if ok then 1 else 0) + Admitted(b', earn, max, cs[1..])
  }

  function DepositOf(c: Call): real {
    if c.Deposit? then c.amount else 0.0
  }

  function Deposits(cs: seq<Call>): real
    decreases |cs|
  {
    if cs == [] then 0.0 else DepositOf(cs[0]) + Deposits(cs[1..])
  }

  lemma {:induction false} NoDeposits(cs: seq<Call>)
    requires forall i :: 0 <= i < |cs| ==> cs[i].Take?
    ensures Deposits(cs) == 0.0
    decreases |cs|
  {
    if cs != [] { NoDeposits(cs[1..]); }
  }

  /** Times do not go back and nothing negative is deposited. */
  ghost predicate Timely(start: real, cs: seq<Call>) {
    && (forall i :: 0 <= i < |cs| ==> start <= cs[i].at && (cs[i].Deposit? ==> cs[i].amount >= 0.0))
    && (forall i, j :: 0 <= i < j < |cs| ==> cs[i].at <= cs[j].at)
  }

  function LastAt(start: real, cs: seq<Call>): real {
    if cs == [] then start else cs[|cs| - 1].at
  }

  ghost predicate Filled(b: Bucket, max: real) {
    0.0 <= b.tokens <= max
  }

  // ---- Earning at a constant rate -------------------------------------------------------------

  function Earn(rate: real): real -> real {
    (dt: real) => dt * rate
  }

  ghost predicate AddsUp(earn: real -> real, x: real, y: real) {
    earn(x + y) == earn(x) + earn(y)
  }

  /** Nothing is lost between two stretches of time, and no stretch costs tokens. */
  ghost predicate Steady(earn: real -> real) {
    && (forall x, y :: AddsUp(earn, x, y))
    && (forall x :: x >= 0.0 ==> earn(x) >= 0.0)
  }

  lemma EarnIsSteady(rate: real)
    requires rate >= 0.0
    ensures Steady(Earn(rate))
  {
    forall x, y
      ensures AddsUp(Earn(rate), x, y)
    {
      Distributes(x, y, rate);
    }
  }

  lemma EarnIsProduct(rate: real, t: real)
    ensures Earn(rate)(t) == rate * t
  {
  }

  lemma Distributes(x: real, y: real, rate: real)
    ensures (x + y) * rate == x * rate + y * rate
  {
  }

  lemma MoreTimeEarnsMore(earn: real -> real, d: real, t: real)
    requires Steady(earn) && d <= t
    ensures earn(d) <= earn(t)
  {
    assert AddsUp(earn, d, t - d);
    assert d + (t - d) == t;
  }

  // ---- Runs -----------------------------------------------------------------------------------

  lemma StepKeepsFilled(b: Bucket, earn: real -> real, max: real, c: Call)
    requires Filled(b, max) && Steady(earn) && b.lastRefill <= c.at && DepositOf(c) >= 0.0
    ensures Filled(Step(b, earn, max, c).0, max) && Step(b, earn, max, c).0.lastRefill == c.at
  {
  }

  lemma {:induction false} RunStaysFilled(b: Bucket, earn: real -> real, max: real, cs: seq<Call>)
    requires Filled(b, max) && Steady(earn) && Timely(b.lastRefill, cs)
    ensures Filled(Run(b, earn, max, cs), max)
    ensures Run(b, earn, max, cs).lastRefill == LastAt(b.lastRefill, cs)
    decreases |cs|
  {
    if cs != [] {
      StepKeepsFilled(b, earn, max, cs[0]);
      RunStaysFilled(Step(b, earn, max, cs[0]).0, earn, max, cs[1..]);
    }
  }

  /** Tokens given out and tokens left never exceed what was there, earned and deposited. */
  lemma {:induction false} TokensComeFromSomewhere(b: Bucket, earn: real -> real, max: real, cs: seq<Call>)
    requires Steady(earn)
    ensures Admitted(b, earn, max, cs) as real + Run(b, earn, max, cs).tokens
      <= b.tokens + earn(LastAt(b.lastRefill, cs) - b.lastRefill) + Deposits(cs)
    decreases |cs|
  {
    if cs == [] {
      assert AddsUp(earn, 0.0, 0.0);
    } else {
      var b' := Step(b, earn, max, cs[0]).0;
      var last := LastAt(b.lastRefill, cs);
      TokensComeFromSomewhere(b', earn, max, cs[1..]);
      assert b'.lastRefill == cs[0].at && LastAt(b'.lastRefill, cs[1..]) == last;
      assert AddsUp(earn, last - cs[0].at, cs[0].at - b.lastRefill);
      assert (last - cs[0].at) + (cs[0].at - b.lastRefill) == last - b.lastRefill;
    }
  }

  /** The first call of a window sees at most a full bucket, whatever happened before it. */
  lemma FirstSeesFullBucket(b: Bucket, earn: real -> real, max: real, cs: seq<Call>)
    requires cs != [] && Steady(earn)
    ensures var full := Refill(b, earn, max, cs[0].at);
      full.tokens <= max && Admitted(b, earn, max, cs) == Admitted(full, earn, max, cs)
      && Run(b, earn, max, cs) == Run(full, earn, max, cs)
  {
    var full := Refill(b, earn, max, cs[0].at);
    assert AddsUp(earn, 0.0, 0.0);
    assert Refill(full, earn, max, cs[0].at) == full;
    assert Step(full, earn, max, cs[0]) == Step(b, earn, max, cs[0]);
  }

  lemma WindowFrom(b: Bucket, earn: real -> real, max: real, w: seq<Call>, t: real)
    requires Filled(b, max) && Steady(earn) && Timely(b.lastRefill, w)
    requires w != [] && w[|w| - 1].at - w[0].at <= t
    ensures Admitted(b, earn, max, w) as real <= max + earn(t) + Deposits(w)
  {
    FirstSeesFullBucket(b, earn, max, w);
    RunStaysFilled(b, earn, max, w);
    TokensComeFromSomewhere(Refill(b, earn, max, w[0].at), earn, max, w);
    MoreTimeEarnsMore(earn, w[|w| - 1].at - w[0].at, t);
  }

  /** The window law: in any run and any stretch of it that lasts at most `t` seconds, no more calls
      are admitted than the bucket holds, earns in `t` seconds and is given. */
  lemma WindowBound(b: Bucket, earn: real -> real, max: real, cs: seq<Call>, i: nat, j: nat, t: real)
    requires Filled(b, max) && Steady(earn) && Timely(b.lastRefill, cs)
    requires i < j <= |cs| && cs[j - 1].at - cs[i].at <= t
    ensures Admitted(Run(b, earn, max, cs[..i]), earn, max, cs[i..j]) as real
      <= max + earn(t) + Deposits(cs[i..j])
  {
    var b0 := Run(b, earn, max, cs[..i]);
    RunStaysFilled(b, earn, max, cs[..i]);
    assert b0.lastRefill <= cs[i].at;
    WindowFrom(b0, earn, max, cs[i..j], t);
  }

  // ---- Nothing is withheld --------------------------------------------------------------------

  /** `x` tokens, or what fits. */
  function Fitting(x: real, max: real): real {
    if x <= max then x else max
  }

  /** A call to the letter: it finds what was left and what has been earned since, as far as it fits; a
      take leaves one less if there is one, a deposit adds its amount as far as it fits; and the time is
      noted. */
  lemma StepSpelledOut(b: Bucket, earn: real -> real, max: real, c: Call)
    ensures var (b', ok), there := Step(b, earn, max, c), Fitting(b.tokens + earn(c.at - b.lastRefill), max);
      && b'.lastRefill == c.at
      && (c.Take? ==> (ok <==> there >= 1.0) && b'.tokens == (if ok then there - 1.0 else there))
      && (c.Deposit? ==> !ok && b'.tokens == Fitting(there + c.amount, max))
  {
  }

  /** A token is refused exactly if what was left and what has been earned since do not make one, or the
      bucket cannot hold one. */
  lemma RefusedExactlyWhen(b: Bucket, earn: real -> real, max: real, now: real, earned: real)
    requires earned == earn(now - b.lastRefill)
    ensures !Step(b, earn, max, Take(now)).1 <==> b.tokens + earned < 1.0 || max < 1.0
  {
  }

  /** The same at a constant rate. */
  lemma RefusedAtRateExactlyWhen(b: Bucket, rate: real, max: real, now: real)
    ensures !Step(b, Earn(rate), max, Take(now)).1 <==> b.tokens + rate * (now - b.lastRefill) < 1.0 || max < 1.0
  {
    var earned := rate * (now - b.lastRefill);
    EarnIsProduct(rate, now - b.lastRefill);
    RefusedExactlyWhen(b, Earn(rate), max, now, earned);
  }

  /** A take that comes long enough after the call before it to earn a token is admitted, whatever
      happened before. */
  lemma PacedIsAdmitted(b: Bucket, earn: real -> real, max: real, cs: seq<Call>, now: real)
    requires Filled(b, max) && Steady(earn) && max >= 1.0 && Timely(b.lastRefill, cs)
    requires earn(now - LastAt(b.lastRefill, cs)) >= 1.0
    ensures Step(Run(b, earn, max, cs), earn, max, Take(now)).1
  {
    RunStaysFilled(b, earn, max, cs);
    var b' := Run(b, earn, max, cs);
    RefusedExactlyWhen(b', earn, max, now, earn(now - b'.lastRefill));
  }

  /** In this run the bucket never has more than it holds, so nothing earned or deposited is lost. */
  ghost predicate NeverFull(b: Bucket, earn: real -> real, max: real, cs: seq<Call>)
    decreases |cs|
  {
    cs == [] ||
    (b.tokens + earn(cs[0].at - b.lastRefill) + DepositOf(cs[0]) <= max && DepositOf(cs[0]) >= 0.0
     && NeverFull(Step(b, earn, max, cs[0]).0, earn, max, cs[1..]))
  }

  lemma StepAccount(b: Bucket, earn: real -> real, max: real, c: Call)
    requires b.tokens + earn(c.at - b.lastRefill) + DepositOf(c) <= max && DepositOf(c) >= 0.0
    ensures var (b', ok) := Step(b, earn, max, c);
      b'.lastRefill == c.at
      && (if ok then 1.0 else 0.0) + b'.tokens == b.tokens + earn(c.at - b.lastRefill) + DepositOf(c)
  {
  }

  /** As long as the capacity is not reached, tokens given out and tokens left are exactly what was
      there, earned and deposited. */
  lemma {:induction false} ExactAccount(b: Bucket, earn: real -> real, max: real, cs: seq<Call>)
    requires Steady(earn) && NeverFull(b, earn, max, cs)
    ensures Admitted(b, earn, max, cs) as real + Run(b, earn, max, cs).tokens
      == b.tokens + earn(LastAt(b.lastRefill, cs) - b.lastRefill) + Deposits(cs)
    decreases |cs|
  {
    if cs == [] {
      assert AddsUp(earn, 0.0, 0.0);
    } else {
      var b' := Step(b, earn, max, cs[0]).0;
      var last := LastAt(b.lastRefill, cs);
      StepAccount(b, earn, max, cs[0]);
      ExactAccount(b', earn, max, cs[1..]);
      assert LastAt(b'.lastRefill, cs[1..]) == last;
      assert AddsUp(earn, last - cs[0].at, cs[0].at - b.lastRefill);
      assert (last - cs[0].at) + (cs[0].at - b.lastRefill) == last - b.lastRefill;
    }
  }

  lemma AccountFor(b: Bucket, earn: real -> real, max: real, cs: seq<Call>, earned: real)
    requires Steady(earn) && NeverFull(b, earn, max, cs) && earned == earn(LastAt(b.lastRefill, cs) - b.lastRefill)
    ensures Admitted(b, earn, max, cs) as real + Run(b, earn, max, cs).tokens == b.tokens + earned + Deposits(cs)
  {
    ExactAccount(b, earn, max, cs);
  }
}

module RateLimiter {
  import opened TokenBuckets

  class TokenBucketRateLimiter {
    const rate: real
    const burst: real
    var tokens: real
    var lastRefill: real

    ghost predicate Valid()
      reads this
    {
      rate > 0.0 && burst > 0.0 && Filled(View(), burst)
    }

    ghost function View(): Bucket
      reads this
    {
      Bucket(tokens, lastRefill)
    }

    constructor (rate: real, burst: real, now: real)
      ensures Valid()
      ensures this.rate == (if rate <= 0.0 then 10.0 else rate)
      ensures this.burst == (if burst <= 0.0 then this.rate else burst)
      ensures View() == Bucket(this.burst, now)
    {
      var r := if rate <= 0.0 then 10.0 else rate;
      var b := if burst <= 0.0 then r else burst;
      this.rate, this.burst, tokens, lastRefill := r, b, b, now;
    }

    method Allow(now: real) returns (ok: bool)
      requires Valid() && now >= lastRefill
      modifies this
      ensures Valid() && (View(), ok) == Step(old(View()), Earn(rate), burst, Take(now))
      ensures ok <==> old(tokens) + rate * (now - old(lastRefill)) >= 1.0 && burst >= 1.0
    {
      RefusedAtRateExactlyWhen(View(), rate, burst, now);
      RefillLocked(now);
      if tokens >= 1.0 {
        tokens := tokens - 1.0;
        return true;
      }
      return false;
    }

    method RefillLocked(now: real)
      requires Valid() && now >= lastRefill
      modifies this
      ensures Valid() && View() == Refill(old(View()), Earn(rate), burst, now)
      ensures tokens == Fitting(old(tokens) + rate * (now - old(lastRefill)), burst)
    {
      var elapsed := now - lastRefill;
      EarnIsSteady(rate);
      assert Earn(rate)(elapsed) >= 0.0;
      lastRefill := now;
      tokens := tokens + elapsed * rate;
      if tokens > burst {
        tokens := burst;
      }
    }
  }

  /** In any window of `t` seconds a limiter with the given settings admits at most burst + rate * t. */
  lemma AdmissionBound(rate: real, burst: real, start: real, times: seq<real>, i: nat, j: nat, t: real)
    requires rate > 0.0 && burst > 0.0 && Timely(start, Takes(times))
    requires i < j <= |times| && times[j - 1] - times[i] <= t
    ensures var before := Run(Bucket(burst, start), Earn(rate), burst, Takes(times)[..i]);
      Admitted(before, Earn(rate), burst, Takes(times)[i..j]) as real <= burst + rate * t
  {
    EarnIsSteady(rate);
    WindowBound(Bucket(burst, start), Earn(rate), burst, Takes(times), i, j, t);
    NoDeposits(Takes(times)[i..j]);
    EarnIsProduct(rate, t);
  }

  /** A call that comes 1/rate seconds or more after the one before it is admitted, if the burst is at
      least one. */
  lemma PacedCallsAreAdmitted(rate: real, burst: real, start: real, times: seq<real>, now: real)
    requires rate > 0.0 && burst >= 1.0 && Timely(start, Takes(times))
    requires now - LastAt(start, Takes(times)) >= 1.0 / rate
    ensures Step(Run(Bucket(burst, start), Earn(rate), burst, Takes(times)), Earn(rate), burst, Take(now)).1
  {
    EarnIsSteady(rate);
    EarnedInOneGap(rate, now - LastAt(start, Takes(times)));
    PacedIsAdmitted(Bucket(burst, start), Earn(rate), burst, Takes(times), now);
  }

  lemma EarnedInOneGap(rate: real, gap: real)
    requires rate > 0.0 && gap >= 1.0 / rate
    ensures Earn(rate)(gap) >= 1.0
  {
    var least := 1.0 / rate;
    assert rate * least == 1.0;
    EarnIsSteady(rate);
    assert AddsUp(Earn(rate), least, gap - least);
    assert Earn(rate)(gap - least) >= 0.0;
    EarnIsProduct(rate, least);
    assert least + (gap - least) == gap;
  }

  /** While the bucket does not overflow, every token earned is given out or still there. */
  lemma AdmissionAccount(rate: real, burst: real, b: Bucket, times: seq<real>, span: real, earned: real)
    requires rate > 0.0 && NeverFull(b, Earn(rate), burst, Takes(times))
    requires span == LastAt(b.lastRefill, Takes(times)) - b.lastRefill && earned == rate * span
    ensures Admitted(b, Earn(rate), burst, Takes(times)) as real + Run(b, Earn(rate), burst, Takes(times)).tokens
      == b.tokens + earned
  {
    var cs := Takes(times);
    EarnIsSteady(rate);
    EarnIsProduct(rate, span);
    AccountFor(b, Earn(rate), burst, cs, earned);
    NoDeposits(cs);
  }

  function Takes(times: seq<real>): seq<Call> {
    seq(|times|, i requires 0 <= i < |times| => Take(times[i]))
  }
}

module RetryBudgets {
  import opened TokenBuckets

  class RetryBudget {
    const ratio: real
    const maxTokens: real
    const minRetriesSec: real
    var tokens: real
    var lastUpdated: real

    ghost predicate Valid()
      reads this
    {
      0.0 < ratio <= 1.0 && minRetriesSec > 0.0 && maxTokens > 0.0 && Filled(View(), maxTokens)
    }

    ghost function View(): Bucket
      reads this
    {
      Bucket(tokens, lastUpdated)
    }

    constructor (ratio: real, maxTokens: real, minRetriesSec: real, now: real)
      ensures Valid()
      ensures this.ratio == (if ratio <= 0.0 || ratio > 1.0 then 0.1 else ratio)
      ensures this.maxTokens == (if maxTokens <= 0.0 then 100.0 else maxTokens)
      ensures this.minRetriesSec == (if minRetriesSec <= 0.0 then 10.0 else minRetriesSec)
      ensures View() == Bucket(this.maxTokens, now)
    {
      var max := if maxTokens <= 0.0 then 100.0 else maxTokens;
      this.ratio := if ratio <= 0.0 || ratio > 1.0 then 0.1 else ratio;
      this.maxTokens := max;
      this.minRetriesSec := if minRetriesSec <= 0.0 then 10.0 else minRetriesSec;
      tokens, lastUpdated := max, now;
    }

    method RecordRequest(now: real)
      requires Valid() && now >= lastUpdated
      modifies this
      ensures Valid() && View() == Step(old(View()), Earn(minRetriesSec), maxTokens, Deposit(now, ratio)).0
      ensures var there := Fitting(old(tokens) + minRetriesSec * (now - old(lastUpdated)), maxTokens);
        tokens == Fitting(there + ratio, maxTokens)
    {
      ReplenishLocked(now);
      tokens := tokens + ratio;
      if tokens > maxTokens {
        tokens := maxTokens;
      }
    }

    method TryAcquireRetry(now: real) returns (ok: bool)
      requires Valid() && now >= lastUpdated
      modifies this
      ensures Valid() && (View(), ok) == Step(old(View()), Earn(minRetriesSec), maxTokens, Take(now))
      ensures ok <==> old(tokens) + minRetriesSec * (now - old(lastUpdated)) >= 1.0 && maxTokens >= 1.0
    {
      RefusedAtRateExactlyWhen(View(), minRetriesSec, maxTokens, now);
      ReplenishLocked(now);
      if tokens >= 1.0 {
        tokens := tokens - 1.0;
        return true;
      }
      return false;
    }

    method ReplenishLocked(now: real)
      requires Valid() && now >= lastUpdated
      modifies this
      ensures Valid() && View() == Refill(old(View()), Earn(minRetriesSec), maxTokens, now)
      ensures tokens == Fitting(old(tokens) + minRetriesSec * (now - old(lastUpdated)), maxTokens)
    {
      var elapsed := now - lastUpdated;
      EarnIsSteady(minRetriesSec);
      assert Earn(minRetriesSec)(elapsed) >= 0.0;
      lastUpdated := now;
      tokens := tokens + elapsed * minRetriesSec;
      if tokens > maxTokens {
        tokens := maxTokens;
      }
    }
  }

  /** What callers do with a budget: record a request, or ask for a retry. */
  datatype Use = Request(at: real) | Retry(at: real)

  function Calls(us: seq<Use>, ratio: real): seq<Call> {
    seq(|us|, i requires 0 <= i < |us| =>
      match us[i] case Request(at) => Deposit(at, ratio) case Retry(at) => Take(at))
  }

  function Requests(us: seq<Use>): nat
    decreases |us|
  {
    if us == [] then 0 else (if us[0].Request? then 1 else 0) + Requests(us[1..])
  }

  lemma {:induction false} RequestsDeposit(us: seq<Use>, ratio: real)
    ensures Deposits(Calls(us, ratio)) == ratio * Requests(us) as real
    decreases |us|
  {
    if us != [] {
      RequestsDeposit(us[1..], ratio);
      assert Calls(us, ratio)[1..] == Calls(us[1..], ratio);
    }
  }

  /** In any window of `t` seconds the retries are at most maxTokens + minRetriesSec * t and a `ratio`
      fraction of the requests recorded in it. */
  lemma RetryBound(ratio: real, max: real, minRate: real, start: real, us: seq<Use>, i: nat, j: nat, t: real)
    requires 0.0 < ratio <= 1.0 && max > 0.0 && minRate > 0.0 && Timely(start, Calls(us, ratio))
    requires i < j <= |us| && us[j - 1].at - us[i].at <= t
    ensures var before := Run(Bucket(max, start), Earn(minRate), max, Calls(us, ratio)[..i]);
      Admitted(before, Earn(minRate), max, Calls(us, ratio)[i..j]) as real
        <= max + minRate * t + ratio * Requests(us[i..j]) as real
  {
    EarnIsSteady(minRate);
    WindowBound(Bucket(max, start), Earn(minRate), max, Calls(us, ratio), i, j, t);
    DepositsInWindow(us, ratio, i, j);
    EarnIsProduct(minRate, t);
  }

  /** A retry asked for when minRetriesSec has earned a token since the last use is granted. */
  lemma PacedRetriesAreGranted(ratio: real, max: real, minRate: real, start: real, us: seq<Use>, now: real)
    requires max >= 1.0 && minRate > 0.0 && Timely(start, Calls(us, ratio))
    requires minRate * (now - LastAt(start, Calls(us, ratio))) >= 1.0
    ensures Step(Run(Bucket(max, start), Earn(minRate), max, Calls(us, ratio)), Earn(minRate), max, Take(now)).1
  {
    EarnIsSteady(minRate);
    EarnIsProduct(minRate, now - LastAt(start, Calls(us, ratio)));
    PacedIsAdmitted(Bucket(max, start), Earn(minRate), max, Calls(us, ratio), now);
  }

  /** While the budget does not overflow, it gives out or keeps exactly what time and requests earned. */
  lemma BudgetAccount(ratio: real, max: real, minRate: real, b: Bucket, us: seq<Use>,
                      span: real, earned: real, deposited: real)
    requires minRate > 0.0 && NeverFull(b, Earn(minRate), max, Calls(us, ratio))
    requires span == LastAt(b.lastRefill, Calls(us, ratio)) - b.lastRefill && earned == minRate * span
    requires deposited == ratio * Requests(us) as real
    ensures var cs := Calls(us, ratio);
      Admitted(b, Earn(minRate), max, cs) as real + Run(b, Earn(minRate), max, cs).tokens
        == b.tokens + earned + deposited
  {
    var cs := Calls(us, ratio);
    EarnIsSteady(minRate);
    EarnIsProduct(minRate, span);
    RequestsDeposit(us, ratio);
    AccountFor(b, Earn(minRate), max, cs, earned);
  }

  lemma DepositsInWindow(us: seq<Use>, ratio: real, i: nat, j: nat)
    requires i <= j <= |us|
    ensures Deposits(Calls(us, ratio)[i..j]) == ratio * Requests(us[i..j]) as real
  {
    assert Calls(us, ratio)[i..j] == Calls(us[i..j], ratio);
    RequestsDeposit(us[i..j], ratio);
  }
}

module IPRateLimiting {
  import opened TokenBuckets

  type Clients = map<string, Bucket>

  datatype Hit = Hit(ip: string, at: real)

  /** `allow(ip)` at time `at`. */
  function AllowHit(cs: Clients, rate: real, burst: real, h: Hit): (Clients, bool) {
    if h.ip !in cs then (cs[h.ip := Bucket(burst - 1.0, h.at)], true)
    else
      var (b, ok) := Step(cs[h.ip], Earn(rate), burst, Take(h.at));
      (cs[h.ip := b], ok)
  }

  function After(cs: Clients, rate: real, burst: real, hs: seq<Hit>): Clients
    decreases |hs|
  {
    if hs == [] then cs else After(AllowHit(cs, rate, burst, hs[0]).0, rate, burst, hs[1..])
  }

  /** How many calls of `ip` were admitted. */
  function AdmittedFor(cs: Clients, rate: real, burst: real, hs: seq<Hit>, ip: string): nat
    decreases |hs|
  {
    if hs == [] then 0
    else
      var (cs', ok) := AllowHit(cs, rate, burst, hs[0]);
      (if ok && hs[0].ip == ip then 1 else 0) + AdmittedFor(cs', rate, burst, hs[1..], ip)
  }

  // ---- Clients do not touch each other --------------------------------------------------------

  function Only(hs: seq<Hit>, ip: string): seq<Hit>
    decreases |hs|
  {
    if hs == [] then [] else (if hs[0].ip == ip then [hs[0]] else []) + Only(hs[1..], ip)
  }

  /** The two tables agree on `ip`. */
  ghost predicate SameFor(cs: Clients, ds: Clients, ip: string) {
    (ip in cs <==> ip in ds) && (ip in cs ==> cs[ip] == ds[ip])
  }

  /** A client is served as if it were the only one. */
  lemma {:induction false} ClientsAreIndependent(
      cs: Clients, ds: Clients, rate: real, burst: real, hs: seq<Hit>, ip: string)
    requires SameFor(cs, ds, ip)
    ensures AdmittedFor(cs, rate, burst, hs, ip) == AdmittedFor(ds, rate, burst, Only(hs, ip), ip)
    ensures SameFor(After(cs, rate, burst, hs), After(ds, rate, burst, Only(hs, ip)), ip)
    decreases |hs|
  {
    if hs != [] {
      var cs' := AllowHit(cs, rate, burst, hs[0]).0;
      if hs[0].ip == ip {
        ClientsAreIndependent(cs', AllowHit(ds, rate, burst, hs[0]).0, rate, burst, hs[1..], ip);
        assert Only(hs, ip)[0] == hs[0] && Only(hs, ip)[1..] == Only(hs[1..], ip);
      } else {
        ClientsAreIndependent(cs', ds, rate, burst, hs[1..], ip);
        assert Only(hs, ip) == Only(hs[1..], ip);
      }
    }
  }

  // ---- The window law for one client ----------------------------------------------------------

  /** The calls of one client. */
  function TakesOf(hs: seq<Hit>, ip: string): seq<Call>
    decreases |hs|
  {
    if hs == [] then [] else (if hs[0].ip == ip then [Take(hs[0].at)] else []) + TakesOf(hs[1..], ip)
  }

  ghost predicate InOrder(start: real, hs: seq<Hit>) {
    && (forall i :: 0 <= i < |hs| ==> start <= hs[i].at)
    && (forall i, j :: 0 <= i < j < |hs| ==> hs[i].at <= hs[j].at)
  }

  ghost predicate AllWithin(hs: seq<Hit>, lo: real, hi: real) {
    forall i :: 0 <= i < |hs| ==> lo <= hs[i].at <= hi
  }

  ghost predicate TakesWithin(ts: seq<Call>, lo: real, hi: real) {
    forall i :: 0 <= i < |ts| ==> ts[i].Take? && lo <= ts[i].at <= hi
  }

  ghost predicate InTime(ts: seq<Call>) {
    forall i, j :: 0 <= i < j < |ts| ==> ts[i].at <= ts[j].at
  }

  lemma {:induction false} TakesStayWithin(hs: seq<Hit>, ip: string, lo: real, hi: real)
    requires AllWithin(hs, lo, hi)
    ensures TakesWithin(TakesOf(hs, ip), lo, hi)
    decreases |hs|
  {
    if hs != [] {
      assert AllWithin(hs[1..], lo, hi);
      TakesStayWithin(hs[1..], ip, lo, hi);
    }
  }

  lemma {:induction false} TakesAreInTime(start: real, hs: seq<Hit>, ip: string)
    requires InOrder(start, hs)
    ensures InTime(TakesOf(hs, ip))
    decreases |hs|
  {
    if hs != [] {
      TakesAreInTime(hs[0].at, hs[1..], ip);
      TakesStayWithin(hs[1..], ip, hs[0].at, hs[|hs| - 1].at);
      var later := TakesOf(hs[1..], ip);
      assert hs[0].ip == ip ==> TakesOf(hs, ip) == [Take(hs[0].at)] + later;
    }
  }

  lemma TakesAreTimely(start: real, hs: seq<Hit>, ip: string)
    requires InOrder(start, hs) && hs != []
    ensures var ts := TakesOf(hs, ip);
      Timely(start, ts) && Deposits(ts) == 0.0 && TakesWithin(ts, hs[0].at, hs[|hs| - 1].at)
  {
    TakesAreInTime(start, hs, ip);
    TakesStayWithin(hs, ip, hs[0].at, hs[|hs| - 1].at);
    NoDeposits(TakesOf(hs, ip));
  }

  /** The bucket a client is served from; an unknown client has a full one. */
  function BucketOf(cs: Clients, burst: real, start: real, ip: string): Bucket {
    if ip in cs then cs[ip] else Bucket(burst, start)
  }

  lemma FirstCallIsATake(burst: real, rate: real, start: real, now: real)
    requires burst >= 1.0 && rate >= 0.0 && start <= now
    ensures Step(Bucket(burst, start), Earn(rate), burst, Take(now)) == (Bucket(burst - 1.0, now), true)
  {
    var dt := now - start;
    EarnIsSteady(rate);
    assert Earn(rate)(dt) >= 0.0;
    assert Refill(Bucket(burst, start), Earn(rate), burst, now) == Bucket(Min(burst + dt * rate, burst), now);
  }

  lemma {:induction false} ServedFromItsBucket(
      cs: Clients, rate: real, burst: real, start: real, hs: seq<Hit>, ip: string)
    requires burst >= 1.0 && rate >= 0.0 && InOrder(start, hs)
    ensures AdmittedFor(cs, rate, burst, hs, ip)
         == Admitted(BucketOf(cs, burst, start, ip), Earn(rate), burst, TakesOf(hs, ip))
    ensures BucketOf(After(cs, rate, burst, hs), burst, start, ip)
         == Run(BucketOf(cs, burst, start, ip), Earn(rate), burst, TakesOf(hs, ip))
    decreases |hs|
  {
    if hs != [] {
      var (cs', ok) := AllowHit(cs, rate, burst, hs[0]);
      ServedFromItsBucket(cs', rate, burst, start, hs[1..], ip);
      var ts, later := TakesOf(hs, ip), TakesOf(hs[1..], ip);
      if hs[0].ip == ip {
        FirstCallIsATake(burst, rate, start, hs[0].at);
        assert ts[0] == Take(hs[0].at) && ts[1..] == later;
        assert Step(BucketOf(cs, burst, start, ip), Earn(rate), burst, ts[0]) == (BucketOf(cs', burst, start, ip), ok);
      } else {
        assert ts == later && BucketOf(cs', burst, start, ip) == BucketOf(cs, burst, start, ip);
      }
    }
  }

  /** A client that is not known is admitted; one that is, exactly if what is left to it and what it has
      earned since make a token that its bucket can hold. */
  lemma AdmittedExactlyWhen(cs: Clients, rate: real, burst: real, h: Hit)
    ensures AllowHit(cs, rate, burst, h).1 <==>
      h.ip !in cs || (cs[h.ip].tokens + rate * (h.at - cs[h.ip].lastRefill) >= 1.0 && burst >= 1.0)
  {
    if h.ip in cs { RefusedAtRateExactlyWhen(cs[h.ip], rate, burst, h.at); }
  }

  lemma {:induction false} LastTakeOf(hs: seq<Hit>, ip: string, start: real, earliest: real)
    requires InOrder(start, hs) && start <= earliest
    requires forall i :: 0 <= i < |hs| && hs[i].ip == ip ==> hs[i].at <= earliest
    ensures LastAt(start, TakesOf(hs, ip)) <= earliest
    decreases |hs|
  {
    if hs != [] {
      LastTakeOf(hs[1..], ip, start, earliest);
      var later := TakesOf(hs[1..], ip);
      assert TakesOf(hs, ip) == (if hs[0].ip == ip then [Take(hs[0].at)] else []) + later;
    }
  }

  /** A client whose last call is long enough ago to have earned a token is admitted, whatever it and the
      others did before. */
  lemma PacedClientIsAdmitted(rate: real, burst: real, start: real, hs: seq<Hit>, ip: string, last: real, now: real)
    requires burst >= 1.0 && rate >= 0.0 && InOrder(start, hs) && start <= last && rate * (now - last) >= 1.0
    requires forall i :: 0 <= i < |hs| && hs[i].ip == ip ==> hs[i].at <= last
    requires hs != [] ==> hs[|hs| - 1].at <= now
    ensures AllowHit(After(map[], rate, burst, hs), rate, burst, Hit(ip, now)).1
  {
    if ip in After(map[], rate, burst, hs) {
      EarnIsSteady(rate);
      ServedFromItsBucket(map[], rate, burst, start, hs, ip);
      if hs != [] { TakesAreTimely(start, hs, ip); }
      LastTakeOf(hs, ip, start, last);
      MoreTimeEarnsTheToken(rate, now, last, LastAt(start, TakesOf(hs, ip)));
      PacedIsAdmitted(Bucket(burst, start), Earn(rate), burst, TakesOf(hs, ip), now);
    }
  }

  lemma MoreTimeEarnsTheToken(rate: real, now: real, last: real, earlier: real)
    requires rate >= 0.0 && earlier <= last && rate * (now - last) >= 1.0
    ensures Earn(rate)(now - earlier) >= 1.0
  {
    EarnIsSteady(rate);
    EarnIsProduct(rate, now - last);
    MoreTimeEarnsMore(Earn(rate), now - last, now - earlier);
  }

  /** In a run of a new limiter, `ip` gets at most burst + rate * t of the calls `i` to `j`. */
  ghost predicate KeepsToBudget(rate: real, burst: real, hs: seq<Hit>, i: nat, j: nat, t: real, ip: string)
    requires i <= j <= |hs|
  {
    AdmittedFor(After(map[], rate, burst, hs[..i]), rate, burst, hs[i..j], ip) as real <= burst + rate * t
  }

  ghost predicate IsWindow(start: real, hs: seq<Hit>, i: nat, j: nat, t: real) {
    InOrder(start, hs) && i < j <= |hs| && hs[j - 1].at - hs[i].at <= t
  }

  lemma BeforeWindow(rate: real, burst: real, start: real, hs: seq<Hit>, ip: string, now: real)
    requires burst >= 1.0 && rate >= 0.0 && InOrder(start, hs) && start <= now
    requires hs != [] ==> hs[|hs| - 1].at <= now
    ensures var b := BucketOf(After(map[], rate, burst, hs), burst, start, ip);
      Filled(b, burst) && b.lastRefill <= now
  {
    ServedFromItsBucket(map[], rate, burst, start, hs, ip);
    if hs != [] {
      TakesAreTimely(start, hs, ip);
      EarnIsSteady(rate);
      RunStaysFilled(Bucket(burst, start), Earn(rate), burst, TakesOf(hs, ip));
    }
  }

  lemma InsideWindow(cs: Clients, rate: real, burst: real, start: real, w: seq<Hit>, t: real, ip: string)
    requires burst >= 1.0 && rate >= 0.0 && InOrder(start, w)
    requires w != [] && w[|w| - 1].at - w[0].at <= t
    requires var b := BucketOf(cs, burst, start, ip); Filled(b, burst) && b.lastRefill <= w[0].at
    ensures AdmittedFor(cs, rate, burst, w, ip) as real <= burst + rate * t
  {
    var ts, b := TakesOf(w, ip), BucketOf(cs, burst, start, ip);
    ServedFromItsBucket(cs, rate, burst, start, w, ip);
    assert InOrder(w[0].at, w);
    TakesAreTimely(w[0].at, w, ip);
    EarnIsSteady(rate);
    assert Earn(rate)(t) >= 0.0;
    if ts != [] {
      WindowFrom(b, Earn(rate), burst, ts, t);
    }
    EarnIsProduct(rate, t);
  }

  lemma PerClientBound(rate: real, burst: real, start: real, hs: seq<Hit>, i: nat, j: nat, t: real, ip: string)
    requires burst >= 1.0 && rate >= 0.0 && IsWindow(start, hs, i, j, t)
    ensures KeepsToBudget(rate, burst, hs, i, j, t, ip)
  {
    assert InOrder(start, hs[..i]) && InOrder(start, hs[i..j]);
    BeforeWindow(rate, burst, start, hs[..i], ip, hs[i].at);
    InsideWindow(After(map[], rate, burst, hs[..i]), rate, burst, start, hs[i..j], t, ip);
  }

  /** Neither setting is checked by the constructor; the bound holds in every window of every run
      exactly when a bucket holds at least one token and does not leak. */
  lemma BoundedExactlyWhen(rate: real, burst: real)
    ensures (forall start, hs, i: nat, j: nat, t, ip ::
               IsWindow(start, hs, i, j, t) ==> KeepsToBudget(rate, burst, hs, i, j, t, ip))
       <==> burst >= 1.0 && rate >= 0.0
  {
    if burst >= 1.0 && rate >= 0.0 {
      forall start, hs, i: nat, j: nat, t, ip | IsWindow(start, hs, i, j, t)
        ensures KeepsToBudget(rate, burst, hs, i, j, t, ip)
      {
        PerClientBound(rate, burst, start, hs, i, j, t, ip);
      }
    } else {
      var t := if rate < 0.0 && burst >= 1.0 then burst / -rate else 0.0;
      OneCallOverBudget(rate, burst, t);
    }
  }

  /** The first call of a client is admitted whatever the settings are. */
  lemma OneCallOverBudget(rate: real, burst: real, t: real)
    requires t >= 0.0 && burst + rate * t < 1.0
    ensures IsWindow(0.0, [Hit("a", 0.0)], 0, 1, t)
    ensures !KeepsToBudget(rate, burst, [Hit("a", 0.0)], 0, 1, t, "a")
  {
    var hs := [Hit("a", 0.0)];
    assert hs[..0] == [] && hs[0..1] == hs && hs[1..] == [];
    var cs := AllowHit(map[], rate, burst, hs[0]).0;
    assert AdmittedFor(map[], rate, burst, hs, "a") == 1 + AdmittedFor(cs, rate, burst, [], "a");
  }

  // ---- The code -------------------------------------------------------------------------------

  class ClientBucket {
    var tokens: real
    var lastRefill: real

    constructor (tokens: real, lastRefill: real)
      ensures this.tokens == tokens && this.lastRefill == lastRefill
    {
      this.tokens, this.lastRefill := tokens, lastRefill;
    }

    ghost function View(): Bucket
      reads this
    {
      Bucket(tokens, lastRefill)
    }

    /** `allow` on the bucket of a known client. */
    method TakeOne(rate: real, burst: real, now: real) returns (ok: bool)
      modifies this
      ensures (View(), ok) == Step(old(View()), Earn(rate), burst, Take(now))
      ensures ok <==> old(tokens) + rate * (now - old(lastRefill)) >= 1.0 && burst >= 1.0
    {
      RefusedAtRateExactlyWhen(View(), rate, burst, now);
      EarnIsProduct(rate, now - lastRefill);
      var elapsed := now - lastRefill;
      lastRefill := now;
      tokens := tokens + elapsed * rate;
      if tokens > burst {
        tokens := burst;
      }
      ok := tokens >= 1.0;
      if ok {
        tokens := tokens - 1.0;
      }
    }
  }

  class IPRateLimiter {
    var clients: map<string, ClientBucket>
    const rate: real
    const burst: real

    /** No two clients share a bucket object. */
    ghost predicate Valid()
      reads this
    {
      forall p, q :: p in clients && q in clients && p != q ==> clients[p] != clients[q]
    }

    ghost function View(): Clients
      reads this, clients.Values
    {
      map ip | ip in clients :: clients[ip].View()
    }

    constructor (rate: real, burst: real)
      ensures Valid() && View() == map[] && this.rate == rate && this.burst == burst
    {
      this.rate, this.burst, clients := rate, burst, map[];
    }

    method Allow(ip: string, now: real) returns (ok: bool)
      requires Valid()
      modifies this, clients.Values
      ensures Valid() && (View(), ok) == AllowHit(old(View()), rate, burst, Hit(ip, now))
      ensures ip in old(clients) ==>
        (ok <==> old(clients[ip].tokens) + rate * (now - old(clients[ip].lastRefill)) >= 1.0 && burst >= 1.0)
      ensures forall o :: o in clients.Values ==> o in old(clients.Values) || fresh(o)
    {
      if ip !in clients {
        var b := new ClientBucket(burst - 1.0, now);
        assert b !in clients.Values;
        clients := clients[ip := b];
        assert View() == old(View())[ip := Bucket(burst - 1.0, now)];
        return true;
      }
      var bucket := clients[ip];
      ok := bucket.TakeOne(rate, burst, now);
      assert View() == old(View())[ip := bucket.View()];
    }
  }
}
