/** `SagaOrchestrator` of `patterns/16_distributed/saga_orchestrator.go`.

    Actions and compensations are arbitrary functions on a world `W`: each leaves a world and returns
    nil (`None`) or an error. */
module Saga {
  import opened Common

  datatype Step<!W> = Step(name: string, action: W -> (W, Option<string>), compensate: Option<W -> (W, Option<string>)>)

  datatype Failure = Failure(name: string, err: string)

  datatype Outcome = Succeeded | Failed(failed: Failure, compErrors: seq<Failure>)

  /** Something the orchestrator did, with the position of the step. */
  datatype Deed = Act(i: nat) | Compensate(i: nat)

  // ---- What a saga does -----------------------------------------------------------------------

  /** The world after the first `k` actions. */
  function Acted<W>(steps: seq<Step<W>>, w: W, k: nat): W
    requires k <= |steps|
  {
    if k == 0 then w else steps[k - 1].action(Acted(steps, w, k - 1)).0
  }

  function ErrorOf<W>(steps: seq<Step<W>>, w: W, i: nat): Option<string>
    requires i < |steps|
  {
    steps[i].action(Acted(steps, w, i)).1
  }

  /** The first action from the `i`th on that fails, or the number of steps. */
  function FailsAt<W>(steps: seq<Step<W>>, w: W, i: nat): (k: nat)
    requires i <= |steps|
    ensures i <= k <= |steps|
    ensures forall j :: i <= j < k ==> ErrorOf(steps, w, j).None?
    ensures k < |steps| ==> ErrorOf(steps, w, k).Some?
    decreases |steps| - i
  {
    if i == |steps| || ErrorOf(steps, w, i).Some? then i else FailsAt(steps, w, i + 1)
  }

  datatype Undo<W> = Undo(world: W, order: seq<nat>, errs: seq<Failure>)

  /** Compensating the completed steps: the world left, the steps compensated in order, the failures. */
  function Undone<W>(completed: seq<Step<W>>, w: W): Undo<W>
    decreases |completed|
  {
    if completed == [] then Undo(w, [], [])
    else
      var n := |completed| - 1;
      match completed[n].compensate
      case None => Undone(completed[..n], w)
      case Some(comp) =>
        var (w', err) := comp(w);
        var u := Undone(completed[..n], w');
        Undo(u.world, [n] + u.order, ErrorsOf(completed[n].name, err) + u.errs)
  }

  function ErrorsOf(name: string, err: Option<string>): seq<Failure> {
    if err.Some? then [Failure(name, err.value)] else []
  }

  function Acts(k: nat): seq<Deed> {
    seq(k, i requires 0 <= i < k => Act(i))
  }

  function Compensations(order: seq<nat>): seq<Deed> {
    seq(|order|, i requires 0 <= i < |order| => Compensate(order[i]))
  }

  /** The whole execution: world, result and everything that was done. */
  function Execution<W>(steps: seq<Step<W>>, w: W): (W, Outcome, seq<Deed>) {
    var k := FailsAt(steps, w, 0);
    if k == |steps| then (Acted(steps, w, k), Succeeded, Acts(k))
    else
      var u := Undone(steps[..k], Acted(steps, w, k + 1));
      var failed := Failure(steps[k].name, ErrorOf(steps, w, k).value);
      (u.world, Failed(failed, u.errs), Acts(k + 1) + Compensations(u.order))
  }

  // ---- What that guarantees -------------------------------------------------------------------

  /** Going backwards, every completed step that has a compensation is compensated exactly once,
      whether or not other compensations fail. */
  lemma {:induction false} UndoneInReverse<W>(completed: seq<Step<W>>, w: W)
    ensures var order := Undone(completed, w).order;
      && (forall a, b :: 0 <= a < b < |order| ==> order[a] > order[b])
      && (forall i: nat :: i in order <==> i < |completed| && completed[i].compensate.Some?)
    decreases |completed|
  {
    if completed != [] {
      var n := |completed| - 1;
      match completed[n].compensate
      case None =>
        UndoneInReverse(completed[..n], w);
      case Some(comp) =>
        UndoneInReverse(completed[..n], comp(w).0);
        var later := Undone(completed[..n], comp(w).0).order;
        assert Undone(completed, w).order == [n] + later;
        assert forall a :: 0 <= a < |later| ==> later[a] in later;
    }
  }

  /** One compensation: the step, the world it found and left, and what it returned. */
  datatype Compensation<W> = Compensation(i: nat, before: W, after: W, err: Option<string>)

  ghost predicate IsCall<W>(completed: seq<Step<W>>, c: Compensation<W>) {
    && c.i < |completed| && completed[c.i].compensate.Some?
    && completed[c.i].compensate.value(c.before) == (c.after, c.err)
  }

  /** These compensations were called one after another, from the world `w` on and up to `end`. */
  ghost predicate Called<W>(completed: seq<Step<W>>, w: W, log: seq<Compensation<W>>, end: W)
    decreases |log|
  {
    if log == [] then end == w
    else IsCall(completed, log[0]) && log[0].before == w && Called(completed, log[0].after, log[1..], end)
  }

  lemma CalledFirst<W>(completed: seq<Step<W>>, first: Compensation<W>, log: seq<Compensation<W>>, end: W)
    requires IsCall(completed, first) && Called(completed, first.after, log, end)
    ensures Called(completed, first.before, [first] + log, end)
  {
    assert ([first] + log)[1..] == log;
  }

  lemma {:induction false} CalledAmongMore<W>(
      completed: seq<Step<W>>, n: nat, w: W, log: seq<Compensation<W>>, end: W)
    requires n <= |completed| && Called(completed[..n], w, log, end)
    ensures Called(completed, w, log, end)
    decreases |log|
  {
    if log != [] {
      CalledAmongMore(completed, n, log[0].after, log[1..], end);
    }
  }

  /** `errs` are, in order, exactly the failures among the compensations, each with the name of its step
      and its error; `at` are their places. */
  ghost predicate ListsFailures<W>(
      completed: seq<Step<W>>, log: seq<Compensation<W>>, errs: seq<Failure>, at: seq<nat>)
  {
    && |at| == |errs|
    && (forall a, b :: 0 <= a < b < |at| ==> at[a] < at[b])
    && (forall a :: 0 <= a < |at| ==> at[a] < |log| && IsFailureOf(completed, errs[a], log[at[a]]))
    && (forall i :: 0 <= i < |log| && log[i].err.Some? ==> i in at)
  }

  ghost predicate IsFailureOf<W>(completed: seq<Step<W>>, f: Failure, c: Compensation<W>) {
    c.err == Some(f.err) && c.i < |completed| && completed[c.i].name == f.name
  }

  /** `log` is what compensating did, and `u` tells it truly. */
  ghost predicate Tells<W>(completed: seq<Step<W>>, w: W, u: Undo<W>, log: seq<Compensation<W>>, at: seq<nat>) {
    && Called(completed, w, log, u.world)
    && ListsFailures(completed, log, u.errs, at)
    && |u.order| == |log| && (forall a :: 0 <= a < |log| ==> u.order[a] == log[a].i)
  }

  lemma TellsAmongMore<W>(
      completed: seq<Step<W>>, n: nat, w: W, u: Undo<W>, log: seq<Compensation<W>>, at: seq<nat>)
    requires n <= |completed| && Tells(completed[..n], w, u, log, at)
    ensures Tells(completed, w, u, log, at)
  {
    CalledAmongMore(completed, n, w, log, u.world);
    forall a | 0 <= a < |at|
      ensures IsFailureOf(completed, u.errs[a], log[at[a]])
    {
      assert IsFailureOf(completed[..n], u.errs[a], log[at[a]]);
    }
  }

  /** One more compensation, in front. */
  lemma TellsOneMore<W>(
      completed: seq<Step<W>>, first: Compensation<W>, u: Undo<W>, log: seq<Compensation<W>>, at: seq<nat>)
    returns (more: seq<nat>)
    requires IsCall(completed, first) && Tells(completed, first.after, u, log, at)
    ensures var errs := ErrorsOf(completed[first.i].name, first.err) + u.errs;
      Tells(completed, first.before, Undo(u.world, [first.i] + u.order, errs), [first] + log, more)
  {
    CalledFirst(completed, first, log, u.world);
    if first.err.Some? {
      FirstFailure(completed, first, log, u.errs, at);
      more := [0] + Shift(at);
    } else {
      ShiftedFailures(completed, first, log, u.errs, at);
      more := Shift(at);
      assert ErrorsOf(completed[first.i].name, first.err) + u.errs == u.errs;
    }
  }

  /** Compensating is calling the compensations of the completed steps that have one, each on the world
      the one before it left, and listing every error they return. */
  lemma {:induction false} UndoneIsCalled<W>(completed: seq<Step<W>>, w: W)
    returns (log: seq<Compensation<W>>, at: seq<nat>)
    ensures Tells(completed, w, Undone(completed, w), log, at)
    decreases |completed|
  {
    if completed == [] {
      log, at := [], [];
    } else {
      var n := |completed| - 1;
      match completed[n].compensate
      case None =>
        log, at := UndoneIsCalled(completed[..n], w);
        TellsAmongMore(completed, n, w, Undone(completed[..n], w), log, at);
      case Some(comp) =>
        var (w', err) := comp(w);
        var u := Undone(completed[..n], w');
        log, at := UndoneIsCalled(completed[..n], w');
        TellsAmongMore(completed, n, w', u, log, at);
        var first := Compensation(n, w, w', err);
        at := TellsOneMore(completed, first, u, log, at);
        log := [first] + log;
    }
  }

  /** Every place is one further on. */
  function Shift(at: seq<nat>): (r: seq<nat>)
    ensures |r| == |at| && forall a :: 0 <= a < |at| ==> r[a] == at[a] + 1
  {
    seq(|at|, a requires 0 <= a < |at| => at[a] + 1)
  }

  lemma ShiftMember(at: seq<nat>, i: nat)
    requires i in at
    ensures i + 1 in Shift(at)
  {
    var a :| 0 <= a < |at| && at[a] == i;
    assert Shift(at)[a] == i + 1;
  }

  lemma ShiftedFailures<W>(
      completed: seq<Step<W>>, first: Compensation<W>, log: seq<Compensation<W>>, errs: seq<Failure>, at: seq<nat>)
    requires ListsFailures(completed, log, errs, at) && first.err.None?
    ensures ListsFailures(completed, [first] + log, errs, Shift(at))
  {
    forall i | 0 <= i < |[first] + log| && ([first] + log)[i].err.Some?
      ensures i in Shift(at)
    {
      ShiftMember(at, i - 1);
    }
    forall a | 0 <= a < |at|
      ensures IsFailureOf(completed, errs[a], ([first] + log)[Shift(at)[a]])
    {
      assert IsFailureOf(completed, errs[a], log[at[a]]);
    }
  }

  lemma PlacesGrow(at: seq<nat>)
    requires forall a, b :: 0 <= a < b < |at| ==> at[a] < at[b]
    ensures var r := [0] + Shift(at); forall a, b :: 0 <= a < b < |r| ==> r[a] < r[b]
  {
    var r := [0] + Shift(at);
    assert forall a :: 0 < a < |r| ==> r[a] == at[a - 1] + 1;
  }

  lemma PlacesCover<W>(first: Compensation<W>, log: seq<Compensation<W>>, at: seq<nat>)
    requires forall i :: 0 <= i < |log| && log[i].err.Some? ==> i in at
    ensures var all := [first] + log;
      forall i :: 0 <= i < |all| && all[i].err.Some? ==> i in [0] + Shift(at)
  {
    var all := [first] + log;
    forall i | 0 <= i < |all| && all[i].err.Some?
      ensures i in [0] + Shift(at)
    {
      if i > 0 { ShiftMember(at, i - 1); }
    }
  }

  lemma FirstFailure<W>(
      completed: seq<Step<W>>, first: Compensation<W>, log: seq<Compensation<W>>, errs: seq<Failure>, at: seq<nat>)
    requires ListsFailures(completed, log, errs, at) && first.err.Some? && first.i < |completed|
    ensures ListsFailures(
      completed, [first] + log, [Failure(completed[first.i].name, first.err.value)] + errs, [0] + Shift(at))
  {
    var all, places := [first] + log, [0] + Shift(at);
    var fs := [Failure(completed[first.i].name, first.err.value)] + errs;
    PlacesGrow(at);
    PlacesCover(first, log, at);
    forall a | 0 <= a < |places|
      ensures places[a] < |all| && IsFailureOf(completed, fs[a], all[places[a]])
    {
      if a > 0 {
        assert IsFailureOf(completed, errs[a - 1], log[at[a - 1]]);
        assert places[a] == at[a - 1] + 1 && all[places[a]] == log[at[a - 1]];
      }
    }
  }

  /** The actions of 0 to `k` in order and after them the compensations of the completed steps, last
      first, each once. */
  ghost predicate RolledBackFrom<W>(steps: seq<Step<W>>, k: nat, deeds: seq<Deed>)
    requires k < |steps|
  {
    && |deeds| >= k + 1
    && (forall i :: 0 <= i <= k ==> deeds[i] == Act(i))
    && (forall a :: k < a < |deeds| ==> deeds[a].Compensate?)
    && (forall a, b :: k < a < b < |deeds| ==> deeds[a].i > deeds[b].i)
    && (forall i: nat :: Compensate(i) in deeds <==> i < k && steps[i].compensate.Some?)
  }

  lemma DeedsRolledBack<W>(steps: seq<Step<W>>, k: nat, order: seq<nat>)
    requires k < |steps|
    requires forall a, b :: 0 <= a < b < |order| ==> order[a] > order[b]
    requires forall i: nat :: i in order <==> i < k && steps[i].compensate.Some?
    ensures RolledBackFrom(steps, k, Acts(k + 1) + Compensations(order))
  {
    var deeds := Acts(k + 1) + Compensations(order);
    forall i: nat
      ensures Compensate(i) in deeds <==> i in order
    {
      if i in order {
        var a :| 0 <= a < |order| && order[a] == i;
        assert deeds[k + 1 + a] == Compensate(i);
      }
    }
  }

  /** When the action of step `k` is the first to fail, the saga is rolled back from there and says so. */
  lemma TraceOfFailure<W>(steps: seq<Step<W>>, w: W, k: nat)
    requires k < |steps| && ErrorOf(steps, w, k).Some? && (forall j :: 0 <= j < k ==> ErrorOf(steps, w, j).None?)
    ensures var (_, r, deeds) := Execution(steps, w);
      && RolledBackFrom(steps, k, deeds)
      && r.Failed? && r.failed == Failure(steps[k].name, ErrorOf(steps, w, k).value)
  {
    assert FailsAt(steps, w, 0) == k;
    UndoneInReverse(steps[..k], Acted(steps, w, k + 1));
    DeedsRolledBack(steps, k, Undone(steps[..k], Acted(steps, w, k + 1)).order);
  }

  lemma TraceOfSuccess<W>(steps: seq<Step<W>>, w: W)
    ensures Execution(steps, w).1.Succeeded? <==> forall j :: 0 <= j < |steps| ==> ErrorOf(steps, w, j).None?
    ensures Execution(steps, w).1.Succeeded? ==>
      Execution(steps, w).0 == Acted(steps, w, |steps|) && Execution(steps, w).2 == Acts(|steps|)
  {
  }

  /** In this run, compensating step `i` takes its action back; a missing compensation marks an
      action without effect. */
  ghost predicate TakesBack<W>(steps: seq<Step<W>>, w: W, i: nat)
    requires i < |steps|
  {
    var before, after := Acted(steps, w, i), Acted(steps, w, i + 1);
    match steps[i].compensate
    case None => after == before
    case Some(comp) => comp(after).0 == before
  }

  lemma {:induction false} UndoneRestores<W>(steps: seq<Step<W>>, w: W, k: nat)
    requires k <= |steps| && forall i :: 0 <= i < k ==> TakesBack(steps, w, i)
    ensures Undone(steps[..k], Acted(steps, w, k)).world == w
    decreases k
  {
    if k > 0 {
      assert TakesBack(steps, w, k - 1);
      assert steps[..k][..k - 1] == steps[..k - 1];
      UndoneRestores(steps, w, k - 1);
    }
  }

  /** A failed saga leaves the world it found if each compensation takes back its action and the
      failing action had no effect, even when compensations report errors. */
  lemma FailureRestores<W>(steps: seq<Step<W>>, w: W, k: nat)
    requires k == FailsAt(steps, w, 0) && k < |steps|
    requires Acted(steps, w, k + 1) == Acted(steps, w, k)
    requires forall i :: 0 <= i < k ==> TakesBack(steps, w, i)
    ensures Execution(steps, w).0 == w
  {
    UndoneRestores(steps, w, k);
  }

  /** The compensation leaves different worlds different, as giving back an amount does. */
  ghost predicate Discerning<W(!new)>(step: Step<W>) {
    match step.compensate
    case None => true
    case Some(comp) => forall x, y :: comp(x).0 == comp(y).0 ==> x == y
  }

  lemma {:induction false} UndoneIsDiscerning<W(!new)>(completed: seq<Step<W>>, x: W, y: W)
    requires forall i :: 0 <= i < |completed| ==> Discerning(completed[i])
    requires Undone(completed, x).world == Undone(completed, y).world
    ensures x == y
    decreases |completed|
  {
    if completed != [] {
      var n := |completed| - 1;
      assert Discerning(completed[n]);
      match completed[n].compensate
      case None => UndoneIsDiscerning(completed[..n], x, y);
      case Some(comp) => UndoneIsDiscerning(completed[..n], comp(x).0, comp(y).0);
    }
  }

  /** The failing step itself is not compensated. So if the compensations before it take their actions
      back, and none of them hides a difference, the world is what it was exactly when the failing
      action had no effect, whichever step it was. */
  lemma FailingActionIsNotUndone<W(!new)>(steps: seq<Step<W>>, w: W, k: nat)
    requires k == FailsAt(steps, w, 0) && k < |steps|
    requires forall i :: 0 <= i < k ==> TakesBack(steps, w, i) && Discerning(steps[i])
    ensures Compensate(k) !in Execution(steps, w).2
    ensures Execution(steps, w).0 == w <==> Acted(steps, w, k + 1) == Acted(steps, w, k)
  {
    TraceOfFailure(steps, w, k);
    UndoneRestores(steps, w, k);
    if Execution(steps, w).0 == w {
      assert forall i :: 0 <= i < k ==> steps[..k][i] == steps[i];
      UndoneIsDiscerning(steps[..k], Acted(steps, w, k + 1), Acted(steps, w, k));
    }
  }

  /** Adds one and can take it back; then adds ten and fails. */
  function AddAndFail(): seq<Step<int>> {
    [Step("add", (x: int) => (x + 1, None), Some((x: int) => (x - 1, None))),
     Step("fail", (x: int) => (x + 10, Some("failed")), None)]
  }

  /** So a saga whose compensations all do their work may still leave the world changed. */
  lemma FailureCanLeaveTraces()
    ensures var steps := AddAndFail();
      FailsAt(steps, 0, 0) == 1 && TakesBack(steps, 0, 0) && Discerning(steps[0]) && Execution(steps, 0).0 == 10
  {
    var steps := AddAndFail();
    assert Acted(steps, 0, 1) == 1 && Acted(steps, 0, 2) == 11;
    assert ErrorOf(steps, 0, 0) == None && ErrorOf(steps, 0, 1) == Some("failed");
    assert FailsAt(steps, 0, 0) == 1;
    assert steps[..1][..0] == [] && steps[..1][0] == steps[0];
    assert Undone(steps[..1], 11).world == Undone(steps[..1][..0], 10).world == 10;
  }

  // ---- The code -------------------------------------------------------------------------------

  class SagaOrchestrator<!W> {
    const steps: seq<Step<W>>
    var world: W

    constructor (steps: seq<Step<W>>, world: W)
      ensures this.steps == steps && this.world == world
    {
      this.steps, this.world := steps, world;
    }

    method Execute() returns (r: Outcome, ghost deeds: seq<Deed>)
      modifies this
      ensures (world, r, deeds) == Execution(steps, old(world))
    {
      var completed: seq<Step<W>> := [];
      var i := 0;
      while i < |steps|
        invariant 0 <= i <= |steps| && completed == steps[..i]
        invariant world == Acted(steps, old(world), i)
        invariant FailsAt(steps, old(world), 0) == FailsAt(steps, old(world), i)
      {
        var (w, err) := steps[i].action(world);
        world := w;
        if err.Some? {
          var compErrors, order := CompensateAll(completed);
          return Failed(Failure(steps[i].name, err.value), compErrors), Acts(i + 1) + Compensations(order);
        }
        completed := completed + [steps[i]];
        i := i + 1;
      }
      return Succeeded, Acts(i);
    }

    /** `compensate`. */
    method CompensateAll(completed: seq<Step<W>>) returns (compErrors: seq<Failure>, ghost order: seq<nat>)
      modifies this
      ensures Undo(world, order, compErrors) == Undone(completed, old(world))
    {
      compErrors, order := [], [];
      var i := |completed| - 1;
      assert completed[..i + 1] == completed;
      while i >= 0
        invariant -1 <= i < |completed|
        invariant Undone(completed, old(world)) == After(order, compErrors, Undone(completed[..i + 1], world))
      {
        var step := completed[i];
        assert completed[..i + 1][..i] == completed[..i];
        if step.compensate.Some? {
          var (w, err) := step.compensate.value(world);
          AfterOneMore(order, compErrors, i, ErrorsOf(step.name, err), Undone(completed[..i], w));
          world := w;
          compErrors, order := compErrors + ErrorsOf(step.name, err), order + [i];
        }
        i := i - 1;
      }
    }
  }

  ghost function After<W>(order: seq<nat>, errs: seq<Failure>, u: Undo<W>): Undo<W> {
    Undo(u.world, order + u.order, errs + u.errs)
  }

  lemma AfterOneMore<W>(order: seq<nat>, errs: seq<Failure>, i: nat, more: seq<Failure>, u: Undo<W>)
    ensures After(order, errs, Undo(u.world, [i] + u.order, more + u.errs)) == After(order + [i], errs + more, u)
  {
    assert order + ([i] + u.order) == order + [i] + u.order;
    assert errs + (more + u.errs) == errs + more + u.errs;
  }
}
