// mapLimit: worker loops over a shared cursor, at most `limit` calls in flight.
// One step is what runs between two awaits; any worker may take the next one.
module WorkerPool {
  import opened Text

  // Failed keeps the index whose call rejected; the other workers go on.
  datatype Worker = Idle | Busy(index: nat) | Done | Failed(index: nat)

  // `taken` is the history of indices handed out, in order.
  datatype Pool<R> = Pool(total: nat, next: nat, workers: seq<Worker>, results: seq<Option<R>>, taken: seq<nat>)

  function Workers(total: nat, limit: int): nat {
    var atLeastOne := if limit < 1 then 1 else limit;
    if atLeastOne < total then atLeastOne else total
  }

  function Start<R>(total: nat, limit: int): Pool<R> {
    Pool(total, 0, seq(Workers(total, limit), _ => Idle), seq(total, _ => None), [])
  }

  datatype Step = Take(w: nat) | Stop(w: nat) | Settle(w: nat) | Reject(w: nat)

  predicate Enabled<R>(p: Pool<R>, step: Step) {
    step.w < |p.workers| &&
    match step
    case Take(w) => p.workers[w].Idle? && p.next < p.total
    case Stop(w) => p.workers[w].Idle? && p.next >= p.total
    case Settle(w) => p.workers[w].Busy? && p.workers[w].index < |p.results|
    case Reject(w) => p.workers[w].Busy?
  }

  /** `fn` is what the call for an index resolves with. */
  function Do<R>(p: Pool<R>, step: Step, fn: nat -> R): Pool<R>
    requires Enabled(p, step)
  {
    match step
    case Take(w) =>
      p.(next := p.next + 1, workers := p.workers[w := Busy(p.next)], taken := p.taken + [p.next])
    case Stop(w) => p.(workers := p.workers[w := Done])
    case Settle(w) =>
      var i := p.workers[w].index;
      p.(results := p.results[i := Some(fn(i))], workers := p.workers[w := Idle])
    case Reject(w) => p.(workers := p.workers[w := Failed(p.workers[w].index)])
  }

  predicate Runs<R>(p: Pool<R>, steps: seq<Step>, fn: nat -> R)
    decreases |steps|
  {
    steps == [] || (Enabled(p, steps[0]) && Runs(Do(p, steps[0], fn), steps[1..], fn))
  }

  function After<R>(p: Pool<R>, steps: seq<Step>, fn: nat -> R): Pool<R>
    requires Runs(p, steps, fn)
    decreases |steps|
  {
    if steps == [] then p else After(Do(p, steps[0], fn), steps[1..], fn)
  }

  /** The index a worker took and has not settled. */
  function Held(worker: Worker): Option<nat> {
    match worker
    case Busy(index) => Some(index)
    case Failed(index) => Some(index)
    case _ => None
  }

  /** No two workers hold the same index, and a held index has no result yet. */
  ghost predicate Exclusive<R>(p: Pool<R>) {
    && p.next <= p.total == |p.results|
    && (forall w, v :: 0 <= w < v < |p.workers| && Held(p.workers[w]).Some? ==> Held(p.workers[w]) != Held(p.workers[v]))
    && (forall w :: 0 <= w < |p.workers| && Held(p.workers[w]).Some? ==>
          Held(p.workers[w]).value < p.next && p.results[Held(p.workers[w]).value].None?)
    && (forall i :: p.next <= i < p.total ==> p.results[i].None?)
  }

  /** An index handed out has its own item's result or is still held. */
  ghost predicate Covered<R>(p: Pool<R>, fn: nat -> R) {
    && p.next <= p.total == |p.results|
    && (forall i :: 0 <= i < p.total && p.results[i].Some? ==> p.results[i].value == fn(i))
    && (forall i :: 0 <= i < p.next && p.results[i].None? ==> HeldBySome(p.workers, i))
  }

  ghost predicate HeldBySome(workers: seq<Worker>, i: nat) {
    exists w :: 0 <= w < |workers| && Held(workers[w]) == Some(i)
  }

  ghost predicate Inv<R>(p: Pool<R>, fn: nat -> R) {
    && Exclusive(p)
    && Covered(p, fn)
    && p.taken == seq(p.next, i => i)
    && (forall w :: 0 <= w < |p.workers| && p.workers[w].Done? ==> p.next == p.total)
  }

  lemma StepKeepsExclusive<R>(p: Pool<R>, step: Step, fn: nat -> R)
    requires Exclusive(p) && Enabled(p, step)
    ensures Exclusive(Do(p, step, fn))
  {
    var q := Do(p, step, fn);
    forall v | 0 <= v < |q.workers| && Held(q.workers[v]).Some?
      ensures Held(q.workers[v]).value < q.next && q.results[Held(q.workers[v]).value].None?
    {
      assert v != step.w ==> q.workers[v] == p.workers[v];
      assert step.Settle? ==> Held(p.workers[step.w]) == Some(p.workers[step.w].index) && q.workers[step.w] == Idle;
      assert v < step.w ==> Held(p.workers[v]) != Held(p.workers[step.w]);
      assert v > step.w && Held(p.workers[step.w]).Some? ==> Held(p.workers[step.w]) != Held(p.workers[v]);
    }
  }

  lemma HeldAfterUpdate(workers: seq<Worker>, w: nat, x: Worker, i: nat)
    requires w < |workers| && HeldBySome(workers, i) && (Held(workers[w]) == Some(i) ==> Held(x) == Some(i))
    ensures HeldBySome(workers[w := x], i)
  {
    var v :| 0 <= v < |workers| && Held(workers[v]) == Some(i);
    assert Held(workers[w := x][v]) == Some(i);
  }

  lemma StepKeepsCovered<R>(p: Pool<R>, step: Step, fn: nat -> R)
    requires Exclusive(p) && Covered(p, fn) && Enabled(p, step)
    ensures Covered(Do(p, step, fn), fn)
  {
    var q := Do(p, step, fn);
    var w := step.w;
    assert Held(p.workers[w]).Some? ==> Held(p.workers[w]).value < p.next;
    hide HeldBySome;
    forall i | 0 <= i < q.next && q.results[i].None? ensures HeldBySome(q.workers, i) {
      if step.Take? && i == p.next {
        NowHeld(p.workers, w, i);
      } else {
        assert HeldBySome(p.workers, i);
        HeldAfterUpdate(p.workers, w, q.workers[w], i);
      }
    }
  }

  lemma NowHeld(workers: seq<Worker>, w: nat, i: nat)
    requires w < |workers|
    ensures HeldBySome(workers[w := Busy(i)], i)
  {
    assert Held(workers[w := Busy(i)][w]) == Some(i);
  }

  lemma StepKeepsInv<R>(p: Pool<R>, step: Step, fn: nat -> R)
    requires Inv(p, fn) && Enabled(p, step)
    ensures Inv(Do(p, step, fn), fn)
  {
    StepKeepsExclusive(p, step, fn);
    StepKeepsCovered(p, step, fn);
    hide Exclusive, Covered;
  }

  lemma {:induction false} RunKeepsInv<R>(p: Pool<R>, steps: seq<Step>, fn: nat -> R)
    requires Inv(p, fn) && Runs(p, steps, fn)
    ensures Inv(After(p, steps, fn), fn)
    ensures |After(p, steps, fn).workers| == |p.workers| && After(p, steps, fn).total == p.total
    decreases |steps|
  {
    if steps != [] {
      StepKeepsInv(p, steps[0], fn);
      RunKeepsInv(Do(p, steps[0], fn), steps[1..], fn);
    }
  }

  /** Calls in flight: never more than there are workers. */
  function InFlight(workers: seq<Worker>): (n: nat)
    ensures n <= |workers|
  {
    if workers == [] then 0 else (if workers[0].Busy? then 1 else 0) + InFlight(workers[1..])
  }

  /** Every schedule: indices go out once each, in order, never more than
      max(1, limit) calls at a time, and when every worker has finished without
      a rejection each slot holds its own item's result. */
  lemma EverySchedule<R>(total: nat, limit: int, steps: seq<Step>, fn: nat -> R)
    requires Runs(Start<R>(total, limit), steps, fn)
    ensures var p := After(Start<R>(total, limit), steps, fn);
      && p.taken == seq(p.next, i => i)
      && (forall w, v :: 0 <= w < v < |p.workers| && p.workers[w].Busy? && p.workers[v].Busy? ==>
            p.workers[w].index != p.workers[v].index)
      && InFlight(p.workers) <= (if limit < 1 then 1 else limit)
      && |p.workers| == (if total == 0 then 0 else if limit < 1 then 1 else if limit < total then limit else total)
      && |p.results| == total
      && ((forall w :: 0 <= w < |p.workers| ==> p.workers[w].Done?) ==>
            forall i :: 0 <= i < total ==> p.results[i] == Some(fn(i)))
  {
    var start := Start<R>(total, limit);
    assert forall w :: 0 <= w < |start.workers| ==> start.workers[w] == Idle;
    assert Inv(start, fn);
    RunKeepsInv(start, steps, fn);
    var p := After(start, steps, fn);
    forall w, v | 0 <= w < v < |p.workers| && p.workers[w].Busy? && p.workers[v].Busy?
      ensures p.workers[w].index != p.workers[v].index
    {
      assert Held(p.workers[w]).Some?;
    }
    if forall w :: 0 <= w < |p.workers| ==> p.workers[w].Done? {
      forall i | 0 <= i < total ensures p.results[i] == Some(fn(i)) {
        if total > 0 { assert p.workers[0].Done?; }
        assert !HeldBySome(p.workers, i);
      }
    }
  }

  // ── Every schedule ends ───────────────────────────────────────────────────

  function Weight(workers: seq<Worker>): nat {
    if workers == [] then 0
    else Weight(workers[1..]) + (match workers[0] case Idle => 1 case Busy(_) => 2 case _ => 0)
  }

  /** An upper bound on the steps still to come. */
  function Fuel<R>(p: Pool<R>): int { 3 * (p.total - p.next) + Weight(p.workers) }

  lemma {:induction false} WeightUpdate(workers: seq<Worker>, w: nat, x: Worker)
    requires w < |workers|
    ensures Weight(workers[w := x]) == Weight(workers) - Weight([workers[w]]) + Weight([x])
  {
    if w == 0 {
      assert workers[w := x][1..] == workers[1..];
    } else {
      WeightUpdate(workers[1..], w - 1, x);
      assert workers[w := x][1..] == workers[1..][w - 1 := x];
    }
  }

  /** No call is ever stuck behind another: until all workers are through some
      step can run, and each step uses up fuel. */
  lemma AlwaysProgress<R>(p: Pool<R>, fn: nat -> R)
    requires Inv(p, fn)
    ensures (exists w :: 0 <= w < |p.workers| && (p.workers[w].Idle? || p.workers[w].Busy?)) ==>
      exists step :: Enabled(p, step)
    ensures forall step :: Enabled(p, step) ==> Fuel(p) > Fuel(Do(p, step, fn)) >= 0
  {
    if w :| 0 <= w < |p.workers| && (p.workers[w].Idle? || p.workers[w].Busy?) {
      if p.workers[w].Busy? {
        assert Held(p.workers[w]).Some?;
        assert Enabled(p, Settle(w));
      } else if p.next < p.total {
        assert Enabled(p, Take(w));
      } else {
        assert Enabled(p, Stop(w));
      }
    }
    forall step | Enabled(p, step) ensures Fuel(p) > Fuel(Do(p, step, fn)) >= 0 {
      var q := Do(p, step, fn);
      WeightUpdate(p.workers, step.w, q.workers[step.w]);
    }
  }
}
