// The per-key promise chain: every call hangs its task behind the tail of the
// one before, and the table remembers only the newest tail of each key. The
// per-instance lock and the OBS command queue are both this chain.
module PromiseChain {
  import opened Text

  // How far a call has come: its task queued, running, resolved or rejected; its
  // tail settled; the tail's cleanup run.
  datatype Phase = Waiting | Running | Resolved | Rejected | TailSettled | Cleaned

  predicate Started(p: Phase) { !p.Waiting? }
  predicate TailDone(p: Phase) { p.TailSettled? || p.Cleaned? }

  // `previous` is the tail it hung behind; None where it found no tail.
  datatype Call = Call(key: string, previous: Option<nat>, phase: Phase)

  // `tails` holds, for each key, the call whose tail is the newest.
  datatype State = State(calls: seq<Call>, tails: map<string, nat>) {
    function Move(n: nat, phase: Phase): State
      requires n < |calls|
    {
      this.(calls := calls[n := calls[n].(phase := phase)])
    }
  }

  const EMPTY := State([], map[])

  datatype Step = Enter(key: string) | Begin(n: nat) | Settle(n: nat, ok: bool) | SettleTail(n: nat) | Cleanup(n: nat)

  function Previous(s: State, key: string): Option<nat> { if key in s.tails then Some(s.tails[key]) else None }

  predicate Enabled(s: State, step: Step) {
    match step
    case Enter(_) => true
    case Begin(n) =>
      n < |s.calls| && s.calls[n].phase.Waiting? &&
      (s.calls[n].previous.Some? ==>
        s.calls[n].previous.value < |s.calls| && TailDone(s.calls[s.calls[n].previous.value].phase))
    case Settle(n, _) => n < |s.calls| && s.calls[n].phase.Running?
    case SettleTail(n) => n < |s.calls| && (s.calls[n].phase.Resolved? || s.calls[n].phase.Rejected?)
    case Cleanup(n) => n < |s.calls| && s.calls[n].phase.TailSettled?
  }

  function Next(s: State, step: Step): State
    requires Enabled(s, step)
  {
    match step
    case Enter(key) => State(s.calls + [Call(key, Previous(s, key), Waiting)], s.tails[key := |s.calls|])
    case Begin(n) => s.Move(n, Running)
    case Settle(n, ok) => s.Move(n, if ok then Resolved else Rejected)
    case SettleTail(n) => s.Move(n, TailSettled)
    case Cleanup(n) =>
      var moved := s.Move(n, Cleaned);
      if Previous(s, s.calls[n].key) == Some(n) then moved.(tails := moved.tails - {s.calls[n].key}) else moved
  }

  predicate Runs(s: State, steps: seq<Step>)
    decreases |steps|
  {
    steps == [] || (Enabled(s, steps[0]) && Runs(Next(s, steps[0]), steps[1..]))
  }

  function After(s: State, steps: seq<Step>): State
    requires Runs(s, steps)
    decreases |steps|
  {
    if steps == [] then s else After(Next(s, steps[0]), steps[1..])
  }

  // ── What every step keeps ─────────────────────────────────────────────────

  /** The tails of all earlier calls for its key have settled. */
  ghost predicate FirstInLine(s: State, n: nat)
    requires n < |s.calls|
  {
    forall m :: 0 <= m < n && s.calls[m].key == s.calls[n].key ==> TailDone(s.calls[m].phase)
  }

  ghost predicate Linked(s: State, n: nat)
    requires n < |s.calls|
  {
    match s.calls[n].previous
    case None => FirstInLine(s, n)
    case Some(p) =>
      && p < n && s.calls[p].key == s.calls[n].key
      && (forall m :: p < m < n ==> s.calls[m].key != s.calls[n].key)
  }

  /** No later call has its key. */
  ghost predicate IsLast(s: State, n: nat)
    requires n < |s.calls|
  {
    forall m :: n < m < |s.calls| ==> s.calls[m].key != s.calls[n].key
  }

  ghost predicate Newest(s: State, key: string) {
    if key in s.tails then
      var last := s.tails[key];
      last < |s.calls| && s.calls[last].key == key && !s.calls[last].phase.Cleaned? && IsLast(s, last)
    else
      forall m :: 0 <= m < |s.calls| && s.calls[m].key == key ==>
        TailDone(s.calls[m].phase) && (IsLast(s, m) ==> s.calls[m].phase.Cleaned?)
  }

  ghost predicate Inv(s: State) {
    && (forall n :: 0 <= n < |s.calls| ==> Linked(s, n))
    && (forall n :: 0 <= n < |s.calls| && Started(s.calls[n].phase) ==> FirstInLine(s, n))
    && (forall key :: Newest(s, key))
  }

  /** Moving one call forward never takes a settled tail back. */
  ghost predicate Forward(s: State, t: State) {
    && |t.calls| >= |s.calls|
    && (forall m :: 0 <= m < |s.calls| ==>
          t.calls[m].key == s.calls[m].key && t.calls[m].previous == s.calls[m].previous
          && (TailDone(s.calls[m].phase) ==> TailDone(t.calls[m].phase)))
  }

  lemma StaysInLine(s: State, t: State, n: nat)
    requires Forward(s, t) && n < |s.calls|
    ensures FirstInLine(s, n) ==> FirstInLine(t, n)
    ensures Linked(s, n) ==> Linked(t, n)
  {
  }

  lemma BeginInLine(s: State, n: nat)
    requires Inv(s) && Enabled(s, Begin(n))
    ensures FirstInLine(s, n)
  {
    assert Linked(s, n);
    if s.calls[n].previous.Some? {
      var p := s.calls[n].previous.value;
      assert FirstInLine(s, p);
    }
  }

  lemma StepKeepsNewest(s: State, step: Step, key: string)
    requires Inv(s) && Enabled(s, step)
    ensures Newest(Next(s, step), key)
  {
    assert Newest(s, key);
    var t := Next(s, step);
    if step.Cleanup? {
      assert FirstInLine(s, step.n);
    }
    forall m | 0 <= m < |s.calls| ensures IsLast(t, m) ==> IsLast(s, m) {
      assert forall k :: 0 <= k < |s.calls| ==> t.calls[k].key == s.calls[k].key;
    }
  }

  lemma StepKeepsInv(s: State, step: Step)
    requires Inv(s) && Enabled(s, step)
    ensures Inv(Next(s, step)) && Forward(s, Next(s, step))
  {
    var t := Next(s, step);
    forall n | 0 <= n < |t.calls|
      ensures Linked(t, n) && (Started(t.calls[n].phase) ==> FirstInLine(t, n))
    {
      if n < |s.calls| {
        assert Linked(s, n);
        StaysInLine(s, t, n);
        if step == Begin(n) { BeginInLine(s, n); }
      } else {
        assert Newest(s, step.key);
      }
    }
    forall key ensures Newest(t, key) { StepKeepsNewest(s, step, key); }
  }

  lemma {:induction false} RunKeepsInv(s: State, steps: seq<Step>)
    requires Inv(s) && Runs(s, steps)
    ensures Inv(After(s, steps))
    decreases |steps|
  {
    hide Inv, Next, Enabled;
    if steps != [] {
      StepKeepsInv(s, steps[0]);
      RunKeepsInv(Next(s, steps[0]), steps[1..]);
    }
  }

  // ── The guarantees ────────────────────────────────────────────────────────

  /** At any point of any run: one task per key at a time, in the order of the
      calls, and the table has a key while any call of it is unsettled. */
  lemma EverySchedule(steps: seq<Step>)
    requires Runs(EMPTY, steps)
    ensures var s := After(EMPTY, steps);
      && (forall m, n :: 0 <= m < n < |s.calls| && s.calls[m].key == s.calls[n].key ==>
            !(s.calls[m].phase.Running? && s.calls[n].phase.Running?)
            && (Started(s.calls[n].phase) ==> TailDone(s.calls[m].phase)))
      && (forall n :: 0 <= n < |s.calls| && !TailDone(s.calls[n].phase) ==> s.calls[n].key in s.tails)
      && (forall key :: key in s.tails ==>
            s.tails[key] < |s.calls| && s.calls[s.tails[key]].key == key && !s.calls[s.tails[key]].phase.Cleaned?)
  {
    RunKeepsInv(EMPTY, steps);
    var s := After(EMPTY, steps);
    forall n | 0 <= n < |s.calls| && !TailDone(s.calls[n].phase) ensures s.calls[n].key in s.tails {
      assert Newest(s, s.calls[n].key);
    }
    forall m, n | 0 <= m < n < |s.calls| && s.calls[m].key == s.calls[n].key
      ensures Started(s.calls[n].phase) ==> TailDone(s.calls[m].phase)
    {
      assert Started(s.calls[n].phase) ==> FirstInLine(s, n);
    }
    forall key | key in s.tails
      ensures s.tails[key] < |s.calls| && s.calls[s.tails[key]].key == key && !s.calls[s.tails[key]].phase.Cleaned?
    {
      assert Newest(s, key);
    }
  }

  /** The table holds exactly the keys whose newest call is not cleaned up. */
  lemma TableIsExact(s: State, last: nat)
    requires Inv(s) && last < |s.calls| && IsLast(s, last)
    ensures s.calls[last].key in s.tails <==> !s.calls[last].phase.Cleaned?
    ensures s.calls[last].key in s.tails ==> s.tails[s.calls[last].key] == last
  {
    assert Newest(s, s.calls[last].key);
  }

  /** A rejected task blocks nobody: whatever is still unsettled for a key, the
      first such call can make a step of its own, or is running its task. */
  lemma {:induction false} NobodyIsStuck(s: State, n: nat) returns (first: nat)
    requires Inv(s) && n < |s.calls| && !TailDone(s.calls[n].phase)
    ensures first <= n && s.calls[first].key == s.calls[n].key && !TailDone(s.calls[first].phase) && FirstInLine(s, first)
    ensures s.calls[first].phase.Running? || Enabled(s, Begin(first)) || Enabled(s, SettleTail(first))
  {
    if m :| 0 <= m < n && s.calls[m].key == s.calls[n].key && !TailDone(s.calls[m].phase) {
      first := NobodyIsStuck(s, m);
    } else {
      first := n;
      assert Linked(s, n);
    }
  }

  // ── The chain is a queue ──────────────────────────────────────────────────

  /** The calls of a key whose tail has not settled, oldest first. */
  function Queue(calls: seq<Call>, key: string): seq<nat> {
    if calls == [] then []
    else
      var n := |calls| - 1;
      Queue(calls[..n], key) + (if calls[n].key == key && !TailDone(calls[n].phase) then [n] else [])
  }

  lemma {:induction false} QueueEmpty(calls: seq<Call>, key: string)
    requires forall m :: 0 <= m < |calls| && calls[m].key == key ==> TailDone(calls[m].phase)
    ensures Queue(calls, key) == []
  {
    if calls != [] { QueueEmpty(calls[..|calls| - 1], key); }
  }

  lemma {:induction false} QueueHead(calls: seq<Call>, key: string, n: nat)
    requires n < |calls| && calls[n].key == key && !TailDone(calls[n].phase)
    requires forall m :: 0 <= m < n && calls[m].key == key ==> TailDone(calls[m].phase)
    ensures Queue(calls, key) != [] && Queue(calls, key)[0] == n
  {
    var rest := calls[..|calls| - 1];
    if n < |calls| - 1 {
      QueueHead(rest, key, n);
    } else {
      QueueEmpty(rest, key);
    }
  }

  lemma {:induction false} QueueSame(a: seq<Call>, b: seq<Call>, key: string)
    requires |a| == |b|
    requires forall m :: 0 <= m < |a| ==>
      (a[m].key == key && !TailDone(a[m].phase) <==> b[m].key == key && !TailDone(b[m].phase))
    ensures Queue(a, key) == Queue(b, key)
  {
    if a != [] { QueueSame(a[..|a| - 1], b[..|b| - 1], key); }
  }

  lemma {:induction false} QueuePop(calls: seq<Call>, key: string, n: nat, c: Call)
    requires n < |calls| && calls[n].key == key && !TailDone(calls[n].phase) && c.key == key && TailDone(c.phase)
    requires forall m :: 0 <= m < n && calls[m].key == key ==> TailDone(calls[m].phase)
    ensures Queue(calls, key) == [n] + Queue(calls[n := c], key)
  {
    var rest := calls[..|calls| - 1];
    if n < |calls| - 1 {
      QueuePop(rest, key, n, c);
      assert calls[n := c][..|calls| - 1] == rest[n := c];
    } else {
      QueueEmpty(rest, key);
      assert calls[n := c][..|calls| - 1] == rest;
    }
  }

  /** Seen from one key the chain is a first-in first-out lock: a call joins at
      the end, only the head can be running, and settling its tail, whatever its
      task's outcome, hands over to the next. */
  lemma ChainIsQueue(s: State, step: Step, key: string)
    requires Inv(s) && Enabled(s, step)
    ensures var q, q' := Queue(s.calls, key), Queue(Next(s, step).calls, key);
      match step
      case Enter(k) => q' == if k == key then q + [|s.calls|] else q
      case Begin(n) => q' == q && (s.calls[n].key == key ==> q != [] && q[0] == n)
      case Settle(n, _) => q' == q && (s.calls[n].key == key ==> q != [] && q[0] == n)
      case SettleTail(n) => q == (if s.calls[n].key == key then [n] else []) + q'
      case Cleanup(_) => q' == q
  {
    var t := Next(s, step);
    match step {
      case Enter(_) =>
        assert t.calls[..|s.calls|] == s.calls;
      case Begin(n) =>
        BeginInLine(s, n);
        QueueSame(s.calls, t.calls, key);
        if s.calls[n].key == key { QueueHead(s.calls, key, n); }
      case Settle(n, _) =>
        assert FirstInLine(s, n);
        QueueSame(s.calls, t.calls, key);
        if s.calls[n].key == key { QueueHead(s.calls, key, n); }
      case SettleTail(n) =>
        assert FirstInLine(s, n);
        if s.calls[n].key == key {
          QueuePop(s.calls, key, n, t.calls[n]);
        } else {
          QueueSame(s.calls, t.calls, key);
        }
      case Cleanup(_) =>
        QueueSame(s.calls, t.calls, key);
    }
  }

  /** While a key is not in the table, a call for it starts at once. */
  lemma UnlockedStartsAtOnce(s: State, key: string)
    requires Inv(s) && key !in s.tails
    ensures Enabled(Next(s, Enter(key)), Begin(|s.calls|))
    ensures Queue(s.calls, key) == []
  {
    assert Newest(s, key);
    QueueEmpty(s.calls, key);
  }

  // ── The table as the code keeps it ────────────────────────────────────────

  class LockTable {
    var calls: seq<Call>
    var tails: map<string, nat>

    constructor ()
      ensures Now() == EMPTY
    {
      calls, tails := [], map[];
    }

    ghost function Now(): State
      reads this
    {
      State(calls, tails)
    }

    predicate IsLocked(key: string)
      reads this
    {
      key in tails
    }

    /** Hangs a task behind the key's newest tail. */
    method WithLock(key: string) returns (n: nat)
      modifies this
      ensures n == |old(calls)| && Now() == Next(old(Now()), Enter(key))
    {
      var previous := if key in tails then Some(tails[key]) else None;
      n := |calls|;
      calls := calls + [Call(key, previous, Waiting)];
      tails := tails[key := n];
    }

    /** Autosave's way in: a locked key is skipped, a free one starts at once. */
    method WithLockIfFree(key: string) returns (n: Option<nat>)
      requires Inv(Now())
      modifies this
      ensures n.None? <==> old(IsLocked(key))
      ensures n.None? ==> Now() == old(Now())
      ensures n.Some? ==> Now() == Next(old(Now()), Enter(key)) && Enabled(Now(), Begin(n.value))
    {
      if IsLocked(key) { return None; }
      UnlockedStartsAtOnce(Now(), key);
      var mine := WithLock(key);
      return Some(mine);
    }

    /** The `finally` of a tail. */
    method TailCleanup(n: nat)
      requires Enabled(Now(), Cleanup(n))
      modifies this
      ensures Now() == Next(old(Now()), Cleanup(n))
    {
      var key := calls[n].key;
      calls := calls[n := calls[n].(phase := Cleaned)];
      if key in tails && tails[key] == n { tails := tails - {key}; }
    }
  }
}
