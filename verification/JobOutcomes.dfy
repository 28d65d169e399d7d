// How each job of an instance ends: what a start, stop, destroy or save leaves of
// the row, the container and the dir, for every way its calls can turn out, and
// what a row says in every interleaving.
module JobOutcomes {
  import opened Text
  import opened Lifecycle

  /** The job at work until it is over, with nothing happening beside it. */
  function Alone(s: State, oks: seq<bool>): State
    decreases |oks|
  {
    if s.cur.Idle? || oks == [] then s else Alone(Next(s, Run(oks[0])), oks[1..])
  }

  /** Which is one of its runs. */
  lemma {:induction false} AloneIsARun(s: State, oks: seq<bool>) returns (steps: seq<Step>)
    ensures Runs(s, steps) && After(s, steps) == Alone(s, oks)
    decreases |oks|
  {
    if s.cur.Idle? || oks == [] {
      steps := [];
    } else {
      var rest := AloneIsARun(Next(s, Run(oks[0])), oks[1..]);
      hide Next;
      steps := [Run(oks[0])] + rest;
      assert steps[1..] == rest;
    }
  }

  lemma Onward(s: State, oks: seq<bool>)
    requires !s.cur.Idle? && oks != []
    ensures Alone(s, oks) == Alone(Advance(s, oks[0]), oks[1..])
  {
    hide Advance;
  }

  lemma Over(s: State, oks: seq<bool>)
    requires s.cur.Idle?
    ensures Alone(s, oks) == s
  {
  }

  /** The job is over, and left alone what it has no business with. */
  predicate Done(s: State, t: State) {
    && t.cur.Idle? && t.queue == s.queue && t.writes == s.writes && t.saves == s.saves
    && t.abandoned == s.abandoned && t.dir == s.dir
  }

  // ── A start ───────────────────────────────────────────────────────────────

  /** The row says error, and still names the container it named. */
  function Marked(s: State, wrote: bool): Option<Row> {
    if wrote then Some(Row(IsError, RowContainer(s))) else s.row
  }

  predicate CameUp(s: State, t: State, c: Cid) {
    Done(s, t) && t.box == Some(Container(c, Running)) && t.row == Some(Row(IsRunning, Some(c)))
  }

  /** A start that had made a container and failed: the container is removed; if that
      fails too and it is live, it is adopted if it is found; else the row says error. */
  predicate GaveUp(s: State, t: State, c: Cid, ran: bool, removed: bool, found: bool, wrote: bool) {
    && Done(s, t)
    && t.box == (if removed then None else Some(Container(c, if ran then Running else Created)))
    && t.row == if ran && !removed && found then (if wrote then Some(Row(IsRunning, Some(c))) else s.row) else Marked(s, wrote)
  }

  lemma FromError(s: State, oks: seq<bool>)
    requires s.cur.StartError? && s.row.Some? && oks != []
    ensures Alone(s, oks) == s.(row := Marked(s, oks[0]), cur := Idle)
  {
    hide Alone;
    Onward(s, oks);
    Over(Advance(s, oks[0]), oks[1..]);
  }

  lemma FromAdopt(s: State, oks: seq<bool>)
    requires s.cur.StartAdopt? && s.row.Some? && oks != []
    ensures Alone(s, oks) == s.(row := if oks[0] then Some(Row(IsRunning, Some(s.cur.c))) else s.row, cur := Idle)
  {
    hide Alone;
    Onward(s, oks);
    Over(Advance(s, oks[0]), oks[1..]);
  }

  lemma FromProbe(s: State, oks: seq<bool>)
    requires s.cur.StartProbe? && s.row.Some? && |oks| >= 2
    ensures Alone(s, oks) == s.(cur := Idle, row :=
      if !NoneLive(s) && oks[0] then (if oks[1] then Some(Row(IsRunning, Some(s.box.value.id))) else s.row) else Marked(s, oks[1]))
  {
    hide Alone;
    Onward(s, oks);
    var t := Advance(s, oks[0]);
    if t.cur.StartAdopt? { FromAdopt(t, oks[1..]); } else { FromError(t, oks[1..]); }
  }

  lemma FromFailed(s: State, oks: seq<bool>)
    requires s.cur.StartFailed? && s.row.Some? && |oks| >= 3
    requires s.box == Some(Container(s.cur.c, Created)) || s.box == Some(Container(s.cur.c, Running))
    ensures GaveUp(s, Alone(s, oks), s.cur.c, s.box.value.state.Running?, oks[0], oks[1], oks[2])
    ensures Alone(s, oks).apiStopping == s.apiStopping
  {
    hide Alone;
    Onward(s, oks);
    FromProbe(Advance(s, oks[0]), oks[1..]);
  }

  lemma FromCommit(s: State, oks: seq<bool>)
    requires s.cur.StartCommit? && s.box == Some(Container(s.cur.c, Running)) && s.row.Some? && |oks| >= 4
    ensures var t := Alone(s, oks);
      && (if oks[0] then CameUp(s, t, s.cur.c) else GaveUp(s, t, s.cur.c, true, oks[1], oks[2], oks[3]))
      && t.apiStopping == s.apiStopping
  {
    hide Alone;
    Onward(s, oks);
    if oks[0] { Over(Advance(s, true), oks[1..]); } else { FromFailed(Advance(s, false), oks[1..]); }
  }

  lemma FromRun(s: State, oks: seq<bool>)
    requires s.cur.StartRun? && s.box == Some(Container(s.cur.c, Created)) && s.row.Some? && |oks| >= 5
    ensures var t := Alone(s, oks);
      && (if !oks[0] then GaveUp(s, t, s.cur.c, false, oks[1], oks[2], oks[3])
          else if !oks[1] then GaveUp(s, t, s.cur.c, true, oks[2], oks[3], oks[4])
          else CameUp(s, t, s.cur.c))
      && t.apiStopping == s.apiStopping
  {
    hide Alone;
    Onward(s, oks);
    if oks[0] { FromCommit(Advance(s, true), oks[1..]); } else { FromFailed(Advance(s, false), oks[1..]); }
  }

  lemma FromCreate(s: State, oks: seq<bool>)
    requires s.cur.StartCreate? && s.box.None? && s.row.Some? && |oks| >= 6
    ensures var c, t := s.nextId, Alone(s, oks);
      && (if !oks[0] then Done(s, t) && t.box.None? && t.row == Marked(s, oks[2])
          else if !oks[1] then GaveUp(s, t, c, false, oks[2], oks[3], oks[4])
          else if !oks[2] then GaveUp(s, t, c, true, oks[3], oks[4], oks[5])
          else CameUp(s, t, c))
      && t.apiStopping == s.apiStopping
  {
    hide Alone;
    Onward(s, oks);
    if oks[0] { FromRun(Advance(s, true), oks[1..]); } else { FromProbe(Advance(s, false), oks[1..]); }
  }

  /** The dir is the pulled one from here on; an inject that throws ends the start. */
  lemma FromPull(s: State, oks: seq<bool>)
    requires s.cur.StartPull? && s.box.None? && s.row.Some? && |oks| >= 8
    ensures var c, t, pulled := s.nextId, Alone(s, oks), s.(dir := s.dir.Pulled(oks[0]));
      && (if !oks[1] then t == pulled.(cur := Idle)
          else if !oks[2] then Done(pulled, t) && t.box.None? && t.row == Marked(s, oks[4])
          else if !oks[3] then GaveUp(pulled, t, c, false, oks[4], oks[5], oks[6])
          else if !oks[4] then GaveUp(pulled, t, c, true, oks[5], oks[6], oks[7])
          else CameUp(pulled, t, c))
      && t.apiStopping == s.apiStopping
  {
    hide Alone;
    Onward(s, oks);
    Onward(Advance(s, oks[0]), oks[1..]);
    var t := Advance(Advance(s, oks[0]), oks[1]);
    if oks[1] { FromCreate(t, oks[2..]); } else { Over(t, oks[2..]); }
  }

  /** However its calls turn out, a start with nothing live ends in one of these ways.
      Its look, its checks and the removal of a stale container refuse it with all as it
      was; a throw of its inject leaves the pulled dir alone. Past that, either a new
      container is live and in the row, or the start gave up. */
  lemma StartEnds(s: State, oks: seq<bool>)
    requires s.cur.StartFind? && NoneLive(s) && s.row.Some? && |oks| >= 11
    ensures var t, n, c := Alone(s, oks), if s.box.Some? then 3 else 2, s.nextId;
      var pulled := s.(dir := s.dir.Pulled(oks[n]));
      && (if !(oks[0] && oks[1] && oks[n - 1]) then t == s.(cur := Idle)
          else if !oks[n + 1] then t == pulled.(box := None, cur := Idle)
          else if !oks[n + 2] then Done(pulled, t) && t.box.None? && t.row == Marked(s, oks[n + 4])
          else if !oks[n + 3] then GaveUp(pulled, t, c, false, oks[n + 4], oks[n + 5], oks[n + 6])
          else if !oks[n + 4] then GaveUp(pulled, t, c, true, oks[n + 5], oks[n + 6], oks[n + 7])
          else CameUp(pulled, t, c))
      && t.apiStopping == s.apiStopping
  {
    hide Alone;
    Onward(s, oks);
    var checked := Advance(s, oks[0]);
    if !oks[0] {
      Over(checked, oks[1..]);
    } else {
      var n := if s.box.Some? then 3 else 2;
      FromCheck(checked, oks[1..]);
      assert oks[1..][n - 1..] == oks[n..];
      FromPull(s.(box := None, cur := StartPull), oks[n..]);
    }
  }

  lemma FromCheck(s: State, oks: seq<bool>)
    requires s.cur.StartCheck? && NoneLive(s) && s.row.Some? && |oks| >= 10
    requires s.cur.stale == if s.box.Some? then Some(s.box.value.id) else None
    ensures var n := if s.box.Some? then 2 else 1;
      if !(oks[0] && oks[n - 1]) then Alone(s, oks) == s.(cur := Idle)
      else Alone(s, oks) == Alone(s.(box := None, cur := StartPull), oks[n..])
  {
    hide Alone;
    Onward(s, oks);
    var next := Advance(s, oks[0]);
    if !oks[0] {
      Over(next, oks[1..]);
    } else if s.box.Some? {
      Onward(next, oks[1..]);
      assert oks[1..][1..] == oks[2..];
      if !oks[1] { Over(Advance(next, false), oks[2..]); }
    }
  }

  /** A start that finds a live container adopts it: the row names it if the look and
      the write work, and nothing else changes. */
  lemma StartAdopts(s: State, oks: seq<bool>)
    requires s.cur.StartFind? && !NoneLive(s) && s.row.Some? && |oks| >= 2
    ensures Alone(s, oks) ==
      s.(cur := Idle, row := if oks[0] && oks[1] then Some(Row(IsRunning, Some(s.box.value.id))) else s.row)
  {
    hide Alone;
    Onward(s, oks);
    if oks[0] { FromAdopt(Advance(s, true), oks[1..]); } else { Over(Advance(s, false), oks[1..]); }
  }

  // ── A stop, a destroy, a save ─────────────────────────────────────────────

  function Stopped(box: Option<Container>, c: Cid): Option<Container> {
    if box == Some(Container(c, Running)) then Some(Container(c, Exited)) else box
  }

  function Gone(box: Option<Container>, c: Cid): Option<Container> {
    if box.Some? && box.value.id == c then None else box
  }

  /** A stop whose container cannot be stopped changes nothing; any other takes the
      dir, removes the container if that works, and writes its row. The mark is gone
      either way. */
  lemma StopEnds(s: State, oks: seq<bool>)
    requires s.cur.StopMark? && |oks| >= 6
    ensures var c, t := s.cur.c, Alone(s, oks);
      if !oks[1] || !Present(s, c) then t == s.(apiStopping := s.apiStopping - {c}, cur := Idle)
      else
        && Done(s.(dir := s.dir.By(ByStop(c))), t) && t.apiStopping == s.apiStopping - {c}
        && t.box == (if oks[3] then None else Stopped(s.box, c))
        && t.row == if oks[4] && s.row.Some? then Some(Row(IsStopped, None)) else s.row
  {
    hide Alone;
    var c := s.cur.c;
    Onward(s, oks);
    var marked := Advance(s, oks[0]);
    Onward(marked, oks[1..]);
    var halted := Advance(marked, oks[1]);
    assert oks[1..][1..] == oks[2..] && oks[2..][1..] == oks[3..];
    assert s.apiStopping + {c} - {c} == s.apiStopping - {c};
    if halted.cur.StopClear? {
      FromClear(halted, oks[2..]);
    } else {
      Onward(halted, oks[2..]);
      FromRemove(Advance(halted, oks[2]), oks[3..]);
    }
  }

  lemma FromRemove(s: State, oks: seq<bool>)
    requires s.cur.StopRemove? && s.box.Some? && s.box.value.id == s.cur.c && !Live(s, s.cur.c) && |oks| >= 3
    ensures var t := Alone(s, oks);
      && Done(s, t) && t.apiStopping == s.apiStopping - {s.cur.c} && t.box == (if oks[0] then None else s.box)
      && t.row == if oks[1] && s.row.Some? then Some(Row(IsStopped, None)) else s.row
  {
    hide Alone;
    Onward(s, oks);
    FromStopWrite(Advance(s, oks[0]), oks[1..]);
  }

  lemma FromStopWrite(s: State, oks: seq<bool>)
    requires s.cur.StopWrite? && |oks| >= 2
    ensures Alone(s, oks) == s.(apiStopping := s.apiStopping - {s.cur.c}, cur := Idle,
                                row := if oks[0] && s.row.Some? then Some(Row(IsStopped, None)) else s.row)
  {
    hide Alone;
    Onward(s, oks);
    FromClear(Advance(s, oks[0]), oks[1..]);
  }

  lemma FromClear(s: State, oks: seq<bool>)
    requires s.cur.StopClear? && oks != []
    ensures Alone(s, oks) == s.(apiStopping := s.apiStopping - {s.cur.c}, cur := Idle)
  {
    hide Alone;
    Onward(s, oks);
    Over(Advance(s, oks[0]), oks[1..]);
  }

  /** A destroy goes on whatever fails: its container is stopped and removed, its dir
      removed, as far as the calls work, and the row is deleted if that one works. */
  lemma DestroyEnds(s: State, oks: seq<bool>)
    requires s.cur.DestroyMark? && |oks| >= 7
    ensures var c, t := s.cur.c, Alone(s, oks);
      var stopped := if oks[1] then Stopped(s.box, c) else s.box;
      && t.cur.Idle? && t.queue == s.queue && t.writes == s.writes && t.saves == s.saves
      && t.apiStopping == s.apiStopping - {c}
      && t.box == (if oks[3] then Gone(stopped, c) else stopped)
      && t.dir == (if oks[2] then s.dir.By(ByDestroy(c)) else s.dir)
      && t.row == (if oks[6] then None else s.row)
      && t.abandoned == (s.abandoned || (oks[6] && !NoneLive(t)))
  {
    hide Alone;
    var c := s.cur.c;
    Onward(s, oks);
    var marked := Advance(s, oks[0]);
    FromDestroyStop(marked, oks[1..]);
    assert s.apiStopping + {c} - {c} == s.apiStopping - {c};
    hide Advance, NoneLive;
  }

  lemma FromDestroyStop(s: State, oks: seq<bool>)
    requires s.cur.DestroyStop? && |oks| >= 6
    ensures var c, t := s.cur.c, Alone(s, oks);
      var stopped := if oks[0] then Stopped(s.box, c) else s.box;
      t == s.(apiStopping := s.apiStopping - {c}, cur := Idle, died := t.died, box := if oks[2] then Gone(stopped, c) else stopped,
              dir := if oks[1] then s.dir.By(ByDestroy(c)) else s.dir, row := if oks[5] then None else s.row,
              abandoned := s.abandoned || (oks[5] && !NoneLive(t)))
  {
    hide Alone;
    Onward(s, oks);
    FromDestroyDir(Advance(s, oks[0]), oks[1..]);
  }

  lemma FromDestroyDir(s: State, oks: seq<bool>)
    requires s.cur.DestroyDir? && |oks| >= 5
    ensures var c, t := s.cur.c, Alone(s, oks);
      t == s.(apiStopping := s.apiStopping - {c}, cur := Idle, died := t.died, box := if oks[1] then Gone(s.box, c) else s.box,
              dir := if oks[0] then s.dir.By(ByDestroy(c)) else s.dir, row := if oks[4] then None else s.row,
              abandoned := s.abandoned || (oks[4] && !NoneLive(t)))
  {
    hide Alone;
    Onward(s, oks);
    FromDestroyRemove(Advance(s, oks[0]), oks[1..]);
  }

  lemma FromDestroyRemove(s: State, oks: seq<bool>)
    requires s.cur.DestroyRemove? && |oks| >= 4
    ensures var c, t := s.cur.c, Alone(s, oks);
      && t == s.(apiStopping := s.apiStopping - {c}, cur := Idle, died := t.died, box := if oks[0] then Gone(s.box, c) else s.box,
                 row := if oks[3] then None else s.row, abandoned := s.abandoned || (oks[3] && !NoneLive(t)))
  {
    hide Alone;
    Onward(s, oks);
    var removed := Advance(s, oks[0]);
    Onward(removed, oks[1..]);
    var cleared := Advance(removed, oks[1]);
    assert oks[1..][1..] == oks[2..];
    FromS3(cleared, oks[2..]);
  }

  /** A destroy of an instance without a container: the row alone. */
  lemma FromS3(s: State, oks: seq<bool>)
    requires s.cur.DestroyS3? && |oks| >= 2
    ensures Alone(s, oks) ==
      s.(cur := Idle, row := if oks[1] then None else s.row, abandoned := s.abandoned || (oks[1] && !NoneLive(s)))
  {
    hide Alone;
    Onward(s, oks);
    Onward(Advance(s, oks[0]), oks[1..]);
    Over(Advance(Advance(s, oks[0]), oks[1]), oks[1..][1..]);
  }

  /** A die handler's save takes the dir exactly when its look at the row works and
      the row names no container. */
  lemma SaveEnds(s: State, oks: seq<bool>)
    requires s.cur.SaveRead? && |oks| >= 2
    ensures Alone(s, oks) == s.(cur := Idle, dir := if oks[0] && RowContainer(s).None? then s.dir.By(ByDieHandler) else s.dir)
  {
    hide Alone;
    Onward(s, oks);
    var read := Advance(s, oks[0]);
    if read.cur.Idle? {
      Over(read, oks[1..]);
    } else {
      Onward(read, oks[1..]);
      Over(Advance(read, oks[1]), oks[1..][1..]);
    }
  }

  /** A destroy can take the dir of a live container, with the row as it is and never
      deleted: its stop fails and everything after it does, but for the rm of the dir. */
  lemma FailedDestroyTakesDir(start: State) returns (steps: seq<Step>)
    requires Initial(start)
    ensures Runs(start, steps)
    ensures var s := After(start, steps);
      DirLost(s) && s.cur.Idle? && s.row.Some? && !s.abandoned && RowContainer(s) == Some(s.box.value.id)
  {
    One(start, Request(Start));
    steps := [Request(Start)];
    var more := StartWorks(After(start, steps));
    steps := Then(start, steps, more);
    var up := After(start, steps);
    more := [Request(Destroy(RowContainer(up))), Begin];
    Two(up, more[0], more[1]);
    steps := Then(start, steps, more);
    var begun := After(start, steps);
    hide Runs, After, Next;
    var oks := [true, false, true, false, true, false, false];
    DestroyEnds(begun, oks);
    more := AloneIsARun(begun, oks);
    steps := Then(start, steps, more);
  }

  // ── What a row says, over every interleaving ──────────────────────────────

  /** The container is live, or its die event exists. */
  predicate Known(s: State, c: Cid) { Live(s, c) || c in s.died }

  predicate RowTold(s: State) {
    && (RowContainer(s).Some? ==> Known(s, RowContainer(s).value))
    && (s.cur.StartAdopt? || s.cur.StartCommit? ==> Known(s, s.cur.c))
    && (s.cur.StartRun? || s.cur.StartCommit? || s.cur.StartFailed? ==> RowContainer(s) != Some(s.cur.c))
    && (s.cur.StartProbe? || s.cur.StartError? ==> !NamesLive(s))
    && (NamesLive(s) ==> s.row.value.status.IsRunning?)
    && (s.row.Some? && s.row.value.status.IsStopped? ==> s.row.value.container.None?)
  }

  predicate NamesLive(s: State) { RowContainer(s).Some? && Live(s, RowContainer(s).value) }

  lemma StepKeepsTold(s: State, step: Step)
    requires Inv(s) && RowTold(s) && Enabled(s, step)
    ensures RowTold(Next(s, step))
  {
    if step.Run? { JobKeepsTold(s, step.ok); }
    hide Advance;
  }

  lemma JobKeepsTold(s: State, ok: bool)
    requires Inv(s) && RowTold(s) && !s.cur.Idle?
    ensures RowTold(Advance(s, ok))
  {
    hide AdvanceStart, AdvanceStop, AdvanceDestroy;
    if IsStart(s.cur) {
      StartKeepsTold(s, ok);
    } else if IsStop(s.cur) {
      StopKeepsTold(s, ok);
    } else if IsDestroy(s.cur) {
      DestroyKeepsTold(s, ok);
    }
  }

  lemma StartKeepsTold(s: State, ok: bool)
    requires Inv(s) && RowTold(s) && IsStart(s.cur)
    ensures RowTold(AdvanceStart(s, ok))
  {
    hide AdvanceStart;
    if Writes(s.cur) { WriteKeepsTold(s, ok); } else { StartKeepsRow(s, ok); }
  }

  predicate Writes(p: Proc) { p.StartAdopt? || p.StartCommit? || p.StartError? }

  lemma WriteKeepsTold(s: State, ok: bool)
    requires Holding(s) && RowTold(s) && IsStart(s.cur) && Writes(s.cur)
    ensures RowTold(AdvanceStart(s, ok))
  {
  }

  lemma StartKeepsRow(s: State, ok: bool)
    requires Docker(s) && Holding(s) && RowTold(s) && IsStart(s.cur) && !Writes(s.cur)
    requires s.cur.StartCreate? ==> NoneLive(s)
    ensures RowTold(AdvanceStart(s, ok))
  {
  }

  lemma StopKeepsTold(s: State, ok: bool)
    requires RowTold(s) && IsStop(s.cur)
    ensures RowTold(AdvanceStop(s, ok))
  {
  }

  lemma DestroyKeepsTold(s: State, ok: bool)
    requires RowTold(s) && IsDestroy(s.cur)
    ensures RowTold(AdvanceDestroy(s, ok))
  {
  }

  lemma {:induction false} RunKeepsTold(s: State, steps: seq<Step>)
    requires Inv(s) && RowTold(s) && Runs(s, steps)
    ensures Inv(After(s, steps)) && RowTold(After(s, steps))
    decreases |steps|
  {
    hide Inv, RowTold, Next, Enabled;
    if steps != [] {
      StepKeepsInv(s, steps[0]);
      StepKeepsTold(s, steps[0]);
      RunKeepsTold(Next(s, steps[0]), steps[1..]);
    }
  }

  /** Over every interleaving: a row that names a live container says running, a row
      that says stopped names none, and a container a row names is live or its die
      event is there to be handled. */
  lemma RowTellsTruth(start: State, steps: seq<Step>)
    requires Initial(start) && Runs(start, steps)
    ensures var s := After(start, steps);
      && (NamesLive(s) ==> s.row.value.status.IsRunning?)
      && (s.row.Some? && s.row.value.status.IsStopped? ==> s.row.value.container.None?)
      && (RowContainer(s).Some? && !NamesLive(s) ==> RowContainer(s).value in s.died)
  {
    InitialInv(start);
    RunKeepsTold(start, steps);
  }
}
