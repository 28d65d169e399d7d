// A container that a failed start could not remove, find or enter in the row: when
// it can meet a final push.
module Orphans {
  import opened Text
  import opened Lifecycle
  import opened JobOutcomes

  /** A container is live that the row does not name. */
  predicate Orphaned(s: State) {
    s.cur.Idle? && !NoneLive(s) && s.row.Some? && RowContainer(s) != Some(s.box.value.id)
  }

  // ── The two bits of history change nothing ────────────────────────────────

  function Bare(s: State): State { s.(orphaned := false, abandoned := false) }

  lemma NextBare(s: State, step: Step)
    requires Enabled(s, step) && LeavesNone(s, step)
    ensures Enabled(Bare(s), step) && Next(Bare(s), step) == Bare(Next(s, step))
  {
    if step.Run? { AdvanceBare(s, step.ok); }
    hide Advance;
  }

  lemma AdvanceBare(s: State, ok: bool)
    requires !s.cur.Idle? && LeavesNone(s, Run(ok))
    ensures Advance(Bare(s), ok) == Bare(Advance(s, ok))
  {
    hide AdvanceStart, AdvanceStop, AdvanceDestroy;
    if IsStart(s.cur) {
      StartBare(s, ok);
    } else if IsStop(s.cur) {
      StopBare(s, ok);
    } else if IsDestroy(s.cur) {
      DestroyBare(s, ok);
    }
  }

  lemma StartBare(s: State, ok: bool)
    requires IsStart(s.cur) && LeavesNone(s, Run(ok))
    ensures AdvanceStart(Bare(s), ok) == Bare(AdvanceStart(s, ok))
  {
  }

  lemma StopBare(s: State, ok: bool)
    requires IsStop(s.cur)
    ensures AdvanceStop(Bare(s), ok) == Bare(AdvanceStop(s, ok))
  {
  }

  lemma DestroyBare(s: State, ok: bool)
    requires IsDestroy(s.cur) && LeavesNone(s, Run(ok))
    ensures AdvanceDestroy(Bare(s), ok) == Bare(AdvanceDestroy(s, ok))
  {
  }

  // ── Without a save to come, nothing reaches the dir ───────────────────────

  /** What a job can be about while the orphan stays one. */
  predicate Waits(p: Proc) {
    p.Idle? || p.StartFind? || p.StartAdopt? || p.StopMark? || p.StopContainer? || p.StopClear? || IsDestroy(p) || p.PushDir?
  }

  predicate StillOne(s: State) {
    s.row.Some? && !NoneLive(s) && RowContainer(s).None? && !SavesComing(s) && Waits(s.cur)
  }

  ghost predicate Beside(s: State) { Inv(s) && StillOne(s) }

  /** The orphan waits, or there is none any more. */
  ghost predicate Harmless(s: State) { Inv(Bare(s)) || Beside(s) }

  lemma HarmlessIsApart(s: State)
    requires Harmless(s)
    ensures !Clash(s)
  {
  }

  /** Halted, adopted or crashed, it is none. */
  lemma NoOrphan(s: State)
    requires Inv(s) && (NoneLive(s) || (s.cur.Idle? && RowContainer(s) == Some(s.box.value.id)))
    ensures Inv(Bare(s))
  {
  }

  lemma BesideStep(s: State, step: Step)
    requires Beside(s) && Enabled(s, step) && LeavesNone(s, step)
    ensures Harmless(Next(s, step))
  {
    StepKeepsInv(s, step);
    hide Inv;
    var t := Next(s, step);
    if step.Run? { BesideJob(s, step.ok); } else { BesideOther(s, step); }
    hide Next;
    if !Beside(t) { NoOrphan(t); }
  }

  predicate StillOrNone(s: State) {
    StillOne(s) || NoneLive(s) || (s.cur.Idle? && RowContainer(s) == Some(s.box.value.id))
  }

  lemma BesideJob(s: State, ok: bool)
    requires StillOne(s) && !s.cur.Idle? && LeavesNone(s, Run(ok)) && Holding(s)
    ensures StillOrNone(Next(s, Run(ok)))
  {
    hide AdvanceStart, AdvanceStop, AdvanceDestroy;
    if IsStart(s.cur) {
      BesideStart(s, ok);
    } else if IsStop(s.cur) {
      BesideStop(s, ok);
    } else if IsDestroy(s.cur) {
      BesideDestroy(s, ok);
    }
  }

  lemma BesideStart(s: State, ok: bool)
    requires StillOne(s) && IsStart(s.cur) && Holding(s)
    ensures StillOrNone(AdvanceStart(s, ok))
  {
  }

  lemma BesideStop(s: State, ok: bool)
    requires StillOne(s) && IsStop(s.cur)
    ensures StillOrNone(AdvanceStop(s, ok))
  {
  }

  lemma BesideDestroy(s: State, ok: bool)
    requires StillOne(s) && IsDestroy(s.cur) && LeavesNone(s, Run(ok))
    ensures StillOrNone(AdvanceDestroy(s, ok))
  {
  }

  lemma BesideOther(s: State, step: Step)
    requires StillOne(s) && Enabled(s, step) && !step.Run?
    ensures StillOrNone(Next(s, step))
  {
    hide Advance;
  }

  lemma {:induction false} HarmlessForever(s: State, steps: seq<Step>)
    requires Harmless(s) && Runs(s, steps) && Always(s, steps, LeavesNone)
    ensures !Clash(After(s, steps))
    decreases |steps|
  {
    HarmlessIsApart(s);
    hide Inv, Beside, Clash, Next, Enabled, LeavesNone;
    if steps != [] {
      if Beside(s) {
        BesideStep(s, steps[0]);
      } else {
        NextBare(s, steps[0]);
        StepKeepsInv(Bare(s), steps[0]);
      }
      HarmlessForever(Next(s, steps[0]), steps[1..]);
    }
  }

  /** A container left behind can meet a final push, though no other is left behind
      after it, exactly when a die handler is on its way to the dir or the row still
      names an earlier container, whose death will send one. */
  lemma OrphanMeetsPushExactlyWhen(s: State)
    requires Inv(s) && RowTold(s) && MarksExact(s) && Orphaned(s)
    ensures CanClash(s) <==> SavesComing(s) || RowContainer(s).Some?
  {
    if SavesComing(s) || RowContainer(s).Some? {
      var steps := SaveMeetsOrphan(s);
    } else {
      assert Beside(s);
      forall steps | Runs(s, steps) && Always(s, steps, LeavesNone) ensures !Clash(After(s, steps)) {
        HarmlessForever(s, steps);
      }
    }
  }

  lemma SaveMeetsOrphan(s: State) returns (steps: seq<Step>)
    requires Inv(s) && RowTold(s) && MarksExact(s) && Orphaned(s) && (SavesComing(s) || RowContainer(s).Some?)
    ensures Runs(s, steps) && Always(s, steps, LeavesNone) && Clash(After(s, steps))
  {
    var c := s.box.value.id;
    if RowContainer(s).Some? {
      var dead := RowContainer(s).value;
      steps := [Deliver(dead), DieWrite(dead, IsError, true)];
      Two(s, steps[0], steps[1]);
      assert steps[1..] == [steps[1]] && steps[1..][1..] == [];
      assert Always(Next(s, steps[0]), steps[1..], LeavesNone);
      var t := After(s, steps);
      hide Runs, After, Always, Next;
      var more := ComingSaveClashes(t, c);
      ChainAlways(s, steps, more, LeavesNone);
      steps := steps + more;
    } else {
      steps := ComingSaveClashes(s, c);
    }
  }

  // ── A run that gets there ─────────────────────────────────────────────────

  /** No destroy, no refused snapshot: the container crashes, the next start brings up
      another, cannot write the row, remove it or find it, and the crash is handled
      only then. */
  lemma FailedCleanUpClashes(start: State) returns (steps: seq<Step>)
    requires Initial(start)
    ensures Runs(start, steps)
    ensures var s := After(start, steps); Clash(s) && !s.abandoned && s.row == Some(Row(IsError, None))
  {
    One(start, Request(Start));
    steps := [Request(Start)];
    var more := StartWorks(After(start, steps));
    steps := Then(start, steps, more);
    var up := After(start, steps);
    more := CrashAndStart(up);
    steps := Then(start, steps, more);
    var begun := After(start, steps);
    hide Runs, After, Next;
    var oks := [true, true, true, true, true, true, true, false, false, false, true];
    StartEnds(begun, oks);
    more := AloneIsARun(begun, oks);
    steps := Then(start, steps, more);
    InitialInv(start);
    RunKeepsTold(start, steps);
    more := LateDeath(After(start, steps), up.box.value.id);
    steps := Then(start, steps, more);
  }

  lemma CrashAndStart(s: State) returns (steps: seq<Step>)
    requires s.cur.Idle? && s.queue == [] && !NoneLive(s)
    ensures Runs(s, steps)
    ensures var c := s.box.value.id;
      After(s, steps) == s.(box := Some(Container(c, Exited)), died := s.died + {c}, cur := StartFind)
  {
    var c := s.box.value.id;
    steps := [Crash(c), Request(Start)];
    Two(s, Crash(c), Request(Start));
    One(After(s, steps), Begin);
    steps := Then(s, steps, [Begin]);
  }

  lemma LateDeath(s: State, dead: Cid) returns (steps: seq<Step>)
    requires s.cur.Idle? && s.queue == [] && s.saves == 0 && !NoneLive(s) && RowContainer(s) == Some(dead)
    requires dead in s.died && s.apiStopping == {}
    ensures Runs(s, steps)
    ensures var t := After(s, steps); Clash(t) && t.abandoned == s.abandoned && t.row == Some(Row(IsError, None))
  {
    steps := [Deliver(dead), DieWrite(dead, IsError, true), QueueSave, Begin];
    Four(s, steps[0], steps[1], steps[2], steps[3]);
    One(After(s, steps), Run(true));
    steps := Then(s, steps, [Run(true)]);
  }
}
