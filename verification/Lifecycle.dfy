// Start, stop, destroy, autosave and the out-of-band die handler of one
// instance, acting on its row, its one Docker name and its config dir. A step is
// what happens between two awaits. Docker events arrive any number of times and
// any time after the death they report; the lock is a first-in first-out queue
// of jobs, which is what the promise chain amounts to.
module Lifecycle {
  import opened Text

  type Cid = nat

  datatype ContainerState = Created | Running | Exited
  datatype Container = Container(id: Cid, state: ContainerState)
  datatype RowStatus = IsCreating | IsRunning | IsStopped | IsError
  datatype Row = Row(status: RowStatus, container: Option<Cid>)

  // A stop and a destroy carry the container id of the row their caller read.
  datatype Job = Start | Stop(c: Cid) | Destroy(snapshot: Option<Cid>) | DieSave | Autosave

  // What the job holding the lock does next. `live` remembers that the stop
  // found its container running.
  datatype Proc =
    | Idle
    | StartFind | StartAdopt(c: Cid) | StartCheck(stale: Option<Cid>) | StartClean(c: Cid) | StartPull | StartInject
    | StartCreate | StartRun(c: Cid) | StartCommit(c: Cid) | StartFailed(c: Cid) | StartProbe | StartError
    | StopMark(c: Cid) | StopContainer(c: Cid) | StopPersist(c: Cid, live: bool) | StopRemove(c: Cid, live: bool)
    | StopWrite(c: Cid, live: bool) | StopClear(c: Cid)
    | DestroyMark(c: Cid) | DestroyStop(c: Cid) | DestroyDir(c: Cid) | DestroyRemove(c: Cid) | DestroyClear(c: Cid)
    | DestroyS3 | DestroyRow
    | SaveRead | SavePersist
    | PushDir

  // Docker holds at most one container of the instance's name: `box`. `died` are
  // the containers whose die event exists, `writes` the die handlers past the
  // API-stopping check, `saves` those whose row write matched but that have not
  // queued yet. Two bits are history: `orphaned`, a failed start could not remove
  // the container it had brought up; `abandoned`, the row was deleted while a container of
  // the instance was running.
  datatype State = State(box: Option<Container>, nextId: nat, row: Option<Row>, apiStopping: set<Cid>, died: set<Cid>,
                         writes: set<Cid>, saves: nat, queue: seq<Job>, cur: Proc, abandoned: bool, orphaned: bool,
                         dir: Dir)

  // The config dir: `stragglers`, a download of some pull threw while others were
  // under way, and they still are; and, as history, `taken`, who last pushed the dir for good, removed
  // it or pulled into it, and `strayed`, a straggler has written into the dir since
  // the last pull into it settled.
  datatype Dir = Dir(stragglers: bool, taken: Taken, strayed: bool) {
    function By(taken: Taken): Dir { this.(taken := taken) }
    function Pulled(drained: bool): Dir { Dir(stragglers || !drained, ByPull, false) }
  }

  datatype Taken = ByNobody | ByPull | ByStop(c: Cid) | ByDieHandler | ByDestroy(c: Cid)

  predicate NoneLive(s: State) { s.box.Some? ==> !s.box.value.state.Running? }

  predicate Live(s: State, c: Cid) { !NoneLive(s) && s.box.value.id == c }

  predicate Present(s: State, c: Cid) { s.box.Some? && s.box.value.id == c }

  function RowContainer(s: State): Option<Cid> { if s.row.Some? then s.row.value.container else None }

  datatype Step =
    | Request(job: Job)
    | Crash(c: Cid)
    | Deliver(c: Cid)
    | DieWrite(c: Cid, status: RowStatus, ok: bool)
    | QueueSave
    | Straggle
    | Drain
    | Begin
    | Run(ok: bool)

  predicate Enabled(s: State, step: Step) {
    match step
    case Request(job) => !job.DieSave? && (job.Stop? ==> job.c < s.nextId)
    case Crash(c) => Live(s, c)
    case Deliver(c) => c in s.died
    case DieWrite(c, _, _) => c in s.writes
    case QueueSave => s.saves > 0
    case Straggle => s.dir.stragglers
    case Drain => s.dir.stragglers
    case Begin => s.cur.Idle? && s.queue != []
    case Run(_) => !s.cur.Idle?
  }

  function FirstProc(job: Job): Proc {
    match job
    case Start => StartFind
    case Stop(c) => StopMark(c)
    case Destroy(snapshot) => if snapshot.Some? then DestroyMark(snapshot.value) else DestroyS3
    case DieSave => SaveRead
    case Autosave => PushDir
  }

  function Next(s: State, step: Step): State
    requires Enabled(s, step)
  {
    match step
    case Request(job) => s.(queue := s.queue + [job])
    case Crash(c) => Halted(s, c)
    case Deliver(c) => if c in s.apiStopping then s else s.(writes := s.writes + {c})
    case DieWrite(c, status, ok) =>
      var handled := s.(writes := s.writes - {c});
      if ok && RowContainer(s) == Some(c) then handled.(row := Some(Row(status, None)), saves := s.saves + 1) else handled
    case QueueSave => s.(saves := s.saves - 1, queue := s.queue + [DieSave])
    case Straggle => s.(dir := s.dir.(strayed := true))
    case Drain => s.(dir := s.dir.(stragglers := false))
    case Begin => s.(cur := FirstProc(s.queue[0]), queue := s.queue[1..])
    case Run(ok) => Advance(s, ok)
  }

  function Halted(s: State, c: Cid): State {
    if Live(s, c) then s.(box := Some(Container(c, Exited)), died := s.died + {c}) else s
  }

  function Removed(s: State, c: Cid): State {
    var halted := Halted(s, c);
    if Present(s, c) then halted.(box := None) else halted
  }

  function Written(s: State, row: Row, next: Proc, failed: Proc, ok: bool): State {
    if ok && s.row.Some? then s.(row := Some(row), cur := next) else s.(cur := failed)
  }

  predicate IsStart(p: Proc) {
    p.StartFind? || p.StartAdopt? || p.StartCheck? || p.StartClean? || p.StartPull? || p.StartInject? || p.StartCreate?
    || p.StartRun? || p.StartCommit? || p.StartFailed? || p.StartProbe? || p.StartError?
  }

  predicate IsStop(p: Proc) {
    p.StopMark? || p.StopContainer? || p.StopPersist? || p.StopRemove? || p.StopWrite? || p.StopClear?
  }

  predicate IsDestroy(p: Proc) {
    p.DestroyMark? || p.DestroyStop? || p.DestroyDir? || p.DestroyRemove? || p.DestroyClear? || p.DestroyS3? || p.DestroyRow?
  }

  function AdvanceStart(s: State, ok: bool): State
    requires IsStart(s.cur)
  {
    match s.cur
    case StartFind =>
      if !ok then s.(cur := Idle)
      else if !NoneLive(s) then s.(cur := StartAdopt(s.box.value.id))
      else s.(cur := StartCheck(if s.box.Some? then Some(s.box.value.id) else None))
    case StartAdopt(c) => Written(s, Row(IsRunning, Some(c)), Idle, Idle, ok)
    case StartCheck(stale) => s.(cur := if !ok then Idle else if stale.Some? then StartClean(stale.value) else StartPull)
    case StartClean(c) => if ok then Removed(s, c).(cur := StartPull) else s.(cur := Idle)
    case StartPull => s.(cur := StartInject, dir := s.dir.Pulled(ok))
    case StartInject => s.(cur := if ok then StartCreate else Idle)
    case StartCreate =>
      if ok && s.box.None? then
        s.(box := Some(Container(s.nextId, Created)), nextId := s.nextId + 1, cur := StartRun(s.nextId))
      else s.(cur := StartProbe)
    case StartRun(c) =>
      if ok && Present(s, c) then s.(box := Some(Container(c, Running)), cur := StartCommit(c))
      else s.(cur := StartFailed(c))
    case StartCommit(c) => Written(s, Row(IsRunning, Some(c)), Idle, StartFailed(c), ok)
    case StartFailed(c) =>
      if ok then Removed(s, c).(cur := StartProbe) else s.(orphaned := s.orphaned || Live(s, c), cur := StartProbe)
    case StartProbe =>
      s.(cur := if ok && !NoneLive(s) then StartAdopt(s.box.value.id) else StartError)
    case StartError => Written(s, Row(IsError, RowContainer(s)), Idle, Idle, ok)
  }

  function AdvanceStop(s: State, ok: bool): State
    requires IsStop(s.cur)
  {
    match s.cur
    case StopMark(c) => s.(apiStopping := s.apiStopping + {c}, cur := StopContainer(c))
    case StopContainer(c) =>
      if ok && Present(s, c) then Halted(s, c).(cur := StopPersist(c, Live(s, c))) else s.(cur := StopClear(c))
    case StopPersist(c, live) => s.(cur := StopRemove(c, live), dir := s.dir.By(ByStop(c)))
    case StopRemove(c, live) => (if ok then Removed(s, c) else s).(cur := StopWrite(c, live))
    case StopWrite(c, _) => Written(s, Row(IsStopped, None), StopClear(c), StopClear(c), ok)
    case StopClear(c) => s.(apiStopping := s.apiStopping - {c}, cur := Idle)
  }

  function AdvanceDestroy(s: State, ok: bool): State
    requires IsDestroy(s.cur)
  {
    match s.cur
    case DestroyMark(c) => s.(apiStopping := s.apiStopping + {c}, cur := DestroyStop(c))
    case DestroyStop(c) => (if ok then Halted(s, c) else s).(cur := DestroyDir(c))
    case DestroyDir(c) => (if ok then s.(dir := s.dir.By(ByDestroy(c))) else s).(cur := DestroyRemove(c))
    case DestroyRemove(c) => (if ok then Removed(s, c) else s).(cur := DestroyClear(c))
    case DestroyClear(c) => s.(apiStopping := s.apiStopping - {c}, cur := DestroyS3)
    case DestroyS3 => s.(cur := DestroyRow)
    case DestroyRow => if ok then s.(row := None, abandoned := s.abandoned || !NoneLive(s), cur := Idle) else s.(cur := Idle)
  }

  /** One step of the job that holds the lock; `ok` is whether its call succeeded,
      and for a pull, that it leaves no download under way: the start goes on
      either way. A write to a deleted row throws. */
  function Advance(s: State, ok: bool): State
    requires !s.cur.Idle?
  {
    if IsStart(s.cur) then AdvanceStart(s, ok)
    else if IsStop(s.cur) then AdvanceStop(s, ok)
    else if IsDestroy(s.cur) then AdvanceDestroy(s, ok)
    else
      match s.cur
      case SaveRead => s.(cur := if !ok || RowContainer(s).Some? then Idle else SavePersist)
      case SavePersist => s.(cur := Idle, dir := s.dir.By(ByDieHandler))
      case _ => s.(cur := Idle)
  }

  predicate Runs(s: State, steps: seq<Step>)
    decreases |steps|
  {
    steps == [] || (Enabled(s, steps[0]) && Runs(Next(s, steps[0]), steps[1..]))
  }

  function After(s: State, steps: seq<Step>): State
    requires Runs(s, steps)
    decreases |steps|
  {
    if steps == [] then s else After(Next(s, steps[0]), steps[1..])
  }

  /** A fresh row, no container yet. */
  predicate Initial(s: State) {
    && s.box.None? && s.row.Some? && s.row.value.container.None? && s.apiStopping == {} && s.died == {}
    && s.writes == {} && s.saves == 0 && s.queue == [] && s.cur.Idle? && !s.abandoned && !s.orphaned
    && s.dir == Dir(false, ByNobody, false)
  }

  // ── What every step keeps ─────────────────────────────────────────────────

  ghost predicate Below(ids: set<Cid>, n: nat) { forall c :: c in ids ==> c < n }

  /** Ids are never reused, and the dead stay dead. */
  ghost predicate Docker(s: State) {
    && (s.box.Some? ==> s.box.value.id < s.nextId)
    && Below(s.died, s.nextId)
    && s.writes <= s.died
    && (s.box.Some? && !s.box.value.state.Exited? ==> s.box.value.id !in s.died)
  }

  /** The job at work is one that runs only while nothing is live. */
  predicate NeedsQuiet(p: Proc) {
    p.StartCheck? || p.StartClean? || p.StartPull? || p.StartInject? || p.StartCreate? || p.StartRun? || p.StartProbe?
    || p.StartError? || p.StopPersist? || p.StopRemove? || p.StopWrite?
  }

  predicate OnlyLive(s: State, c: Cid) { !NoneLive(s) ==> s.box.value.id == c }

  /** What the job at work has made sure of. */
  predicate Holding(s: State) {
    match s.cur
    case StartAdopt(c) => OnlyLive(s, c)
    case StartRun(c) => s.box == Some(Container(c, Created))
    case StartCommit(c) => OnlyLive(s, c)
    case StartFailed(c) => OnlyLive(s, c)
    case SavePersist => RowContainer(s).None?
    case _ => true
  }

  predicate BringingUp(s: State) { s.cur.StartCommit? || s.cur.StartFailed? }

  /** A live container is the row's, or the one a start is just bringing up or has
      left behind, or the row is gone. */
  predicate Owned(s: State) {
    !NoneLive(s) ==> BringingUp(s) || s.row.None? || s.orphaned || RowContainer(s) == Some(s.box.value.id)
  }

  /** Until a row delete abandons a live container, or a start leaves one behind,
      none outlives its row. */
  predicate RowOutlives(s: State) {
    s.row.None? && !s.abandoned && !s.orphaned && !NoneLive(s) ==> BringingUp(s)
  }

  ghost predicate Inv(s: State) {
    && Docker(s) && Holding(s) && Owned(s) && RowOutlives(s) && (NeedsQuiet(s.cur) ==> NoneLive(s) || (s.orphaned && (s.cur.StartProbe? || s.cur.StartError?)))
  }

  lemma InitialInv(s: State)
    requires Initial(s)
    ensures Inv(s)
  {
  }

  lemma BelowGrows(s: State, t: State)
    requires Below(s.died, s.nextId) && s.nextId <= t.nextId
    requires s.box.Some? ==> s.box.value.id < s.nextId
    ensures s.nextId !in s.died
    ensures t.died == s.died || (s.box.Some? && t.died == s.died + {s.box.value.id}) ==> Below(t.died, t.nextId)
  {
  }

  lemma StartKeepsInv(s: State, ok: bool)
    requires Inv(s) && IsStart(s.cur)
    ensures Inv(AdvanceStart(s, ok))
  {
    hide Below;
    BelowGrows(s, AdvanceStart(s, ok));
  }

  lemma StopKeepsInv(s: State, ok: bool)
    requires Inv(s) && IsStop(s.cur)
    ensures Inv(AdvanceStop(s, ok))
  {
    hide Below;
    BelowGrows(s, AdvanceStop(s, ok));
  }

  lemma DestroyKeepsInv(s: State, ok: bool)
    requires Inv(s) && IsDestroy(s.cur)
    ensures Inv(AdvanceDestroy(s, ok))
  {
    hide Below;
    BelowGrows(s, AdvanceDestroy(s, ok));
  }

  lemma OthersKeepInv(s: State, step: Step)
    requires Inv(s) && Enabled(s, step)
    requires step.Run? ==> !IsStart(s.cur) && !IsStop(s.cur) && !IsDestroy(s.cur)
    ensures Inv(Next(s, step))
  {
    hide Below, AdvanceStart, AdvanceStop, AdvanceDestroy;
    BelowGrows(s, Next(s, step));
  }

  lemma StepKeepsInv(s: State, step: Step)
    requires Inv(s) && Enabled(s, step)
    ensures Inv(Next(s, step))
  {
    hide Inv, AdvanceStart, AdvanceStop, AdvanceDestroy;
    if step.Run? && IsStart(s.cur) {
      StartKeepsInv(s, step.ok);
    } else if step.Run? && IsStop(s.cur) {
      StopKeepsInv(s, step.ok);
    } else if step.Run? && IsDestroy(s.cur) {
      DestroyKeepsInv(s, step.ok);
    } else {
      OthersKeepInv(s, step);
    }
  }

  lemma {:induction false} RunKeepsInv(s: State, steps: seq<Step>)
    requires Inv(s) && Runs(s, steps)
    ensures Inv(After(s, steps))
    decreases |steps|
  {
    hide Inv, Next, Enabled;
    if steps != [] {
      StepKeepsInv(s, steps[0]);
      RunKeepsInv(Next(s, steps[0]), steps[1..]);
    }
  }

  /** Every step of the run is one that `good` allows. */
  predicate Always(s: State, steps: seq<Step>, good: (State, Step) -> bool)
    requires Runs(s, steps)
    decreases |steps|
  {
    steps == [] || (good(s, steps[0]) && Always(Next(s, steps[0]), steps[1..], good))
  }

  // ── The config dir is only mirrored or replaced while nothing is live ─────

  /** The steps that push with deletes and then remove the dir, or pull into it. */
  predicate TakesDir(p: Proc) { p.StopPersist? || p.StartPull? || p.SavePersist? }

  predicate Clash(s: State) { TakesDir(s.cur) && !NoneLive(s) }

  /** Over every interleaving, a stop's final push never runs beside a live
      container, nor a start's pull until it settles; nor does the die handler's
      final push, as long as no row delete has abandoned one and no failed start has
      left one behind. What a pull that threw leaves under way is the matter of the
      next section. */
  lemma EveryInterleaving(start: State, steps: seq<Step>)
    requires Initial(start) && Runs(start, steps)
    ensures var s := After(start, steps);
      && (s.cur.StopPersist? || s.cur.StartPull? ==> NoneLive(s))
      && (!s.abandoned && !s.orphaned ==> !Clash(s))
  {
    InitialInv(start);
    RunKeepsInv(start, steps);
  }

  /** Whose dir it is: a container comes up on the dir its own start pulled, and a
      stop writes its row only after its final push. Only a destroy can take the
      dir of a container whose row is still there. */
  predicate DirOwned(s: State) {
    && (s.cur.StartInject? || s.cur.StartCreate? || s.cur.StartRun? || s.cur.StartCommit? ==> s.dir.taken.ByPull?)
    && (!NoneLive(s) && !s.abandoned && !s.orphaned ==> s.dir.taken.ByPull? || s.dir.taken.ByDestroy?)
    && (s.cur.StopRemove? || s.cur.StopWrite? ==> s.dir.taken == ByStop(s.cur.c))
  }

  lemma StepKeepsDirOwned(s: State, step: Step)
    requires Inv(s) && DirOwned(s) && Enabled(s, step)
    ensures DirOwned(Next(s, step))
  {
    hide Docker;
    if step.Run? { JobKeepsDirOwned(s, step.ok); }
  }

  lemma JobKeepsDirOwned(s: State, ok: bool)
    requires Inv(s) && DirOwned(s) && !s.cur.Idle?
    ensures DirOwned(Advance(s, ok))
  {
    hide Docker, AdvanceStart, AdvanceStop, AdvanceDestroy;
    if IsStart(s.cur) {
      StartKeepsDirOwned(s, ok);
    } else if IsStop(s.cur) || IsDestroy(s.cur) {
      EndKeepsDirOwned(s, ok);
    }
  }

  lemma StartKeepsDirOwned(s: State, ok: bool)
    requires Inv(s) && DirOwned(s) && IsStart(s.cur)
    ensures DirOwned(AdvanceStart(s, ok))
  {
    hide Docker;
  }

  lemma EndKeepsDirOwned(s: State, ok: bool)
    requires Inv(s) && DirOwned(s)
    ensures IsStop(s.cur) ==> DirOwned(AdvanceStop(s, ok))
    ensures IsDestroy(s.cur) ==> DirOwned(AdvanceDestroy(s, ok))
  {
    hide Docker;
  }

  lemma {:induction false} RunKeepsDirOwned(s: State, steps: seq<Step>)
    requires Inv(s) && DirOwned(s) && Runs(s, steps)
    ensures Inv(After(s, steps)) && DirOwned(After(s, steps))
    decreases |steps|
  {
    hide Inv, DirOwned, Next, Enabled;
    if steps != [] {
      StepKeepsInv(s, steps[0]);
      StepKeepsDirOwned(s, steps[0]);
      RunKeepsDirOwned(Next(s, steps[0]), steps[1..]);
    }
  }

  // ── When a destroy takes the dir of a live container ──────────────────────

  /** A container is live, and a destroy removed the dir under it. */
  predicate DirLost(s: State) { !NoneLive(s) && s.dir.taken.ByDestroy? }

  /** As a destroy gets to its stop, nothing is live, or what is live is the
      container of its snapshot and the stop works. */
  predicate StopsFirst(s: State, step: Step) {
    step.Run? && s.cur.DestroyStop? ==> NoneLive(s) || (step.ok && Live(s, s.cur.c))
  }

  predicate Quiet(s: State) { !DirLost(s) && (s.cur.DestroyDir? ==> NoneLive(s)) }

  lemma StepKeepsQuiet(s: State, step: Step)
    requires Inv(s) && DirOwned(s) && Quiet(s) && Enabled(s, step) && StopsFirst(s, step)
    ensures Quiet(Next(s, step))
  {
    hide Docker, Owned, RowOutlives;
    if step.Run? { JobKeepsQuiet(s, step.ok); }
    hide Advance;
  }

  lemma JobKeepsQuiet(s: State, ok: bool)
    requires Inv(s) && DirOwned(s) && Quiet(s) && !s.cur.Idle? && StopsFirst(s, Run(ok))
    ensures Quiet(Advance(s, ok))
  {
    hide Docker, Owned, RowOutlives, AdvanceStart, AdvanceStop, AdvanceDestroy;
    if IsStart(s.cur) {
      StartKeepsQuiet(s, ok);
    } else if IsStop(s.cur) || IsDestroy(s.cur) {
      EndKeepsQuiet(s, ok);
    }
  }

  lemma StartKeepsQuiet(s: State, ok: bool)
    requires Inv(s) && DirOwned(s) && Quiet(s) && IsStart(s.cur)
    ensures Quiet(AdvanceStart(s, ok))
  {
    hide Docker, Owned, RowOutlives;
  }

  lemma EndKeepsQuiet(s: State, ok: bool)
    requires Quiet(s) && StopsFirst(s, Run(ok))
    ensures IsStop(s.cur) ==> Quiet(AdvanceStop(s, ok))
    ensures IsDestroy(s.cur) ==> Quiet(AdvanceDestroy(s, ok))
  {
  }

  lemma {:induction false} RunKeepsQuiet(s: State, steps: seq<Step>)
    requires Inv(s) && DirOwned(s) && Quiet(s) && Runs(s, steps) && Always(s, steps, StopsFirst)
    ensures Inv(After(s, steps)) && DirOwned(After(s, steps)) && Quiet(After(s, steps))
    decreases |steps|
  {
    hide Inv, DirOwned, Quiet, Next, Enabled, StopsFirst;
    if steps != [] {
      StepKeepsInv(s, steps[0]);
      StepKeepsDirOwned(s, steps[0]);
      StepKeepsQuiet(s, steps[0]);
      RunKeepsQuiet(Next(s, steps[0]), steps[1..]);
    }
  }

  /** Over every interleaving: as long as no row delete abandoned a container and
      no failed start left one behind, the dir of a live one is the one its start pulled, unless a destroy removed it
      since, and never when all destroys stop what is live first. A stop reaches
      its row write only by its final push. */
  lemma LiveDirIsItsOwn(start: State, steps: seq<Step>)
    requires Initial(start) && Runs(start, steps)
    ensures var s := After(start, steps);
      && (!NoneLive(s) && !s.abandoned && !s.orphaned ==> s.dir.taken.ByPull? || s.dir.taken.ByDestroy?)
      && (!NoneLive(s) && !s.abandoned && !s.orphaned && Always(start, steps, StopsFirst) ==> s.dir.taken.ByPull?)
      && (s.cur.StopWrite? ==> s.dir.taken == ByStop(s.cur.c))
  {
    InitialInv(start);
    RunKeepsDirOwned(start, steps);
    if Always(start, steps, StopsFirst) { RunKeepsQuiet(start, steps); }
  }

  /** In some continuation whose later destroys all stop first. */
  ghost predicate CanLoseDir(s: State, good: (State, Step) -> bool) {
    exists steps :: Runs(s, steps) && Always(s, steps, good) && DirLost(After(s, steps))
  }

  /** At its stop: a destroy lets the dir go under a live container in some
      continuation exactly when a container is live that the stop does not halt. */
  lemma DestroyTakesLiveDirExactlyWhen(s: State, ok: bool)
    requires Inv(s) && DirOwned(s) && !DirLost(s) && s.cur.DestroyStop?
    ensures CanLoseDir(Next(s, Run(ok)), StopsFirst) <==> !NoneLive(s) && !(ok && Live(s, s.cur.c))
  {
    var t := Next(s, Run(ok));
    StepKeepsInv(s, Run(ok));
    StepKeepsDirOwned(s, Run(ok));
    if NoneLive(t) {
      forall steps | Runs(t, steps) && Always(t, steps, StopsFirst) ensures !DirLost(After(t, steps)) {
        RunKeepsQuiet(t, steps);
      }
    } else {
      One(t, Run(true));
      assert Always(t, [Run(true)], StopsFirst) by { assert [Run(true)][1..] == []; }
      assert DirLost(After(t, [Run(true)]));
    }
  }

  /** A start that fails gets rid of the container it brought up. */
  predicate CleansUp(s: State, step: Step) { step.Run? && s.cur.StartFailed? ==> step.ok }

  /** Each destroy starts from the row as it is, its stop works, and failed starts
      clean up. */
  predicate FreshStops(s: State, step: Step) {
    && (step.Begin? && s.queue != [] && s.queue[0].Destroy? ==> s.queue[0].snapshot == RowContainer(s))
    && (step.Run? && s.cur.DestroyStop? ==> step.ok) && CleansUp(s, step)
  }

  /** A destroy on its way to its stop knows the container that is live. */
  predicate Aimed(s: State) { s.cur.DestroyMark? || s.cur.DestroyStop? ==> OnlyLive(s, s.cur.c) }

  lemma StepKeepsAimed(s: State, step: Step)
    requires Inv(s) && Aimed(s) && !s.orphaned && Enabled(s, step) && FreshStops(s, step)
    ensures Aimed(Next(s, step)) && StopsFirst(s, step) && !Next(s, step).orphaned
  {
    hide Docker, Holding;
    if step.Run? { JobKeepsAimed(s, step.ok); }
    hide Advance;
  }

  lemma JobKeepsAimed(s: State, ok: bool)
    requires Aimed(s) && !s.cur.Idle? && CleansUp(s, Run(ok))
    ensures Aimed(Advance(s, ok)) && Advance(s, ok).orphaned == s.orphaned
  {
    hide AdvanceStart, AdvanceStop, AdvanceDestroy;
    if IsStart(s.cur) {
      StartKeepsAimed(s, ok);
    } else if IsStop(s.cur) || IsDestroy(s.cur) {
      EndKeepsAimed(s, ok);
    }
  }

  lemma StartKeepsAimed(s: State, ok: bool)
    requires IsStart(s.cur) && CleansUp(s, Run(ok))
    ensures Aimed(AdvanceStart(s, ok)) && AdvanceStart(s, ok).orphaned == s.orphaned
  {
  }

  lemma EndKeepsAimed(s: State, ok: bool)
    requires Aimed(s)
    ensures IsStop(s.cur) ==> Aimed(AdvanceStop(s, ok)) && AdvanceStop(s, ok).orphaned == s.orphaned
    ensures IsDestroy(s.cur) ==> Aimed(AdvanceDestroy(s, ok)) && AdvanceDestroy(s, ok).orphaned == s.orphaned
  {
  }

  lemma {:induction false} FreshStopsStopFirst(s: State, steps: seq<Step>)
    requires Inv(s) && Aimed(s) && !s.orphaned && Runs(s, steps) && Always(s, steps, FreshStops)
    ensures Always(s, steps, StopsFirst) && !After(s, steps).orphaned
    decreases |steps|
  {
    hide Inv, Aimed, Next, Enabled, StopsFirst, FreshStops;
    if steps != [] {
      StepKeepsInv(s, steps[0]);
      StepKeepsAimed(s, steps[0]);
      FreshStopsStopFirst(Next(s, steps[0]), steps[1..]);
    }
  }

  /** The caller's side: with fresh snapshots and working stops, the live dir is
      never taken, not even by a destroy. */
  lemma FreshStopsKeepDir(start: State, steps: seq<Step>)
    requires Initial(start) && Runs(start, steps) && Always(start, steps, FreshStops)
    ensures var s := After(start, steps);
      !DirLost(s) && (!NoneLive(s) && !s.abandoned ==> s.dir.taken.ByPull?)
  {
    InitialInv(start);
    FreshStopsStopFirst(start, steps);
    RunKeepsQuiet(start, steps);
  }

  /** As its turn comes: a destroy whose stop will work, with none after it that
      is stale, can take the dir of a live container exactly when some container
      other than its snapshot's is live. */
  lemma StaleDestroyTakesDirExactlyWhen(s: State)
    requires Inv(s) && DirOwned(s) && !DirLost(s) && !s.orphaned
    requires s.cur.Idle? && s.queue != [] && s.queue[0].Destroy? && s.queue[0].snapshot.Some?
    ensures CanLoseDir(Next(s, Begin), FreshStops) <==> !NoneLive(s) && !Live(s, s.queue[0].snapshot.value)
  {
    var t := Next(s, Begin);
    StepKeepsInv(s, Begin);
    StepKeepsDirOwned(s, Begin);
    if NoneLive(t) || Live(t, t.cur.c) {
      forall steps | Runs(t, steps) && Always(t, steps, FreshStops) ensures !DirLost(After(t, steps)) {
        FreshStopsStopFirst(t, steps);
        RunKeepsQuiet(t, steps);
      }
    } else {
      var steps := StaleDestroyRemoves(t);
    }
  }

  lemma StaleDestroyRemoves(s: State) returns (steps: seq<Step>)
    requires s.cur.DestroyMark? && !NoneLive(s) && !Live(s, s.cur.c)
    ensures Runs(s, steps) && Always(s, steps, FreshStops) && DirLost(After(s, steps))
  {
    steps := [Run(true), Run(true), Run(true)];
    RunsThree(s, steps, FreshStops);
    assert steps[3..] == [];
  }

  // ── What a pull that threw leaves under way ───────────────────────────────

  /** A download left over from a pull may write beside a live container, or
      beside a job that takes the dir. */
  predicate MeetsContainer(s: State) { s.dir.stragglers && !NoneLive(s) }

  predicate MeetsTaker(s: State) { s.dir.stragglers && TakesDir(s.cur) }

  /** No pull throws with downloads still under way. */
  predicate Drains(s: State, step: Step) { step.Run? && s.cur.StartPull? ==> step.ok }

  lemma {:induction false} NothingStrays(s: State, steps: seq<Step>)
    requires Runs(s, steps) && Always(s, steps, Drains) && !s.dir.stragglers
    ensures !After(s, steps).dir.stragglers && (!s.dir.strayed ==> !After(s, steps).dir.strayed)
    decreases |steps|
  {
    if steps != [] {
      NoNewStragglers(s, steps[0]);
      hide Next, Enabled, Drains;
      NothingStrays(Next(s, steps[0]), steps[1..]);
    }
  }

  lemma NoNewStragglers(s: State, step: Step)
    requires !s.dir.stragglers && Enabled(s, step) && Drains(s, step)
    ensures !Next(s, step).dir.stragglers && (!s.dir.strayed ==> !Next(s, step).dir.strayed)
  {
    hide Advance;
    if step.Run? { JobAddsNoStragglers(s, step.ok); }
  }

  lemma JobAddsNoStragglers(s: State, ok: bool)
    requires !s.cur.Idle? && (s.cur.StartPull? ==> ok)
    ensures var t := Advance(s, ok);
      t.dir.stragglers == s.dir.stragglers && (!s.dir.strayed ==> !t.dir.strayed)
  {
    hide AdvanceStart, AdvanceStop, AdvanceDestroy;
    if IsStart(s.cur) {
      StartAddsNoStragglers(s, ok);
    } else if IsStop(s.cur) || IsDestroy(s.cur) {
      EndAddsNoStragglers(s, ok);
    }
  }

  lemma StartAddsNoStragglers(s: State, ok: bool)
    requires IsStart(s.cur) && (s.cur.StartPull? ==> ok)
    ensures var t := AdvanceStart(s, ok);
      t.dir.stragglers == s.dir.stragglers && (!s.dir.strayed ==> !t.dir.strayed)
  {
    hide NoneLive, Live, Present, Written, Removed, Halted;
    KeepsDir(s);
  }

  lemma EndAddsNoStragglers(s: State, ok: bool)
    ensures IsStop(s.cur) ==> var t := AdvanceStop(s, ok); t.dir.stragglers == s.dir.stragglers && t.dir.strayed == s.dir.strayed
    ensures IsDestroy(s.cur) ==>
      var t := AdvanceDestroy(s, ok); t.dir.stragglers == s.dir.stragglers && t.dir.strayed == s.dir.strayed
  {
    hide NoneLive, Live, Present, Written, Removed, Halted;
    KeepsDir(s);
  }

  lemma KeepsDir(s: State)
    ensures forall c :: Halted(s, c).dir == s.dir && Removed(s, c).dir == s.dir
    ensures forall row, next, failed, ok :: Written(s, row, next, failed, ok).dir == s.dir
  {
  }

  /** As long as no pull throws with downloads left, whatever else fails, none of
      them ever writes beside a live container or a job that takes the dir. */
  lemma PullsStayApart(start: State, steps: seq<Step>)
    requires Initial(start) && Runs(start, steps) && Always(start, steps, Drains)
    ensures var s := After(start, steps); !s.dir.strayed && !MeetsContainer(s) && !MeetsTaker(s)
  {
    NothingStrays(start, steps);
  }

  /** Steps the job at work takes at most. */
  function Rank(p: Proc): nat {
    match p
    case Idle => 0
    case StartFind => 11 case StartCheck(_) => 10 case StartClean(_) => 9 case StartPull => 8 case StartInject => 7
    case StartCreate => 6 case StartRun(_) => 5 case StartCommit(_) => 4 case StartFailed(_) => 3
    case StartProbe => 2 case StartAdopt(_) => 1 case StartError => 1
    case StopMark(_) => 6 case StopContainer(_) => 5 case StopPersist(_, _) => 4 case StopRemove(_, _) => 3
    case StopWrite(_, _) => 2 case StopClear(_) => 1
    case DestroyMark(_) => 7 case DestroyStop(_) => 6 case DestroyDir(_) => 5 case DestroyRemove(_) => 4
    case DestroyClear(_) => 3 case DestroyS3 => 2 case DestroyRow => 1
    case SaveRead => 2 case SavePersist => 1
    case PushDir => 1
  }

  lemma JobMoves(s: State)
    requires !s.cur.Idle?
    ensures var t := Next(s, Run(true));
      Rank(t.cur) < Rank(s.cur) && t.queue == s.queue && t.dir.stragglers == s.dir.stragglers
  {
    JobAddsNoStragglers(s, true);
    hide AdvanceStart, AdvanceStop, AdvanceDestroy;
    if IsStart(s.cur) {
      StartMoves(s);
    } else if IsStop(s.cur) || IsDestroy(s.cur) {
      EndMoves(s);
    }
  }

  lemma StartMoves(s: State)
    requires IsStart(s.cur)
    ensures var t := AdvanceStart(s, true); Rank(t.cur) < Rank(s.cur) && t.queue == s.queue
  {
    hide NoneLive, Live, Present;
  }

  lemma EndMoves(s: State)
    ensures IsStop(s.cur) ==> var t := AdvanceStop(s, true); Rank(t.cur) < Rank(s.cur) && t.queue == s.queue
    ensures IsDestroy(s.cur) ==> var t := AdvanceDestroy(s, true); Rank(t.cur) < Rank(s.cur) && t.queue == s.queue
  {
    KeepsQueue(s);
    hide NoneLive, Live, Present, Halted, Removed;
    if IsStop(s.cur) {
      assert !IsDestroy(s.cur);
      hide AdvanceDestroy;
    } else {
      hide AdvanceStop;
    }
  }

  lemma KeepsQueue(s: State)
    ensures forall c :: Halted(s, c).queue == s.queue && Removed(s, c).queue == s.queue
  {
  }

  /** Every job comes to its end, and nothing it does stops a straggler. */
  lemma {:induction false} JobEnds(s: State) returns (steps: seq<Step>)
    ensures Runs(s, steps) && Always(s, steps, Drains)
    ensures var t := After(s, steps); t.cur.Idle? && t.queue == s.queue && t.dir.stragglers == s.dir.stragglers
    decreases Rank(s.cur)
  {
    steps := [];
    if !s.cur.Idle? {
      JobMoves(s);
      assert Enabled(s, Run(true)) && Drains(s, Run(true));
      hide Next, Enabled, Drains, Rank;
      var rest := JobEnds(Next(s, Run(true)));
      steps := [Run(true)] + rest;
      assert steps[1..] == rest;
    }
  }

  lemma {:induction false} ChainAlways(s: State, first: seq<Step>, second: seq<Step>, good: (State, Step) -> bool)
    requires Runs(s, first) && Always(s, first, good)
    requires Runs(After(s, first), second) && Always(After(s, first), second, good)
    ensures Runs(s, first + second) && Always(s, first + second, good)
    ensures After(s, first + second) == After(After(s, first), second)
    decreases |first|
  {
    hide Next, Enabled;
    if first == [] {
      assert first + second == second;
    } else {
      ChainAlways(Next(s, first[0]), first[1..], second, good);
      assert (first + second)[1..] == first[1..] + second;
    }
  }

  lemma {:induction false} QueueEnds(s: State) returns (steps: seq<Step>)
    requires s.cur.Idle?
    ensures Runs(s, steps) && Always(s, steps, Drains)
    ensures var t := After(s, steps); t.cur.Idle? && t.queue == [] && t.dir.stragglers == s.dir.stragglers
    decreases |s.queue|
  {
    steps := [];
    if s.queue != [] {
      var begun := Next(s, Begin);
      assert Enabled(s, Begin) && Drains(s, Begin) && begun.queue == s.queue[1..] && begun.dir.stragglers == s.dir.stragglers;
      hide Next, Enabled, Drains, Rank, FirstProc;
      var first := JobEnds(begun);
      var rest := QueueEnds(After(begun, first));
      ChainAlways(begun, first, rest, Drains);
      steps := [Begin] + (first + rest);
      assert steps[1..] == first + rest;
    }
  }

  /** In some continuation in which no further pull leaves downloads. */
  ghost predicate CanMeet(s: State, meets: State -> bool) {
    exists steps :: Runs(s, steps) && Always(s, steps, Drains) && meets(After(s, steps))
  }

  /** A start that finds nothing live gets to its pull. */
  lemma StartGetsToPull(s: State) returns (steps: seq<Step>)
    requires Inv(s) && s.cur.Idle? && s.queue == [] && NoneLive(s)
    ensures Runs(s, steps) && Always(s, steps, Drains)
    ensures var t := After(s, steps); t.cur.StartPull? && t.box.None? && t.dir.stragglers == s.dir.stragglers
  {
    steps := if s.box.Some? then [Request(Start), Begin, Run(true), Run(true), Run(true)]
             else [Request(Start), Begin, Run(true), Run(true)];
    var checked := Next(Next(Next(s, Request(Start)), Begin), Run(true));
    assert checked.cur == StartCheck(if s.box.Some? then Some(s.box.value.id) else None);
    RunsThree(s, steps, Drains);
    assert steps[3..] == if s.box.Some? then [Run(true), Run(true)] else [Run(true)];
    assert steps[3..][1..] == if s.box.Some? then [Run(true)] else [];
    assert [Run(true)][1..] == [];
  }

  lemma PullBringsUp(s: State) returns (steps: seq<Step>)
    requires s.cur.StartPull? && s.box.None?
    ensures Runs(s, steps) && Always(s, steps, Drains)
    ensures var t := After(s, steps); !NoneLive(t) && t.dir.stragglers == s.dir.stragglers
  {
    steps := [Run(true), Run(true), Run(true), Run(true)];
    RunsThree(s, steps, Drains);
    assert steps[3..] == [Run(true)] && [Run(true)][1..] == [];
  }

  lemma StopGetsToPush(s: State) returns (steps: seq<Step>)
    requires Inv(s) && s.cur.Idle? && s.queue == [] && !NoneLive(s)
    ensures Runs(s, steps) && Always(s, steps, Drains)
    ensures var t := After(s, steps); t.cur.StopPersist? && t.dir.stragglers == s.dir.stragglers
  {
    steps := [Request(Stop(s.box.value.id)), Begin, Run(true), Run(true)];
    RunsThree(s, steps, Drains);
    assert steps[3..] == [Run(true)] && [Run(true)][1..] == [];
  }

  /** The first three steps unfolded. */
  lemma RunsThree(s: State, steps: seq<Step>, good: (State, Step) -> bool)
    requires |steps| >= 3 && Enabled(s, steps[0]) && good(s, steps[0])
    requires var t := Next(s, steps[0]); Enabled(t, steps[1]) && good(t, steps[1])
    requires var u := Next(Next(s, steps[0]), steps[1]); Enabled(u, steps[2]) && good(u, steps[2])
    ensures var u := Next(Next(Next(s, steps[0]), steps[1]), steps[2]);
      && (Runs(s, steps) <==> Runs(u, steps[3..]))
      && (Runs(u, steps[3..]) ==>
            After(s, steps) == After(u, steps[3..]) && (Always(s, steps, good) <==> Always(u, steps[3..], good)))
  {
    hide Next, Enabled;
    assert steps[1..][0] == steps[1] && steps[1..][1..] == steps[2..];
    assert steps[2..][0] == steps[2] && steps[2..][1..] == steps[3..];
    var t := Next(s, steps[0]);
    var u := Next(t, steps[1]);
    var v := Next(u, steps[2]);
    assert Runs(u, steps[2..]) <==> Runs(v, steps[3..]);
    assert Runs(t, steps[1..]) <==> Runs(u, steps[2..]);
    if Runs(v, steps[3..]) {
      assert After(s, steps) == After(t, steps[1..]) == After(u, steps[2..]) == After(v, steps[3..]);
      assert Always(u, steps[2..], good) <==> Always(v, steps[3..], good);
      assert Always(t, steps[1..], good) <==> Always(u, steps[2..], good);
    }
  }

  /** A left-over download can meet a live container, and a job that takes the dir,
      in some continuation, exactly when there is one: nothing waits for it. */
  lemma StragglersMeetExactlyWhen(s: State)
    requires Inv(s)
    ensures CanMeet(s, MeetsContainer) <==> s.dir.stragglers
    ensures CanMeet(s, MeetsTaker) <==> s.dir.stragglers
  {
    if s.dir.stragglers {
      var a, b := StragglersMeet(s);
    } else {
      forall steps | Runs(s, steps) && Always(s, steps, Drains) ensures !After(s, steps).dir.stragglers {
        NothingStrays(s, steps);
      }
    }
  }

  lemma StragglersMeet(s: State) returns (container: seq<Step>, taker: seq<Step>)
    requires Inv(s) && s.dir.stragglers
    ensures Runs(s, container) && Always(s, container, Drains) && MeetsContainer(After(s, container))
    ensures Runs(s, taker) && Always(s, taker, Drains) && MeetsTaker(After(s, taker))
  {
    var first := JobEnds(s);
    var rest := QueueEnds(After(s, first));
    ChainAlways(s, first, rest, Drains);
    RunKeepsInv(s, first + rest);
    var t := After(s, first + rest);
    hide Inv, Next, Enabled, Drains;
    if NoneLive(t) {
      var pull := StartGetsToPull(t);
      ChainAlways(s, first + rest, pull, Drains);
      taker := first + rest + pull;
      var up := PullBringsUp(After(s, taker));
      ChainAlways(s, taker, up, Drains);
      container := taker + up;
    } else {
      container := first + rest;
      var push := StopGetsToPush(t);
      ChainAlways(s, container, push, Drains);
      taker := container + push;
    }
  }

  /** As a pull settles: its downloads stay away from containers and later takers
      exactly when it leaves none under way and no earlier pull has. */
  lemma PullStaysApartExactlyWhen(s: State, ok: bool)
    requires Inv(s) && s.cur.StartPull?
    ensures !CanMeet(Next(s, Run(ok)), MeetsContainer) <==> ok && !s.dir.stragglers
    ensures !CanMeet(Next(s, Run(ok)), MeetsTaker) <==> ok && !s.dir.stragglers
  {
    StepKeepsInv(s, Run(ok));
    StragglersMeetExactlyWhen(Next(s, Run(ok)));
  }

  /** Such runs exist: a start's pull throws with a download left, the start goes
      on, and the download writes beside the running container; then the instance
      is stopped, and the download writes into the dir the final push has left. */
  lemma StragglerWritesBeside(start: State) returns (beside: seq<Step>, behind: seq<Step>)
    requires Initial(start)
    ensures Runs(start, beside) && Runs(start, behind)
    ensures var s := After(start, beside); s.dir.strayed && !NoneLive(s) && s.dir.taken.ByPull?
    ensures var s := After(start, behind); s.dir.strayed && s.dir.taken.ByStop? && s.cur.StopRemove?
  {
    beside := ThrownPullRuns(start);
    var s := After(start, beside);
    One(s, Straggle);
    beside := Then(start, beside, [Straggle]);
    s := After(start, beside);
    var more := StopPushes(s);
    behind := Then(start, beside, more);
    s := After(start, behind);
    One(s, Straggle);
    behind := Then(start, behind, [Straggle]);
  }

  lemma ThrownPullRuns(start: State) returns (steps: seq<Step>)
    requires Initial(start)
    ensures Runs(start, steps)
    ensures var s := After(start, steps);
      && s.cur.StartCommit? && s.dir == Dir(true, ByPull, false) && s.queue == [] && s.row.Some? && s.row == start.row
      && s.box == Some(Container(s.cur.c, Running)) && s.cur.c < s.nextId
  {
    Four(start, Request(Start), Begin, Run(true), Run(true));
    steps := [Request(Start), Begin, Run(true), Run(true)];
    var more := PullThrowsAndRuns(After(start, steps));
    steps := Then(start, steps, more);
  }

  lemma PullThrowsAndRuns(s: State) returns (steps: seq<Step>)
    requires s.cur.StartPull? && s.box.None?
    ensures Runs(s, steps)
    ensures After(s, steps) == s.(box := Some(Container(s.nextId, Running)), nextId := s.nextId + 1,
                                  cur := StartCommit(s.nextId), dir := s.dir.Pulled(false))
  {
    Four(s, Run(false), Run(true), Run(true), Run(true));
    steps := [Run(false), Run(true), Run(true), Run(true)];
  }

  lemma StopPushes(s: State) returns (steps: seq<Step>)
    requires s.cur.StartCommit? && s.queue == [] && s.row.Some? && s.cur.c < s.nextId
    requires s.box == Some(Container(s.cur.c, Running)) && s.dir.stragglers
    ensures Runs(s, steps)
    ensures After(s, steps).cur.StopRemove? && After(s, steps).dir == s.dir.By(ByStop(s.cur.c))
  {
    var c := s.cur.c;
    Two(s, Run(true), Request(Stop(c)));
    steps := [Run(true), Request(Stop(c))];
    var t := After(s, steps);
    Four(t, Begin, Run(true), Run(true), Run(true));
    steps := Then(s, steps, [Begin, Run(true), Run(true), Run(true)]);
  }

  // ── When a row delete is safe ─────────────────────────────────────────────

  /** Each destroy starts from the row as it is, its container goes away, and failed
      starts clean up. */
  predicate FreshDestroys(s: State, step: Step) {
    && (step.Begin? && s.queue != [] && s.queue[0].Destroy? ==> s.queue[0].snapshot == RowContainer(s))
    && (step.Run? && s.cur.DestroyRemove? ==> step.ok) && CleansUp(s, step)
  }

  predicate Destroying(s: State) {
    match s.cur
    case DestroyMark(c) => OnlyLive(s, c)
    case DestroyStop(c) => OnlyLive(s, c)
    case DestroyDir(c) => OnlyLive(s, c)
    case DestroyRemove(c) => OnlyLive(s, c)
    case DestroyClear(_) => NoneLive(s)
    case DestroyS3 => NoneLive(s)
    case DestroyRow => NoneLive(s)
    case _ => true
  }

  lemma FreshDestroyStep(s: State, step: Step)
    requires Inv(s) && Destroying(s) && !s.abandoned && !s.orphaned && Enabled(s, step) && FreshDestroys(s, step)
    ensures Destroying(Next(s, step)) && !Next(s, step).abandoned && !Next(s, step).orphaned
  {
    hide Docker, Holding;
  }

  lemma {:induction false} FreshRunNeverAbandons(s: State, steps: seq<Step>)
    requires Inv(s) && Destroying(s) && !s.abandoned && !s.orphaned && Runs(s, steps) && Always(s, steps, FreshDestroys)
    ensures Inv(After(s, steps)) && !After(s, steps).abandoned && !After(s, steps).orphaned
    decreases |steps|
  {
    hide Inv, Next, Enabled, Destroying, FreshDestroys;
    if steps != [] {
      StepKeepsInv(s, steps[0]);
      FreshDestroyStep(s, steps[0]);
      FreshRunNeverAbandons(Next(s, steps[0]), steps[1..]);
    }
  }

  /** The caller's side: when every destroy's snapshot is the row's container as
      its turn comes and its remove works, no final push and no pull runs beside
      a live container, whatever else happens. What a destroy whose stop failed does
      to the dir is the matter of DestroyTakesLiveDirExactlyWhen. */
  lemma FreshRunsNeverClash(start: State, steps: seq<Step>)
    requires Initial(start) && Runs(start, steps) && Always(start, steps, FreshDestroys)
    ensures !Clash(After(start, steps))
  {
    InitialInv(start);
    FreshRunNeverAbandons(start, steps);
  }

  /** The step leaves no container running that no row names: a start that fails
      cleans up, and no row is deleted while a container is live. */
  predicate LeavesNone(s: State, step: Step) {
    CleansUp(s, step) && (step.Run? && s.cur.DestroyRow? && step.ok ==> NoneLive(s))
  }

  /** Die handlers that will still get to the dir. */
  predicate SavesComing(s: State) { s.saves > 0 || DieSave in s.queue }

  predicate NoSaves(s: State) { s.row.None? && !SavesComing(s) && !s.cur.SaveRead? && !s.cur.SavePersist? }

  lemma NoSavesStep(s: State, step: Step)
    requires NoSaves(s) && Enabled(s, step)
    ensures NoSaves(Next(s, step))
  {
    if step.Run? {
      JobAddsNoSaves(s, step.ok);
      hide Advance;
    } else {
      hide Advance, AdvanceStart, AdvanceStop, AdvanceDestroy;
    }
  }

  lemma JobAddsNoSaves(s: State, ok: bool)
    requires NoSaves(s) && !s.cur.Idle?
    ensures NoSaves(Advance(s, ok))
  {
    hide AdvanceStart, AdvanceStop, AdvanceDestroy;
    if IsStart(s.cur) {
      StartAddsNoSaves(s, ok);
    } else if IsStop(s.cur) || IsDestroy(s.cur) {
      EndAddsNoSaves(s, ok);
    }
  }

  lemma StartAddsNoSaves(s: State, ok: bool)
    requires NoSaves(s) && IsStart(s.cur)
    ensures NoSaves(AdvanceStart(s, ok))
  {
  }

  lemma EndAddsNoSaves(s: State, ok: bool)
    requires NoSaves(s)
    ensures IsStop(s.cur) ==> NoSaves(AdvanceStop(s, ok))
    ensures IsDestroy(s.cur) ==> NoSaves(AdvanceDestroy(s, ok))
  {
  }

  /** Without a row, nothing can be abandoned any more. */
  lemma NoRowStep(s: State, step: Step)
    requires Inv(s) && s.row.None? && !s.abandoned && !s.orphaned && Enabled(s, step) && CleansUp(s, step)
    ensures Next(s, step).row.None? && !Next(s, step).abandoned && !Next(s, step).orphaned
  {
  }

  lemma {:induction false} SafeForever(s: State, steps: seq<Step>)
    requires Inv(s) && s.row.None? && Runs(s, steps)
    requires NoSaves(s) || (!s.abandoned && !s.orphaned && Always(s, steps, LeavesNone))
    ensures !Clash(After(s, steps))
    decreases |steps|
  {
    if steps != [] {
      StepKeepsInv(s, steps[0]);
      if NoSaves(s) { NoSavesStep(s, steps[0]); } else { NoRowStep(s, steps[0]); }
      hide Next, Inv, NoSaves, Clash;
      SafeForever(Next(s, steps[0]), steps[1..]);
    }
  }

  /** Steps left when everything the job tries from here on fails; None once it
      could have changed something. */
  function FailingSteps(p: Proc): Option<nat> {
    match p
    case StartFind => Some(1)
    case StopMark(_) => Some(3)
    case StopContainer(_) => Some(2)
    case StopClear(_) => Some(1)
    case DestroyMark(_) => Some(7)
    case DestroyStop(_) => Some(6)
    case DestroyDir(_) => Some(5)
    case DestroyRemove(_) => Some(4)
    case DestroyClear(_) => Some(3)
    case DestroyS3 => Some(2)
    case DestroyRow => Some(1)
    case PushDir => Some(1)
    case _ => None
  }

  /** Every job but a die handler's can fail without touching Docker or the row. */
  lemma {:induction false} JobCanFail(s: State) returns (steps: seq<Step>)
    requires FailingSteps(s.cur).Some?
    ensures Runs(s, steps) && Always(s, steps, LeavesNone)
    ensures var t := After(s, steps);
      t.cur.Idle? && t.queue == s.queue && t.box == s.box && t.row == s.row
    decreases FailingSteps(s.cur).value
  {
    var t := Next(s, Run(false));
    if t.cur.Idle? {
      steps := [Run(false)];
      assert steps[1..] == [];
    } else {
      var rest := JobCanFail(t);
      steps := [Run(false)] + rest;
      assert steps[1..] == rest;
    }
  }

  lemma {:induction false} Chain(s: State, first: seq<Step>, second: seq<Step>)
    requires Runs(s, first) && Runs(After(s, first), second)
    ensures Runs(s, first + second) && After(s, first + second) == After(After(s, first), second)
    decreases |first|
  {
    if first == [] {
      assert first + second == second;
    } else {
      Chain(Next(s, first[0]), first[1..], second);
      assert (first + second)[1..] == first[1..] + second;
    }
  }

  /** A queued die handler can reach the dir while the container stays live. */
  lemma {:induction false} SaveReachesDir(s: State, c: Cid) returns (steps: seq<Step>)
    requires s.cur.Idle? && DieSave in s.queue && RowContainer(s).None? && Live(s, c)
    ensures Runs(s, steps) && Always(s, steps, LeavesNone) && Clash(After(s, steps))
    decreases |s.queue|
  {
    if s.queue[0].DieSave? {
      steps := [Begin, Run(true)];
      var begun := Next(s, Begin);
      assert steps[1..] == [Run(true)] && [Run(true)][1..] == [];
      assert After(s, steps) == Next(begun, Run(true));
      assert Live(Next(begun, Run(true)), c);
    } else {
      var begun := Next(s, Begin);
      var first := JobCanFail(begun);
      var t := After(begun, first);
      assert DieSave in s.queue[1..];
      var rest := SaveReachesDir(t, c);
      ChainAlways(begun, first, rest, LeavesNone);
      steps := [Begin] + (first + rest);
      assert steps[1..] == first + rest;
    }
  }

  /** Deleting the row lets a final push run beside a live container, though no
      other container is left behind after that, exactly when a container is live at
      that moment and a die handler is still on its way to the dir. */
  lemma DeleteIsSafeExactlyWhen(s: State)
    requires Inv(s) && !s.abandoned && !s.orphaned && s.cur.DestroyRow?
    ensures CanClash(Next(s, Run(true))) <==> !NoneLive(s) && SavesComing(s)
  {
    var t := Next(s, Run(true));
    StepKeepsInv(s, Run(true));
    if NoneLive(s) || !SavesComing(s) {
      forall steps | Runs(t, steps) && Always(t, steps, LeavesNone) ensures !Clash(After(t, steps)) { SafeForever(t, steps); }
    } else {
      var steps := ComingSaveClashes(t, s.box.value.id);
    }
  }

  ghost predicate CanClash(s: State) {
    exists steps :: Runs(s, steps) && Always(s, steps, LeavesNone) && Clash(After(s, steps))
  }

  lemma ComingSaveClashes(s: State, c: Cid) returns (steps: seq<Step>)
    requires s.cur.Idle? && SavesComing(s) && RowContainer(s).None? && Live(s, c)
    ensures Runs(s, steps) && Always(s, steps, LeavesNone) && Clash(After(s, steps))
  {
    if DieSave in s.queue {
      steps := SaveReachesDir(s, c);
    } else {
      var queued := Next(s, QueueSave);
      assert queued.queue[|queued.queue| - 1] == DieSave;
      var rest := SaveReachesDir(queued, c);
      steps := [QueueSave] + rest;
      assert steps[1..] == rest;
    }
  }

  // ── A run that gets there ─────────────────────────────────────────────────

  lemma One(s: State, a: Step)
    requires Enabled(s, a)
    ensures Runs(s, [a]) && After(s, [a]) == Next(s, a)
  {
    hide Next, Enabled;
    assert [a][1..] == [];
  }

  lemma Two(s: State, a: Step, b: Step)
    requires Enabled(s, a) && Enabled(Next(s, a), b)
    ensures Runs(s, [a, b]) && After(s, [a, b]) == Next(Next(s, a), b)
  {
    hide Next, Enabled;
    One(Next(s, a), b);
    assert [a, b][1..] == [b];
  }

  lemma Four(s: State, a: Step, b: Step, c: Step, d: Step)
    requires Enabled(s, a) && Enabled(Next(s, a), b) && Enabled(Next(Next(s, a), b), c)
    requires Enabled(Next(Next(Next(s, a), b), c), d)
    ensures Runs(s, [a, b, c, d]) && After(s, [a, b, c, d]) == Next(Next(Next(Next(s, a), b), c), d)
  {
    hide Next, Enabled;
    Two(s, a, b);
    Two(Next(Next(s, a), b), c, d);
    Chain(s, [a, b], [c, d]);
    assert [a, b] + [c, d] == [a, b, c, d];
  }

  lemma Then(start: State, before: seq<Step>, more: seq<Step>) returns (steps: seq<Step>)
    requires Runs(start, before) && Runs(After(start, before), more)
    ensures Runs(start, steps) && After(start, steps) == After(After(start, before), more)
  {
    Chain(start, before, more);
    steps := before + more;
  }

  lemma StartClears(s: State) returns (steps: seq<Step>)
    requires s.cur.StartCheck? && s.cur.stale == (if s.box.Some? then Some(s.box.value.id) else None) && NoneLive(s)
    ensures Runs(s, steps) && After(s, steps) == s.(box := None, cur := StartPull)
  {
    if s.box.Some? {
      Two(s, Run(true), Run(true));
      steps := [Run(true), Run(true)];
    } else {
      One(s, Run(true));
      steps := [Run(true)];
    }
  }

  lemma StartBringsUp(s: State) returns (steps: seq<Step>)
    requires s.cur.StartPull? && s.box.None? && s.row.Some?
    ensures Runs(s, steps)
    ensures After(s, steps) == s.(box := Some(Container(s.nextId, Running)), nextId := s.nextId + 1,
                                  row := Some(Row(IsRunning, Some(s.nextId))), cur := Idle, dir := s.dir.Pulled(true))
  {
    Four(s, Run(true), Run(true), Run(true), Run(true));
    steps := [Run(true), Run(true), Run(true), Run(true)];
    One(After(s, steps), Run(true));
    steps := Then(s, steps, [Run(true)]);
  }

  /** Everything a start tries works. */
  lemma StartWorks(s: State) returns (steps: seq<Step>)
    requires s.cur.Idle? && s.queue != [] && s.queue[0].Start? && NoneLive(s) && s.row.Some?
    ensures Runs(s, steps)
    ensures After(s, steps) == s.(box := Some(Container(s.nextId, Running)), nextId := s.nextId + 1,
                                  row := Some(Row(IsRunning, Some(s.nextId))), queue := s.queue[1..], dir := s.dir.Pulled(true))
  {
    Two(s, Begin, Run(true));
    hide Runs, After, AdvanceStop, AdvanceDestroy;
    steps := [Begin, Run(true)];
    var more := StartClears(After(s, steps));
    steps := Then(s, steps, more);
    more := StartBringsUp(After(s, steps));
    steps := Then(s, steps, more);
  }

  /** The running container crashes; its die handler nulls the row and is about to
      queue its save; a new start is requested meanwhile. */
  lemma CrashNullsRow(s: State) returns (steps: seq<Step>)
    requires s.cur.Idle? && s.queue == [] && s.saves == 0 && !NoneLive(s) && s.apiStopping == {}
    requires RowContainer(s) == Some(s.box.value.id)
    ensures Runs(s, steps)
    ensures var t := After(s, steps);
      && t.cur.Idle? && t.queue == [Start] && t.saves == 1 && NoneLive(t) && t.nextId == s.nextId
      && t.row == Some(Row(IsError, None))
  {
    var c := s.box.value.id;
    steps := [Crash(c), Deliver(c), DieWrite(c, IsError, true), Request(Start)];
    Four(s, Crash(c), Deliver(c), DieWrite(c, IsError, true), Request(Start));
  }

  /** A destroy is requested with the row as it is, then the save queues. */
  lemma DestroyThenSave(s: State) returns (steps: seq<Step>)
    requires s.saves > 0 && RowContainer(s).None?
    ensures Runs(s, steps)
    ensures After(s, steps) == s.(saves := s.saves - 1, queue := s.queue + [Destroy(RowContainer(s)), DieSave])
  {
    steps := [Request(Destroy(None)), QueueSave];
    Two(s, Request(Destroy(None)), QueueSave);
  }

  lemma DestroyDeletesRow(s: State) returns (steps: seq<Step>)
    requires s.cur.Idle? && s.queue == [Destroy(None), DieSave]
    ensures Runs(s, steps)
    ensures var t := After(s, steps); t.cur.Idle? && t.queue == [DieSave] && t.box == s.box && t.row.None?
  {
    Two(s, Begin, Run(true));
    One(After(s, [Begin, Run(true)]), Run(true));
    steps := Then(s, [Begin, Run(true)], [Run(true)]);
  }

  /** Such runs exist: the instance crashes, the die handler nulls the row and
      queues its save behind a new start and a destroy that read the nulled row.
      The start succeeds, the destroy sees no container to stop and deletes the
      row, and the save, finding no row, takes the dir of the live container. */
  lemma StaleDestroyClashes(start: State) returns (steps: seq<Step>)
    requires Initial(start)
    ensures Runs(start, steps) && Clash(After(start, steps))
  {
    One(start, Request(Start));
    steps := [Request(Start)];
    var more := StartWorks(After(start, steps));
    steps := Then(start, steps, more);
    more := CrashNullsRow(After(start, steps));
    steps := Then(start, steps, more);
    more := DestroyThenSave(After(start, steps));
    steps := Then(start, steps, more);
    more := StartWorks(After(start, steps));
    steps := Then(start, steps, more);
    more := DestroyDeletesRow(After(start, steps));
    steps := Then(start, steps, more);
    more := SaveReachesDir(After(start, steps), start.nextId + 1);
    steps := Then(start, steps, more);
  }

  // ── The API-stopping marks ────────────────────────────────────────────────

  /** The container whose mark the job at work holds. */
  function MarkHeld(p: Proc): Option<Cid> {
    match p
    case StopContainer(c) => Some(c)
    case StopPersist(c, _) => Some(c)
    case StopRemove(c, _) => Some(c)
    case StopWrite(c, _) => Some(c)
    case StopClear(c) => Some(c)
    case DestroyStop(c) => Some(c)
    case DestroyDir(c) => Some(c)
    case DestroyRemove(c) => Some(c)
    case DestroyClear(c) => Some(c)
    case _ => None
  }

  predicate MarksExact(s: State) { s.apiStopping == if MarkHeld(s.cur).Some? then {MarkHeld(s.cur).value} else {} }

  lemma StepKeepsMarks(s: State, step: Step)
    requires MarksExact(s) && Enabled(s, step)
    ensures MarksExact(Next(s, step))
  {
    hide NoneLive, Live, Present;
    if step.Run? { JobKeepsMarks(s, step.ok); }
  }

  lemma JobKeepsMarks(s: State, ok: bool)
    requires MarksExact(s) && !s.cur.Idle?
    ensures MarksExact(Advance(s, ok))
  {
    hide NoneLive, Live, Present, AdvanceStart, AdvanceStop, AdvanceDestroy;
    if IsStart(s.cur) {
      StartKeepsMarks(s, ok);
    } else if IsStop(s.cur) || IsDestroy(s.cur) {
      EndKeepsMarks(s, ok);
    }
  }

  lemma StartKeepsMarks(s: State, ok: bool)
    requires MarksExact(s) && IsStart(s.cur)
    ensures MarksExact(AdvanceStart(s, ok))
  {
    hide NoneLive, Live, Present;
  }

  lemma EndKeepsMarks(s: State, ok: bool)
    requires MarksExact(s)
    ensures IsStop(s.cur) ==> MarksExact(AdvanceStop(s, ok))
    ensures IsDestroy(s.cur) ==> MarksExact(AdvanceDestroy(s, ok))
  {
    hide NoneLive, Live, Present;
    if IsStop(s.cur) {
      assert !IsDestroy(s.cur);
      hide AdvanceDestroy;
    } else {
      hide AdvanceStop;
    }
  }

  lemma {:induction false} RunKeepsMarks(s: State, steps: seq<Step>)
    requires MarksExact(s) && Runs(s, steps)
    ensures MarksExact(After(s, steps))
    decreases |steps|
  {
    hide MarksExact, Next, Enabled;
    if steps != [] {
      StepKeepsMarks(s, steps[0]);
      RunKeepsMarks(Next(s, steps[0]), steps[1..]);
    }
  }

  /** Over every interleaving: a container is marked exactly while the job at work is
      a stop or a destroy of it that is past its mark and not past its clear. So no
      mark outlives its job. */
  lemma MarkedExactlyWhile(start: State, steps: seq<Step>)
    requires Initial(start) && Runs(start, steps)
    ensures var s := After(start, steps);
      && (forall c :: c in s.apiStopping <==> MarkHeld(s.cur) == Some(c))
      && (!IsStop(s.cur) && !IsDestroy(s.cur) ==> s.apiStopping == {})
  {
    RunKeepsMarks(start, steps);
  }

  /** And a death is handled whenever no such job holds its mark: however late the
      event is delivered, the handler may write, and while the row still names the
      container the write nulls it and a save is queued. */
  lemma DeathIsHandled(start: State, steps: seq<Step>, c: Cid, status: RowStatus)
    requires Initial(start) && Runs(start, steps)
    requires var s := After(start, steps); c in s.died && MarkHeld(s.cur) != Some(c)
    ensures var s := After(start, steps);
      && Runs(s, [Deliver(c), DieWrite(c, status, true)])
      && (RowContainer(s) == Some(c) ==>
            && Runs(s, [Deliver(c), DieWrite(c, status, true), QueueSave])
            && var t := After(s, [Deliver(c), DieWrite(c, status, true), QueueSave]);
              t.row == Some(Row(status, None)) && t.queue == s.queue + [DieSave])
  {
    MarkedExactlyWhile(start, steps);
    var s := After(start, steps);
    Two(s, Deliver(c), DieWrite(c, status, true));
    if RowContainer(s) == Some(c) {
      var t := After(s, [Deliver(c), DieWrite(c, status, true)]);
      One(t, QueueSave);
      Chain(s, [Deliver(c), DieWrite(c, status, true)], [QueueSave]);
      assert [Deliver(c), DieWrite(c, status, true)] + [QueueSave] == [Deliver(c), DieWrite(c, status, true), QueueSave];
    }
  }

  /** A crash of the row's container is pushed: with nothing else asked for, its save
      runs with the row's container gone and takes the dir. */
  lemma CrashIsPushed(start: State, steps: seq<Step>) returns (more: seq<Step>)
    requires Initial(start) && Runs(start, steps)
    requires var s := After(start, steps);
      s.cur.Idle? && s.queue == [] && s.saves == 0 && !NoneLive(s) && RowContainer(s) == Some(s.box.value.id)
    ensures Runs(After(start, steps), more)
    ensures var t := After(After(start, steps), more);
      t.cur.Idle? && t.dir.taken.ByDieHandler? && t.row == Some(Row(IsError, None)) && NoneLive(t)
  {
    var s := After(start, steps);
    var c := s.box.value.id;
    MarkedExactlyWhile(start, steps);
    Four(s, Crash(c), Deliver(c), DieWrite(c, IsError, true), QueueSave);
    more := [Crash(c), Deliver(c), DieWrite(c, IsError, true), QueueSave];
    var t := After(s, more);
    var saved := SaveTakesDir(t);
    more := Then(s, more, saved);
  }

  lemma SaveTakesDir(s: State) returns (steps: seq<Step>)
    requires s.cur.Idle? && s.queue == [DieSave] && RowContainer(s).None?
    ensures Runs(s, steps)
    ensures After(s, steps) == s.(queue := [], dir := s.dir.By(ByDieHandler))
  {
    Two(s, Begin, Run(true));
    One(After(s, [Begin, Run(true)]), Run(true));
    steps := Then(s, [Begin, Run(true)], [Run(true)]);
  }

  // ── A completed stop is final ─────────────────────────────────────────────

  /** Container c will never be the row's again. */
  predicate Retired(s: State, c: Cid) {
    && c < s.nextId && !Live(s, c) && RowContainer(s) != Some(c)
    && s.cur != StartAdopt(c) && s.cur != StartRun(c) && s.cur != StartCommit(c)
  }

  lemma RetiredStays(s: State, step: Step, c: Cid)
    requires Retired(s, c) && Enabled(s, step)
    ensures Retired(Next(s, step), c)
  {
    if step.Run? { JobKeepsRetired(s, step.ok, c); }
  }

  lemma JobKeepsRetired(s: State, ok: bool, c: Cid)
    requires Retired(s, c) && !s.cur.Idle?
    ensures Retired(Advance(s, ok), c)
  {
    hide AdvanceStart, AdvanceStop, AdvanceDestroy;
    if IsStart(s.cur) {
      StartKeepsRetired(s, ok, c);
    } else if IsStop(s.cur) || IsDestroy(s.cur) {
      EndKeepsRetired(s, ok, c);
    }
  }

  lemma StartKeepsRetired(s: State, ok: bool, c: Cid)
    requires Retired(s, c) && IsStart(s.cur)
    ensures Retired(AdvanceStart(s, ok), c)
  {
  }

  lemma EndKeepsRetired(s: State, ok: bool, c: Cid)
    requires Retired(s, c)
    ensures IsStop(s.cur) ==> Retired(AdvanceStop(s, ok), c)
    ensures IsDestroy(s.cur) ==> Retired(AdvanceDestroy(s, ok), c)
  {
    if IsStop(s.cur) {
      assert !IsDestroy(s.cur);
      hide AdvanceDestroy;
    } else {
      hide AdvanceStop;
    }
  }

  lemma {:induction false} RetiredForever(s: State, steps: seq<Step>, c: Cid)
    requires Retired(s, c) && Runs(s, steps)
    ensures Retired(After(s, steps), c)
    decreases |steps|
  {
    hide Retired, Next, Enabled;
    if steps != [] {
      RetiredStays(s, steps[0], c);
      RetiredForever(Next(s, steps[0]), steps[1..], c);
    }
  }

  /** A stop whose row write goes through leaves the row stopped without a
      container, and whenever the die event of its container is handled after
      that, it changes neither the row nor what is queued. */
  lemma StopIsFinal(s: State, later: seq<Step>, status: RowStatus, ok: bool)
    requires Inv(s) && s.cur.StopWrite? && s.row.Some? && Runs(Next(s, Run(true)), later)
    requires s.cur.c < s.nextId && s.cur.c in After(Next(s, Run(true)), later).writes
    ensures Next(s, Run(true)).row == Some(Row(IsStopped, None))
    ensures var u := After(Next(s, Run(true)), later);
      Next(u, DieWrite(s.cur.c, status, ok)) == u.(writes := u.writes - {s.cur.c})
  {
    var c := s.cur.c;
    var t := Next(s, Run(true));
    RetiredForever(t, later, c);
  }

  /** While a stop of a live container is under way, its die event is skipped. */
  predicate StopUnseen(s: State) {
    match s.cur
    case StopContainer(c) => c in s.apiStopping
    case StopPersist(c, live) => c in s.apiStopping && c < s.nextId && (live ==> c !in s.writes)
    case StopRemove(c, live) => c in s.apiStopping && c < s.nextId && (live ==> c !in s.writes)
    case StopWrite(c, live) => c in s.apiStopping && c < s.nextId && (live ==> c !in s.writes)
    case _ => true
  }

  lemma StepKeepsUnseen(s: State, step: Step)
    requires Inv(s) && StopUnseen(s) && Enabled(s, step)
    ensures StopUnseen(Next(s, step))
  {
    hide Holding, Owned, RowOutlives, AdvanceStart, AdvanceDestroy;
    if step.Run? && IsStart(s.cur) {
      StartIsNoStop(s, step.ok);
    } else if step.Run? && IsDestroy(s.cur) {
      DestroyIsNoStop(s, step.ok);
    }
  }

  lemma StartIsNoStop(s: State, ok: bool)
    requires IsStart(s.cur)
    ensures !IsStop(AdvanceStart(s, ok).cur)
  {
    hide NoneLive, Live, Present;
  }

  lemma DestroyIsNoStop(s: State, ok: bool)
    requires IsDestroy(s.cur)
    ensures !IsStop(AdvanceDestroy(s, ok).cur)
  {
    hide NoneLive, Live, Present;
  }

  lemma {:induction false} StopsAreUnseen(s: State, steps: seq<Step>)
    requires Inv(s) && StopUnseen(s) && Runs(s, steps)
    ensures StopUnseen(After(s, steps))
    decreases |steps|
  {
    hide Inv, StopUnseen, Next, Enabled;
    if steps != [] {
      StepKeepsInv(s, steps[0]);
      StepKeepsUnseen(s, steps[0]);
      StopsAreUnseen(Next(s, steps[0]), steps[1..]);
    }
  }

  /** From the first, in any interleaving: between the moment a stop halts its
      container and its row write, no die handler of that container can write. */
  lemma NoDieWriteDuringStop(start: State, steps: seq<Step>, c: Cid, status: RowStatus, ok: bool)
    requires Initial(start) && Runs(start, steps)
    requires var cur := After(start, steps).cur;
      cur == StopPersist(c, true) || cur == StopRemove(c, true) || cur == StopWrite(c, true)
    ensures !Enabled(After(start, steps), DieWrite(c, status, ok))
  {
    InitialInv(start);
    StopsAreUnseen(start, steps);
  }
}
