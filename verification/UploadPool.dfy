// The upload tasks of one sync run on the bounded pool: however their awaits
// interleave, the run ends where the one-after-another loop ends.
module UploadPool {
  import opened Text
  import opened SyncPolicy
  import opened ObjectStore
  import opened SyncSection
  import opened WorkerPool
  import SyncEngine

  // Where one task is: the entry it read when it started, then the upload it
  // decided on, the upload done but not yet recorded, and the end.
  datatype Phase = Waiting | Reading(prev: Option<ManifestEntry>) | Sending | Stored | Finished

  datatype State = State(pool: Pool<Verdict>, phases: seq<Phase>, m: Mirror, stats: SyncStats)

  datatype Job = Job(sec: Section, files: seq<Rel>, tree: Tree, f: Faults) {
    ghost predicate Valid() { Distinct(files) && (forall r :: r in files <==> r in Wanted(sec, tree)) }
    function Verdict(m: Mirror, i: nat): Verdict
      requires i < |files| && files[i] in tree
    {
      Decide(sec, Get(m.entries, files[i]), tree[files[i]], files[i], f)
    }
  }

  datatype Move = Pooled(step: Step) | Read(i: nat) | Send(i: nat) | Record(i: nat)

  function Begin(job: Job, m: Mirror, limit: int): State {
    State(Start(|job.files|, limit), seq(|job.files|, _ => Waiting), m, SyncStats(0, 0, 0, 0))
  }

  predicate Can(job: Job, s: State, move: Move) {
    |s.phases| == |job.files| == s.pool.total && s.pool.next <= s.pool.total &&
    match move
    case Pooled(step) => Enabled(s.pool, step) && !step.Reject? &&
      (step.Settle? ==> s.pool.workers[step.w].index < |s.phases| && s.phases[s.pool.workers[step.w].index].Finished?)
    case Read(i) => i < |s.phases| && s.phases[i].Reading? && job.files[i] in job.tree
    case Send(i) => i < |s.phases| && s.phases[i].Sending? && job.files[i] in job.tree
    case Record(i) => i < |s.phases| && s.phases[i].Stored? && job.files[i] in job.tree
  }

  function Advance(job: Job, s: State, move: Move, fn: nat -> Verdict): State
    requires Can(job, s, move)
  {
    match move
    case Pooled(step) =>
      var pool := Do(s.pool, step, fn);
      if step.Take? then
        s.(pool := pool, phases := s.phases[s.pool.next := Reading(Get(s.m.entries, job.files[s.pool.next]))])
      else s.(pool := pool)
    case Read(i) =>
      var rel, file := job.files[i], job.tree[job.files[i]];
      var v := Decide(job.sec, s.phases[i].prev, file, rel, job.f);
      if v == Upload || v == Rejected then s.(phases := s.phases[i := Sending])
      else
        var m := if v == HashSkip
                 then s.m.(entries := s.m.entries[rel := s.phases[i].prev.value.(size := file.Size(), mtimeMs := file.mtimeMs)])
                 else s.m;
        s.(m := m, stats := s.stats.Count(v), phases := s.phases[i := Finished])
    case Send(i) =>
      var rel, file := job.files[i], job.tree[job.files[i]];
      if rel in job.f.rejected then s.(stats := s.stats.Count(Rejected), phases := s.phases[i := Finished])
      else s.(m := s.m.(remote := s.m.remote[rel := file.content]), phases := s.phases[i := Stored])
    case Record(i) =>
      var rel, file := job.files[i], job.tree[job.files[i]];
      s.(m := s.m.(entries := s.m.entries[rel := file.Entry(job.sec.HashOf(file.content), Overlay)]),
         stats := s.stats.Count(Upload), phases := s.phases[i := Finished])
  }

  predicate Interleaves(job: Job, s: State, moves: seq<Move>, fn: nat -> Verdict)
    decreases |moves|
  {
    moves == [] || (Can(job, s, moves[0]) && Interleaves(job, Advance(job, s, moves[0], fn), moves[1..], fn))
  }

  function Ends(job: Job, s: State, moves: seq<Move>, fn: nat -> Verdict): State
    requires Interleaves(job, s, moves, fn)
    decreases |moves|
  {
    if moves == [] then s else Ends(job, Advance(job, s, moves[0], fn), moves[1..], fn)
  }

  // ── Where every path stands ───────────────────────────────────────────────

  /** The slot of a path whose task is in the given phase. */
  function PhaseSlot(job: Job, slot: Slot, rel: Rel, phase: Phase): Slot
    requires rel in job.tree
  {
    match phase
    case Stored => slot.(remote := Some(job.tree[rel].content))
    case Finished => UploadSlot(job.sec, slot, job.tree[rel], rel, job.f)
    case _ => slot
  }

  ghost predicate PhaseFits(job: Job, m0: Mirror, i: nat, phase: Phase)
    requires i < |job.files| && job.files[i] in job.tree
  {
    match phase
    case Reading(prev) => prev == Get(m0.entries, job.files[i])
    case Sending => job.Verdict(m0, i) == Upload || job.Verdict(m0, i) == Rejected
    case Stored => job.Verdict(m0, i) == Upload
    case _ => true
  }

  function Over(job: Job, s: State): set<Rel>
    requires |s.phases| == |job.files|
  {
    set i | 0 <= i < |s.phases| && s.phases[i].Finished? :: job.files[i]
  }

  ghost predicate Standing(job: Job, m0: Mirror, s: State) {
    && job.Valid() && |s.phases| == |job.files| == s.pool.total && s.pool.next <= s.pool.total == |s.pool.results|
    && (forall i :: 0 <= i < |job.files| ==>
          job.files[i] in job.tree
          && s.m.At(job.files[i]) == PhaseSlot(job, m0.At(job.files[i]), job.files[i], s.phases[i])
          && PhaseFits(job, m0, i, s.phases[i]))
    && (forall r :: r !in job.files ==> s.m.At(r) == m0.At(r))
    && s.stats == UploadStats(job.sec, m0, job.tree, Over(job, s), job.f)
    && (forall i :: 0 <= i < s.pool.total && s.pool.results[i].Some? ==> s.phases[i].Finished?)
    && (forall i :: s.pool.next <= i < s.pool.total ==> s.phases[i].Waiting?)
  }

  lemma BeginStands(job: Job, m0: Mirror, limit: int)
    requires job.Valid()
    ensures Standing(job, m0, Begin(job, m0, limit))
  {
    var s := Begin(job, m0, limit);
    assert Over(job, s) == {};
    SyncEngine.NoneHandled(job.sec, m0, job.tree, job.f, map[]);
    forall i | 0 <= i < |job.files| ensures job.files[i] in job.tree { assert job.files[i] in Wanted(job.sec, job.tree); }
  }

  /** Finishing task i counts exactly its file. */
  lemma OneMoreOver(job: Job, m0: Mirror, s: State, s': State, i: nat)
    requires Standing(job, m0, s) && i < |s.phases| && !s.phases[i].Finished?
    requires s'.phases == s.phases[i := Finished]
    ensures Over(job, s') == Over(job, s) + {job.files[i]} && job.files[i] !in Over(job, s)
    ensures UploadStats(job.sec, m0, job.tree, Over(job, s'), job.f) == s.stats.Count(job.Verdict(m0, i))
  {
    assert job.files[i] !in Over(job, s);
    assert s'.phases[i].Finished?;
    assert Over(job, s') == Over(job, s) + {job.files[i]} by {
      forall r ensures r in Over(job, s') <==> r in Over(job, s) + {job.files[i]} {
        if r in Over(job, s) {
          var j :| 0 <= j < |s.phases| && s.phases[j].Finished? && job.files[j] == r;
          assert s'.phases[j].Finished?;
        }
      }
    }
    SyncEngine.StatsOneMore(job.sec, m0, job.tree, Over(job, s), job.files[i], job.f);
  }

  /** Only the files whose phase changed can move. */
  lemma OthersStand(job: Job, m0: Mirror, s: State, s': State, i: nat)
    requires Standing(job, m0, s) && i < |s.phases|
    requires |s'.phases| == |s.phases| && forall j :: 0 <= j < |s.phases| && j != i ==> s'.phases[j] == s.phases[j]
    requires forall r :: r != job.files[i] ==> s'.m.At(r) == s.m.At(r)
    ensures forall j :: 0 <= j < |job.files| && j != i ==>
      s'.m.At(job.files[j]) == PhaseSlot(job, m0.At(job.files[j]), job.files[j], s'.phases[j])
    ensures forall r :: r !in job.files ==> s'.m.At(r) == m0.At(r)
  {
  }

  lemma TaskMoveStands(job: Job, m0: Mirror, s: State, move: Move, fn: nat -> Verdict)
    requires Standing(job, m0, s) && Can(job, s, move) && !move.Pooled?
    ensures Standing(job, m0, Advance(job, s, move, fn))
  {
    hide UploadStats, Over;
    var s' := Advance(job, s, move, fn);
    var i := move.i;
    assert s.m.At(job.files[i]) == PhaseSlot(job, m0.At(job.files[i]), job.files[i], s.phases[i]);
    assert PhaseFits(job, m0, i, s.phases[i]);
    OthersStand(job, m0, s, s', i);
    if s'.phases[i].Finished? {
      OneMoreOver(job, m0, s, s', i);
    } else {
      SameOver(job, s, s', i);
    }
  }

  lemma SameOver(job: Job, s: State, s': State, i: nat)
    requires |s.phases| == |s'.phases| == |job.files| && i < |s.phases|
    requires forall j :: 0 <= j < |s.phases| && j != i ==> s'.phases[j] == s.phases[j]
    requires !s.phases[i].Finished? && !s'.phases[i].Finished?
    ensures Over(job, s') == Over(job, s)
  {
    forall r ensures r in Over(job, s') <==> r in Over(job, s) {
      if r in Over(job, s) {
        var j :| 0 <= j < |s.phases| && s.phases[j].Finished? && job.files[j] == r;
        assert s'.phases[j].Finished?;
      }
    }
  }

  lemma PoolMoveStands(job: Job, m0: Mirror, s: State, step: Step, fn: nat -> Verdict)
    requires Standing(job, m0, s) && Can(job, s, Pooled(step))
    ensures Standing(job, m0, Advance(job, s, Pooled(step), fn))
  {
    hide UploadStats, Over;
    var s' := Advance(job, s, Pooled(step), fn);
    if step.Take? {
      var i := s.pool.next;
      assert s.m.At(job.files[i]) == m0.At(job.files[i]);
      SameOver(job, s, s', i);
    } else {
      PhasesDecideOver(job, s, s');
    }
  }

  lemma PhasesDecideOver(job: Job, s: State, s': State)
    requires |s.phases| == |job.files| && s'.phases == s.phases
    ensures Over(job, s') == Over(job, s)
  {
  }

  lemma {:induction false} AllMovesStand(job: Job, m0: Mirror, s: State, moves: seq<Move>, fn: nat -> Verdict)
    requires Standing(job, m0, s) && Inv(s.pool, fn) && Interleaves(job, s, moves, fn)
    ensures Standing(job, m0, Ends(job, s, moves, fn)) && Inv(Ends(job, s, moves, fn).pool, fn)
    decreases |moves|
  {
    if moves != [] {
      if moves[0].Pooled? {
        PoolMoveStands(job, m0, s, moves[0].step, fn);
        StepKeepsInv(s.pool, moves[0].step, fn);
      } else {
        TaskMoveStands(job, m0, s, moves[0], fn);
      }
      AllMovesStand(job, m0, Advance(job, s, moves[0], fn), moves[1..], fn);
    }
  }

  /** Any interleaving of the tasks that ends leaves the bucket, the manifest and
      the counts of the sequential run. */
  lemma InterleavingsAgree(job: Job, m0: Mirror, limit: int, moves: seq<Move>, fn: nat -> Verdict)
    requires job.Valid() && Interleaves(job, Begin(job, m0, limit), moves, fn)
    requires forall w :: 0 <= w < |Ends(job, Begin(job, m0, limit), moves, fn).pool.workers| ==>
      Ends(job, Begin(job, m0, limit), moves, fn).pool.workers[w].Done?
    ensures Ends(job, Begin(job, m0, limit), moves, fn).m == Sync(job.sec, m0, job.tree, false, job.f)
    ensures Ends(job, Begin(job, m0, limit), moves, fn).stats == Stats(job.sec, m0, job.tree, false, job.f)
  {
    var begin := Begin(job, m0, limit);
    var s := Ends(job, begin, moves, fn);
    BeginStands(job, m0, limit);
    assert forall w :: 0 <= w < |begin.pool.workers| ==> begin.pool.workers[w] == Idle;
    AllMovesStand(job, m0, begin, moves, fn);
    PoolKeepsSize(job, begin, moves, fn);
    AllFinished(job, m0, s, fn);
    EverythingOver(job, m0, s);
  }

  lemma {:induction false} PoolKeepsSize(job: Job, s: State, moves: seq<Move>, fn: nat -> Verdict)
    requires Interleaves(job, s, moves, fn)
    ensures |Ends(job, s, moves, fn).pool.workers| == |s.pool.workers|
    decreases |moves|
  {
    if moves != [] { PoolKeepsSize(job, Advance(job, s, moves[0], fn), moves[1..], fn); }
  }

  lemma AllFinished(job: Job, m0: Mirror, s: State, fn: nat -> Verdict)
    requires Standing(job, m0, s) && Inv(s.pool, fn)
    requires |job.files| > 0 ==> |s.pool.workers| > 0
    requires forall w :: 0 <= w < |s.pool.workers| ==> s.pool.workers[w].Done?
    ensures forall i :: 0 <= i < |s.phases| ==> s.phases[i].Finished?
  {
    forall i | 0 <= i < |s.phases| ensures s.phases[i].Finished? {
      assert s.pool.workers[0].Done?;
      assert !HeldBySome(s.pool.workers, i);
      assert s.pool.results[i].Some?;
    }
  }

  lemma EverythingOver(job: Job, m0: Mirror, s: State)
    requires Standing(job, m0, s) && forall i :: 0 <= i < |s.phases| ==> s.phases[i].Finished?
    ensures s.m == Sync(job.sec, m0, job.tree, false, job.f)
    ensures s.stats == Stats(job.sec, m0, job.tree, false, job.f)
  {
    hide Sync, UploadSlot;
    var sync := Sync(job.sec, m0, job.tree, false, job.f);
    forall r ensures s.m.At(r) == sync.At(r) {
      if r in Wanted(job.sec, job.tree) {
        var i :| 0 <= i < |job.files| && job.files[i] == r;
        assert s.m.At(job.files[i]) == PhaseSlot(job, m0.At(job.files[i]), job.files[i], s.phases[i]);
      } else {
        assert r !in job.files;
      }
    }
    SameMirror(s.m, sync);
    forall r ensures r in Over(job, s) <==> r in Wanted(job.sec, job.tree) {
      if r in Wanted(job.sec, job.tree) {
        var i :| 0 <= i < |job.files| && job.files[i] == r;
        assert s.phases[i].Finished?;
      } else {
        assert r !in job.files;
      }
    }
    assert Over(job, s) == Wanted(job.sec, job.tree);
  }
}
