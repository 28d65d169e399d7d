// The download tasks of a pull on the bounded pool: however they interleave, and
// wherever one of them throws, the dir holds what a one-after-another download of
// the objects placed so far would have left.
module DownloadPool {
  import opened Text
  import opened SyncPolicy
  import opened ObjectStore
  import opened SyncSection
  import opened WorkerPool
  import opened Pull

  // Where one download is: not taken, being fetched, its file in place but not
  // yet recorded, through.
  datatype Phase = Waiting | Fetching | Placed | Through

  datatype Job = Job(objs: seq<Object>, base: seq<string>, rec: Recording, start: Layer) {
    /** One listing: every key once, and shaped like a walked path. */
    ghost predicate Valid() {
      && (forall i, j :: 0 <= i < j < |objs| ==> objs[i].rel != objs[j].rel)
      && (forall o :: o in objs ==> Canonical(o.rel))
    }
  }

  datatype State = State(pool: Pool<bool>, phases: seq<Phase>, layer: Layer)

  // A pool step, whose Reject is a call that threw; a file renamed into place; its
  // entry recorded.
  datatype Move = Pooled(step: Step) | Place(i: nat) | Record(i: nat)

  function Begin(job: Job, limit: int): State {
    State(Start(|job.objs|, limit), seq(|job.objs|, _ => Waiting), job.start)
  }

  predicate Can(job: Job, s: State, move: Move) {
    |s.phases| == |job.objs| == s.pool.total && s.pool.next <= s.pool.total &&
    match move
    case Pooled(step) => Enabled(s.pool, step) &&
      (step.Settle? ==> s.pool.workers[step.w].index < |s.phases| && s.phases[s.pool.workers[step.w].index].Through?)
    case Place(i) => i < |s.phases| && s.phases[i].Fetching?
    case Record(i) => i < |s.phases| && s.phases[i].Placed?
  }

  function Advance(job: Job, s: State, move: Move, fn: nat -> bool): State
    requires Can(job, s, move)
  {
    match move
    case Pooled(step) =>
      var pool := Do(s.pool, step, fn);
      s.(pool := pool, phases := if step.Take? then s.phases[s.pool.next := Fetching] else s.phases)
    case Place(i) =>
      var o := job.objs[i];
      match LocalTarget(job.base, o.rel) {
        case None => s.(phases := s.phases[i := Through])
        case Some(path) =>
          s.(layer := s.layer.(tree := s.layer.tree[path := o.File()]),
             phases := s.phases[i := if job.rec.filter(o.rel) then Placed else Through])
      }
    case Record(i) =>
      var o := job.objs[i];
      s.(layer := s.layer.(entries := s.layer.entries[o.rel := job.rec.Entry(o)]), phases := s.phases[i := Through])
  }

  predicate Interleaves(job: Job, s: State, moves: seq<Move>, fn: nat -> bool)
    decreases |moves|
  {
    moves == [] || (Can(job, s, moves[0]) && Interleaves(job, Advance(job, s, moves[0], fn), moves[1..], fn))
  }

  function Ends(job: Job, s: State, moves: seq<Move>, fn: nat -> bool): State
    requires Interleaves(job, s, moves, fn)
    decreases |moves|
  {
    if moves == [] then s else Ends(job, Advance(job, s, moves[0], fn), moves[1..], fn)
  }

  // ── Where every path stands ───────────────────────────────────────────────

  function FileAt(job: Job, i: nat, phase: Phase): Option<LocalFile>
    requires i < |job.objs|
  {
    if phase.Placed? || phase.Through? then Some(job.objs[i].File()) else Get(job.start.tree, job.objs[i].rel)
  }

  function EntryAt(job: Job, i: nat, phase: Phase): Option<ManifestEntry>
    requires i < |job.objs|
  {
    var o := job.objs[i];
    if phase.Through? && job.rec.filter(o.rel) then Some(job.rec.Entry(o)) else Get(job.start.entries, o.rel)
  }

  ghost predicate PathStands(job: Job, s: State, i: nat)
    requires i < |job.objs| && i < |s.phases|
  {
    && Get(s.layer.tree, job.objs[i].rel) == FileAt(job, i, s.phases[i])
    && Get(s.layer.entries, job.objs[i].rel) == EntryAt(job, i, s.phases[i])
    && (s.phases[i].Placed? ==> job.rec.filter(job.objs[i].rel))
  }

  ghost predicate Elsewhere(job: Job, s: State, r: Rel) {
    (forall o :: o in job.objs ==> o.rel != r) ==>
      Get(s.layer.tree, r) == Get(job.start.tree, r) && Get(s.layer.entries, r) == Get(job.start.entries, r)
  }

  ghost predicate Counted(job: Job, s: State) {
    && |s.phases| == |job.objs| == s.pool.total && s.pool.next <= s.pool.total == |s.pool.results|
    && (forall i :: 0 <= i < s.pool.total && s.pool.results[i].Some? ==> s.phases[i].Through?)
    && (forall i :: s.pool.next <= i < s.pool.total ==> s.phases[i].Waiting?)
  }

  ghost predicate Standing(job: Job, s: State) {
    && job.Valid() && Counted(job, s)
    && (forall i :: 0 <= i < |job.objs| ==> PathStands(job, s, i))
    && (forall r :: Elsewhere(job, s, r))
  }

  lemma MoveKeepsCounted(job: Job, s: State, move: Move, fn: nat -> bool)
    requires Counted(job, s) && Can(job, s, move)
    ensures Counted(job, Advance(job, s, move, fn))
  {
    hide LocalTarget;
  }

  lemma MoveKeepsPath(job: Job, s: State, move: Move, fn: nat -> bool, i: nat)
    requires Standing(job, s) && Can(job, s, move) && i < |job.objs|
    ensures i < |Advance(job, s, move, fn).phases| && PathStands(job, Advance(job, s, move, fn), i)
  {
    assert PathStands(job, s, i);
    if move.Place? || move.Record? {
      assert job.objs[move.i] in job.objs;
      CanonicalTarget(job.base, job.objs[move.i].rel);
      assert i != move.i ==> job.objs[i].rel != job.objs[move.i].rel;
    }
    hide Standing, Canonical, LocalTarget, Elsewhere;
  }

  lemma MoveKeepsElsewhere(job: Job, s: State, move: Move, fn: nat -> bool, r: Rel)
    requires Standing(job, s) && Can(job, s, move)
    ensures Elsewhere(job, Advance(job, s, move, fn), r)
  {
    assert Elsewhere(job, s, r);
    if move.Place? || move.Record? {
      assert job.objs[move.i] in job.objs;
      CanonicalTarget(job.base, job.objs[move.i].rel);
    }
    hide Standing, Canonical, LocalTarget, PathStands;
  }

  lemma MoveStands(job: Job, s: State, move: Move, fn: nat -> bool)
    requires Standing(job, s) && Can(job, s, move)
    ensures Standing(job, Advance(job, s, move, fn))
  {
    hide Advance, PathStands, Elsewhere, Counted;
    MoveKeepsCounted(job, s, move, fn);
    CountedSizes(job, Advance(job, s, move, fn));
    forall i | 0 <= i < |job.objs| ensures PathStands(job, Advance(job, s, move, fn), i) {
      MoveKeepsPath(job, s, move, fn, i);
    }
    forall r ensures Elsewhere(job, Advance(job, s, move, fn), r) { MoveKeepsElsewhere(job, s, move, fn, r); }
  }

  lemma CountedSizes(job: Job, s: State)
    requires Counted(job, s)
    ensures |s.phases| == |job.objs|
  {
  }

  lemma {:induction false} AllMovesStand(job: Job, s: State, moves: seq<Move>, fn: nat -> bool)
    requires Standing(job, s) && Inv(s.pool, fn) && Interleaves(job, s, moves, fn)
    ensures var t := Ends(job, s, moves, fn);
      Standing(job, t) && Inv(t.pool, fn) && |t.pool.workers| == |s.pool.workers|
    decreases |moves|
  {
    hide Standing, Inv;
    if moves != [] {
      MoveStands(job, s, moves[0], fn);
      if moves[0].Pooled? { StepKeepsInv(s.pool, moves[0].step, fn); }
      AllMovesStand(job, Advance(job, s, moves[0], fn), moves[1..], fn);
    }
  }

  lemma BeginStands(job: Job, limit: int, fn: nat -> bool)
    requires job.Valid()
    ensures Standing(job, Begin(job, limit)) && Inv(Begin(job, limit).pool, fn)
    ensures |job.objs| > 0 ==> |Begin(job, limit).pool.workers| > 0
  {
    var s := Begin(job, limit);
    assert forall w :: 0 <= w < |s.pool.workers| ==> s.pool.workers[w] == Idle;
  }

  // ── The sequential download it amounts to ─────────────────────────────────

  /** The objects whose file is in place, in the order of the listing. */
  function InPlace(objs: seq<Object>, phases: seq<Phase>): seq<Object>
    requires |objs| == |phases|
  {
    if objs == [] then []
    else
      var n := |objs| - 1;
      var rest := InPlace(objs[..n], phases[..n]);
      if phases[n].Placed? || phases[n].Through? then rest + [objs[n]] else rest
  }

  lemma {:induction false} InPlaceLatest(objs: seq<Object>, phases: seq<Phase>, r: Rel)
    requires |objs| == |phases| && forall i, j :: 0 <= i < j < |objs| ==> objs[i].rel != objs[j].rel
    ensures forall o :: o in InPlace(objs, phases) ==> o in objs
    ensures forall i :: 0 <= i < |objs| && objs[i].rel == r ==>
      Latest(InPlace(objs, phases), r) == if phases[i].Placed? || phases[i].Through? then Some(objs[i]) else None
    ensures (forall o :: o in objs ==> o.rel != r) ==> Latest(InPlace(objs, phases), r) == None
  {
    if objs != [] {
      var n := |objs| - 1;
      var rest := InPlace(objs[..n], phases[..n]);
      InPlaceLatest(objs[..n], phases[..n], r);
      assert objs == objs[..n] + [objs[n]];
      assert (rest + [objs[n]])[..|rest|] == rest;
      if objs[n].rel == r { assert forall o :: o in objs[..n] ==> o.rel != r; }
    }
  }

  lemma PathAgrees(job: Job, s: State, r: Rel)
    requires Standing(job, s)
    ensures |s.phases| == |job.objs|
    ensures var seqly := DownloadAll(job.start, job.base, InPlace(job.objs, s.phases), job.rec);
      && Get(s.layer.tree, r) == Get(seqly.tree, r)
      && ((forall i :: 0 <= i < |s.phases| ==> !s.phases[i].Placed?) ==> Get(s.layer.entries, r) == Get(seqly.entries, r))
  {
    var placed := InPlace(job.objs, s.phases);
    InPlaceLatest(job.objs, s.phases, r);
    forall o | o in placed ensures Canonical(o.rel) { assert o in job.objs; }
    DownloadedAt(job.start, job.base, placed, job.rec, r);
    hide DownloadAll, InPlace, Canonical;
    if i :| 0 <= i < |job.objs| && job.objs[i].rel == r {
      assert PathStands(job, s, i);
    } else {
      assert forall o :: o in job.objs ==> o.rel != r;
      assert Elsewhere(job, s, r);
    }
  }

  /** At every moment of any interleaving, also after a call has thrown and while
      the other workers go on, the tree is that of a sequential download of the
      objects in place. */
  lemma EveryMoment(job: Job, limit: int, moves: seq<Move>, fn: nat -> bool)
    requires job.Valid() && Interleaves(job, Begin(job, limit), moves, fn)
    ensures var s := Ends(job, Begin(job, limit), moves, fn);
      && |s.phases| == |job.objs|
      && s.layer.tree == DownloadAll(job.start, job.base, InPlace(job.objs, s.phases), job.rec).tree
      && (forall o :: o in InPlace(job.objs, s.phases) ==> o in job.objs)
  {
    BeginStands(job, limit, fn);
    AllMovesStand(job, Begin(job, limit), moves, fn);
    var s := Ends(job, Begin(job, limit), moves, fn);
    hide Standing, Inv, Interleaves, Ends, DownloadAll, InPlace;
    PathAgrees(job, s, "");
    forall r ensures Get(s.layer.tree, r) == Get(DownloadAll(job.start, job.base, InPlace(job.objs, s.phases), job.rec).tree, r) {
      PathAgrees(job, s, r);
    }
    SameMap(s.layer.tree, DownloadAll(job.start, job.base, InPlace(job.objs, s.phases), job.rec).tree);
    StandingIsValid(job, s);
    InPlaceLatest(job.objs, s.phases, "");
  }

  lemma StandingIsValid(job: Job, s: State)
    requires Standing(job, s)
    ensures job.Valid()
  {
  }

  lemma {:induction false} AllInPlace(objs: seq<Object>, phases: seq<Phase>)
    requires |objs| == |phases| && forall i :: 0 <= i < |phases| ==> phases[i].Through?
    ensures InPlace(objs, phases) == objs
  {
    if objs != [] {
      AllInPlace(objs[..|objs| - 1], phases[..|objs| - 1]);
      assert objs == objs[..|objs| - 1] + [objs[|objs| - 1]];
    }
  }

  /** When every worker ends without a throw, files and manifest entries are those
      of the sequential download of the whole listing. */
  lemma InterleavingsAgree(job: Job, limit: int, moves: seq<Move>, fn: nat -> bool)
    requires job.Valid() && Interleaves(job, Begin(job, limit), moves, fn)
    requires var s := Ends(job, Begin(job, limit), moves, fn); forall w :: 0 <= w < |s.pool.workers| ==> s.pool.workers[w].Done?
    ensures Ends(job, Begin(job, limit), moves, fn).layer == DownloadAll(job.start, job.base, job.objs, job.rec)
  {
    BeginStands(job, limit, fn);
    AllMovesStand(job, Begin(job, limit), moves, fn);
    var s := Ends(job, Begin(job, limit), moves, fn);
    AllThrough(job, s, fn);
    AllInPlace(job.objs, s.phases);
    hide Standing, Inv, Interleaves, Ends, DownloadAll, InPlace;
    var all := DownloadAll(job.start, job.base, job.objs, job.rec);
    forall r ensures Get(s.layer.tree, r) == Get(all.tree, r) && Get(s.layer.entries, r) == Get(all.entries, r) {
      PathAgrees(job, s, r);
    }
    SameMap(s.layer.tree, all.tree);
    SameMap(s.layer.entries, all.entries);
  }

  lemma AllThrough(job: Job, s: State, fn: nat -> bool)
    requires Standing(job, s) && Inv(s.pool, fn) && (|job.objs| > 0 ==> |s.pool.workers| > 0)
    requires forall w :: 0 <= w < |s.pool.workers| ==> s.pool.workers[w].Done?
    ensures |s.phases| == |job.objs| && forall i :: 0 <= i < |s.phases| ==> s.phases[i].Through?
  {
    forall i | 0 <= i < |s.phases| ensures s.phases[i].Through? {
      assert s.pool.workers[0].Done?;
      assert !HeldBySome(s.pool.workers, i);
      assert s.pool.results[i].Some?;
    }
  }
}
