// A plugin sync on the bounded pool: however its calls interleave, and wherever one
// throws, and what the calls that a broken sync leaves behind do to the next one.
module PluginPool {
  import opened Text
  import opened SyncPolicy
  import opened ObjectStore
  import opened SyncSection
  import opened WorkerPool
  import opened PluginMirror

  // Where one call is: not taken, about to look at the file, downloading, its file
  // in place but not yet recorded, through.
  datatype Phase = Waiting | Taken | Fetching | Placed | Through

  // The listing, the saved manifest, and the files past the removal of stale ones.
  // `earlier` is the manifest an earlier sync that broke off had read.
  datatype Job = Job(objs: seq<Object>, manifest: Manifest, start: Files, earlier: Manifest) {
    ghost predicate Valid() {
      && (forall i, j :: 0 <= i < j < |objs| ==> objs[i].rel != objs[j].rel)
      && (forall o :: o in objs ==> Canonical(o.rel))
    }
  }

  function JobOf(p: Plugins, objs: seq<Object>, earlier: Manifest): Job { Job(objs, p.manifest, Desired(p.files, objs), earlier) }

  // The calls of the broken sync that are still to look at their file, and those
  // whose download is under way.
  datatype Left = Left(pending: set<Object>, late: set<Object>)

  datatype State = State(pool: Pool<bool>, phases: seq<Phase>, files: Files, next: Manifest, left: Left)

  datatype Move = Pooled(step: Step) | Check(i: nat) | Place(i: nat) | Record(i: nat) | LeftCheck(o: Object) | LeftPlace(o: Object)

  function Begin(job: Job, limit: int, left: Left): State {
    State(Start(|job.objs|, limit), seq(|job.objs|, _ => Waiting), job.start, map[], left)
  }

  predicate Can(job: Job, s: State, move: Move) {
    |s.phases| == |job.objs| == s.pool.total && s.pool.next <= s.pool.total &&
    match move
    case Pooled(step) => Enabled(s.pool, step) &&
      (step.Settle? ==> s.pool.workers[step.w].index < |s.phases| && s.phases[s.pool.workers[step.w].index].Through?)
    case Check(i) => i < |s.phases| && s.phases[i].Taken?
    case Place(i) => i < |s.phases| && s.phases[i].Fetching?
    case Record(i) => i < |s.phases| && s.phases[i].Placed?
    case LeftCheck(o) => o in s.left.pending
    case LeftPlace(o) => o in s.left.late
  }

  function Put(files: Files, o: Object): Files {
    match LocalTarget(PLUGINS_DIR, o.rel)
    case None => files
    case Some(path) => files[path := o.content]
  }

  /** The call has nothing to fetch. */
  predicate Skips(files: Files, manifest: Manifest, o: Object) {
    match LocalTarget(PLUGINS_DIR, o.rel)
    case None => true
    case Some(path) => Unchanged(files, manifest, path, o)
  }

  function Advance(job: Job, s: State, move: Move, fn: nat -> bool): State
    requires Can(job, s, move)
  {
    match move
    case Pooled(step) =>
      s.(pool := Do(s.pool, step, fn), phases := if step.Take? then s.phases[s.pool.next := Taken] else s.phases)
    case Check(i) =>
      var o := job.objs[i];
      if !Skips(s.files, job.manifest, o) then s.(phases := s.phases[i := Fetching])
      else s.(next := if o.rel in job.manifest then s.next[o.rel := job.manifest[o.rel]] else s.next, phases := s.phases[i := Through])
    case Place(i) => s.(files := Put(s.files, job.objs[i]), phases := s.phases[i := Placed])
    case Record(i) =>
      var o := job.objs[i];
      s.(next := s.next[o.rel := StampOf(o.content)], phases := s.phases[i := Through])
    case LeftCheck(o) =>
      s.(left := Left(s.left.pending - {o}, if Skips(s.files, job.earlier, o) then s.left.late else s.left.late + {o}))
    case LeftPlace(o) => s.(files := Put(s.files, o), left := s.left.(late := s.left.late - {o}))
  }

  predicate Interleaves(job: Job, s: State, moves: seq<Move>, fn: nat -> bool)
    decreases |moves|
  {
    moves == [] || (Can(job, s, moves[0]) && Interleaves(job, Advance(job, s, moves[0], fn), moves[1..], fn))
  }

  function Ends(job: Job, s: State, moves: seq<Move>, fn: nat -> bool): State
    requires Interleaves(job, s, moves, fn)
    decreases |moves|
  {
    if moves == [] then s else Ends(job, Advance(job, s, moves[0], fn), moves[1..], fn)
  }

  // ── Where every path stands, when nothing is left of an earlier sync ──────

  predicate KeptAt(job: Job, i: nat)
    requires i < |job.objs|
  {
    Unchanged(job.start, job.manifest, job.objs[i].rel, job.objs[i])
  }

  predicate Arrived(phase: Phase) { phase.Placed? || phase.Through? }

  ghost predicate PathStands(job: Job, s: State, i: nat)
    requires i < |job.objs| && i < |s.phases|
  {
    var o := job.objs[i];
    && Get(s.files, o.rel) == (if Arrived(s.phases[i]) && !KeptAt(job, i) then Some(o.content) else Get(job.start, o.rel))
    && Get(s.next, o.rel) == (if !s.phases[i].Through? then None
                                  else Some(if KeptAt(job, i) then job.manifest[o.rel] else StampOf(o.content)))
    && (s.phases[i].Fetching? || s.phases[i].Placed? ==> !KeptAt(job, i))
  }

  ghost predicate Elsewhere(job: Job, s: State, r: Rel) {
    (forall o :: o in job.objs ==> o.rel != r) ==> Get(s.files, r) == Get(job.start, r) && r !in s.next
  }

  ghost predicate Counted(job: Job, s: State) {
    && |s.phases| == |job.objs| == s.pool.total && s.pool.next <= s.pool.total == |s.pool.results|
    && (forall i :: 0 <= i < s.pool.total && s.pool.results[i].Some? ==> s.phases[i].Through?)
    && (forall i :: s.pool.next <= i < s.pool.total ==> s.phases[i].Waiting?)
  }

  ghost predicate Standing(job: Job, s: State) {
    && job.Valid() && Counted(job, s)
    && (forall i :: 0 <= i < |job.objs| ==> PathStands(job, s, i))
    && (forall r :: Elsewhere(job, s, r))
  }

  lemma MoveKeepsCounted(job: Job, s: State, move: Move, fn: nat -> bool)
    requires Counted(job, s) && Can(job, s, move)
    ensures Counted(job, Advance(job, s, move, fn))
  {
    hide LocalTarget, Put, Skips;
  }

  lemma PutAt(files: Files, o: Object)
    requires Canonical(o.rel)
    ensures Put(files, o) == files[o.rel := o.content]
    ensures forall manifest :: Skips(files, manifest, o) <==> Unchanged(files, manifest, o.rel, o)
  {
    CanonicalTarget(PLUGINS_DIR, o.rel);
  }

  lemma MoveKeepsPath(job: Job, s: State, move: Move, fn: nat -> bool, i: nat)
    requires Standing(job, s) && Can(job, s, move) && !move.LeftPlace? && i < |job.objs|
    ensures i < |Advance(job, s, move, fn).phases| && PathStands(job, Advance(job, s, move, fn), i)
  {
    assert PathStands(job, s, i);
    if move.Check? || move.Place? || move.Record? {
      assert job.objs[move.i] in job.objs && PathStands(job, s, move.i);
      PutAt(s.files, job.objs[move.i]);
      assert i != move.i ==> job.objs[i].rel != job.objs[move.i].rel;
    }
    hide Standing, Canonical, Put, Skips, Elsewhere;
  }

  lemma MoveKeepsElsewhere(job: Job, s: State, move: Move, fn: nat -> bool, r: Rel)
    requires Standing(job, s) && Can(job, s, move) && !move.LeftPlace?
    ensures Elsewhere(job, Advance(job, s, move, fn), r)
  {
    assert Elsewhere(job, s, r);
    if move.Check? || move.Place? || move.Record? {
      assert job.objs[move.i] in job.objs;
      PutAt(s.files, job.objs[move.i]);
    }
    hide Standing, Canonical, Put, Skips, PathStands;
  }

  lemma MoveStands(job: Job, s: State, move: Move, fn: nat -> bool)
    requires Standing(job, s) && Can(job, s, move) && !move.LeftPlace?
    ensures Standing(job, Advance(job, s, move, fn))
  {
    hide Advance, PathStands, Elsewhere;
    MoveKeepsCounted(job, s, move, fn);
    forall i | 0 <= i < |job.objs| ensures PathStands(job, Advance(job, s, move, fn), i) {
      MoveKeepsPath(job, s, move, fn, i);
    }
    forall r ensures Elsewhere(job, Advance(job, s, move, fn), r) { MoveKeepsElsewhere(job, s, move, fn, r); }
  }

  /** No file of an earlier sync arrives. */
  predicate Undisturbed(moves: seq<Move>) { forall m :: m in moves ==> !m.LeftPlace? }

  lemma {:induction false} AllMovesStand(job: Job, s: State, moves: seq<Move>, fn: nat -> bool)
    requires Standing(job, s) && Inv(s.pool, fn) && Interleaves(job, s, moves, fn) && Undisturbed(moves)
    ensures var t := Ends(job, s, moves, fn);
      Standing(job, t) && Inv(t.pool, fn) && |t.pool.workers| == |s.pool.workers|
    decreases |moves|
  {
    hide Standing, Inv;
    if moves != [] {
      assert moves[0] in moves && Undisturbed(moves[1..]);
      MoveStands(job, s, moves[0], fn);
      if moves[0].Pooled? { StepKeepsInv(s.pool, moves[0].step, fn); }
      AllMovesStand(job, Advance(job, s, moves[0], fn), moves[1..], fn);
    }
  }

  lemma BeginStands(job: Job, limit: int, left: Left, fn: nat -> bool)
    requires job.Valid()
    ensures Standing(job, Begin(job, limit, left)) && Inv(Begin(job, limit, left).pool, fn)
    ensures |job.objs| > 0 ==> |Begin(job, limit, left).pool.workers| > 0
  {
    var s := Begin(job, limit, left);
    assert forall w :: 0 <= w < |s.pool.workers| ==> s.pool.workers[w] == Idle;
  }

  // ── The sequential sync it amounts to ─────────────────────────────────────

  /** The objects whose call has got its file in place, in the order of the listing. */
  function InPlace(objs: seq<Object>, phases: seq<Phase>): seq<Object>
    requires |objs| == |phases|
  {
    if objs == [] then []
    else
      var n := |objs| - 1;
      var rest := InPlace(objs[..n], phases[..n]);
      if Arrived(phases[n]) then rest + [objs[n]] else rest
  }

  lemma {:induction false} InPlaceHas(objs: seq<Object>, phases: seq<Phase>)
    requires |objs| == |phases| && forall i, j :: 0 <= i < j < |objs| ==> objs[i].rel != objs[j].rel
    ensures var placed := InPlace(objs, phases);
      && (forall o :: o in placed ==> o in objs)
      && (forall i :: 0 <= i < |objs| ==> (objs[i] in placed <==> Arrived(phases[i])))
      && (forall i, j :: 0 <= i < j < |placed| ==> placed[i].rel != placed[j].rel)
  {
    if objs != [] {
      var n := |objs| - 1;
      InPlaceHas(objs[..n], phases[..n]);
      assert objs == objs[..n] + [objs[n]];
      forall o | o in objs[..n] ensures o.rel != objs[n].rel {
        var i :| 0 <= i < n && objs[..n][i] == o;
        assert objs[i].rel != objs[n].rel;
      }
    }
  }

  lemma PathAgrees(job: Job, s: State, r: Rel)
    requires Standing(job, s)
    ensures |s.phases| == |job.objs|
    ensures var seqly := MirrorAll(job.start, job.manifest, InPlace(job.objs, s.phases));
      && Get(s.files, r) == Get(seqly.files, r)
      && ((forall i :: 0 <= i < |s.phases| ==> !s.phases[i].Placed?) ==> Get(s.next, r) == Get(seqly.manifest, r))
  {
    var placed := InPlace(job.objs, s.phases);
    InPlaceHas(job.objs, s.phases);
    forall o | o in placed ensures Canonical(o.rel) { assert o in job.objs; }
    MirroredAt(job.start, job.manifest, placed, r);
    hide MirrorAll, InPlace, Canonical;
    if i :| 0 <= i < |job.objs| && job.objs[i].rel == r {
      assert PathStands(job, s, i);
      if !Arrived(s.phases[i]) {
        forall o | o in placed ensures o.rel != r {
          var j :| 0 <= j < |job.objs| && job.objs[j] == o;
          assert j != i;
        }
      }
    } else {
      assert forall o :: o in job.objs ==> o.rel != r;
      assert Elsewhere(job, s, r);
    }
  }

  /** At every moment of any interleaving, also after a call has thrown and while
      the other workers go on, the dir is that of a sync that broke off after some
      subset of the objects, which is what BreakIsHarmlessWhen is about. */
  lemma EveryMoment(p: Plugins, objs: seq<Object>, earlier: Manifest, left: Left, limit: int, moves: seq<Move>, fn: nat -> bool)
    requires JobOf(p, objs, earlier).Valid() && Undisturbed(moves)
    requires Interleaves(JobOf(p, objs, earlier), Begin(JobOf(p, objs, earlier), limit, left), moves, fn)
    ensures var s := Ends(JobOf(p, objs, earlier), Begin(JobOf(p, objs, earlier), limit, left), moves, fn);
      && |s.phases| == |objs|
      && s.files == Broken(p, objs, InPlace(objs, s.phases)).files
      && SomeOf(InPlace(objs, s.phases), objs)
  {
    var job := JobOf(p, objs, earlier);
    BeginStands(job, limit, left, fn);
    AllMovesStand(job, Begin(job, limit, left), moves, fn);
    var s := Ends(job, Begin(job, limit, left), moves, fn);
    hide Standing, Inv, Interleaves, Ends, MirrorAll, InPlace, Desired;
    PathAgrees(job, s, "");
    forall r ensures Get(s.files, r) == Get(MirrorAll(job.start, job.manifest, InPlace(objs, s.phases)).files, r) {
      PathAgrees(job, s, r);
    }
    SameMap(s.files, MirrorAll(job.start, job.manifest, InPlace(objs, s.phases)).files);
    InPlaceHas(objs, s.phases);
  }

  predicate AllDone(s: State) { forall w :: 0 <= w < |s.pool.workers| ==> s.pool.workers[w].Done? }

  lemma {:induction false} AllInPlace(objs: seq<Object>, phases: seq<Phase>)
    requires |objs| == |phases| && forall i :: 0 <= i < |phases| ==> phases[i].Through?
    ensures InPlace(objs, phases) == objs
  {
    if objs != [] {
      AllInPlace(objs[..|objs| - 1], phases[..|objs| - 1]);
      assert objs == objs[..|objs| - 1] + [objs[|objs| - 1]];
    }
  }

  lemma AllThrough(job: Job, s: State, fn: nat -> bool)
    requires Standing(job, s) && Inv(s.pool, fn) && (|job.objs| > 0 ==> |s.pool.workers| > 0) && AllDone(s)
    ensures |s.phases| == |job.objs| && forall i :: 0 <= i < |s.phases| ==> s.phases[i].Through?
  {
    forall i | 0 <= i < |s.phases| ensures s.phases[i].Through? {
      assert s.pool.workers[0].Done?;
      assert !HeldBySome(s.pool.workers, i);
      assert s.pool.results[i].Some?;
    }
  }

  /** When every worker ends without a throw and nothing of an earlier sync arrives,
      the dir and the next manifest are those of the sequential sync. */
  lemma InterleavingsAgree(p: Plugins, objs: seq<Object>, earlier: Manifest, left: Left, limit: int, moves: seq<Move>, fn: nat -> bool)
    requires JobOf(p, objs, earlier).Valid() && Undisturbed(moves)
    requires Interleaves(JobOf(p, objs, earlier), Begin(JobOf(p, objs, earlier), limit, left), moves, fn)
    requires AllDone(Ends(JobOf(p, objs, earlier), Begin(JobOf(p, objs, earlier), limit, left), moves, fn))
    ensures var s := Ends(JobOf(p, objs, earlier), Begin(JobOf(p, objs, earlier), limit, left), moves, fn);
      Plugins(s.files, s.next) == Completed(p, objs)
  {
    var job := JobOf(p, objs, earlier);
    BeginStands(job, limit, left, fn);
    AllMovesStand(job, Begin(job, limit, left), moves, fn);
    var s := Ends(job, Begin(job, limit, left), moves, fn);
    AllThrough(job, s, fn);
    AllInPlace(objs, s.phases);
    EmptyDesired(p, objs);
    hide Standing, Inv, Interleaves, Ends, MirrorAll, InPlace, Desired;
    var all := MirrorAll(job.start, job.manifest, objs);
    forall r ensures Get(s.files, r) == Get(all.files, r) && Get(s.next, r) == Get(all.manifest, r) {
      PathAgrees(job, s, r);
    }
    SameMap(s.files, all.files);
    SameMap(s.next, all.manifest);
  }

  lemma EmptyDesired(p: Plugins, objs: seq<Object>)
    ensures objs == [] ==> MirrorAll(Desired(p.files, objs), p.manifest, objs) == Plugins(map[], map[])
  {
  }

  // ── What a broken sync leaves behind ──────────────────────────────────────

  predicate Agrees(o: Object, remote: Files) { o.rel in remote && remote[o.rel] == o.content }

  /** Its call finds nothing to fetch, before the new sync has got to the path and
      after. */
  predicate SkipsForGood(job: Job, o: Object, remote: Files) {
    Unchanged(job.start, job.earlier, o.rel, o) && o.rel in remote && |remote[o.rel]| == |o.content|
  }

  /** Every download under way holds what the bucket holds, and every call to come
      would fetch that or nothing. */
  ghost predicate Harmless(job: Job, left: Left, remote: Files) {
    && (forall o :: o in left.late ==> Agrees(o, remote))
    && (forall o :: o in left.pending ==> Agrees(o, remote) || SkipsForGood(job, o, remote))
  }

  ghost predicate CanonicalLeft(left: Left) { forall o :: o in left.pending + left.late ==> Canonical(o.rel) }

  ghost predicate FileFits(job: Job, s: State, remote: Files, r: Rel) {
    if r in remote then Get(s.files, r) in {Get(job.start, r), Some(remote[r])} else r !in s.files
  }

  ghost predicate CallFits(job: Job, s: State, remote: Files, i: nat)
    requires i < |job.objs| && i < |s.phases|
  {
    Agrees(job.objs[i], remote) &&
    (Arrived(s.phases[i]) ==> Get(s.files, job.objs[i].rel) == Some(job.objs[i].content))
  }

  ghost predicate Mirroring(job: Job, s: State, remote: Files) {
    && job.Valid() && Counted(job, s) && Harmless(job, s.left, remote) && CanonicalLeft(s.left)
    && Faithful(Plugins(job.start, job.manifest), remote)
    && (forall r :: FileFits(job, s, remote, r))
    && (forall i :: 0 <= i < |job.objs| ==> CallFits(job, s, remote, i))
  }

  lemma MoveKeepsFit(job: Job, s: State, move: Move, fn: nat -> bool, remote: Files, r: Rel)
    requires Mirroring(job, s, remote) && Can(job, s, move)
    ensures FileFits(job, Advance(job, s, move, fn), remote, r)
  {
    assert FileFits(job, s, remote, r);
    if move.Place? {
      assert CallFits(job, s, remote, move.i) && job.objs[move.i] in job.objs;
      PutAt(s.files, job.objs[move.i]);
    } else if move.LeftPlace? {
      assert Agrees(move.o, remote) && move.o in s.left.pending + s.left.late;
      PutAt(s.files, move.o);
    }
    hide Mirroring, Canonical, Put, Skips;
  }

  lemma MoveKeepsCall(job: Job, s: State, move: Move, fn: nat -> bool, remote: Files, i: nat)
    requires Mirroring(job, s, remote) && Can(job, s, move) && i < |job.objs|
    ensures i < |Advance(job, s, move, fn).phases| && CallFits(job, Advance(job, s, move, fn), remote, i)
  {
    var o := job.objs[i];
    assert CallFits(job, s, remote, i) && FileFits(job, s, remote, o.rel) && o in job.objs;
    PutAt(s.files, o);
    if move.Place? {
      assert job.objs[move.i] in job.objs && (i != move.i ==> job.objs[i].rel != job.objs[move.i].rel);
      PutAt(s.files, job.objs[move.i]);
    } else if move.LeftPlace? {
      assert Agrees(move.o, remote) && move.o in s.left.pending + s.left.late;
      PutAt(s.files, move.o);
    }
    assert o == Object(o.rel, remote[o.rel]);
    assert Unchanged(job.start, job.manifest, o.rel, o) ==> job.start[o.rel] == remote[o.rel];
    hide Mirroring, Canonical, Put, Skips;
  }

  lemma MoveKeepsHarmless(job: Job, s: State, move: Move, fn: nat -> bool, remote: Files)
    requires Mirroring(job, s, remote) && Can(job, s, move)
    ensures Harmless(job, Advance(job, s, move, fn).left, remote) && CanonicalLeft(Advance(job, s, move, fn).left)
  {
    if move.LeftCheck? {
      assert move.o in s.left.pending + s.left.late && FileFits(job, s, remote, move.o.rel);
      PutAt(s.files, move.o);
    }
    hide Canonical, Put, Skips;
  }

  lemma MoveMirrors(job: Job, s: State, move: Move, fn: nat -> bool, remote: Files)
    requires Mirroring(job, s, remote) && Can(job, s, move)
    ensures Mirroring(job, Advance(job, s, move, fn), remote)
  {
    MoveKeepsCounted(job, s, move, fn);
    MoveKeepsHarmless(job, s, move, fn, remote);
    hide Advance, FileFits, CallFits, Harmless, CanonicalLeft;
    forall r ensures FileFits(job, Advance(job, s, move, fn), remote, r) { MoveKeepsFit(job, s, move, fn, remote, r); }
    forall i | 0 <= i < |job.objs| ensures CallFits(job, Advance(job, s, move, fn), remote, i) {
      MoveKeepsCall(job, s, move, fn, remote, i);
    }
  }

  lemma {:induction false} AllMovesMirror(job: Job, s: State, moves: seq<Move>, fn: nat -> bool, remote: Files)
    requires Mirroring(job, s, remote) && Inv(s.pool, fn) && Interleaves(job, s, moves, fn)
    ensures var t := Ends(job, s, moves, fn);
      Mirroring(job, t, remote) && Inv(t.pool, fn) && |t.pool.workers| == |s.pool.workers|
    decreases |moves|
  {
    hide Mirroring, Inv;
    if moves != [] {
      MoveMirrors(job, s, moves[0], fn, remote);
      if moves[0].Pooled? { StepKeepsInv(s.pool, moves[0].step, fn); }
      AllMovesMirror(job, Advance(job, s, moves[0], fn), moves[1..], fn, remote);
    }
  }

  /** What the removal of stale files leaves. */
  lemma DesiredIs(files: Files, objs: seq<Object>, remote: Files)
    requires Listing(objs, remote)
    ensures forall r :: Get(Desired(files, objs), r) == if r in remote then Get(files, r) else None
  {
    forall r ensures Get(Desired(files, objs), r) == if r in remote then Get(files, r) else None {
      if r in remote {
        assert Object(r, remote[r]) in objs;
        CanonicalTarget(PLUGINS_DIR, r);
      }
      forall o | o in objs ensures LocalTarget(PLUGINS_DIR, o.rel) == Some(o.rel) { CanonicalTarget(PLUGINS_DIR, o.rel); }
      hide Canonical, LocalTarget;
    }
  }

  lemma DesiredFaithful(p: Plugins, objs: seq<Object>, remote: Files)
    requires Listing(objs, remote)
    ensures Faithful(Plugins(Desired(p.files, objs), p.manifest), remote) <==> Faithful(p, remote)
  {
    DesiredIs(p.files, objs, remote);
    var start := Desired(p.files, objs);
    hide Desired, Listing;
    forall r | r in remote ensures Unchanged(start, p.manifest, r, Object(r, remote[r])) <==> Unchanged(p.files, p.manifest, r, Object(r, remote[r])) {
      assert Get(start, r) == Get(p.files, r);
    }
    forall r | r in remote && r in start ensures start[r] == p.files[r] { assert Get(start, r) == Get(p.files, r); }
  }

  lemma BeginMirrors(p: Plugins, objs: seq<Object>, earlier: Manifest, left: Left, limit: int, remote: Files)
    requires Listing(objs, remote) && Faithful(p, remote) && CanonicalLeft(left)
    requires Harmless(JobOf(p, objs, earlier), left, remote)
    ensures Mirroring(JobOf(p, objs, earlier), Begin(JobOf(p, objs, earlier), limit, left), remote)
  {
    var job := JobOf(p, objs, earlier);
    var s := Begin(job, limit, left);
    DesiredIs(p.files, objs, remote);
    DesiredFaithful(p, objs, remote);
    hide Desired, Harmless, CanonicalLeft, Canonical;
    forall r ensures FileFits(job, s, remote, r) { assert Get(job.start, r) == if r in remote then Get(p.files, r) else None; }
    forall i | 0 <= i < |objs| ensures CallFits(job, s, remote, i) { assert objs[i] in objs; }
  }

  /** However what is left of a broken sync runs on beside it, the sync completes
      with exactly the bucket's plugins. */
  ghost predicate EndsExact(job: Job, limit: int, left: Left, remote: Files) {
    forall moves, fn :: Interleaves(job, Begin(job, limit, left), moves, fn) && AllDone(Ends(job, Begin(job, limit, left), moves, fn)) ==>
      Ends(job, Begin(job, limit, left), moves, fn).files == remote
  }

  lemma HarmlessEndsExact(p: Plugins, objs: seq<Object>, earlier: Manifest, left: Left, limit: int, remote: Files,
                          moves: seq<Move>, fn: nat -> bool)
    requires Listing(objs, remote) && Faithful(p, remote) && CanonicalLeft(left)
    requires Harmless(JobOf(p, objs, earlier), left, remote)
    requires Interleaves(JobOf(p, objs, earlier), Begin(JobOf(p, objs, earlier), limit, left), moves, fn)
    requires AllDone(Ends(JobOf(p, objs, earlier), Begin(JobOf(p, objs, earlier), limit, left), moves, fn))
    ensures Ends(JobOf(p, objs, earlier), Begin(JobOf(p, objs, earlier), limit, left), moves, fn).files == remote
  {
    var job := JobOf(p, objs, earlier);
    BeginMirrors(p, objs, earlier, left, limit, remote);
    BeginStands(job, limit, left, fn);
    AllMovesMirror(job, Begin(job, limit, left), moves, fn, remote);
    var s := Ends(job, Begin(job, limit, left), moves, fn);
    hide Interleaves, Ends, Harmless, CanonicalLeft, Faithful, Desired;
    MirroredToTheEnd(job, s, fn, remote);
  }

  lemma MirroredToTheEnd(job: Job, s: State, fn: nat -> bool, remote: Files)
    requires Mirroring(job, s, remote) && Inv(s.pool, fn) && (|job.objs| > 0 ==> |s.pool.workers| > 0) && AllDone(s)
    requires Listing(job.objs, remote)
    ensures s.files == remote
  {
    forall i | 0 <= i < |s.phases| ensures s.phases[i].Through? {
      assert s.pool.workers[0].Done?;
      assert !HeldBySome(s.pool.workers, i);
      assert s.pool.results[i].Some?;
    }
    hide Inv, AllDone, Harmless, CanonicalLeft, Faithful;
    forall r ensures Get(s.files, r) == Get(remote, r) {
      assert FileFits(job, s, remote, r);
      if r in remote {
        assert Object(r, remote[r]) in job.objs;
        var i :| 0 <= i < |job.objs| && job.objs[i] == Object(r, remote[r]);
        assert CallFits(job, s, remote, i);
      }
    }
    SameMap(s.files, remote);
  }

  // ── A run to the end ──────────────────────────────────────────────────────

  lemma {:induction false} Chain(job: Job, s: State, first: seq<Move>, second: seq<Move>, fn: nat -> bool)
    requires Interleaves(job, s, first, fn) && Interleaves(job, Ends(job, s, first, fn), second, fn)
    ensures Interleaves(job, s, first + second, fn)
    ensures Ends(job, s, first + second, fn) == Ends(job, Ends(job, s, first, fn), second, fn)
    ensures Undisturbed(first) && Undisturbed(second) ==> Undisturbed(first + second)
    decreases |first|
  {
    hide Advance, Can;
    if first == [] {
      assert first + second == second;
    } else {
      Chain(job, Advance(job, s, first[0], fn), first[1..], second, fn);
      assert (first + second)[1..] == first[1..] + second;
    }
  }

  lemma OneMove(job: Job, s: State, move: Move, fn: nat -> bool)
    requires Can(job, s, move)
    ensures Interleaves(job, s, [move], fn) && Ends(job, s, [move], fn) == Advance(job, s, move, fn)
  {
    hide Advance, Can;
    assert [move][1..] == [];
  }

  /** All workers idle, the first k calls through, the others not taken. */
  ghost predicate UpTo(job: Job, s: State, k: nat) {
    && |s.phases| == |job.objs| == s.pool.total == |s.pool.results| && s.pool.next == k <= s.pool.total
    && (s.pool.total > 0 ==> |s.pool.workers| > 0)
    && (forall w :: 0 <= w < |s.pool.workers| ==> s.pool.workers[w].Idle?)
    && (forall i :: 0 <= i < |s.phases| ==> if i < k then s.phases[i].Through? else s.phases[i].Waiting?)
  }

  lemma OneCall(job: Job, s: State, k: nat, fn: nat -> bool) returns (moves: seq<Move>)
    requires UpTo(job, s, k) && k < |job.objs|
    ensures Interleaves(job, s, moves, fn) && Undisturbed(moves)
    ensures var t := Ends(job, s, moves, fn); UpTo(job, t, k + 1) && t.left == s.left
  {
    hide Skips, Put;
    moves := [Pooled(Take(0))];
    OneMove(job, s, Pooled(Take(0)), fn);
    var t := Ends(job, s, moves, fn);
    assert t.phases == s.phases[k := Taken] && t.pool.workers == s.pool.workers[0 := Busy(k)];
    var more := CallGetsThrough(job, t, k, fn);
    Chain(job, s, moves, more, fn);
    moves := moves + more;
    var u := Ends(job, s, moves, fn);
    OneMove(job, u, Pooled(Settle(0)), fn);
    Chain(job, s, moves, [Pooled(Settle(0))], fn);
    moves := moves + [Pooled(Settle(0))];
  }

  lemma CallGetsThrough(job: Job, s: State, k: nat, fn: nat -> bool) returns (moves: seq<Move>)
    requires |s.phases| == |job.objs| == s.pool.total && s.pool.next <= s.pool.total && k < |job.objs| && s.phases[k].Taken?
    ensures Interleaves(job, s, moves, fn) && Undisturbed(moves)
    ensures var t := Ends(job, s, moves, fn); t.phases == s.phases[k := Through] && t.pool == s.pool && t.left == s.left
  {
    hide Skips, Put;
    OneMove(job, s, Check(k), fn);
    moves := [Check(k)];
    var t := Advance(job, s, Check(k), fn);
    if t.phases[k].Fetching? {
      OneMove(job, t, Place(k), fn);
      var u := Advance(job, t, Place(k), fn);
      OneMove(job, u, Record(k), fn);
      Chain(job, t, [Place(k)], [Record(k)], fn);
      Chain(job, s, moves, [Place(k)] + [Record(k)], fn);
      moves := moves + ([Place(k)] + [Record(k)]);
    }
  }

  lemma {:induction false} CallsGetThrough(job: Job, s: State, k: nat, fn: nat -> bool) returns (moves: seq<Move>)
    requires UpTo(job, s, k)
    ensures Interleaves(job, s, moves, fn) && Undisturbed(moves)
    ensures var t := Ends(job, s, moves, fn); UpTo(job, t, |job.objs|) && t.left == s.left
    decreases |job.objs| - k
  {
    if k == |job.objs| {
      moves := [];
    } else {
      moves := OneCall(job, s, k, fn);
      hide UpTo;
      var more := CallsGetThrough(job, Ends(job, s, moves, fn), k + 1, fn);
      Chain(job, s, moves, more, fn);
      moves := moves + more;
    }
  }

  lemma {:induction false} WorkersStop(job: Job, s: State, w: nat, fn: nat -> bool) returns (moves: seq<Move>)
    requires |s.phases| == |job.objs| == s.pool.total == s.pool.next && w <= |s.pool.workers|
    requires forall v :: 0 <= v < |s.pool.workers| ==> if v < w then s.pool.workers[v].Done? else s.pool.workers[v].Idle?
    ensures Interleaves(job, s, moves, fn) && Undisturbed(moves)
    ensures var t := Ends(job, s, moves, fn);
      AllDone(t) && t.left == s.left && t.files == s.files && |t.phases| == |job.objs| == t.pool.total && t.pool.next <= t.pool.total
    decreases |s.pool.workers| - w
  {
    if w == |s.pool.workers| {
      moves := [];
    } else {
      OneMove(job, s, Pooled(Stop(w)), fn);
      var t := Advance(job, s, Pooled(Stop(w)), fn);
      var more := WorkersStop(job, t, w + 1, fn);
      moves := [Pooled(Stop(w))] + more;
      Chain(job, s, [Pooled(Stop(w))], more, fn);
    }
  }

  lemma FullRun(job: Job, s: State, fn: nat -> bool) returns (moves: seq<Move>)
    requires UpTo(job, s, 0)
    ensures Interleaves(job, s, moves, fn) && Undisturbed(moves)
    ensures var t := Ends(job, s, moves, fn);
      AllDone(t) && t.left == s.left && |t.phases| == |job.objs| == t.pool.total && t.pool.next <= t.pool.total
  {
    moves := CallsGetThrough(job, s, 0, fn);
    var more := WorkersStop(job, Ends(job, s, moves, fn), 0, fn);
    Chain(job, s, moves, more, fn);
    moves := moves + more;
  }

  lemma BeginIsUpTo(job: Job, limit: int, left: Left)
    ensures UpTo(job, Begin(job, limit, left), 0)
  {
  }

  // ── When what is left does harm ───────────────────────────────────────────

  /** A download under way can be the last to write. */
  lemma LateWritesLast(job: Job, s: State, o: Object, fn: nat -> bool)
    requires Can(job, s, LeftPlace(o)) && AllDone(s) && Canonical(o.rel)
    ensures Interleaves(job, s, [LeftPlace(o)], fn)
    ensures var t := Ends(job, s, [LeftPlace(o)], fn);
      AllDone(t) && Get(t.files, o.rel) == Some(o.content) && t.next == s.next
  {
    OneMove(job, s, LeftPlace(o), fn);
    PutAt(s.files, o);
  }

  lemma LateBreaks(job: Job, limit: int, left: Left, remote: Files, o: Object)
    requires o in left.late && Canonical(o.rel) && !Agrees(o, remote)
    ensures !EndsExact(job, limit, left, remote)
  {
    var fn := _ => true;
    BeginIsUpTo(job, limit, left);
    var moves := FullRun(job, Begin(job, limit, left), fn);
    hide UpTo;
    LateWritesLast(job, Ends(job, Begin(job, limit, left), moves, fn), o, fn);
    Chain(job, Begin(job, limit, left), moves, [LeftPlace(o)], fn);
    var all := moves + [LeftPlace(o)];
    assert Interleaves(job, Begin(job, limit, left), all, fn) && AllDone(Ends(job, Begin(job, limit, left), all, fn));
    assert Get(Ends(job, Begin(job, limit, left), all, fn).files, o.rel) == Some(o.content);
  }

  /** A pending call whose file is not as it expects can begin its download at once. */
  lemma PendingBreaksEarly(job: Job, limit: int, left: Left, remote: Files, o: Object)
    requires o in left.pending && Canonical(o.rel) && !Agrees(o, remote) && !Unchanged(job.start, job.earlier, o.rel, o)
    ensures !EndsExact(job, limit, left, remote)
  {
    var fn := _ => true;
    var s := Begin(job, limit, left);
    BeginIsUpTo(job, limit, left);
    PutAt(s.files, o);
    OneMove(job, s, LeftCheck(o), fn);
    var t := Advance(job, s, LeftCheck(o), fn);
    assert UpTo(job, t, 0) && o in t.left.late;
    var moves := FullRun(job, t, fn);
    hide UpTo;
    LateWritesLast(job, Ends(job, t, moves, fn), o, fn);
    Chain(job, t, moves, [LeftPlace(o)], fn);
    Chain(job, s, [LeftCheck(o)], moves + [LeftPlace(o)], fn);
    var all := [LeftCheck(o)] + (moves + [LeftPlace(o)]);
    assert Interleaves(job, s, all, fn) && AllDone(Ends(job, s, all, fn));
    assert Get(Ends(job, s, all, fn).files, o.rel) == Some(o.content);
  }

  /** One that would have skipped finds the new file changed once it is in place. */
  lemma PendingBreaksLate(p: Plugins, objs: seq<Object>, earlier: Manifest, left: Left, limit: int, remote: Files, o: Object)
    requires Listing(objs, remote) && o in left.pending && Canonical(o.rel)
    requires o.rel in remote && |remote[o.rel]| != |o.content|
    ensures !EndsExact(JobOf(p, objs, earlier), limit, left, remote)
  {
    var job, fn := JobOf(p, objs, earlier), _ => true;
    var s := Begin(job, limit, left);
    BeginIsUpTo(job, limit, left);
    var moves := FullRun(job, s, fn);
    var t := Ends(job, s, moves, fn);
    hide UpTo, Interleaves, Ends, AllDone, Listing;
    if t.files == remote {
      PutAt(t.files, o);
      OneMove(job, t, LeftCheck(o), fn);
      var u := Advance(job, t, LeftCheck(o), fn);
      LateWritesLast(job, u, o, fn);
      Chain(job, t, [LeftCheck(o)], [LeftPlace(o)], fn);
      Chain(job, s, moves, [LeftCheck(o)] + [LeftPlace(o)], fn);
      var all := moves + ([LeftCheck(o)] + [LeftPlace(o)]);
      assert Interleaves(job, s, all, fn) && AllDone(Ends(job, s, all, fn));
      assert Get(Ends(job, s, all, fn).files, o.rel) == Some(o.content);
    } else {
      assert Interleaves(job, s, moves, fn) && AllDone(Ends(job, s, moves, fn));
    }
  }

  lemma UnfaithfulBreaks(p: Plugins, objs: seq<Object>, earlier: Manifest, left: Left, limit: int, remote: Files)
    requires Listing(objs, remote) && !Faithful(p, remote)
    ensures !EndsExact(JobOf(p, objs, earlier), limit, left, remote)
  {
    var job, fn := JobOf(p, objs, earlier), _ => true;
    BeginIsUpTo(job, limit, left);
    var moves := FullRun(job, Begin(job, limit, left), fn);
    hide UpTo, Faithful, Completed;
    assert forall o :: o in objs ==> Canonical(o.rel);
    InterleavingsAgree(p, objs, earlier, left, limit, moves, fn);
    MirrorIsExact(p, objs, remote);
  }

  /** A sync beside what a broken one has left ends with exactly the bucket's plugins
      in every interleaving, if and only if the manifest vouches for no file wrongly,
      every download under way holds what the bucket holds by now, and every call
      still to come holds that too or will skip its file before and after. */
  lemma LeftoversAreHarmlessExactlyWhen(p: Plugins, objs: seq<Object>, earlier: Manifest, left: Left, limit: int, remote: Files)
    requires Listing(objs, remote) && CanonicalLeft(left)
    ensures EndsExact(JobOf(p, objs, earlier), limit, left, remote) <==>
      Faithful(p, remote) && Harmless(JobOf(p, objs, earlier), left, remote)
  {
    var job := JobOf(p, objs, earlier);
    if !Faithful(p, remote) {
      UnfaithfulBreaks(p, objs, earlier, left, limit, remote);
    } else if Harmless(job, left, remote) {
      forall moves, fn | Interleaves(job, Begin(job, limit, left), moves, fn) && AllDone(Ends(job, Begin(job, limit, left), moves, fn))
        ensures Ends(job, Begin(job, limit, left), moves, fn).files == remote
      {
        HarmlessEndsExact(p, objs, earlier, left, limit, remote, moves, fn);
      }
    } else {
      HarmfulLeft(p, objs, earlier, left, limit, remote);
    }
  }

  lemma HarmfulLeft(p: Plugins, objs: seq<Object>, earlier: Manifest, left: Left, limit: int, remote: Files)
    requires Listing(objs, remote) && CanonicalLeft(left) && !Harmless(JobOf(p, objs, earlier), left, remote)
    ensures !EndsExact(JobOf(p, objs, earlier), limit, left, remote)
  {
    var job := JobOf(p, objs, earlier);
    DesiredIs(p.files, objs, remote);
    hide EndsExact, Canonical;
    if o :| o in left.late && !Agrees(o, remote) {
      assert o in left.pending + left.late;
      LateBreaks(job, limit, left, remote, o);
    } else {
      var o :| o in left.pending && !Agrees(o, remote) && !SkipsForGood(job, o, remote);
      assert o in left.pending + left.late;
      if !Unchanged(job.start, job.earlier, o.rel, o) {
        PendingBreaksEarly(job, limit, left, remote, o);
      } else {
        assert Get(job.start, o.rel).Some?;
        PendingBreaksLate(p, objs, earlier, left, limit, remote, o);
      }
    }
  }

  ghost predicate AlwaysEndsExact(p: Plugins, earlier: Manifest, left: Left, limit: int) {
    forall objs, remote :: Listing(objs, remote) ==> EndsExact(JobOf(p, objs, earlier), limit, left, remote)
  }

  /** Whatever the bucket holds by then: exactly when the manifest is sound and
      nothing at all is left of a broken sync. */
  lemma AlwaysExactExactlyWhen(p: Plugins, earlier: Manifest, left: Left, limit: int)
    requires CanonicalLeft(left) && forall r :: r in p.manifest ==> Canonical(r)
    ensures AlwaysEndsExact(p, earlier, left, limit) <==> Sound(p) && left == Left({}, {})
  {
    hide EndsExact, Canonical;
    if Sound(p) && left == Left({}, {}) {
      forall objs, remote | Listing(objs, remote) ensures EndsExact(JobOf(p, objs, earlier), limit, left, remote) {
        SoundIsFaithful(p, remote);
        LeftoversAreHarmlessExactlyWhen(p, objs, earlier, left, limit, remote);
      }
    } else if !Sound(p) {
      AlwaysExactWhenSound(p);
      var objs, remote :| Listing(objs, remote) && Completed(p, objs).files != remote;
      MirrorIsExact(p, objs, remote);
      LeftoversAreHarmlessExactlyWhen(p, objs, earlier, left, limit, remote);
    } else {
      assert Listing([], map[]);
      LeftoversAreHarmlessExactlyWhen(p, [], earlier, left, limit, map[]);
      NothingAgrees(JobOf(p, [], earlier), left);
    }
  }

  lemma NothingAgrees(job: Job, left: Left)
    requires left != Left({}, {})
    ensures !Harmless(job, left, map[])
  {
    if left.late != {} {
      var o :| o in left.late;
      assert !Agrees(o, map[]);
    } else {
      var o :| o in left.pending;
      assert !Agrees(o, map[]) && !SkipsForGood(job, o, map[]);
    }
  }

  /** What a late download can cost for good: it replaces a file by other content of
      the same size after the new sync has recorded it, and the sync after that
      keeps the wrong file. */
  lemma LateWriteMisleads(p: Plugins, objs: seq<Object>, earlier: Manifest, left: Left, limit: int, remote: Files, o: Object)
    returns (moves: seq<Move>)
    requires Listing(objs, remote) && o in left.late && Canonical(o.rel)
    requires o.rel in remote && remote[o.rel] != o.content && |remote[o.rel]| == |o.content|
    ensures var job := JobOf(p, objs, earlier);
      && Interleaves(job, Begin(job, limit, left), moves, _ => true)
      && AllDone(Ends(job, Begin(job, limit, left), moves, _ => true))
      && var s := Ends(job, Begin(job, limit, left), moves, _ => true);
        Completed(Plugins(s.files, s.next), objs).files != remote
  {
    var job, fn: nat -> bool := JobOf(p, objs, earlier), _ => true;
    BeginIsUpTo(job, limit, left);
    var first := FullRun(job, Begin(job, limit, left), fn);
    hide UpTo, Faithful, Completed;
    assert forall x :: x in objs ==> Canonical(x.rel);
    InterleavingsAgree(p, objs, earlier, left, limit, first, fn);
    var t := Ends(job, Begin(job, limit, left), first, fn);
    LateWritesLast(job, t, o, fn);
    Chain(job, Begin(job, limit, left), first, [LeftPlace(o)], fn);
    moves := first + [LeftPlace(o)];
    RecordedEtag(p, objs, remote, o.rel);
    var s := Ends(job, Begin(job, limit, left), moves, fn);
    WronglyVouched(Plugins(s.files, s.next), objs, remote, o);
  }

  lemma RecordedEtag(p: Plugins, objs: seq<Object>, remote: Files, r: Rel)
    requires Listing(objs, remote) && r in remote
    ensures r in Completed(p, objs).manifest && Completed(p, objs).manifest[r].etag == remote[r]
  {
    assert Object(r, remote[r]) in objs;
    CompletedAt(p, objs, remote, r);
  }

  lemma WronglyVouched(p: Plugins, objs: seq<Object>, remote: Files, o: Object)
    requires Listing(objs, remote) && o.rel in remote && remote[o.rel] != o.content && |remote[o.rel]| == |o.content|
    requires Get(p.files, o.rel) == Some(o.content) && o.rel in p.manifest && p.manifest[o.rel].etag == remote[o.rel]
    ensures Completed(p, objs).files != remote
  {
    MirrorIsExact(p, objs, remote);
    assert Unchanged(p.files, p.manifest, o.rel, Object(o.rel, remote[o.rel]));
    hide Completed;
  }
}
