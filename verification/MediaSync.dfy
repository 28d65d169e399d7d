// The file-manager routes change one media file at a time beside the full push:
// upload, rename and delete, each with its own S3 key and manifest entry.
module MediaSync {
  import opened Text
  import opened SyncPolicy
  import opened ObjectStore
  import opened SyncSection
  import opened SyncProofs
  import opened SyncEngine
  import opened Push
  import opened SyncGuarantees
  import opened PushHost
  import MediaTypes

  // How S3 answered the delete of one key.
  datatype Reply = Threw | Refused | Deleted

  // ── One key at a time ─────────────────────────────────────────────────────

  function PushedFile(sec: Section, m: Mirror, rel: Rel, file: LocalFile, put: bool): Mirror {
    if !sec.filter(rel) || !put then m
    else Mirror(m.remote[rel := file.content], m.entries[rel := file.Entry(NoHash, Overlay)])
  }

  /** The server-side copy, or the upload it falls back to, reached the new key. */
  predicate Reaches(m: Mirror, from: Rel, copied: bool, put: bool) { (copied && from in m.remote) || put }

  /** A refused delete counts as done; one that throws leaves the manifest. */
  function MovedFile(m: Mirror, from: Rel, to: Rel, file: LocalFile, copied: bool, put: bool, reply: Reply): Mirror {
    if !Reaches(m, from, copied, put) then m
    else
      var remote := m.remote[to := if copied && from in m.remote then m.remote[from] else file.content];
      if reply.Threw? then Mirror(remote, m.entries)
      else Mirror(if reply.Deleted? then remote - {from} else remote, (m.entries - {from})[to := file.Entry(NoHash, Overlay)])
  }

  function DeletedFile(m: Mirror, rel: Rel, reply: Reply): Mirror {
    if reply.Deleted? then Mirror(m.remote - {rel}, m.entries - {rel}) else m
  }

  // ── The routes ────────────────────────────────────────────────────────────

  datatype MediaState = MediaState(m: Mirror, tree: Tree)

  datatype MediaOp =
    | Add(rel: Rel, file: LocalFile, put: bool)
    | Rename(from: Rel, to: Rel, copied: bool, put: bool, reply: Reply)
    | Delete(rel: Rel, reply: Reply)

  predicate MediaName(rel: Rel) { MediaTypes.IsAllowedExtension(MediaTypes.ExtensionOf(rel)) }

  /** The routes refuse a name that is no media file's, a missing file and a taken
      name before changing anything. */
  predicate Accepts(tree: Tree, op: MediaOp) {
    match op
    case Add(_, _, _) => true
    case Rename(from, to, _, _, _) => MediaName(to) && from in tree && to !in tree
    case Delete(rel, _) => rel in tree
  }

  function Apply(sec: Section, s: MediaState, op: MediaOp): MediaState {
    if !Accepts(s.tree, op) then s
    else
      match op
      case Add(rel, file, put) => MediaState(PushedFile(sec, s.m, rel, file, put), s.tree[rel := file])
      case Rename(from, to, copied, put, reply) =>
        MediaState(MovedFile(s.m, from, to, s.tree[from], copied, put, reply), (s.tree - {from})[to := s.tree[from]])
      case Delete(rel, reply) => MediaState(DeletedFile(s.m, rel, reply), s.tree - {rel})
  }

  // ── What each operation keeps ─────────────────────────────────────────────

  /** A file that arrives under a name does not carry that name's recorded stamp
      by accident. */
  ghost predicate Honest(s: MediaState, op: MediaOp) {
    match op
    case Add(rel, file, _) => Tells(s.m.At(rel), Some(file))
    case Rename(from, to, _, _, _) => from in s.tree ==> Tells(s.m.At(to), Some(s.tree[from]))
    case Delete(_, _) => true
  }

  /** A rename that ends up trusting a server-side copy copied the file's own content. */
  predicate Faithful(sec: Section, s: MediaState, op: MediaOp) {
    op.Rename? && Accepts(s.tree, op) && op.copied && op.from in s.m.remote && sec.Keeps(op.to)
    && (!op.reply.Threw? || SameStamp(Get(s.m.entries, op.to), s.tree[op.from]))
    ==> s.m.remote[op.from] == s.tree[op.from].content
  }

  /** The name an operation takes away from the tree. */
  function Removed(s: MediaState, op: MediaOp): Option<Rel> {
    if !Accepts(s.tree, op) || op.Add? then None
    else Some(if op.Rename? then op.from else op.rel)
  }

  /** The key left behind is neither gone from S3 nor tracked for deletion. */
  predicate Orphans(sec: Section, s: MediaState, op: MediaOp) {
    var p := Removed(s, op);
    var after := Apply(sec, s, op).m;
    p.Some? && sec.Keeps(p.value) && p.value in after.remote && p.value !in after.entries
  }

  lemma OpKeepsSound(sec: Section, s: MediaState, op: MediaOp)
    requires !sec.hashContent && Sound(sec, s.m, map[])
    ensures Sound(sec, Apply(sec, s, op).m, map[])
  {
    var after := Apply(sec, s, op).m;
    forall r ensures SoundSlot(sec, after.At(r), r, map[]) {
      assert SoundSlot(sec, s.m.At(r), r, map[]);
    }
  }

  /** The recorded stamps stay true exactly when the rename was faithful. */
  lemma OpKeepsStamps(sec: Section, s: MediaState, op: MediaOp)
    requires !sec.hashContent && Sound(sec, s.m, map[]) && StampsTell(sec, s.m, s.tree) && Honest(s, op)
    ensures StampsTell(sec, Apply(sec, s, op).m, Apply(sec, s, op).tree) <==> Faithful(sec, s, op)
  {
    var after := Apply(sec, s, op);
    hide Apply, Honest, Sound;
    forall r | !(op.Rename? && r == op.to) ensures Tells(after.m.At(r), WantedFile(sec, after.tree, r)) {
      OthersKeepStamps(sec, s, op, r);
    }
    if op.Rename? { TargetKeepsStamp(sec, s, op); }
  }

  lemma OthersKeepStamps(sec: Section, s: MediaState, op: MediaOp, r: Rel)
    requires !sec.hashContent && StampsTell(sec, s.m, s.tree) && Honest(s, op) && !(op.Rename? && r == op.to)
    ensures Tells(Apply(sec, s, op).m.At(r), WantedFile(sec, Apply(sec, s, op).tree, r))
  {
    assert Tells(s.m.At(r), WantedFile(sec, s.tree, r));
    hide StampsTell;
  }

  lemma TargetKeepsStamp(sec: Section, s: MediaState, op: MediaOp)
    requires !sec.hashContent && Sound(sec, s.m, map[]) && StampsTell(sec, s.m, s.tree) && Honest(s, op) && op.Rename?
    ensures Tells(Apply(sec, s, op).m.At(op.to), WantedFile(sec, Apply(sec, s, op).tree, op.to)) <==> Faithful(sec, s, op)
  {
    assert SoundSlot(sec, s.m.At(op.to), op.to, map[]) && Tells(s.m.At(op.to), WantedFile(sec, s.tree, op.to));
    hide StampsTell, Sound;
  }

  lemma OpKeepsAccounted(sec: Section, s: MediaState, op: MediaOp)
    requires Accounted(sec, s.m, s.tree)
    ensures Accounted(sec, Apply(sec, s, op).m, Apply(sec, s, op).tree) <==> !Orphans(sec, s, op)
  {
  }

  /** S3 refused a rename that got that far the delete of a kept old key. */
  predicate RefusedOldKey(sec: Section, s: MediaState, op: MediaOp) {
    && op.Rename? && Accepts(s.tree, op) && Reaches(s.m, op.from, op.copied, op.put) && op.reply.Refused?
    && op.from in s.m.remote && sec.Keeps(op.from)
  }

  /** From a fully tracked prefix, only a rename whose delete S3 refused orphans. */
  lemma OnlyRefusalsOrphan(sec: Section, s: MediaState, op: MediaOp)
    requires Tracked(sec, s.m)
    ensures Orphans(sec, s, op) <==> RefusedOldKey(sec, s, op)
  {
  }

  /** When the renamed file was in sync with S3, the copy is its own content. */
  lemma InSyncIsFaithful(sec: Section, s: MediaState, op: MediaOp)
    requires StampsTell(sec, s.m, s.tree) && Sound(sec, s.m, map[]) && !sec.hashContent
    requires op.Rename? && op.from in s.tree && sec.Keeps(op.from) && SameStamp(Get(s.m.entries, op.from), s.tree[op.from])
    ensures Faithful(sec, s, op)
  {
    assert Tells(s.m.At(op.from), WantedFile(sec, s.tree, op.from));
    assert SoundSlot(sec, s.m.At(op.from), op.from, map[]);
  }

  // ── Repair by the next full push ──────────────────────────────────────────

  /** The kept objects are the kept local files, content for content. */
  ghost predicate Mirrors(sec: Section, remote: map<Rel, Content>, tree: Tree) {
    forall r :: sec.Keeps(r) ==> Get(remote, r) == ContentAt(tree, r)
  }

  lemma FullPushMirrors(sec: Section, s: MediaState, f: Faults)
    requires !sec.hashContent && Sound(sec, s.m, map[]) && StampsTell(sec, s.m, s.tree) && Accounted(sec, s.m, s.tree)
    requires Stats(sec, s.m, s.tree, true, f).failed == 0
    ensures Mirrors(sec, Sync(sec, s.m, s.tree, true, f).remote, s.tree)
  {
    var after := Sync(sec, s.m, s.tree, true, f);
    ExactMirror(sec, s.m, s.tree, f, map[]);
    SoundAfterSuccess(sec, s, f);
    hide Sync, Stats;
    forall r | sec.Keeps(r) ensures Get(after.remote, r) == ContentAt(s.tree, r) {
      if r in s.tree {
        assert r in Wanted(sec, s.tree);
        assert SoundSlot(sec, after.At(r), r, map[]);
      }
    }
  }

  lemma SoundAfterSuccess(sec: Section, s: MediaState, f: Faults)
    requires Sound(sec, s.m, map[]) && StampsTell(sec, s.m, s.tree)
    requires Stats(sec, s.m, s.tree, true, f).failed == 0
    ensures Sound(sec, Sync(sec, s.m, s.tree, true, f), map[])
  {
    NothingFailed(sec, s.m, s.tree, true, f);
    SoundAfterRun(sec, s.m, s.tree, true, f, map[]);
    hide Sync;
    if f.threw { assert Gone(sec, s.m, s.tree) == {}; }
  }

  /** A path without a kept file and without an entry is never touched. */
  lemma OrphanStays(sec: Section, s: MediaState, f: Faults, r: Rel)
    requires r in s.m.remote && r !in s.m.entries && r !in s.tree
    ensures r in Sync(sec, s.m, s.tree, true, f).remote
  {
    EntryAfter(sec, s.m, s.tree, true, f, r);
    hide Sync;
  }

  /** A file carrying its recorded stamp is never looked at again. */
  lemma StampedStays(sec: Section, s: MediaState, f: Faults, r: Rel)
    requires r in Wanted(sec, s.tree) && SameStamp(s.m.At(r).entry, s.tree[r])
    ensures Get(Sync(sec, s.m, s.tree, true, f).remote, r) == Get(s.m.remote, r)
  {
    EntryAfter(sec, s.m, s.tree, true, f, r);
    hide Sync;
  }

  /** From a state where every kept key is tracked, one operation that fails at
      any S3 step, followed by one successful full push, leaves the media prefix
      equal to the media dir: exactly when a rename that trusts the copy copied
      the file's own content, and S3 did not refuse it the delete of a kept key. */
  lemma RepairedByNextPush(sec: Section, s: MediaState, op: MediaOp, f: Faults)
    requires !sec.hashContent && Sound(sec, s.m, map[]) && StampsTell(sec, s.m, s.tree) && Tracked(sec, s.m)
    requires Honest(s, op)
    requires var after := Apply(sec, s, op); Stats(sec, after.m, after.tree, true, f).failed == 0
    ensures var after := Apply(sec, s, op);
      Mirrors(sec, Sync(sec, after.m, after.tree, true, f).remote, after.tree) <==>
        Faithful(sec, s, op) && !RefusedOldKey(sec, s, op)
  {
    OnlyRefusalsOrphan(sec, s, op);
    hide Sync, Stats, Apply, Faithful, Orphans, RefusedOldKey, Sound, StampsTell, Accounted, Tracked;
    var after := Apply(sec, s, op);
    OpKeepsSound(sec, s, op);
    OpKeepsStamps(sec, s, op);
    TrackedIsAccounted(sec, s);
    OpKeepsAccounted(sec, s, op);
    if !Faithful(sec, s, op) {
      TrustsStaleCopy(sec, s, op);
      StampedStays(sec, after, f, op.to);
      assert Get(Sync(sec, after.m, after.tree, true, f).remote, op.to) != ContentAt(after.tree, op.to);
    } else if Orphans(sec, s, op) {
      LeavesOrphan(sec, s, op);
      OrphanStays(sec, after, f, Removed(s, op).value);
      assert Get(Sync(sec, after.m, after.tree, true, f).remote, Removed(s, op).value).Some?;
    } else {
      FullPushMirrors(sec, after, f);
    }
  }

  /** The next full push that succeeds leaves the media prefix equal to the dir. */
  ghost predicate Repaired(sec: Section, s: MediaState, op: MediaOp, f: Faults) {
    var after := Apply(sec, s, op);
    Stats(sec, after.m, after.tree, true, f).failed == 0 ==> Mirrors(sec, Sync(sec, after.m, after.tree, true, f).remote, after.tree)
  }

  /** However the rename's requests go, short of a refused delete. */
  ghost predicate RepairedUnlessRefused(sec: Section, s: MediaState, from: Rel, to: Rel) {
    forall copied, put, reply, f :: reply != Refused ==> Repaired(sec, s, Rename(from, to, copied, put, reply), f)
  }

  /** However the rename's requests go. */
  ghost predicate AlwaysRepaired(sec: Section, s: MediaState, from: Rel, to: Rel) {
    forall copied, put, reply, f :: Repaired(sec, s, Rename(from, to, copied, put, reply), f)
  }

  /** The object under the old key, if the copy would be kept, is the file's own. */
  predicate CopyIsOwn(sec: Section, s: MediaState, from: Rel, to: Rel)
    requires from in s.tree
  {
    from in s.m.remote && sec.Keeps(to) ==> s.m.remote[from] == s.tree[from].content
  }

  lemma FaithfulWhenOwn(sec: Section, s: MediaState, op: MediaOp)
    requires op.Rename? && op.from in s.tree && CopyIsOwn(sec, s, op.from, op.to)
    ensures Faithful(sec, s, op)
  {
  }

  lemma NotOwnIsUnfaithful(sec: Section, s: MediaState, from: Rel, to: Rel)
    requires from in s.tree && to !in s.tree && MediaName(to) && !CopyIsOwn(sec, s, from, to)
    ensures !Faithful(sec, s, Rename(from, to, true, true, Deleted))
  {
    hide MediaName;
  }

  lemma RepairedExactly(sec: Section, s: MediaState, op: MediaOp, f: Faults)
    requires !sec.hashContent && Sound(sec, s.m, map[]) && StampsTell(sec, s.m, s.tree) && Tracked(sec, s.m)
    requires Honest(s, op)
    ensures Faithful(sec, s, op) && !RefusedOldKey(sec, s, op) ==> Repaired(sec, s, op, f)
    ensures var after := Apply(sec, s, op);
      f == NoFaults(sec, after.m, after.tree) && Repaired(sec, s, op, f) ==> Faithful(sec, s, op) && !RefusedOldKey(sec, s, op)
  {
    var after := Apply(sec, s, op);
    CleanRunSucceeds(sec, after.m, after.tree, true);
    hide Apply, Faithful, RefusedOldKey, Sound, StampsTell, Tracked, Sync, Stats, Honest, Mirrors, NoFaults;
    if Stats(sec, after.m, after.tree, true, f).failed == 0 { RepairedByNextPush(sec, s, op, f); }
  }

  /** Before the rename: whatever happens to its copy, its upload and its delete,
      short of a refusal, the next successful full push repairs it if and only if
      the object under the old key is the file's own content. */
  lemma RenameRepairedWhen(sec: Section, s: MediaState, from: Rel, to: Rel)
    requires !sec.hashContent && Sound(sec, s.m, map[]) && StampsTell(sec, s.m, s.tree) && Tracked(sec, s.m)
    requires from in s.tree && to !in s.tree && MediaName(to) && Tells(s.m.At(to), Some(s.tree[from]))
    ensures RepairedUnlessRefused(sec, s, from, to) <==> CopyIsOwn(sec, s, from, to)
  {
    hide Apply, Faithful, Sound, StampsTell, Tracked, Repaired, CopyIsOwn, NoFaults, MediaName;
    if CopyIsOwn(sec, s, from, to) {
      forall copied, put, reply, f | reply != Refused ensures Repaired(sec, s, Rename(from, to, copied, put, reply), f) {
        FaithfulWhenOwn(sec, s, Rename(from, to, copied, put, reply));
        RepairedExactly(sec, s, Rename(from, to, copied, put, reply), f);
      }
    } else {
      var op := Rename(from, to, true, true, Deleted);
      NotOwnIsUnfaithful(sec, s, from, to);
      var f := NoFaults(sec, Apply(sec, s, op).m, Apply(sec, s, op).tree);
      RepairedExactly(sec, s, op, f);
      assert !Repaired(sec, s, op, f);
    }
  }

  /** With refusals possible, only a file whose old key S3 lacks, or need not keep,
      is safe as well. */
  lemma RenameRepairedDespiteRefusal(sec: Section, s: MediaState, from: Rel, to: Rel)
    requires !sec.hashContent && Sound(sec, s.m, map[]) && StampsTell(sec, s.m, s.tree) && Tracked(sec, s.m)
    requires from in s.tree && to !in s.tree && MediaName(to) && Tells(s.m.At(to), Some(s.tree[from]))
    ensures AlwaysRepaired(sec, s, from, to) <==>
      CopyIsOwn(sec, s, from, to) && !(from in s.m.remote && sec.Keeps(from))
  {
    hide Apply, Faithful, Sound, StampsTell, Tracked, Repaired, CopyIsOwn, NoFaults, MediaName;
    RenameRepairedWhen(sec, s, from, to);
    if from in s.m.remote && sec.Keeps(from) {
      var op := Rename(from, to, true, true, Refused);
      var f := NoFaults(sec, Apply(sec, s, op).m, Apply(sec, s, op).tree);
      RepairedExactly(sec, s, op, f);
      assert !Repaired(sec, s, op, f);
    } else if CopyIsOwn(sec, s, from, to) {
      forall copied, put, reply, f ensures Repaired(sec, s, Rename(from, to, copied, put, reply), f) {
        FaithfulWhenOwn(sec, s, Rename(from, to, copied, put, reply));
        RepairedExactly(sec, s, Rename(from, to, copied, put, reply), f);
      }
    }
  }

  lemma TrackedIsAccounted(sec: Section, s: MediaState)
    requires Tracked(sec, s.m)
    ensures Accounted(sec, s.m, s.tree)
  {
  }

  lemma TrustsStaleCopy(sec: Section, s: MediaState, op: MediaOp)
    requires !Faithful(sec, s, op)
    ensures op.Rename?
    ensures var after := Apply(sec, s, op);
      && op.to in Wanted(sec, after.tree) && SameStamp(after.m.At(op.to).entry, after.tree[op.to])
      && Get(after.m.remote, op.to) != Some(after.tree[op.to].content)
  {
  }

  lemma LeavesOrphan(sec: Section, s: MediaState, op: MediaOp)
    requires Orphans(sec, s, op)
    ensures Removed(s, op).Some?
    ensures var after, r := Apply(sec, s, op), Removed(s, op).value;
      sec.Keeps(r) && r in after.m.remote && r !in after.m.entries && r !in after.tree
  {
  }

  function ApplyAll(sec: Section, s: MediaState, ops: seq<MediaOp>): MediaState
    decreases |ops|
  {
    if ops == [] then s else ApplyAll(sec, Apply(sec, s, ops[0]), ops[1..])
  }

  ghost predicate Careful(sec: Section, s: MediaState, ops: seq<MediaOp>)
    decreases |ops|
  {
    ops == [] ||
    (Honest(s, ops[0]) && Faithful(sec, s, ops[0]) && !Orphans(sec, s, ops[0])
     && Careful(sec, Apply(sec, s, ops[0]), ops[1..]))
  }

  /** Any number of operations in a row, each possibly failing. */
  lemma {:induction false} RunRepairedByNextPush(sec: Section, s: MediaState, ops: seq<MediaOp>, f: Faults)
    requires !sec.hashContent && Sound(sec, s.m, map[]) && StampsTell(sec, s.m, s.tree) && Accounted(sec, s.m, s.tree)
    requires Careful(sec, s, ops)
    requires var after := ApplyAll(sec, s, ops); Stats(sec, after.m, after.tree, true, f).failed == 0
    ensures var after := ApplyAll(sec, s, ops); Mirrors(sec, Sync(sec, after.m, after.tree, true, f).remote, after.tree)
    decreases |ops|
  {
    if ops == [] {
      FullPushMirrors(sec, s, f);
    } else {
      OpKeepsSound(sec, s, ops[0]);
      OpKeepsStamps(sec, s, ops[0]);
      OpKeepsAccounted(sec, s, ops[0]);
      hide Apply, Sync, Stats, Orphans, Faithful;
      RunRepairedByNextPush(sec, Apply(sec, s, ops[0]), ops[1..], f);
    }
  }

  /** The operation got through every one of its S3 requests. */
  predicate Succeeds(sec: Section, s: MediaState, op: MediaOp) {
    match op
    case Add(rel, _, put) => put && sec.Keeps(rel)
    case Rename(from, to, copied, put, reply) => Reaches(s.m, from, copied, put) && reply.Deleted? && sec.Keeps(to)
    case Delete(_, reply) => reply.Deleted?
  }

  /** When nothing failed, the manifest followed: a full push has nothing left to do. */
  lemma SuccessLeavesNothingPending(sec: Section, s: MediaState, op: MediaOp)
    requires Pending(sec, s.m, s.tree) == 0 && Succeeds(sec, s, op)
    ensures var after := Apply(sec, s, op); Pending(sec, after.m, after.tree) == 0
  {
    var after := Apply(sec, s, op);
    assert OutOfSync(sec, s.m, s.tree) == {} && Gone(sec, s.m, s.tree) == {};
    forall r ensures r !in OutOfSync(sec, after.m, after.tree) && r !in Gone(sec, after.m, after.tree) {
      assert r !in OutOfSync(sec, s.m, s.tree) && r !in Gone(sec, s.m, s.tree);
    }
    assert OutOfSync(sec, after.m, after.tree) == {} && Gone(sec, after.m, after.tree) == {};
  }

  // ── Where the ideal fails ─────────────────────────────────────────────────

  /** An upload replaced the file on disk but not in S3; the rename then copies
      the old object and records the new file's stamp. Every later push reports
      success and S3 keeps the old content. */
  lemma StaleCopyLosesContent(sec: Section, from: Rel, to: Rel, stale: Content, edited: Content, f: Faults)
    requires !sec.hashContent && from != to && sec.Keeps(from) && sec.Keeps(to) && MediaName(to) && stale != edited
    requires f == Faults({}, {}, {}, false)
    ensures
      var start := MediaState(Mirror(map[from := stale], map[from := ManifestEntry(|stale|, 0, NoHash, Overlay)]),
                              map[from := LocalFile(0, stale)]);
      var after := ApplyAll(sec, start, [Add(from, LocalFile(1, edited), false), Rename(from, to, true, true, Deleted)]);
      && Stats(sec, after.m, after.tree, true, f).failed == 0
      && ContentAt(after.tree, to) == Some(edited)
      && Get(Sync(sec, after.m, after.tree, true, f).remote, to) == Some(stale)
  {
    var start := MediaState(Mirror(map[from := stale], map[from := ManifestEntry(|stale|, 0, NoHash, Overlay)]),
                            map[from := LocalFile(0, stale)]);
    var first, second := Add(from, LocalFile(1, edited), false), Rename(from, to, true, true, Deleted);
    TwoOps(sec, start, first, second);
    RenamedOverStale(sec, from, to, stale, edited);
    hide Sync, Stats, Apply, ApplyAll;
    StampedStays(sec, Apply(sec, Apply(sec, start, first), second), f, to);
    NothingToDo(sec, Apply(sec, Apply(sec, start, first), second), f);
  }

  lemma RenamedOverStale(sec: Section, from: Rel, to: Rel, stale: Content, edited: Content)
    requires !sec.hashContent && from != to && sec.Keeps(from) && MediaName(to)
    ensures
      var start := MediaState(Mirror(map[from := stale], map[from := ManifestEntry(|stale|, 0, NoHash, Overlay)]),
                              map[from := LocalFile(0, stale)]);
      Apply(sec, Apply(sec, start, Add(from, LocalFile(1, edited), false)), Rename(from, to, true, true, Deleted)) ==
        MediaState(Mirror(map[to := stale], map[to := LocalFile(1, edited).Entry(NoHash, Overlay)]),
                   map[to := LocalFile(1, edited)])
  {
  }

  lemma TwoOps(sec: Section, s: MediaState, first: MediaOp, second: MediaOp)
    ensures ApplyAll(sec, s, [first, second]) == Apply(sec, Apply(sec, s, first), second)
  {
    hide Apply;
    assert [first, second][1..] == [second];
    assert ApplyAll(sec, Apply(sec, s, first), [second]) == ApplyAll(sec, Apply(sec, Apply(sec, s, first), second), []);
  }

  lemma NothingToDo(sec: Section, s: MediaState, f: Faults)
    requires Settled(sec, s.m, s.tree)
    ensures Stats(sec, s.m, s.tree, true, f).failed == 0
  {
    SettledIsIdle(sec, s.m, s.tree, f);
    hide Stats;
  }

  /** Two failures in a row: the rename's delete throws after the copy, then the
      renamed file is deleted and that request throws too. No manifest entry was
      ever written for the new key, so no push removes it again. */
  lemma UntrackedCopyStays(sec: Section, from: Rel, to: Rel, content: Content, f: Faults)
    requires from != to && sec.Keeps(from) && sec.Keeps(to) && MediaName(to)
    ensures
      var start := MediaState(Mirror(map[from := content], map[from := ManifestEntry(|content|, 0, NoHash, Overlay)]),
                              map[from := LocalFile(0, content)]);
      var after := ApplyAll(sec, start, [Rename(from, to, true, true, Threw), Delete(to, Threw)]);
      && after.tree == map[]
      && to in Sync(sec, after.m, after.tree, true, f).remote
  {
    var start := MediaState(Mirror(map[from := content], map[from := ManifestEntry(|content|, 0, NoHash, Overlay)]),
                            map[from := LocalFile(0, content)]);
    var first, second := Rename(from, to, true, true, Threw), Delete(to, Threw);
    TwoOps(sec, start, first, second);
    var after := Apply(sec, Apply(sec, start, first), second);
    assert after == MediaState(Mirror(map[from := content, to := content], start.m.entries), map[]);
    hide Sync, Apply, ApplyAll;
    OrphanStays(sec, after, f, to);
  }

  // ── The routines themselves ───────────────────────────────────────────────

  ghost function MediaNow(host: Host): MediaState
    requires host.disk.Dir? && host.disk.media.Some?
    reads host, host.bucket
  {
    MediaState(host.Now().MediaMirror(), host.disk.media.value)
  }

  /** Only the media side of the host moved. */
  twostate predicate OnlyMedia(host: Host)
    reads host, host.bucket
  {
    && host.disk.Dir? && old(host.disk.Dir?) && host.disk.config == old(host.disk.config)
    && host.Now().overlay == old(host.Now()).overlay && host.disk.Loaded().config == old(host.disk.Loaded().config)
    && forall name :: host.Template(name) == old(host.Template(name))
  }

  /** The other prefixes of the bucket are as they were. */
  twostate predicate OthersSame(bucket: Bucket, id: Ids)
    reads bucket
  {
    && View(bucket.objects, id.ConfigPrefix()) == old(View(bucket.objects, id.ConfigPrefix()))
    && forall name :: View(bucket.objects, TemplatePrefix(name)) == old(View(bucket.objects, TemplatePrefix(name)))
  }

  lemma OnlyMediaChanged(id: Ids, before: map<Key, Content>, after: map<Key, Content>)
    requires OnlyUnder(id.MediaPrefix(), before, after)
    ensures View(before, id.ConfigPrefix()) == View(after, id.ConfigPrefix())
    ensures forall name :: View(before, TemplatePrefix(name)) == View(after, TemplatePrefix(name))
  {
    hide View, OnlyUnder, Apart;
    PrefixesApart(id, "");
    ViewApart(before, after, id.MediaPrefix(), id.ConfigPrefix());
    forall name ensures View(before, TemplatePrefix(name)) == View(after, TemplatePrefix(name)) {
      PrefixesApart(id, name);
      ViewApart(before, after, id.MediaPrefix(), TemplatePrefix(name));
    }
  }

  // What goes wrong in one media operation.
  datatype MediaTrouble = MediaTrouble(copyFails: bool, putFails: bool, deleteRefused: bool, deleteThrows: bool) {
    function Answer(): Reply { if deleteThrows then Threw else if deleteRefused then Refused else Deleted }
    function AtDelete(key: Key): DeleteTrouble {
      DeleteTrouble(if deleteRefused then {key} else {}, if deleteThrows then Some(0) else None)
    }
  }

  const NO_MEDIA_TROUBLE := MediaTrouble(false, false, false, false)

  method UploadObject(bucket: Bucket, id: Ids, rel: Rel, content: Content, fails: bool) returns (ok: bool)
    modifies bucket
    ensures ok == !fails
    ensures View(bucket.objects, id.MediaPrefix()) ==
      if ok then old(View(bucket.objects, id.MediaPrefix()))[rel := content] else old(View(bucket.objects, id.MediaPrefix()))
    ensures OthersSame(bucket, id)
  {
    hide View;
    ghost var before := bucket.objects;
    ViewPut(bucket.objects, id.MediaPrefix(), rel, content);
    SameUnder(id.MediaPrefix(), bucket.objects);
    ok := bucket.Put(id.MediaPrefix() + rel, content, fails);
    OnlyMediaChanged(id, before, bucket.objects);
  }

  method CopyObject(bucket: Bucket, id: Ids, from: Rel, to: Rel, fails: bool) returns (ok: bool)
    modifies bucket
    ensures ok <==> !fails && from in old(View(bucket.objects, id.MediaPrefix()))
    ensures View(bucket.objects, id.MediaPrefix()) ==
      var m := old(View(bucket.objects, id.MediaPrefix())); if ok then m[to := m[from]] else m
    ensures OthersSame(bucket, id)
  {
    ghost var before, prefix := bucket.objects, id.MediaPrefix();
    assert from in View(before, prefix) <==> prefix + from in before;
    ok := bucket.Copy(id.MediaPrefix() + from, id.MediaPrefix() + to, fails);
    if ok { ViewPut(before, prefix, to, before[prefix + from]); }
    hide View;
    SameUnder(prefix, before);
    OnlyMediaChanged(id, before, bucket.objects);
  }

  method DeleteObject(bucket: Bucket, id: Ids, rel: Rel, trouble: MediaTrouble) returns (reply: Reply)
    modifies bucket
    ensures reply == trouble.Answer()
    ensures View(bucket.objects, id.MediaPrefix()) ==
      old(View(bucket.objects, id.MediaPrefix())) - (if reply.Deleted? then {rel} else {})
    ensures OthersSame(bucket, id)
  {
    hide View;
    ghost var before, prefix := bucket.objects, id.MediaPrefix();
    var key := id.MediaPrefix() + rel;
    ghost var accepted, answered;
    var deleted;
    deleted, accepted, answered := bucket.DeleteKeys([key], trouble.AtDelete(key));
    forall k | k in accepted ensures k == key && prefix <= k { assert k in [key][..answered]; }
    assert [key][..1] == [key] && (!trouble.deleteThrows && !trouble.deleteRefused ==> key in accepted);
    ViewDelete(before, prefix, accepted);
    assert key[|prefix|..] == rel;
    if deleted.Some? && |deleted.value| > 0 {
      assert accepted[0] in accepted;
      assert SuffixesOf(prefix, accepted) == {rel};
    } else {
      assert deleted.None? ==> answered == 0 && [key][..0] == [];
      assert SuffixesOf(prefix, accepted) == {};
    }
    OnlyMediaChanged(id, before, bucket.objects);
    return if deleted.None? then Threw else if |deleted.value| > 0 then Deleted else Refused;
  }

  method SaveMedia(host: Host, entries: Entries)
    requires host.disk.Dir?
    modifies host`disk
    ensures host.disk == old(host.disk).(saved := Some(old(host.disk).Loaded().(media := entries)))
  {
    host.disk := host.disk.(saved := Some(host.disk.Loaded().(media := entries)));
  }

  /** Uploads one file the policy keeps, then tracks it. */
  method PushObsMediaFile(host: Host, rel: Rel, trouble: MediaTrouble) returns (ok: bool)
    requires host.disk.Dir? && host.disk.media.Some? && rel in host.disk.media.value
    modifies host`disk, host.bucket
    ensures OnlyMedia(host) && host.disk.media == old(host.disk.media)
    ensures host.Now().MediaMirror() ==
      PushedFile(host.id.Media(), old(host.Now()).MediaMirror(), rel, host.disk.media.value[rel], !trouble.putFails)
    ensures ok <==> !IsSyncedMediaPath(rel) || !trouble.putFails
  {
    hide View;
    if !IsSyncedMediaPath(rel) { return true; }
    var file := host.disk.media.value[rel];
    ok := UploadObject(host.bucket, host.id, rel, file.content, trouble.putFails);
    if ok { SaveMedia(host, host.disk.Loaded().media[rel := file.Entry(NoHash, Overlay)]); }
  }

  /** Copies the old key to the new one, or uploads, then drops the old key. */
  method MoveObsMediaFile(host: Host, from: Rel, to: Rel, trouble: MediaTrouble) returns (ok: bool)
    requires host.disk.Dir? && host.disk.media.Some? && to in host.disk.media.value
    modifies host`disk, host.bucket
    ensures OnlyMedia(host) && host.disk.media == old(host.disk.media)
    ensures host.Now().MediaMirror() ==
      MovedFile(old(host.Now()).MediaMirror(), from, to, host.disk.media.value[to], !trouble.copyFails, !trouble.putFails, trouble.Answer())
    ensures ok <==>
      Reaches(old(host.Now()).MediaMirror(), from, !trouble.copyFails, !trouble.putFails) && !trouble.Answer().Threw?
  {
    hide View;
    var file := host.disk.media.value[to];
    var copied := CopyObject(host.bucket, host.id, from, to, trouble.copyFails);
    if !copied {
      var uploaded := UploadObject(host.bucket, host.id, to, file.content, trouble.putFails);
      if !uploaded { return false; }
    }
    ghost var reached := host.Now().media;
    var reply := DeleteObject(host.bucket, host.id, from, trouble);
    assert reached - {} == reached;
    if reply.Threw? { return false; }
    SaveMedia(host, (host.disk.Loaded().media - {from})[to := file.Entry(NoHash, Overlay)]);
    ok := true;
  }

  /** Drops one key, and its entry once S3 confirmed. */
  method DeleteObsMediaFile(host: Host, rel: Rel, trouble: MediaTrouble) returns (ok: bool)
    requires host.disk.Dir?
    modifies host`disk, host.bucket
    ensures OnlyMedia(host) && host.disk.media == old(host.disk.media)
    ensures host.Now().MediaMirror() == DeletedFile(old(host.Now()).MediaMirror(), rel, trouble.Answer())
    ensures ok <==> trouble.Answer().Deleted?
  {
    hide View;
    ghost var m := host.Now().MediaMirror();
    var reply := DeleteObject(host.bucket, host.id, rel, trouble);
    if !reply.Deleted? {
      assert m.remote - {} == m.remote;
      return false;
    }
    if rel in host.disk.Loaded().media {
      SaveMedia(host, host.disk.Loaded().media - {rel});
    } else {
      assert m.entries - {rel} == m.entries;
    }
    ok := true;
  }

  // ── The routes that call them ─────────────────────────────────────────────

  // The routes' answers: 200, 400, 404 and 409.
  datatype Answer = Done | BadType | NotFound | Taken

  /** The end of an upload: the file is in place, its push only logged. */
  method CommitUpload(host: Host, rel: Rel, file: LocalFile, trouble: MediaTrouble)
    requires host.disk.Dir? && host.disk.media.Some?
    modifies host`disk, host.bucket
    ensures OnlyMedia(host) && host.disk.media.Some?
    ensures MediaNow(host) == Apply(host.id.Media(), old(MediaNow(host)), Add(rel, file, !trouble.putFails))
    ensures host.disk.media.value == old(host.disk.media.value)[rel := file]
    ensures IsSyncedMediaPath(rel) && !trouble.putFails ==> Get(MediaNow(host).m.remote, rel) == Some(file.content)
  {
    hide View;
    host.disk := host.disk.(media := Some(host.disk.media.value[rel := file]));
    var ok := PushObsMediaFile(host, rel, trouble);
  }

  /** With nothing going wrong, S3 has what was there under the new key alone. */
  method RenameFile(host: Host, from: Rel, to: Rel, trouble: MediaTrouble) returns (answer: Answer)
    requires host.disk.Dir? && host.disk.media.Some?
    modifies host`disk, host.bucket
    ensures var tree := old(MediaNow(host)).tree;
      answer == if !MediaName(to) then BadType else if from !in tree then NotFound else if to in tree then Taken else Done
    ensures OnlyMedia(host) && host.disk.media.Some?
    ensures MediaNow(host) ==
      Apply(host.id.Media(), old(MediaNow(host)), Rename(from, to, !trouble.copyFails, !trouble.putFails, trouble.Answer()))
    ensures answer.Done? ==>
      && host.disk.media.value == (old(host.disk.media.value) - {from})[to := old(host.disk.media.value)[from]]
      && (trouble == NO_MEDIA_TROUBLE ==>
            && from !in MediaNow(host).m.remote && from !in MediaNow(host).m.entries && to in MediaNow(host).m.entries
            && (Get(old(MediaNow(host)).m.remote, from) in {None, Some(host.disk.media.value[to].content)} ==>
                  Get(MediaNow(host).m.remote, to) == Some(host.disk.media.value[to].content)))
    ensures !answer.Done? ==> MediaNow(host) == old(MediaNow(host))
  {
    hide View, MediaName;
    var tree := host.disk.media.value;
    if !MediaName(to) { return BadType; }
    if from !in tree { return NotFound; }
    if to in tree { return Taken; }
    host.disk := host.disk.(media := Some((tree - {from})[to := tree[from]]));
    var ok := MoveObsMediaFile(host, from, to, trouble);
    return Done;
  }

  /** With nothing going wrong, file, object and entry are gone. */
  method DeleteFile(host: Host, rel: Rel, trouble: MediaTrouble) returns (answer: Answer)
    requires host.disk.Dir? && host.disk.media.Some?
    modifies host`disk, host.bucket
    ensures answer == if rel in old(MediaNow(host)).tree then Done else NotFound
    ensures OnlyMedia(host) && host.disk.media.Some?
    ensures MediaNow(host) == Apply(host.id.Media(), old(MediaNow(host)), Delete(rel, trouble.Answer()))
    ensures answer.Done? ==>
      && host.disk.media.value == old(host.disk.media.value) - {rel}
      && (trouble == NO_MEDIA_TROUBLE ==> rel !in MediaNow(host).m.remote && rel !in MediaNow(host).m.entries)
  {
    hide View;
    if rel !in host.disk.media.value { return NotFound; }
    host.disk := host.disk.(media := Some(host.disk.media.value - {rel}));
    var ok := DeleteObsMediaFile(host, rel, trouble);
    return Done;
  }
}
