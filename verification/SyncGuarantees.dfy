// What pushes and pulls guarantee together: no kept file is ever lost, a pull
// is the template overridden by the user's overlay, and the plan keeps what it
// owns.
module SyncGuarantees {
  import opened Text
  import opened SyncPolicy
  import opened ObjectStore
  import opened SyncSection
  import opened SyncProofs
  import opened Push
  import opened Pull

  // ── A push seen from one section ──────────────────────────────────────────

  /** The manifest tells the truth about every kept file of the directory. */
  ghost predicate KeptTrue(sec: Section, m: Mirror, tree: Option<Tree>, template: map<Rel, Content>) {
    tree.Some? ==>
      (forall r :: r in Wanted(sec, tree.value) ==> SoundSlot(sec, m.At(r), r, template)) && StampsTell(sec, m, tree.value)
  }

  /** S3, or the template under it, holds every kept file of the directory. */
  ghost predicate Safe(sec: Section, remote: map<Rel, Content>, tree: Option<Tree>, template: map<Rel, Content>) {
    tree.Some? ==> forall r :: r in Wanted(sec, tree.value) ==>
      if r in remote then remote[r] == tree.value[r].content
      else r in template && template[r] == tree.value[r].content
  }

  /** The section's run works on the tree, or on none when it overlooks it. */
  lemma SideStaysTrue(sec: Section, m: Mirror, tree: Option<Tree>, seen: Option<Tree>, deletes: bool, f: Faults,
                      template: map<Rel, Content>)
    requires KeptTrue(sec, m, tree, template) && seen in {tree, None}
    ensures KeptTrue(sec, SyncSide(sec, m, seen, deletes, f), tree, template)
  {
    if seen.Some? { StampsStayTrue(sec, m, seen.value, deletes, f, template); }
  }

  lemma UploadMirrors(sec: Section, slot: Slot, file: LocalFile, rel: Rel, f: Faults, template: map<Rel, Content>)
    requires SoundSlot(sec, slot, rel, template) && Tells(slot, Some(file))
    requires var v := Decide(sec, slot.entry, file, rel, f); v != Unreadable && v != Rejected
    ensures MirrorsFile(UploadSlot(sec, slot, file, rel, f), file, rel, template)
  {
  }

  lemma SideIsSafe(sec: Section, m: Mirror, tree: Option<Tree>, deletes: bool, f: Faults, template: map<Rel, Content>)
    requires KeptTrue(sec, m, tree, template) && SideFailed(sec, m, tree, deletes, f) == 0
    ensures Safe(sec, SyncSide(sec, m, tree, deletes, f).remote, tree, template)
  {
    if tree.Some? {
      var files := tree.value;
      var after := Sync(sec, m, files, deletes, f);
      NothingFailed(sec, m, files, deletes, f);
      hide Sync;
      forall r | r in Wanted(sec, files)
        ensures if r in after.remote then after.remote[r] == files[r].content
                else r in template && template[r] == files[r].content
      {
        EntryAfter(sec, m, files, deletes, f, r);
        assert Tells(m.At(r), WantedFile(sec, files, r));
        UploadMirrors(sec, m.At(r), files[r], r, f, template);
        assert after.At(r).remote == Get(after.remote, r);
      }
    }
  }

  // ── A push of the whole dir ───────────────────────────────────────────────

  /** Media has no template layer. */
  ghost predicate WorldTrue(id: Ids, w: World, template: map<Rel, Content>) {
    w.disk.Dir? ==>
      KeptTrue(id.Config(), w.ConfigMirror(), w.disk.config, template) && KeptTrue(id.Media(), w.MediaMirror(), w.disk.media, map[])
  }

  ghost predicate SameFiles(a: World, b: World) {
    a.disk.Dir? && b.disk.Dir? && a.disk.config == b.disk.config && a.disk.media == b.disk.media
  }

  lemma SeenParts(w: World, u: Unseen)
    requires w.disk.Dir?
    ensures var seen := w.disk.Seen(u); seen.Dir? ==> seen.config in {w.disk.config, None} && seen.media in {w.disk.media, None}
  {
  }

  /** Whatever fails, a push leaves the local files alone and the manifest true. */
  lemma PushKeepsTruth(id: Ids, w: World, deletes: bool, pf: PushFaults, template: map<Rel, Content>)
    requires w.disk.Dir? && WorldTrue(id, w, template)
    ensures SameFiles(w, PushOnce(id, w, deletes, pf).world) && WorldTrue(id, PushOnce(id, w, deletes, pf).world, template)
  {
    hide Sync, KeptTrue, Stats;
    SeenParts(w, pf.unseen);
    var seen := w.disk.Seen(pf.unseen);
    if seen.Dir? {
      SideStaysTrue(id.Config(), w.ConfigMirror(), w.disk.config, seen.config, deletes, pf.config, template);
      SideStaysTrue(id.Media(), w.MediaMirror(), w.disk.media, seen.media, deletes, pf.media, map[]);
    }
  }

  /** Everything kept in `files` is in S3 (or the template) as it is on disk. */
  ghost predicate Saved(id: Ids, files: Disk, w: World, template: map<Rel, Content>) {
    Safe(id.Config(), w.overlay, files.Configs(), template) && Safe(id.Media(), w.media, files.Medias(), map[])
  }

  /** A push that does not throw has saved everything it saw. */
  lemma PushSaves(id: Ids, w: World, deletes: bool, pf: PushFaults, template: map<Rel, Content>)
    requires w.disk.Dir? && WorldTrue(id, w, template) && PushOnce(id, w, deletes, pf).ok
    ensures Saved(id, w.disk.Seen(pf.unseen), PushOnce(id, w, deletes, pf).world, template)
  {
    hide Sync, Stats;
    var seen := w.disk.Seen(pf.unseen);
    if seen.Dir? {
      SideIsSafe(id.Config(), w.ConfigMirror(), seen.config, deletes, pf.config, template);
      SideIsSafe(id.Media(), w.MediaMirror(), seen.media, deletes, pf.media, map[]);
    }
  }

  /** So it has saved the whole dir exactly when what it overlooked was saved
      before; for a dir seen in full that is always. */
  lemma PushSavesAllExactlyWhen(id: Ids, w: World, deletes: bool, pf: PushFaults, template: map<Rel, Content>)
    requires w.disk.Dir? && WorldTrue(id, w, template) && PushOnce(id, w, deletes, pf).ok
    ensures Saved(id, w.disk, PushOnce(id, w, deletes, pf).world, template) <==>
      Saved(id, w.disk.Overlooked(pf.unseen), w, template)
    ensures pf.unseen == ALL_SEEN ==> Saved(id, w.disk, PushOnce(id, w, deletes, pf).world, template)
  {
    PushSaves(id, w, deletes, pf, template);
    hide Sync, Stats, WorldTrue;
  }

  // ── What a push does, given what goes wrong ───────────────────────────────

  /** One section: a kept file that can be read and uploaded is saved, whatever
      happens to the others; a tracked key without a kept file goes, unless its
      delete is refused or the delete call throws; nothing else changes. */
  ghost predicate SideDone(sec: Section, before: Mirror, after: Mirror, tree: Option<Tree>, deletes: bool, t: Trouble,
                           template: map<Rel, Content>) {
    tree.Some? ==> forall r :: PathDone(sec, before, after, tree.value, deletes, t, template, r)
  }

  ghost predicate PathDone(sec: Section, before: Mirror, after: Mirror, tree: Tree, deletes: bool, t: Trouble,
                           template: map<Rel, Content>, r: Rel) {
    if r in Wanted(sec, tree) then
      r !in t.unreadable && r !in t.rejected ==>
        if r in after.remote then after.remote[r] == tree[r].content else r in template && template[r] == tree[r].content
    else if deletes && r in before.entries then
      before.entries[r].source.Overlay? && r !in t.refused && !t.Throws(|Gone(sec, before, tree)|) ==>
        r !in after.remote && r !in after.entries
    else after.At(r) == before.At(r)
  }

  /** Something a section's run needs goes wrong. */
  ghost predicate SideMeets(sec: Section, m: Mirror, tree: Option<Tree>, deletes: bool, t: Trouble) {
    tree.Some? &&
    ((exists r :: r in Wanted(sec, tree.value) && (r in t.unreadable || r in t.rejected))
     || (deletes && (t.Throws(|Gone(sec, m, tree.value)|) || exists r :: r in Gone(sec, m, tree.value) && r in t.refused)))
  }

  ghost predicate PushDone(id: Ids, w: World, after: World, deletes: bool, t: PushTrouble, template: map<Rel, Content>)
    requires w.disk.Dir? ==> after.disk.Dir?
  {
    var seen := w.disk.Seen(t.unseen);
    seen.Dir? && !(t.configWalk && seen.config.Some?) ==>
      && SideDone(id.Config(), w.ConfigMirror(), after.ConfigMirror(), seen.config, deletes, t.config, template)
      && (!(t.mediaWalk && seen.media.Some?) ==>
            SideDone(id.Media(), w.MediaMirror(), after.MediaMirror(), seen.media, deletes, t.media, map[]))
  }

  ghost predicate PushMeets(id: Ids, w: World, deletes: bool, t: PushTrouble) {
    var seen := w.disk.Seen(t.unseen);
    seen.Dir? &&
    ((t.configWalk && seen.config.Some?) || (t.mediaWalk && seen.media.Some?)
     || SideMeets(id.Config(), w.ConfigMirror(), seen.config, deletes, t.config)
     || SideMeets(id.Media(), w.MediaMirror(), seen.media, deletes, t.media))
  }

  lemma SideMeansIt(sec: Section, m: Mirror, tree: Tree, deletes: bool, f: Faults, t: Trouble, template: map<Rel, Content>)
    requires KeptTrue(sec, m, Some(tree), template) && CausedBy(f, t, Gone(sec, m, tree), deletes)
    ensures SideDone(sec, m, Sync(sec, m, tree, deletes, f), Some(tree), deletes, t, template)
  {
    var after := Sync(sec, m, tree, deletes, f);
    forall r ensures PathDone(sec, m, after, tree, deletes, t, template, r) {
      EntryAfter(sec, m, tree, deletes, f, r);
      PathMeansIt(sec, m, tree, deletes, f, t, template, after, r);
    }
  }

  lemma PathMeansIt(sec: Section, m: Mirror, tree: Tree, deletes: bool, f: Faults, t: Trouble, template: map<Rel, Content>,
                    after: Mirror, r: Rel)
    requires KeptTrue(sec, m, Some(tree), template) && CausedBy(f, t, Gone(sec, m, tree), deletes)
    requires after.At(r) == if r in Wanted(sec, tree) then UploadSlot(sec, m.At(r), tree[r], r, f)
                            else if deletes then DeleteSlot(m.At(r), r, f) else m.At(r)
    ensures PathDone(sec, m, after, tree, deletes, t, template, r)
  {
    assert after.At(r) == Slot(Get(after.remote, r), Get(after.entries, r));
    if r in Wanted(sec, tree) {
      assert Tells(m.At(r), WantedFile(sec, tree, r));
      hide Sync;
    } else {
      hide Sync, KeptTrue;
    }
  }

  lemma NothingMetSucceeds(sec: Section, m: Mirror, tree: Tree, deletes: bool, f: Faults, t: Trouble)
    requires CausedBy(f, t, Gone(sec, m, tree), deletes) && !SideMeets(sec, m, Some(tree), deletes, t)
    ensures Stats(sec, m, tree, deletes, f).failed == 0
  {
    assert Met(sec, m, tree, Wanted(sec, tree), f, Unreadable) == {};
    assert Met(sec, m, tree, Wanted(sec, tree), f, Rejected) == {};
    hide Met, Decide;
    if deletes { assert Gone(sec, m, tree) - Confirmed(sec, m, tree, f) == {}; }
  }

  /** What a push promises its callers, whatever goes wrong. */
  lemma PushMeansIt(id: Ids, w: World, deletes: bool, pf: PushFaults, t: PushTrouble, template: map<Rel, Content>)
    requires PushCaused(id, w, deletes, pf, t)
    ensures w.disk.Dir? && WorldTrue(id, w, template) ==> PushDone(id, w, PushOnce(id, w, deletes, pf).world, deletes, t, template)
    ensures !PushMeets(id, w, deletes, t) ==> PushOnce(id, w, deletes, pf).ok
  {
    hide Sync, Stats, KeptTrue, CausedBy, SideDone, SideMeets;
    var seen := w.disk.Seen(t.unseen);
    if seen.Dir? {
      SeenParts(w, t.unseen);
      SideMeansItIf(id.Config(), w.ConfigMirror(), w.disk.config, seen.config, deletes, pf.config, t.config, template);
      SideMeansItIf(id.Media(), w.MediaMirror(), w.disk.media, seen.media, deletes, pf.media, t.media, map[]);
    }
  }

  lemma SideMeansItIf(sec: Section, m: Mirror, tree: Option<Tree>, seen: Option<Tree>, deletes: bool, f: Faults, t: Trouble,
                      template: map<Rel, Content>)
    requires seen in {tree, None}
    ensures SideCaused(f, t, sec, m, seen, deletes) && KeptTrue(sec, m, tree, template) ==>
      SideDone(sec, m, SyncSide(sec, m, seen, deletes, f), seen, deletes, t, template)
    ensures SideCaused(f, t, sec, m, seen, deletes) && !SideMeets(sec, m, seen, deletes, t) ==>
      SideFailed(sec, m, seen, deletes, f) == 0
  {
    if seen.Some? && SideCaused(f, t, sec, m, seen, deletes) {
      if KeptTrue(sec, m, tree, template) { SideMeansIt(sec, m, seen.value, deletes, f, t, template); }
      if !SideMeets(sec, m, seen, deletes, t) { NothingMetSucceeds(sec, m, seen.value, deletes, f, t); }
    }
    hide Sync, Stats, KeptTrue, CausedBy;
  }

  /** With nothing going wrong: no tracked key without a kept file remains. */
  ghost predicate NoneLeftBehind(id: Ids, w: World, after: World)
    requires w.disk.Dir?
  {
    && (w.disk.config.Some? ==> forall r :: r in Gone(id.Config(), w.ConfigMirror(), w.disk.config.value) ==> r !in after.overlay)
    && (w.disk.media.Some? ==> forall r :: r in Gone(id.Media(), w.MediaMirror(), w.disk.media.value) ==> r !in after.media)
  }

  lemma PushKeepsFiles(id: Ids, w: World, deletes: bool, pf: PushFaults)
    ensures w.disk.Dir? ==> SameFiles(w, PushOnce(id, w, deletes, pf).world)
  {
    hide Sync, Stats;
  }

  /** What is saved is about the files and the two prefixes. */
  lemma SavedElsewhere(id: Ids, files: Disk, same: Disk, w: World, after: World, template: map<Rel, Content>)
    requires same.Configs() == files.Configs() && same.Medias() == files.Medias()
    requires after.overlay == w.overlay && after.media == w.media
    ensures Saved(id, files, w, template) ==> Saved(id, same, after, template)
  {
  }

  lemma NothingMeets(id: Ids, w: World, deletes: bool)
    ensures !PushMeets(id, w, deletes, NO_PUSH_TROUBLE)
  {
    if w.disk.Dir? {
      CleanSide(id.Config(), w.ConfigMirror(), w.ConfigMirror(), w.disk.config, deletes, map[]);
      CleanSide(id.Media(), w.MediaMirror(), w.MediaMirror(), w.disk.media, deletes, map[]);
    }
    hide SideMeets;
  }

  /** A push that nothing goes wrong for saves the whole dir and drops what is gone. */
  lemma CleanPush(id: Ids, w: World, after: World, deletes: bool, template: map<Rel, Content>)
    requires w.disk.Dir? && after.disk.Dir? && PushDone(id, w, after, deletes, NO_PUSH_TROUBLE, template)
    ensures Saved(id, w.disk, after, template) && (deletes ==> NoneLeftBehind(id, w, after))
  {
    CleanSide(id.Config(), w.ConfigMirror(), after.ConfigMirror(), w.disk.config, deletes, template);
    CleanSide(id.Media(), w.MediaMirror(), after.MediaMirror(), w.disk.media, deletes, map[]);
    assert w.disk.Seen(ALL_SEEN).config == w.disk.config && w.disk.Seen(ALL_SEEN).media == w.disk.media;
    hide SideDone, SideMeets;
  }

  lemma CleanSide(sec: Section, before: Mirror, after: Mirror, tree: Option<Tree>, deletes: bool, template: map<Rel, Content>)
    ensures SideDone(sec, before, after, tree, deletes, NO_TROUBLE, template) ==>
      && Safe(sec, after.remote, tree, template)
      && (deletes && tree.Some? ==> forall r :: r in Gone(sec, before, tree.value) ==> r !in after.remote)
    ensures !SideMeets(sec, before, tree, deletes, NO_TROUBLE)
  {
    if tree.Some? && SideDone(sec, before, after, tree, deletes, NO_TROUBLE, template) {
      forall r | r in Wanted(sec, tree.value) || r in Gone(sec, before, tree.value)
        ensures PathDone(sec, before, after, tree.value, deletes, NO_TROUBLE, template, r) { }
    }
  }

  /** The final push, under any failures of its attempts: it either keeps every
      local file, or has saved all that the attempt saw that got through. */
  lemma {:induction false} PersistSavesOrKeeps(id: Ids, w: World, tries: seq<PushFaults>, removed: bool,
                                               template: map<Rel, Content>)
    requires w.disk.Dir? && WorldTrue(id, w, template)
    ensures var p := Persist(id, w, tries, removed);
      && (!p.ok ==> SameFiles(w, p.world) && WorldTrue(id, p.world, template))
      && (p.ok ==> Saved(id, p.saw, p.world, template) && (p.world.disk.NoDir? || SameFiles(w, p.world)))
      && (p.ok && removed ==> p.world.disk.NoDir?)
      && (p.ok && AllSeen(tries) ==> p.saw.Configs() == w.disk.config && p.saw.Medias() == w.disk.media)
    decreases |tries|
  {
    hide PushOnce;
    if tries != [] {
      PushKeepsTruth(id, w, true, tries[0], template);
      var p := PushOnce(id, w, true, tries[0]);
      if p.ok {
        PushSaves(id, w, true, tries[0], template);
      } else {
        PersistSavesOrKeeps(id, p.world, tries[1..], removed, template);
      }
    }
  }

  /** No look at a dir fails. */
  predicate AllSeen(tries: seq<PushFaults>) { forall pf :: pf in tries ==> pf.unseen == ALL_SEEN }

  // ── Pull layering ─────────────────────────────────────────────────────────

  /** Every key a pull reads has the shape of a walked path. */
  ghost predicate WalkShaped(w: World, template: map<Rel, Content>) {
    AllCanonical(WithoutPlugins(template)) &&
    AllCanonical(Kept(IsSyncedConfigPath, w.overlay)) && AllCanonical(Kept(IsSyncedMediaPath, w.media))
  }

  lemma KeptNotPlugin(r: Rel)
    requires IsSyncedConfigPath(r)
    ensures !IsPluginPath(r)
  {
    if IsPluginPath(r) { PlanOwnedNeverSynced(r); }
  }

  /** The content a completed pull gives a config path. */
  function Layered(w: World, template: map<Rel, Content>, r: Rel): Option<Content> {
    if IsSyncedConfigPath(r) && r in w.overlay then Some(w.overlay[r])
    else if r in template && !("plugins/" <= r) then Some(template[r])
    else None
  }

  function ContentAt(tree: Tree, r: Rel): Option<Content> { if r in tree then Some(tree[r].content) else None }

  /** Where a completed pull leaves one config path: the overlay's object over
      the template's, and an entry for it when the policy keeps the path. */
  lemma ConfigPathPulled(id: Ids, w: World, template: map<Rel, Content>, run: PullRun, r: Rel)
    requires Fetched(w, template, run) && WalkShaped(w, template)
    ensures var l := ConfigLayer(id, run);
      && ContentAt(l.tree, r) == Layered(w, template, r)
      && (r in l.entries <==> IsSyncedConfigPath(r) && Layered(w, template, r).Some?)
      && (r in l.entries ==> r in l.tree)
      && (r in l.entries ==>
            l.entries[r] == l.tree[r].Entry(Digest(l.tree[r].content), if r in w.overlay then Overlay else Template))
  {
    var overlay, base := Kept(IsSyncedConfigPath, w.overlay), WithoutPlugins(template);
    forall o | o in run.template ensures Canonical(o.rel) { assert o.rel in base; }
    forall o | o in run.overlay ensures Canonical(o.rel) { assert o.rel in overlay; }
    var first := DownloadAll(NOTHING, id.ConfigDir(), run.template, FROM_TEMPLATE);
    DownloadedAt(NOTHING, id.ConfigDir(), run.template, FROM_TEMPLATE, r);
    DownloadedAt(first, id.ConfigDir(), run.overlay, FROM_OVERLAY, r);
    hide DownloadAll, IsSyncedConfigPath, Canonical;
    assert Latest(run.overlay, r).Some? <==> r in overlay;
    assert Latest(run.template, r).Some? <==> r in base;
  }

  lemma MediaPathPulled(id: Ids, w: World, template: map<Rel, Content>, run: PullRun, r: Rel)
    requires Fetched(w, template, run) && WalkShaped(w, template)
    ensures var l := MediaLayer(id, run);
      && ContentAt(l.tree, r) == (if IsSyncedMediaPath(r) && r in w.media then Some(w.media[r]) else None)
      && (r in l.entries <==> IsSyncedMediaPath(r) && r in w.media)
      && (r in l.entries ==> r in l.tree && l.entries[r] == l.tree[r].Entry(NoHash, Overlay))
  {
    var media := Kept(IsSyncedMediaPath, w.media);
    forall o | o in run.media ensures Canonical(o.rel) { assert o.rel in media; }
    DownloadedAt(NOTHING, id.MediaDir(), run.media, FROM_MEDIA, r);
    hide DownloadAll, IsSyncedMediaPath, Canonical;
    assert Latest(run.media, r).Some? <==> r in media;
  }

  // ── No loss ───────────────────────────────────────────────────────────────

  ghost predicate Restored(sec: Section, files: Option<Tree>, pulled: Option<Tree>) {
    files.Some? ==> pulled.Some? && forall r :: r in Wanted(sec, files.value) ==>
      ContentAt(pulled.value, r) == Some(files.value[r].content)
  }

  /** A completed pull with the same template brings back whatever was saved. */
  lemma PullRestoresSaved(id: Ids, files: Disk, w: World, template: map<Rel, Content>, run: PullRun)
    requires Saved(id, files, w, template)
    requires Fetched(w, template, run) && WalkShaped(w, template)
    ensures var after := Pulled(id, w, run);
      Restored(id.Config(), files.Configs(), after.disk.config) && Restored(id.Media(), files.Medias(), after.disk.media)
  {
    var after := Pulled(id, w, run);
    if files.Configs().Some? {
      forall r | r in Wanted(id.Config(), files.Configs().value)
        ensures ContentAt(after.disk.config.value, r) == Some(files.Configs().value[r].content)
      {
        assert id.Config().filter(r);
        KeptNotPlugin(r);
        ConfigPathPulled(id, w, template, run, r);
        hide IsSyncedConfigPath;
      }
    }
    if files.Medias().Some? {
      forall r | r in Wanted(id.Media(), files.Medias().value)
        ensures ContentAt(after.disk.media.value, r) == Some(files.Medias().value[r].content)
      {
        assert id.Media().filter(r);
        MediaPathPulled(id, w, template, run, r);
        hide IsSyncedMediaPath;
      }
    }
  }

  /** A pull brings back every kept file of `files`. */
  ghost predicate BroughtBack(id: Ids, files: Disk, pulled: World) {
    pulled.disk.Dir? && Restored(id.Config(), files.Configs(), pulled.disk.config)
    && Restored(id.Media(), files.Medias(), pulled.disk.media)
  }

  /** For any failures over the attempts, the final push either keeps the local
      dir as it was, or leaves S3 such that every completed pull with the same
      template restores every kept file that the attempt saw that got through:
      the whole dir, when no look at it failed. */
  lemma NoLoss(id: Ids, w: World, tries: seq<PushFaults>, removed: bool, template: map<Rel, Content>, run: PullRun)
    requires w.disk.Dir? && WorldTrue(id, w, template)
    ensures var p := Persist(id, w, tries, removed);
      && (!p.ok ==> SameFiles(w, p.world))
      && (p.ok && Fetched(p.world, template, run) && WalkShaped(p.world, template) ==>
            BroughtBack(id, p.saw, Pulled(id, p.world.(disk := NoDir), run)))
      && (p.ok && AllSeen(tries) ==> p.saw.Configs() == w.disk.config && p.saw.Medias() == w.disk.media)
  {
    hide Pulled, Restored, Persist, Fetched, WalkShaped, Saved, Safe, AllSeen;
    PersistSavesOrKeeps(id, w, tries, removed, template);
    var p := Persist(id, w, tries, removed);
    if p.ok && Fetched(p.world, template, run) && WalkShaped(p.world, template) {
      OnDiskOnly(p.world, template, run, id, p.saw);
      PullRestoresSaved(id, p.saw, p.world.(disk := NoDir), template, run);
      PulledIsDir(id, p.world.(disk := NoDir), run);
    }
  }

  lemma PulledIsDir(id: Ids, w: World, run: PullRun)
    ensures Pulled(id, w, run).disk.Dir?
  {
  }

  lemma OnDiskOnly(w: World, template: map<Rel, Content>, run: PullRun, id: Ids, files: Disk)
    requires Fetched(w, template, run) && WalkShaped(w, template) && Saved(id, files, w, template)
    ensures var gone := w.(disk := NoDir);
      Fetched(gone, template, run) && WalkShaped(gone, template) && Saved(id, files, gone, template)
  {
  }

  /** What an overlooked dir costs: nothing of it was in S3 yet, the look at it
      fails once, the push counts as done, the dir is removed, and no completed
      pull has the file again. */
  lemma UnseenDirIsLost(id: Ids, tree: Tree, r: Rel, pf: PushFaults, run: PullRun)
    requires id.Config().Keeps(r) && r in tree && pf.unseen.dir
    ensures var w := World(Dir(Some(tree), None, None), map[], map[]);
      var p := Persist(id, w, [pf], true);
      && WorldTrue(id, w, map[]) && p.ok && p.world == World(NoDir, map[], map[])
      && (Fetched(p.world, map[], run) ==> r !in Pulled(id, p.world, run).disk.config.value)
  {
    var gone := World(NoDir, map[], map[]);
    if Fetched(gone, map[], run) {
      ConfigPathPulled(id, gone, map[], run, r);
    }
    hide ConfigLayer, MediaLayer, Fetched, IsSyncedConfigPath;
  }

  /** A pull over a leftover dir: once the dir is out of the way, the completed
      pull gives back every kept file that its push saw. What becomes of a dir that
      the pull itself overlooked is the matter of OverlookedLeftover. */
  lemma LeftoverComesBack(id: Ids, w: World, template: map<Rel, Content>, run: PullRun)
    requires w.disk.Dir? && WorldTrue(id, w, template) && Cleared(id, w, run).Some?
    requires Fetched(Cleared(id, w, run).value, template, run) && WalkShaped(Cleared(id, w, run).value, template)
    ensures !run.overlooked ==> BroughtBack(id, w.disk.Seen(run.push.unseen), PulledOnto(id, Cleared(id, w, run).value, run))
  {
    hide PushOnce, Pulled, Restored, Fetched, WalkShaped, Safe;
    if !run.overlooked {
      PushSaves(id, w, true, run.push, template);
      PullRestoresSaved(id, w.disk.Seen(run.push.unseen), Cleared(id, w, run).value, template, run);
      PulledIsDir(id, Cleared(id, w, run).value, run);
    }
  }

  // ── A leftover dir that the pull overlooks ────────────────────────────────

  /** Downloads onto files that are there: where one path stands. */
  lemma ConfigPathOnto(id: Ids, tree: Option<Tree>, w: World, template: map<Rel, Content>, run: PullRun, r: Rel)
    requires Partial(w, template, run) && WalkShaped(w, template)
    ensures var onto, clean := ConfigOnto(id, tree, run), ConfigLayer(id, run);
      && Get(onto.entries, r) == Get(clean.entries, r)
      && Get(onto.tree, r) == if r in clean.tree || tree.None? then Get(clean.tree, r) else Get(tree.value, r)
  {
    forall o | o in run.template ensures Canonical(o.rel) { assert o.rel in WithoutPlugins(template); }
    forall o | o in run.overlay ensures Canonical(o.rel) { assert o.rel in Kept(IsSyncedConfigPath, w.overlay); }
    hide WithoutPlugins, Kept, WalkShaped;
    TwoDownloads(id, NOTHING, run, r);
    TwoDownloads(id, Ground(tree), run, r);
    hide DownloadAll, IsSyncedConfigPath, Canonical;
  }

  lemma TwoDownloads(id: Ids, l: Layer, run: PullRun, r: Rel)
    requires forall o :: o in run.template ==> Canonical(o.rel)
    requires forall o :: o in run.overlay ==> Canonical(o.rel)
    ensures var after := DownloadAll(DownloadAll(l, id.ConfigDir(), run.template, FROM_TEMPLATE), id.ConfigDir(), run.overlay, FROM_OVERLAY);
      var last := if Latest(run.overlay, r).Some? then Latest(run.overlay, r) else Latest(run.template, r);
      var rec := if Latest(run.overlay, r).Some? then FROM_OVERLAY else FROM_TEMPLATE;
      && Get(after.tree, r) == (if last.Some? then Some(last.value.File()) else Get(l.tree, r))
      && Get(after.entries, r) == (if last.Some? && IsSyncedConfigPath(r) then Some(rec.Entry(last.value)) else Get(l.entries, r))
  {
    var first := DownloadAll(l, id.ConfigDir(), run.template, FROM_TEMPLATE);
    DownloadedAt(l, id.ConfigDir(), run.template, FROM_TEMPLATE, r);
    DownloadedAt(first, id.ConfigDir(), run.overlay, FROM_OVERLAY, r);
    hide DownloadAll, IsSyncedConfigPath, Canonical;
  }

  lemma MediaPathOnto(id: Ids, tree: Option<Tree>, w: World, template: map<Rel, Content>, run: PullRun, r: Rel)
    requires Partial(w, template, run) && WalkShaped(w, template)
    ensures var onto, clean := MediaOnto(id, tree, run), MediaLayer(id, run);
      && Get(onto.entries, r) == Get(clean.entries, r)
      && Get(onto.tree, r) == if r in clean.tree || tree.None? then Get(clean.tree, r) else Get(tree.value, r)
  {
    forall o | o in run.media ensures Canonical(o.rel) { assert o.rel in Kept(IsSyncedMediaPath, w.media); }
    DownloadedAt(NOTHING, id.MediaDir(), run.media, FROM_MEDIA, r);
    DownloadedAt(Ground(tree), id.MediaDir(), run.media, FROM_MEDIA, r);
    hide DownloadAll, IsSyncedMediaPath, Canonical, WalkShaped, Kept;
  }

  lemma FetchedIsPartial(w: World, template: map<Rel, Content>, run: PullRun)
    requires Fetched(w, template, run)
    ensures Partial(w, template, run)
  {
  }

  /** A pull that takes the leftover dir for a missing one, and completes: a file
      of the dir is still what it was exactly when neither overlay nor template has
      other content for its path. */
  lemma OverlookedLeftover(id: Ids, w: World, template: map<Rel, Content>, run: PullRun, r: Rel)
    requires w.disk.Dir? && w.disk.config.Some? && r in w.disk.config.value && run.overlooked
    requires Fetched(w, template, run) && WalkShaped(w, template)
    ensures Cleared(id, w, run) == Some(w)
    ensures ContentAt(PulledOnto(id, w, run).disk.config.value, r) == ContentAt(w.disk.config.value, r) <==>
      Layered(w, template, r) in {None, ContentAt(w.disk.config.value, r)}
  {
    FetchedIsPartial(w, template, run);
    ConfigPathOnto(id, w.disk.config, w, template, run, r);
    ConfigPathPulled(id, w, template, run, r);
    hide ConfigLayer, ConfigOnto, MediaOnto, Layered, Fetched, Partial, WalkShaped;
    var onto, clean := ConfigOnto(id, w.disk.config, run), ConfigLayer(id, run);
    assert r in onto.tree;
  }

  // ── The manifest a pull seeds ─────────────────────────────────────────────

  /** Every kept object is tracked. */
  ghost predicate Tracked(sec: Section, m: Mirror) { forall r :: r in m.remote && sec.Keeps(r) ==> r in m.entries }

  ghost predicate FullyTrue(sec: Section, m: Mirror, tree: Tree, template: map<Rel, Content>) {
    Sound(sec, m, template) && StampsTell(sec, m, tree)
  }

  /** The seeded manifest is sound and complete, and every entry carries the
      stamp of its file. */
  lemma PullSeedsConfig(id: Ids, w: World, template: map<Rel, Content>, run: PullRun)
    requires Fetched(w, template, run) && WalkShaped(w, template)
    ensures var after := Pulled(id, w, run);
      && FullyTrue(id.Config(), after.ConfigMirror(), after.disk.config.value, template)
      && Tracked(id.Config(), after.ConfigMirror())
      && (forall r :: r in ConfigLayer(id, run).entries ==>
            r in ConfigLayer(id, run).tree && SameStamp(Some(ConfigLayer(id, run).entries[r]), ConfigLayer(id, run).tree[r]))
  {
    var after := Pulled(id, w, run);
    var m, l := after.ConfigMirror(), ConfigLayer(id, run);
    forall r
      ensures SoundSlot(id.Config(), m.At(r), r, template)
      ensures Tells(m.At(r), WantedFile(id.Config(), l.tree, r))
      ensures r in m.remote && id.Config().Keeps(r) ==> r in m.entries
      ensures r in l.entries ==> r in l.tree && SameStamp(Some(l.entries[r]), l.tree[r])
    {
      ConfigPathPulled(id, w, template, run, r);
      hide ConfigLayer, MediaLayer, IsSyncedConfigPath;
      assert id.Config().filter(r) <==> IsSyncedConfigPath(r);
      assert m.entries == l.entries && m.remote == w.overlay - run.prunedConfig;
      assert r in run.prunedConfig ==> !IsSyncedConfigPath(r);
      assert m.At(r) == Slot(Get(m.remote, r), Get(l.entries, r));
    }
  }

  lemma PullSeedsMedia(id: Ids, w: World, template: map<Rel, Content>, run: PullRun)
    requires Fetched(w, template, run) && WalkShaped(w, template)
    ensures var after := Pulled(id, w, run);
      && FullyTrue(id.Media(), after.MediaMirror(), after.disk.media.value, map[])
      && Tracked(id.Media(), after.MediaMirror())
      && (forall r :: r in MediaLayer(id, run).entries ==>
            r in MediaLayer(id, run).tree && SameStamp(Some(MediaLayer(id, run).entries[r]), MediaLayer(id, run).tree[r]))
  {
    var after := Pulled(id, w, run);
    var m, l := after.MediaMirror(), MediaLayer(id, run);
    forall r
      ensures SoundSlot(id.Media(), m.At(r), r, map[])
      ensures Tells(m.At(r), WantedFile(id.Media(), l.tree, r))
      ensures r in m.remote && id.Media().Keeps(r) ==> r in m.entries
      ensures r in l.entries ==> r in l.tree && SameStamp(Some(l.entries[r]), l.tree[r])
    {
      MediaPathPulled(id, w, template, run, r);
      hide ConfigLayer, MediaLayer, IsSyncedMediaPath;
      assert id.Media().filter(r) <==> IsSyncedMediaPath(r);
      assert m.entries == l.entries && m.remote == w.media - run.prunedMedia;
      assert r in run.prunedMedia ==> !IsSyncedMediaPath(r);
      assert m.At(r) == Slot(Get(m.remote, r), Get(l.entries, r));
    }
  }

  /** Over an overlooked dir, the same manifest is seeded, and it is as true. */
  lemma PullOntoSeeds(id: Ids, w: World, template: map<Rel, Content>, run: PullRun)
    requires w.disk.Dir? && Fetched(w, template, run) && WalkShaped(w, template)
    ensures var after := PulledOnto(id, w, run);
      && after.ConfigMirror() == Pulled(id, w, run).ConfigMirror() && after.MediaMirror() == Pulled(id, w, run).MediaMirror()
      && StampsTell(id.Config(), after.ConfigMirror(), after.disk.config.value)
      && StampsTell(id.Media(), after.MediaMirror(), after.disk.media.value)
  {
    FetchedIsPartial(w, template, run);
    PullSeedsConfig(id, w, template, run);
    PullSeedsMedia(id, w, template, run);
    var config, cleanConfig := ConfigOnto(id, w.disk.config, run), ConfigLayer(id, run);
    var media, cleanMedia := MediaOnto(id, w.disk.media, run), MediaLayer(id, run);
    forall r
      ensures Get(config.entries, r) == Get(cleanConfig.entries, r) && (r in cleanConfig.tree ==> Get(config.tree, r) == Get(cleanConfig.tree, r))
      ensures Get(media.entries, r) == Get(cleanMedia.entries, r) && (r in cleanMedia.tree ==> Get(media.tree, r) == Get(cleanMedia.tree, r))
    {
      ConfigPathOnto(id, w.disk.config, w, template, run, r);
      MediaPathOnto(id, w.disk.media, w, template, run, r);
    }
    SameMap(config.entries, cleanConfig.entries);
    SameMap(media.entries, cleanMedia.entries);
    var after, clean := PulledOnto(id, w, run), Pulled(id, w, run);
    assert after.disk.config.value == config.tree && after.disk.media.value == media.tree;
    assert clean.disk.config.value == cleanConfig.tree && clean.disk.media.value == cleanMedia.tree;
    hide ConfigOnto, MediaOnto, ConfigLayer, MediaLayer, Fetched, Partial, WalkShaped, Sound, Tracked;
    assert after.ConfigMirror() == clean.ConfigMirror() && after.MediaMirror() == clean.MediaMirror();
    SeededStampsTell(id.Config(), clean.ConfigMirror(), cleanConfig.tree, config.tree);
    SeededStampsTell(id.Media(), clean.MediaMirror(), cleanMedia.tree, media.tree);
  }

  lemma SeededStampsTell(sec: Section, m: Mirror, clean: Tree, onto: Tree)
    requires StampsTell(sec, m, clean)
    requires forall r :: r in m.entries ==> r in clean
    requires forall r :: r in clean ==> Get(onto, r) == Get(clean, r)
    ensures StampsTell(sec, m, onto)
  {
    forall r ensures Tells(m.At(r), WantedFile(sec, onto, r)) {
      assert Tells(m.At(r), WantedFile(sec, clean, r));
    }
  }

  /** S3 holds no key longer than it accepts. */
  ghost predicate LegalKeys(id: Ids, w: World) {
    (forall r :: r in w.overlay ==> Utf8Length(id.ConfigPrefix() + r) <= MAX_KEY_BYTES) &&
    (forall r :: r in w.media ==> Utf8Length(id.MediaPrefix() + r) <= MAX_KEY_BYTES)
  }

  lemma IdleSide(sec: Section, m: Mirror, tree: Tree, f: Faults)
    requires forall r :: r in Wanted(sec, tree) ==> SameStamp(m.At(r).entry, tree[r])
    requires Gone(sec, m, tree) == {}
    ensures Sync(sec, m, tree, true, f).remote == m.remote
    ensures var s := Stats(sec, m, tree, true, f); s.uploaded == 0 && s.deleted == 0 && s.failed == 0
  {
    hide Sync, SameStamp, Met;
    OnlyStampSkips(sec, m, tree, f, Upload);
    OnlyStampSkips(sec, m, tree, f, Unreadable);
    OnlyStampSkips(sec, m, tree, f, Rejected);
    forall r ensures Sync(sec, m, tree, true, f).At(r).remote == m.At(r).remote { IdlePath(sec, m, tree, f, r); }
    SameRemote(Sync(sec, m, tree, true, f), m);
  }

  lemma IdlePath(sec: Section, m: Mirror, tree: Tree, f: Faults, r: Rel)
    requires r in Wanted(sec, tree) ==> SameStamp(m.At(r).entry, tree[r])
    requires r !in Gone(sec, m, tree)
    ensures Sync(sec, m, tree, true, f).At(r).remote == m.At(r).remote
  {
    EntryAfter(sec, m, tree, true, f, r);
    hide Sync;
  }

  lemma SameRemote(a: Mirror, b: Mirror)
    requires forall r :: a.At(r).remote == b.At(r).remote
    ensures a.remote == b.remote
  {
    forall r ensures Get(a.remote, r) == Get(b.remote, r) { assert a.At(r).remote == b.At(r).remote; }
    SameMap(a.remote, b.remote);
  }

  lemma SeededConfigIsIdle(id: Ids, w: World, template: map<Rel, Content>, run: PullRun, f: Faults)
    requires Fetched(w, template, run) && WalkShaped(w, template) && LegalKeys(id, w)
    ensures var after := Pulled(id, w, run);
      && SyncSide(id.Config(), after.ConfigMirror(), after.disk.config, true, f).remote == after.overlay
      && SideFailed(id.Config(), after.ConfigMirror(), after.disk.config, true, f) == 0
  {
    var after := Pulled(id, w, run);
    var m, l := after.ConfigMirror(), ConfigLayer(id, run);
    PullSeedsConfig(id, w, template, run);
    forall r
      ensures r in Wanted(id.Config(), l.tree) ==> SameStamp(m.At(r).entry, l.tree[r])
      ensures r !in Gone(id.Config(), m, l.tree)
    {
      ConfigPathPulled(id, w, template, run, r);
      hide ConfigLayer, MediaLayer, IsSyncedConfigPath, Sound, StampsTell, Tracked, Utf8Length, DownloadAll;
      assert id.Config().filter(r) <==> IsSyncedConfigPath(r);
      assert m.entries == l.entries;
    }
    assert Gone(id.Config(), m, l.tree) == {};
    hide Sync, Stats, ConfigLayer, MediaLayer, Sound, StampsTell, Tracked, Fetched, WalkShaped, LegalKeys;
    IdleSide(id.Config(), m, l.tree, f);
  }

  lemma SeededMediaIsIdle(id: Ids, w: World, template: map<Rel, Content>, run: PullRun, f: Faults)
    requires Fetched(w, template, run) && WalkShaped(w, template) && LegalKeys(id, w)
    ensures var after := Pulled(id, w, run);
      && SyncSide(id.Media(), after.MediaMirror(), after.disk.media, true, f).remote == after.media
      && SideFailed(id.Media(), after.MediaMirror(), after.disk.media, true, f) == 0
  {
    var after := Pulled(id, w, run);
    var m, l := after.MediaMirror(), MediaLayer(id, run);
    PullSeedsMedia(id, w, template, run);
    forall r
      ensures r in Wanted(id.Media(), l.tree) ==> SameStamp(m.At(r).entry, l.tree[r])
      ensures r !in Gone(id.Media(), m, l.tree)
    {
      MediaPathPulled(id, w, template, run, r);
      hide ConfigLayer, MediaLayer, IsSyncedMediaPath, Sound, StampsTell, Tracked, Utf8Length, DownloadAll;
      assert id.Media().filter(r) <==> IsSyncedMediaPath(r);
      assert m.entries == l.entries;
    }
    assert Gone(id.Media(), m, l.tree) == {};
    hide Sync, Stats, ConfigLayer, MediaLayer, Sound, StampsTell, Tracked, Fetched, WalkShaped, LegalKeys;
    IdleSide(id.Media(), m, l.tree, f);
  }

  /** A push right after a completed pull uploads, deletes and fails nothing. */
  lemma PushAfterPullIsIdle(id: Ids, w: World, template: map<Rel, Content>, run: PullRun, pf: PushFaults)
    requires Fetched(w, template, run) && WalkShaped(w, template) && LegalKeys(id, w)
    requires !pf.configWalk && !pf.mediaWalk
    ensures var after := Pulled(id, w, run);
      var p := PushOnce(id, after, true, pf);
      p.ok && p.world.overlay == after.overlay && p.world.media == after.media && SameFiles(after, p.world)
  {
    hide ConfigLayer, MediaLayer, Fetched, WalkShaped, LegalKeys, Sync, Stats;
    SeededConfigIsIdle(id, w, template, run, pf.config);
    SeededMediaIsIdle(id, w, template, run, pf.media);
  }
}
