// The plan's template under the user's own config: who wins on the next start,
// what the plan always keeps, and what a pull that throws midway costs.
module TemplateLayer {
  import opened Text
  import opened SyncPolicy
  import opened ObjectStore
  import opened SyncSection
  import opened SyncProofs
  import opened Push
  import opened Pull
  import opened SyncGuarantees

  // ── A changed template reaches the files the user never edited ────────────

  /** The manifest marks the path as the template's and the file still has the
      template's content. */
  predicate FollowsTemplate(slot: Slot, content: Content) {
    slot.entry.Some? && slot.entry.value.source.Template? && slot.entry.value.hash == Digest(content)
  }

  /** A run that handled the file leaves it out of S3 exactly when it still
      follows the template. */
  lemma EditedGoesToS3(sec: Section, slot: Slot, file: LocalFile, rel: Rel, f: Faults, template: map<Rel, Content>)
    requires sec.hashContent && SoundSlot(sec, slot, rel, template) && Tells(slot, Some(file))
    requires var v := Decide(sec, slot.entry, file, rel, f); v != Unreadable && v != Rejected
    ensures UploadSlot(sec, slot, file, rel, f).remote ==
      if FollowsTemplate(slot, file.content) then None else Some(file.content)
  {
  }

  /** The config dir as a push sees it. */
  function SeenConfig(w: World, pf: PushFaults): Option<Tree> { w.disk.Seen(pf.unseen).Configs() }

  lemma ConfigSideSucceeded(id: Ids, w: World, deletes: bool, pf: PushFaults)
    requires w.disk.Dir? && PushOnce(id, w, deletes, pf).ok
    ensures SideFailed(id.Config(), w.ConfigMirror(), SeenConfig(w, pf), deletes, pf.config) == 0
    ensures PushOnce(id, w, deletes, pf).world.overlay ==
      SyncSide(id.Config(), w.ConfigMirror(), SeenConfig(w, pf), deletes, pf.config).remote
  {
    hide Sync, Stats;
  }

  /** What a successful full push that sees the config dir leaves in the overlay
      under a kept path. */
  lemma OverlayAfterPush(id: Ids, w: World, pf: PushFaults, template: map<Rel, Content>, r: Rel)
    requires w.disk.Dir? && SeenConfig(w, pf).Some? && PushOnce(id, w, true, pf).ok
    requires FullyTrue(id.Config(), w.ConfigMirror(), SeenConfig(w, pf).value, template)
    requires Accounted(id.Config(), w.ConfigMirror(), SeenConfig(w, pf).value) && id.Config().Keeps(r)
    ensures var files := SeenConfig(w, pf).value;
      Get(PushOnce(id, w, true, pf).world.overlay, r) ==
        if r !in files || FollowsTemplate(w.ConfigMirror().At(r), files[r].content) then None else Some(files[r].content)
  {
    var sec, m, files := id.Config(), w.ConfigMirror(), SeenConfig(w, pf).value;
    ConfigSideSucceeded(id, w, true, pf);
    NothingFailed(sec, m, files, true, pf.config);
    hide PushOnce, Sync, Stats;
    var after := Sync(sec, m, files, true, pf.config);
    EntryAfter(sec, m, files, true, pf.config, r);
    assert after.At(r).remote == Get(after.remote, r);
    assert SoundSlot(sec, m.At(r), r, template) && Tells(m.At(r), WantedFile(sec, files, r));
    if r in files {
      EditedGoesToS3(sec, m.At(r), files[r], r, pf.config, template);
    } else {
      PathMirrored(sec, m, files, pf.config, template, r);
    }
  }

  /** On the start after a successful push, a kept path has the user's content
      when the user made it their own, and otherwise whatever the template says
      by then: changed, new or gone. */
  lemma NextPullFollows(id: Ids, w: World, pf: PushFaults, template: map<Rel, Content>, next: map<Rel, Content>,
                        run: PullRun, r: Rel)
    requires w.disk.Dir? && SeenConfig(w, pf).Some? && PushOnce(id, w, true, pf).ok
    requires FullyTrue(id.Config(), w.ConfigMirror(), SeenConfig(w, pf).value, template)
    requires Accounted(id.Config(), w.ConfigMirror(), SeenConfig(w, pf).value) && id.Config().Keeps(r)
    requires var saved := PushOnce(id, w, true, pf).world; Fetched(saved, next, run) && WalkShaped(saved, next)
    ensures var files, saved := SeenConfig(w, pf).value, PushOnce(id, w, true, pf).world;
      ContentAt(Pulled(id, saved, run).disk.config.value, r) ==
        if r in files && !FollowsTemplate(w.ConfigMirror().At(r), files[r].content) then Some(files[r].content)
        else Get(next, r)
  {
    var saved := PushOnce(id, w, true, pf).world;
    OverlayAfterPush(id, w, pf, template, r);
    ConfigPathPulled(id, saved, next, run, r);
    assert id.Config().filter(r);
    KeptNotPlugin(r);
    hide PushOnce, IsSyncedConfigPath, ConfigLayer, MediaLayer, Fetched, WalkShaped, FullyTrue, Accounted, FollowsTemplate;
  }

  /** From one pull to the next: a file is the user's own exactly when the
      overlay already had it or its content is no longer the template's. */
  lemma EditedFilesStay(id: Ids, w: World, template: map<Rel, Content>, first: PullRun, files: Tree, pf: PushFaults,
                        next: map<Rel, Content>, run: PullRun, r: Rel)
    requires Fetched(w, template, first) && WalkShaped(w, template) && id.Config().Keeps(r)
    requires StampsTell(id.Config(), Pulled(id, w, first).ConfigMirror(), files)
    requires var edited := Edited(Pulled(id, w, first), files);
      && SeenConfig(edited, pf).Some? && PushOnce(id, edited, true, pf).ok
      && Fetched(PushOnce(id, edited, true, pf).world, next, run) && WalkShaped(PushOnce(id, edited, true, pf).world, next)
    ensures var saved := PushOnce(id, Edited(Pulled(id, w, first), files), true, pf).world;
      ContentAt(Pulled(id, saved, run).disk.config.value, r) ==
        if r in files && (r in w.overlay || Get(template, r) != Some(files[r].content)) then Some(files[r].content)
        else Get(next, r)
  {
    var after := Pulled(id, w, first);
    var edited := Edited(after, files);
    PullSeedsConfig(id, w, template, first);
    assert edited.ConfigMirror() == after.ConfigMirror();
    SeededSlot(id, w, template, first, r);
    hide PushOnce, Pulled, Fetched, WalkShaped, ConfigLayer, MediaLayer, IsSyncedConfigPath, Sound, StampsTell;
    NextPullFollows(id, edited, pf, template, next, run, r);
  }

  function Edited(w: World, files: Tree): World
    requires w.disk.Dir?
  {
    w.(disk := w.disk.(config := Some(files)))
  }

  /** The entry a pull seeds for a kept path. */
  lemma SeededSlot(id: Ids, w: World, template: map<Rel, Content>, run: PullRun, r: Rel)
    requires Fetched(w, template, run) && WalkShaped(w, template) && id.Config().Keeps(r)
    ensures forall content :: FollowsTemplate(Pulled(id, w, run).ConfigMirror().At(r), content) <==>
      r !in w.overlay && Get(template, r) == Some(content)
  {
    ConfigPathPulled(id, w, template, run, r);
    assert id.Config().filter(r);
    KeptNotPlugin(r);
    hide ConfigLayer, MediaLayer, IsSyncedConfigPath, Fetched, WalkShaped;
  }

  // ── What the plan owns ────────────────────────────────────────────────────

  lemma ProfilesNotKept(r: Rel)
    requires InProfiles(r)
    ensures !IsSyncedConfigPath(r) && !IsPluginPath(r)
  {
    if "basic/profiles/" <= r {
      PlanOwnedNeverSynced(r);
      NotBoth(r, "basic/profiles/", "plugins/", 0);
    } else {
      assert r[0] == 'b' && r[6] == 'p';
    }
  }

  lemma SyncOnlyShrinksUnkept(id: Ids, w: World, tree: Tree, deletes: bool, f: Faults, r: Rel)
    requires w.disk.Dir? && !IsSyncedConfigPath(r)
    ensures var after := Sync(id.Config(), w.ConfigMirror(), tree, deletes, f).remote;
      Get(after, r) == Get(w.overlay, r) || Get(after, r) == None
  {
    var sec, m := id.Config(), w.ConfigMirror();
    assert !sec.filter(r) && m.At(r).remote == Get(w.overlay, r);
    EntryAfter(sec, m, tree, deletes, f, r);
    hide Sync, IsSyncedConfigPath;
    var after := Sync(sec, m, tree, deletes, f);
    assert after.At(r).remote == Get(after.remote, r);
  }

  /** A push adds or changes no key the policy does not keep: such keys only go. */
  lemma PushOnlyShrinksUnkept(id: Ids, w: World, deletes: bool, pf: PushFaults, r: Rel)
    requires w.disk.Dir? && !IsSyncedConfigPath(r)
    ensures var after := PushOnce(id, w, deletes, pf).world;
      Get(after.overlay, r) == Get(w.overlay, r) || Get(after.overlay, r) == None
  {
    hide Sync, Stats, IsSyncedConfigPath;
    if w.disk.config.Some? {
      SyncOnlyShrinksUnkept(id, w, w.disk.config.value, deletes, pf.config, r);
    }
  }

  /** After a completed pull, basic/profiles is exactly the template's. */
  lemma ProfilesAreTheTemplates(id: Ids, w: World, template: map<Rel, Content>, run: PullRun, r: Rel)
    requires Fetched(w, template, run) && WalkShaped(w, template) && InProfiles(r)
    ensures ContentAt(Pulled(id, w, run).disk.config.value, r) == Get(template, r)
  {
    ConfigPathPulled(id, w, template, run, r);
    ProfilesNotKept(r);
    hide ConfigLayer, MediaLayer;
  }

  function FileAt(tree: Option<Tree>, r: Rel): Option<LocalFile> { if tree.Some? then Get(tree.value, r) else None }

  /** On the leftover branch, whatever is below basic/profiles afterwards came from
      the template, or is a file a wipe that threw has left; everything else in the
      dir is left alone. */
  lemma LeftoverProfiles(id: Ids, w: World, objs: seq<Object>, wipe: Wipe, template: map<Rel, Content>, r: Rel)
    requires w.disk.Dir? && Profiles(objs, template) && AllCanonical(WithoutPlugins(template))
    ensures var after := FileAt(Reprofiled(id, w, objs, wipe).disk.config, r);
      && (InProfiles(r) && wipe.Wiped? && after.Some? ==> Get(template, r) == Some(after.value.content))
      && (InProfiles(r) && wipe.Stuck? ==> after == if r in wipe.left then FileAt(w.disk.config, r) else None)
      && (!InProfiles(r) ==> after == FileAt(w.disk.config, r))
  {
    if wipe.Wiped? { WipedProfiles(id, w, objs, template, r); }
  }

  /** So the instance starts with none but the template's profiles exactly when
      the wipe left no file below basic/profiles that is not one of them. */
  lemma LeftoverProfilesExactlyWhen(id: Ids, w: World, objs: seq<Object>, wipe: Wipe, template: map<Rel, Content>)
    requires w.disk.Dir? && Profiles(objs, template) && AllCanonical(WithoutPlugins(template))
    ensures (forall r :: InProfiles(r) ==> Follows(FileAt(Reprofiled(id, w, objs, wipe).disk.config, r), template, r)) <==>
      (wipe.Stuck? ==> forall r :: InProfiles(r) && r in wipe.left ==> Follows(FileAt(w.disk.config, r), template, r))
  {
    forall r
      ensures InProfiles(r) ==>
        (Follows(FileAt(Reprofiled(id, w, objs, wipe).disk.config, r), template, r) <==>
         (wipe.Stuck? && r in wipe.left ==> Follows(FileAt(w.disk.config, r), template, r)))
    {
      LeftoverProfiles(id, w, objs, wipe, template, r);
      hide Reprofiled, Profiles, AllCanonical;
    }
    hide Reprofiled, FileAt, InProfiles, Profiles, AllCanonical;
  }

  /** No file, or the template's. */
  predicate Follows(file: Option<LocalFile>, template: map<Rel, Content>, r: Rel) {
    file.Some? ==> Get(template, r) == Some(file.value.content)
  }

  lemma WipedProfiles(id: Ids, w: World, objs: seq<Object>, template: map<Rel, Content>, r: Rel)
    requires w.disk.Dir? && Profiles(objs, template) && AllCanonical(WithoutPlugins(template))
    ensures var after := FileAt(Reprofiled(id, w, objs, Wiped).disk.config, r);
      && (InProfiles(r) && after.Some? ==> Get(template, r) == Some(after.value.content))
      && (!InProfiles(r) ==> after == FileAt(w.disk.config, r))
  {
    forall o | o in objs ensures Canonical(o.rel) && InProfiles(o.rel) {
      ProfilesNotKept(o.rel);
      assert o.rel in WithoutPlugins(template);
    }
    var left := if w.disk.config.Some? then WithoutProfiles(w.disk.config.value) else map[];
    DownloadedAt(Layer(left, map[]), id.ConfigDir(), objs, UNRECORDED, r);
    hide DownloadAll, Canonical;
    var tree := DownloadAll(Layer(left, map[]), id.ConfigDir(), objs, UNRECORDED).tree;
    if tree == map[] { assert Get(tree, r) == None; }
  }

  /** Where a pull that threw leaves one config path: some object it had fetched. */
  lemma ThrownPath(id: Ids, w: World, template: map<Rel, Content>, run: PullRun, madeMediaDir: bool, r: Rel)
    requires Partial(w, template, run) && WalkShaped(w, template)
    ensures var tree := ThrownPull(id, w, run, madeMediaDir).disk.config.value;
      r in tree ==>
        && Canonical(r)
        && Some(tree[r].content) in {Get(WithoutPlugins(template), r), Get(Kept(IsSyncedConfigPath, w.overlay), r)}
  {
    forall o | o in run.template ensures Canonical(o.rel) { assert o.rel in WithoutPlugins(template); }
    forall o | o in run.overlay ensures Canonical(o.rel) { assert o.rel in Kept(IsSyncedConfigPath, w.overlay); }
    var first := DownloadAll(NOTHING, id.ConfigDir(), run.template, FROM_TEMPLATE);
    DownloadedAt(NOTHING, id.ConfigDir(), run.template, FROM_TEMPLATE, r);
    DownloadedAt(first, id.ConfigDir(), run.overlay, FROM_OVERLAY, r);
    hide DownloadAll, IsSyncedConfigPath, Canonical, WithoutPlugins, Kept;
  }

  lemma ThrownMediaPath(id: Ids, w: World, template: map<Rel, Content>, run: PullRun, r: Rel)
    requires Partial(w, template, run) && WalkShaped(w, template)
    ensures r in MediaLayer(id, run).tree ==> Canonical(r)
  {
    forall o | o in run.media ensures Canonical(o.rel) { assert o.rel in Kept(IsSyncedMediaPath, w.media); }
    DownloadedAt(NOTHING, id.MediaDir(), run.media, FROM_MEDIA, r);
    hide DownloadAll, IsSyncedMediaPath, Canonical, Kept;
  }

  /** Even a pull that throws leaves nothing but the template's below basic/profiles. */
  lemma ThrownProfiles(id: Ids, w: World, template: map<Rel, Content>, run: PullRun, madeMediaDir: bool, r: Rel)
    requires Partial(w, template, run) && WalkShaped(w, template) && InProfiles(r)
    ensures var tree := ThrownPull(id, w, run, madeMediaDir).disk.config.value;
      r in tree ==> Get(template, r) == Some(tree[r].content)
  {
    ThrownPath(id, w, template, run, madeMediaDir, r);
    ProfilesNotKept(r);
    hide ThrownPull;
  }

  // ── A pull that throws midway ─────────────────────────────────────────────

  /** What the next push makes of a dir without a manifest: every kept file goes
      up as it is, and nothing is deleted. */
  lemma PushWithoutManifest(id: Ids, w: World, deletes: bool, pf: PushFaults, r: Rel)
    requires w.disk.Dir? && w.disk.saved.None?
    requires PushOnce(id, w, deletes, pf).ok && id.Config().Keeps(r)
    ensures Get(PushOnce(id, w, deletes, pf).world.overlay, r) ==
      if SeenConfig(w, pf).Some? && r in SeenConfig(w, pf).value then Some(SeenConfig(w, pf).value[r].content)
      else Get(w.overlay, r)
  {
    ConfigSideSucceeded(id, w, deletes, pf);
    if SeenConfig(w, pf).None? { return; }
    var sec, m, files := id.Config(), w.ConfigMirror(), SeenConfig(w, pf).value;
    NothingFailed(sec, m, files, deletes, pf.config);
    hide PushOnce, Sync, Stats;
    var after := Sync(sec, m, files, deletes, pf.config);
    EntryAfter(sec, m, files, deletes, pf.config, r);
    assert after.At(r).remote == Get(after.remote, r);
    assert m.At(r) == Slot(Get(w.overlay, r), None);
  }

  /** For one tree that arrived: what it overwrites in the overlay. */
  lemma ArrivedTreeKeepsOverlay(id: Ids, w: World, run: PullRun, madeMediaDir: bool, deletes: bool, pf: PushFaults)
    requires PushOnce(id, ThrownPull(id, w, run, madeMediaDir), deletes, pf).ok && LegalKeys(id, w)
    requires forall r :: r in run.prunedConfig ==> !IsSyncedConfigPath(r)
    ensures var after := PushOnce(id, ThrownPull(id, w, run, madeMediaDir), deletes, pf).world;
      var tree := ConfigLayer(id, run).tree;
      OverlaySurvives(w, after)
      <==> pf.unseen.dir || pf.unseen.config
           || (forall r :: IsSyncedConfigPath(r) && r in w.overlay && r in tree ==> tree[r].content == w.overlay[r])
  {
    hide IsSyncedConfigPath, ConfigLayer, MediaLayer, PushOnce, ThrownPull;
    forall r | IsSyncedConfigPath(r) && r in w.overlay
      ensures Get(PushOnce(id, ThrownPull(id, w, run, madeMediaDir), deletes, pf).world.overlay, r) ==
        if !pf.unseen.dir && !pf.unseen.config && r in ConfigLayer(id, run).tree then Some(ConfigLayer(id, run).tree[r].content) else Some(w.overlay[r])
    {
      PathAfterThrownPull(id, w, run, madeMediaDir, deletes, pf, r);
    }
  }

  lemma PathAfterThrownPull(id: Ids, w: World, run: PullRun, madeMediaDir: bool, deletes: bool, pf: PushFaults, r: Rel)
    requires PushOnce(id, ThrownPull(id, w, run, madeMediaDir), deletes, pf).ok
    requires IsSyncedConfigPath(r) && r in w.overlay && r !in run.prunedConfig && LegalKeys(id, w)
    ensures Get(PushOnce(id, ThrownPull(id, w, run, madeMediaDir), deletes, pf).world.overlay, r) ==
      if !pf.unseen.dir && !pf.unseen.config && r in ConfigLayer(id, run).tree then Some(ConfigLayer(id, run).tree[r].content) else Some(w.overlay[r])
  {
    assert id.Config().Keeps(r);
    PushWithoutManifest(id, ThrownPull(id, w, run, madeMediaDir), deletes, pf, r);
    hide PushOnce, IsSyncedConfigPath, ConfigLayer, MediaLayer;
  }

  /** The kept overlay is still there, content for content. */
  ghost predicate OverlaySurvives(before: World, after: World) {
    forall r :: IsSyncedConfigPath(r) && r in before.overlay ==> Get(after.overlay, r) == Some(before.overlay[r])
  }

  /** Wherever the pull throws, and whatever the next successful push does. */
  ghost predicate SurvivesAnyThrow(id: Ids, w: World, template: map<Rel, Content>) {
    forall run, madeMediaDir, deletes, pf ::
      Partial(w, template, run) && PrunesUnkept(run) && PushOnce(id, ThrownPull(id, w, run, madeMediaDir), deletes, pf).ok ==>
        OverlaySurvives(w, PushOnce(id, ThrownPull(id, w, run, madeMediaDir), deletes, pf).world)
  }

  ghost predicate PrunesUnkept(run: PullRun) { forall r :: r in run.prunedConfig ==> !IsSyncedConfigPath(r) }

  /** No file of the template has a key the overlay holds with other content. */
  ghost predicate NoOverride(w: World, template: map<Rel, Content>) {
    forall r :: IsSyncedConfigPath(r) && r in w.overlay && r in WithoutPlugins(template) ==> template[r] == w.overlay[r]
  }

  /** An instance that starts from the partial dir of a pull that threw may lose
      saved config at its next push. Before the pull: no throw can cost anything
      if and only if the user overrides no file of the template. */
  lemma ThrownPullKeepsOverlay(id: Ids, w: World, template: map<Rel, Content>)
    requires LegalKeys(id, w) && WalkShaped(w, template)
    ensures SurvivesAnyThrow(id, w, template) <==> NoOverride(w, template)
  {
    hide IsSyncedConfigPath, ConfigLayer, MediaLayer, PushOnce, LegalKeys, WalkShaped;
    if NoOverride(w, template) {
      forall run, madeMediaDir, deletes, pf |
        Partial(w, template, run) && PrunesUnkept(run) && PushOnce(id, ThrownPull(id, w, run, madeMediaDir), deletes, pf).ok
        ensures OverlaySurvives(w, PushOnce(id, ThrownPull(id, w, run, madeMediaDir), deletes, pf).world)
      {
        WithoutOverrideSurvives(id, w, template, run, madeMediaDir, deletes, pf);
      }
    } else {
      var r :| IsSyncedConfigPath(r) && r in w.overlay && r in WithoutPlugins(template) && template[r] != w.overlay[r];
      var run, pf := OverrideIsLost(id, w, template, r);
    }
  }

  lemma WithoutOverrideSurvives(id: Ids, w: World, template: map<Rel, Content>, run: PullRun, madeMediaDir: bool,
                                deletes: bool, pf: PushFaults)
    requires LegalKeys(id, w) && WalkShaped(w, template) && NoOverride(w, template)
    requires Partial(w, template, run) && PrunesUnkept(run)
    requires PushOnce(id, ThrownPull(id, w, run, madeMediaDir), deletes, pf).ok
    ensures OverlaySurvives(w, PushOnce(id, ThrownPull(id, w, run, madeMediaDir), deletes, pf).world)
  {
    hide IsSyncedConfigPath, ConfigLayer, MediaLayer, PushOnce, LegalKeys, WalkShaped, OverlaySurvives, Partial;
    ArrivedTreeKeepsOverlay(id, w, run, madeMediaDir, deletes, pf);
    forall r | IsSyncedConfigPath(r) && r in w.overlay && r in ConfigLayer(id, run).tree
      ensures ConfigLayer(id, run).tree[r].content == w.overlay[r]
    {
      ThrownPath(id, w, template, run, madeMediaDir, r);
    }
  }

  /** The pull throws after the one file the user overrode; the push works. */
  lemma OverrideIsLost(id: Ids, w: World, template: map<Rel, Content>, r: Rel) returns (run: PullRun, pf: PushFaults)
    requires LegalKeys(id, w) && WalkShaped(w, template)
    requires IsSyncedConfigPath(r) && r in w.overlay && r in WithoutPlugins(template) && template[r] != w.overlay[r]
    ensures Partial(w, template, run) && PrunesUnkept(run)
    ensures var p := PushOnce(id, ThrownPull(id, w, run, false), false, pf); p.ok && !OverlaySurvives(w, p.world)
  {
    run := OneFileRun(w, template, r);
    OneFileArrived(id, run, r);
    hide ConfigLayer, MediaLayer, WithoutPlugins, WalkShaped, Partial, PrunesUnkept;
    pf := CleanFaults(id, ThrownPull(id, w, run, false));
    hide PushOnce, ThrownPull, IsSyncedConfigPath;
    PathAfterThrownPull(id, w, run, false, false, pf, r);
  }

  lemma OneFileRun(w: World, template: map<Rel, Content>, r: Rel) returns (run: PullRun)
    requires WalkShaped(w, template) && r in WithoutPlugins(template)
    ensures Partial(w, template, run) && PrunesUnkept(run) && run.prunedConfig == {}
    ensures run.overlay == [] && |run.template| == 1 && run.template[0] == Object(r, template[r], 0) && Canonical(r)
  {
    var none := Faults({}, {}, {}, false);
    run := PullRun(false, PushFaults(ALL_SEEN, false, none, false, none), false, Wiped, [Object(r, template[r], 0)], [], [], {}, {});
    hide Canonical, IsSyncedConfigPath, IsSyncedMediaPath;
  }

  lemma OneFileArrived(id: Ids, run: PullRun, r: Rel)
    requires |run.template| == 1 && run.template[0].rel == r && run.overlay == [] && Canonical(r)
    ensures ContentAt(ConfigLayer(id, run).tree, r) == Some(run.template[0].content)
  {
    DownloadedAt(NOTHING, id.ConfigDir(), run.template, FROM_TEMPLATE, r);
    hide Canonical, IsSyncedConfigPath;
  }

  lemma CleanFaults(id: Ids, w: World) returns (pf: PushFaults)
    requires w.disk.Dir? && w.disk.config.Some? && w.disk.media.None?
    ensures PushOnce(id, w, false, pf).ok && pf.unseen == ALL_SEEN
  {
    var none := Faults({}, {}, {}, false);
    pf := PushFaults(ALL_SEEN, false, NoFaults(id.Config(), w.ConfigMirror(), w.disk.config.value), false, none);
    CleanRunSucceeds(id.Config(), w.ConfigMirror(), w.disk.config.value, false);
    hide Sync, Stats;
  }

  /** The loss, once: the template arrived, the overlay did not, and the next
      successful push replaces the user's file in S3 by the template's. */
  lemma ThrownPullLosesOverlay(id: Ids, w: World, template: map<Rel, Content>, run: PullRun, madeMediaDir: bool,
                               deletes: bool, pf: PushFaults, r: Rel)
    requires Lists(run.template, WithoutPlugins(template)) && run.overlay == [] && AllCanonical(WithoutPlugins(template))
    requires !pf.unseen.dir && !pf.unseen.config
    requires id.Config().Keeps(r) && r in template && r in w.overlay && template[r] != w.overlay[r]
    requires PushOnce(id, ThrownPull(id, w, run, madeMediaDir), deletes, pf).ok
    ensures Get(PushOnce(id, ThrownPull(id, w, run, madeMediaDir), deletes, pf).world.overlay, r) == Some(template[r])
  {
    assert id.Config().filter(r);
    KeptNotPlugin(r);
    forall o | o in run.template ensures Canonical(o.rel) { assert o.rel in WithoutPlugins(template); }
    DownloadedAt(NOTHING, id.ConfigDir(), run.template, FROM_TEMPLATE, r);
    assert r in WithoutPlugins(template);
    hide Canonical, IsSyncedConfigPath;
    PushWithoutManifest(id, ThrownPull(id, w, run, madeMediaDir), deletes, pf, r);
  }
}
