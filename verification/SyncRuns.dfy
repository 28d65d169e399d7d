// Whole histories of one instance's dir and S3 prefixes: any sequence of edits,
// pushes, final pushes, pulls and media operations, with any failures.
module SyncRuns {
  import opened Text
  import opened SyncPolicy
  import opened ObjectStore
  import opened SyncSection
  import opened SyncProofs
  import opened Push
  import opened Pull
  import opened SyncGuarantees
  import opened TemplateLayer
  import Media = MediaSync

  // The world, and the template its last completed pull was based on.
  datatype State = State(w: World, base: map<Rel, Content>)

  datatype Op =
    | Edit(config: Option<Tree>, media: Option<Tree>)
    | PushDir(deletes: bool, pf: PushFaults)
    | FinalPush(tries: seq<PushFaults>, removed: bool)
    | PullDone(template: map<Rel, Content>, run: PullRun)
    | PullLeft(template: map<Rel, Content>, run: PullRun)
    | PullThrew(template: map<Rel, Content>, run: PullRun, madeMediaDir: bool)
    | MediaFile(op: Media.MediaOp)

  function MediaOf(w: World): Media.MediaState
    requires w.disk.Dir? && w.disk.media.Some?
  {
    Media.MediaState(w.MediaMirror(), w.disk.media.value)
  }

  function WithMedia(w: World, s: Media.MediaState): World
    requires w.disk.Dir?
  {
    World(w.disk.(media := Some(s.tree), saved := Some(Manifest(w.disk.Loaded().config, s.m.entries))), w.overlay, s.m.remote)
  }

  /** The operation can happen in this state. */
  ghost predicate Possible(id: Ids, w: World, op: Op) {
    match op
    case Edit(_, _) => w.disk.Dir?
    case PushDir(_, _) => true
    case FinalPush(_, _) => true
    case PullDone(template, run) =>
      var cleared := Cleared(id, w, run);
      cleared.Some? && Fetched(cleared.value, template, run) && AllCanonical(WithoutPlugins(template))
    case PullLeft(template, run) =>
      w.disk.Dir? && Cleared(id, w, run).None? && Profiles(run.template, template) && AllCanonical(WithoutPlugins(template))
    case PullThrew(template, run, _) =>
      var cleared := Cleared(id, w, run);
      cleared.Some? && Partial(cleared.value, template, run) && AllCanonical(WithoutPlugins(template)) && run.prunedMedia == {}
      && OnlyPruned(cleared.value, ThrownOnto(id, cleared.value, run, false), run)
    case MediaFile(_) => w.disk.Dir? && w.disk.media.Some?
  }

  ghost function Next(id: Ids, s: State, op: Op): State
    requires Possible(id, s.w, op)
  {
    match op
    case Edit(config, media) => s.(w := s.w.(disk := s.w.disk.(config := config, media := media)))
    case PushDir(deletes, pf) => s.(w := PushOnce(id, s.w, deletes, pf).world)
    case FinalPush(tries, removed) => s.(w := Persist(id, s.w, tries, removed).world)
    case PullDone(template, run) => State(PulledOnto(id, Cleared(id, s.w, run).value, run), template)
    case PullLeft(_, run) => s.(w := Reprofiled(id, PushedDir(id, s.w, run.push), run.template, run.wipe))
    case PullThrew(_, run, madeMediaDir) => s.(w := ThrownOnto(id, Cleared(id, s.w, run).value, run, madeMediaDir))
    case MediaFile(mop) => s.(w := WithMedia(s.w, Media.Apply(id.Media(), MediaOf(s.w), mop)))
  }

  function PushedDir(id: Ids, w: World, pf: PushFaults): (after: World)
    requires w.disk.Dir?
    ensures after.disk.Dir?
  {
    PushOnce(id, w, true, pf).world
  }

  // ── What the environment has to grant ─────────────────────────────────────

  /** No delete takes effect in a call that throws. */
  predicate PushKeepsTrack(id: Ids, w: World, deletes: bool, pf: PushFaults) {
    w.disk.Dir? ==>
      var seen := w.disk.Seen(pf.unseen);
      && (seen.Configs().Some? ==> LostTrack(id.Config(), w.ConfigMirror(), seen.Configs().value, deletes, pf.config) == {})
      && (seen.Medias().Some? ==> LostTrack(id.Media(), w.MediaMirror(), seen.Medias().value, deletes, pf.media) == {})
  }

  predicate AttemptsKeepTrack(id: Ids, w: World, tries: seq<PushFaults>)
    decreases |tries|
  {
    tries == [] ||
    (PushKeepsTrack(id, w, true, tries[0]) && AttemptsKeepTrack(id, PushOnce(id, w, true, tries[0]).world, tries[1..]))
  }

  /** A changed file gets a new size or mtime. */
  ghost predicate HonestStamps(id: Ids, w: World) {
    w.disk.Dir? ==>
      && (w.disk.config.Some? ==> StampsTell(id.Config(), w.ConfigMirror(), w.disk.config.value))
      && (w.disk.media.Some? ==> StampsTell(id.Media(), w.MediaMirror(), w.disk.media.value))
  }

  ghost predicate Granted(id: Ids, s: State, op: Op)
    requires Possible(id, s.w, op)
  {
    match op
    case Edit(_, _) => HonestStamps(id, Next(id, s, op).w) && WalkedDisk(Next(id, s, op).w.disk)
    case PushDir(deletes, pf) => PushKeepsTrack(id, s.w, deletes, pf)
    case FinalPush(tries, _) => AttemptsKeepTrack(id, s.w, tries)
    case PullDone(_, _) => true
    case PullLeft(_, run) => PushKeepsTrack(id, s.w, true, run.push)
    case PullThrew(_, run, _) => HonestStamps(id, Next(id, s, op).w)
    case MediaFile(mop) =>
      Media.Honest(MediaOf(s.w), mop) && Media.Faithful(id.Media(), MediaOf(s.w), mop) && CanonicalTarget(mop)
  }

  /** The file manager resolves its paths segment by segment. */
  predicate CanonicalTarget(op: Media.MediaOp) {
    match op
    case Add(rel, _, _) => Canonical(rel)
    case Rename(_, to, _, _, _) => Canonical(to)
    case Delete(_, _) => true
  }

  ghost predicate WalkedTree(tree: Option<Tree>) { tree.Some? ==> forall r :: r in tree.value ==> Canonical(r) }

  /** What a walk of the dir yields: canonical paths only. */
  ghost predicate WalkedDisk(disk: Disk) { disk.Dir? ==> WalkedTree(disk.config) && WalkedTree(disk.media) }

  /** The config manifest speaks of kept paths only; a media rename may track a name
      that is not kept. */
  predicate EntriesKept(filter: Rel -> bool, entries: Entries) { forall r :: r in entries ==> filter(r) }

  ghost predicate ManifestKept(disk: Disk) { disk.Dir? ==> EntriesKept(IsSyncedConfigPath, disk.Loaded().config) }

  ghost predicate Shaped(w: World) {
    ManifestKept(w.disk) && WalkedDisk(w.disk) && AllCanonical(Kept(IsSyncedConfigPath, w.overlay)) && AllCanonical(Kept(IsSyncedMediaPath, w.media))
  }

  ghost predicate History(id: Ids, s: State, ops: seq<Op>)
    decreases |ops|
  {
    ops == [] || (Possible(id, s.w, ops[0]) && History(id, Next(id, s, ops[0]), ops[1..]))
  }

  ghost predicate AllGranted(id: Ids, s: State, ops: seq<Op>)
    requires History(id, s, ops)
    decreases |ops|
  {
    ops == [] || (Granted(id, s, ops[0]) && AllGranted(id, Next(id, s, ops[0]), ops[1..]))
  }

  ghost function End(id: Ids, s: State, ops: seq<Op>): State
    requires History(id, s, ops)
    decreases |ops|
  {
    if ops == [] then s else End(id, Next(id, s, ops[0]), ops[1..])
  }

  // ── The manifest is sound after any history ───────────────────────────────

  ghost predicate SoundManifest(id: Ids, s: State) {
    s.w.disk.Dir? ==> Sound(id.Config(), s.w.ConfigMirror(), s.base) && Sound(id.Media(), s.w.MediaMirror(), map[])
  }

  ghost predicate True(id: Ids, s: State) {
    SoundManifest(id, s) && HonestStamps(id, s.w) && Shaped(s.w) && AllCanonical(WithoutPlugins(s.base))
  }

  // ── Every key has the shape of a walked path ──────────────────────────────

  lemma SideKeepsShape(sec: Section, m: Mirror, tree: Option<Tree>, deletes: bool, f: Faults)
    requires AllCanonical(Kept(sec.filter, m.remote)) && WalkedTree(tree)
    ensures AllCanonical(Kept(sec.filter, SyncSide(sec, m, tree, deletes, f).remote))
    ensures EntriesKept(sec.filter, m.entries) ==> EntriesKept(sec.filter, SyncSide(sec, m, tree, deletes, f).entries)
  {
    var after := SyncSide(sec, m, tree, deletes, f);
    forall r | r in after.entries ensures r in m.entries || sec.filter(r) {
      if tree.Some? {
        EntryAfter(sec, m, tree.value, deletes, f, r);
        assert after.At(r).entry == Get(after.entries, r);
      }
      hide Sync;
    }
    forall r | r in Kept(sec.filter, after.remote) ensures Canonical(r) {
      if tree.Some? {
        EntryAfter(sec, m, tree.value, deletes, f, r);
        assert after.At(r).remote == Get(after.remote, r);
      }
      hide Sync, Canonical;
      assert r in m.remote ==> r in Kept(sec.filter, m.remote);
    }
  }

  lemma PushKeepsShape(id: Ids, w: World, deletes: bool, pf: PushFaults)
    requires Shaped(w)
    ensures Shaped(PushOnce(id, w, deletes, pf).world)
  {
    hide Sync, Stats, Kept, AllCanonical, EntriesKept;
    var seen := w.disk.Seen(pf.unseen);
    if seen.Dir? {
      SideKeepsShape(id.Config(), w.ConfigMirror(), seen.config, deletes, pf.config);
      SideKeepsShape(id.Media(), w.MediaMirror(), seen.media, deletes, pf.media);
    }
  }

  lemma ClearedKeepsShape(id: Ids, w: World, run: PullRun, template: map<Rel, Content>)
    requires Shaped(w) && Cleared(id, w, run).Some? && AllCanonical(WithoutPlugins(template))
    ensures Shaped(Cleared(id, w, run).value) && WalkShaped(Cleared(id, w, run).value, template)
  {
    PushKeepsShape(id, w, true, run.push);
    hide PushOnce, AllCanonical, Kept, WithoutPlugins;
  }

  lemma PrunedKeepsShape(filter: Rel -> bool, m: map<Rel, Content>, pruned: set<Rel>)
    requires AllCanonical(Kept(filter, m))
    ensures AllCanonical(Kept(filter, m - pruned))
  {
    hide Canonical;
    forall r | r in Kept(filter, m - pruned) ensures Canonical(r) { assert r in Kept(filter, m); }
  }

  lemma PulledKeepsShape(id: Ids, w: World, template: map<Rel, Content>, run: PullRun)
    requires Fetched(w, template, run) && WalkShaped(w, template) && Shaped(w)
    ensures Shaped(PulledOnto(id, w, run))
  {
    PrunedKeepsShape(IsSyncedConfigPath, w.overlay, run.prunedConfig);
    PrunedKeepsShape(IsSyncedMediaPath, w.media, run.prunedMedia);
    FetchedIsPartial(w, template, run);
    LayersKeepShape(id, w, template, run);
    var after := PulledOnto(id, w, run);
    forall r ensures r in after.disk.saved.value.config ==> IsSyncedConfigPath(r) {
      ConfigPathPulled(id, w, template, run, r);
      ConfigPathOnto(id, w.disk.Configs(), w, template, run, r);
      hide ConfigLayer, MediaLayer, ConfigOnto, MediaOnto, Canonical, Layered, IsSyncedConfigPath, IsSyncedMediaPath, Fetched, Partial;
    }
    hide ConfigLayer, MediaLayer, ConfigOnto, MediaOnto, Canonical, AllCanonical, Kept, Fetched, Partial, WalkShaped,
      IsSyncedConfigPath, IsSyncedMediaPath;
  }

  /** Whatever a pull downloads, onto whatever shaped dir. */
  lemma LayersKeepShape(id: Ids, w: World, template: map<Rel, Content>, run: PullRun)
    requires Partial(w, template, run) && WalkShaped(w, template) && WalkedDisk(w.disk)
    ensures forall r :: r in ConfigLayer(id, run).tree || r in ConfigOnto(id, w.disk.Configs(), run).tree ==> Canonical(r)
    ensures forall r :: r in MediaLayer(id, run).tree || r in MediaOnto(id, w.disk.Medias(), run).tree ==> Canonical(r)
  {
    forall r ensures r in ConfigLayer(id, run).tree || r in ConfigOnto(id, w.disk.Configs(), run).tree ==> Canonical(r) {
      ThrownPath(id, w, template, run, false, r);
      ConfigPathOnto(id, w.disk.Configs(), w, template, run, r);
      hide ConfigLayer, MediaLayer, ConfigOnto, MediaOnto, Canonical, Partial, WalkShaped;
    }
    forall r ensures r in MediaLayer(id, run).tree || r in MediaOnto(id, w.disk.Medias(), run).tree ==> Canonical(r) {
      ThrownMediaPath(id, w, template, run, r);
      MediaPathOnto(id, w.disk.Medias(), w, template, run, r);
      hide ConfigLayer, MediaLayer, ConfigOnto, MediaOnto, Canonical, Partial, WalkShaped;
    }
  }

  lemma ReprofiledKeepsShape(id: Ids, w: World, template: map<Rel, Content>, objs: seq<Object>, wipe: Wipe)
    requires w.disk.Dir? && Shaped(w) && Profiles(objs, template) && AllCanonical(WithoutPlugins(template))
    ensures Shaped(Reprofiled(id, w, objs, wipe))
  {
    var after := Reprofiled(id, w, objs, wipe);
    assert after.overlay == w.overlay && after.media == w.media && after.disk.media == w.disk.media;
    assert after.disk.saved == w.disk.saved;
    if after.disk.config.Some? {
      forall r | r in after.disk.config.value ensures Canonical(r) {
        LeftoverProfiles(id, w, objs, wipe, template, r);
        if InProfiles(r) { ProfilesNotKept(r); assert wipe.Wiped? ==> r in WithoutPlugins(template); }
        hide Reprofiled, Profiles, Canonical;
      }
    }
    hide Reprofiled, Canonical, AllCanonical, Kept, EntriesKept;
  }

  lemma ThrownKeepsShape(id: Ids, w: World, template: map<Rel, Content>, run: PullRun, madeMediaDir: bool)
    requires Partial(w, template, run) && WalkShaped(w, template) && Shaped(w)
    ensures Shaped(ThrownOnto(id, w, run, madeMediaDir))
  {
    PrunedKeepsShape(IsSyncedConfigPath, w.overlay, run.prunedConfig);
    PrunedKeepsShape(IsSyncedMediaPath, w.media, run.prunedMedia);
    LayersKeepShape(id, w, template, run);
    hide ConfigLayer, MediaLayer, ConfigOnto, MediaOnto, Canonical, AllCanonical, Kept, Partial, WalkShaped,
      IsSyncedConfigPath, IsSyncedMediaPath;
  }

  lemma MediaFileKeepsShape(id: Ids, w: World, op: Media.MediaOp)
    requires w.disk.Dir? && w.disk.media.Some? && Shaped(w) && CanonicalTarget(op)
    ensures Shaped(WithMedia(w, Media.Apply(id.Media(), MediaOf(w), op)))
  {
    var after := Media.Apply(id.Media(), MediaOf(w), op);
    forall r | r in after.tree ensures Canonical(r) { hide Canonical; }
    forall r | r in Kept(IsSyncedMediaPath, after.m.remote) ensures Canonical(r) {
      hide Canonical, IsSyncedMediaPath;
      assert r in w.media ==> r in Kept(IsSyncedMediaPath, w.media);
    }
    hide Canonical, Media.Apply, IsSyncedMediaPath, IsSyncedConfigPath;
  }

  ghost predicate SideTrue(sec: Section, m: Mirror, tree: Option<Tree>, template: map<Rel, Content>) {
    Sound(sec, m, template) && (tree.Some? ==> StampsTell(sec, m, tree.value))
  }

  lemma SideRunKeepsTrue(sec: Section, m: Mirror, tree: Option<Tree>, seen: Option<Tree>, deletes: bool, f: Faults,
                         template: map<Rel, Content>)
    requires SideTrue(sec, m, tree, template) && seen in {tree, None}
    requires seen.Some? ==> LostTrack(sec, m, seen.value, deletes, f) == {}
    ensures SideTrue(sec, SyncSide(sec, m, seen, deletes, f), tree, template)
  {
    hide Sync;
    if seen.Some? {
      SoundAfterRun(sec, m, seen.value, deletes, f, template);
      StampsStayTrue(sec, m, seen.value, deletes, f, template);
    }
  }

  lemma PushKeepsTrue(id: Ids, s: State, deletes: bool, pf: PushFaults)
    requires True(id, s) && PushKeepsTrack(id, s.w, deletes, pf)
    ensures True(id, s.(w := PushOnce(id, s.w, deletes, pf).world))
  {
    hide Sync, Stats, Sound, StampsTell, LostTrack, Shaped, AllCanonical;
    PushKeepsShape(id, s.w, deletes, pf);
    var seen := s.w.disk.Seen(pf.unseen);
    if seen.Dir? {
      SeenParts(s.w, pf.unseen);
      SideRunKeepsTrue(id.Config(), s.w.ConfigMirror(), s.w.disk.config, seen.config, deletes, pf.config, s.base);
      SideRunKeepsTrue(id.Media(), s.w.MediaMirror(), s.w.disk.media, seen.media, deletes, pf.media, map[]);
    }
  }

  lemma {:induction false} FinalPushKeepsTrue(id: Ids, s: State, tries: seq<PushFaults>, removed: bool)
    requires True(id, s) && AttemptsKeepTrack(id, s.w, tries)
    ensures True(id, s.(w := Persist(id, s.w, tries, removed).world))
    decreases |tries|
  {
    hide PushOnce, PushKeepsTrack, SoundManifest, HonestStamps, AllCanonical, Kept;
    if tries != [] {
      PushKeepsTrue(id, s, true, tries[0]);
      var p := PushOnce(id, s.w, true, tries[0]);
      if p.ok {
        NoDirIsTrue(id, s.(w := p.world.(disk := NoDir)));
      } else {
        FinalPushKeepsTrue(id, s.(w := p.world), tries[1..], removed);
      }
    }
  }

  lemma NoDirIsTrue(id: Ids, s: State)
    requires s.w.disk.NoDir? && Shaped(s.w) && AllCanonical(WithoutPlugins(s.base))
    ensures True(id, s)
  {
  }

  lemma PullDoneIsTrue(id: Ids, w: World, template: map<Rel, Content>, run: PullRun)
    requires Fetched(w, template, run) && WalkShaped(w, template) && Shaped(w)
    ensures True(id, State(PulledOnto(id, w, run), template))
    ensures AllTracked(id, State(PulledOnto(id, w, run), template))
  {
    PullSeedsConfig(id, w, template, run);
    PullSeedsMedia(id, w, template, run);
    PulledKeepsShape(id, w, template, run);
    if w.disk.Dir? { PullOntoSeeds(id, w, template, run); }
    hide Sound, StampsTell, Tracked, Fetched, ConfigLayer, MediaLayer, ConfigOnto, MediaOnto, Shaped, AllCanonical, Kept;
  }

  /** Replacing profiles touches no file the manifest speaks of. */
  lemma ReprofiledIsTrue(id: Ids, s: State, template: map<Rel, Content>, objs: seq<Object>, wipe: Wipe)
    requires s.w.disk.Dir? && True(id, s) && Profiles(objs, template) && AllCanonical(WithoutPlugins(template))
    ensures True(id, s.(w := Reprofiled(id, s.w, objs, wipe)))
  {
    var after := Reprofiled(id, s.w, objs, wipe);
    ReprofiledKeepsShape(id, s.w, template, objs, wipe);
    hide Shaped, AllCanonical;
    assert after.ConfigMirror() == s.w.ConfigMirror() && after.MediaMirror() == s.w.MediaMirror();
    if after.disk.config.Some? {
      var had := if s.w.disk.config.Some? then s.w.disk.config.value else map[];
      forall r ensures Tells(after.ConfigMirror().At(r), WantedFile(id.Config(), after.disk.config.value, r)) {
        LeftoverProfiles(id, s.w, objs, wipe, template, r);
        SameWanted(id, had, after.disk.config.value, r);
        hide Reprofiled, Profiles, IsSyncedConfigPath;
        if s.w.disk.config.Some? { assert Tells(s.w.ConfigMirror().At(r), WantedFile(id.Config(), had, r)); }
      }
    }
  }

  lemma SameWanted(id: Ids, had: Tree, tree: Tree, r: Rel)
    requires !InProfiles(r) ==> Get(tree, r) == Get(had, r)
    ensures WantedFile(id.Config(), tree, r) == WantedFile(id.Config(), had, r)
  {
    if InProfiles(r) { ProfilesNotKept(r); assert !id.Config().filter(r); }
  }

  lemma ThrownIsTrue(id: Ids, s: State, template: map<Rel, Content>, run: PullRun, madeMediaDir: bool)
    requires Partial(s.w, template, run) && WalkShaped(s.w, template) && AllCanonical(WithoutPlugins(s.base))
    requires SoundManifest(id, s) && Shaped(s.w) && run.prunedMedia == {} && OnlyPruned(s.w, ThrownOnto(id, s.w, run, madeMediaDir), run)
    requires HonestStamps(id, ThrownOnto(id, s.w, run, madeMediaDir))
    ensures True(id, s.(w := ThrownOnto(id, s.w, run, madeMediaDir)))
  {
    ThrownKeepsShape(id, s.w, template, run, madeMediaDir);
    hide ConfigLayer, MediaLayer, ConfigOnto, MediaOnto, WalkedDisk, AllCanonical, Kept, Partial, IsSyncedConfigPath, IsSyncedMediaPath;
    if s.w.disk.Dir? {
      PrunedStaysSound(id.Config(), s.w.ConfigMirror(), run.prunedConfig, s.base);
      assert s.w.media - run.prunedMedia == s.w.media;
    }
  }

  /** A prune touches no key the manifest speaks of. */
  lemma PrunedStaysSound(sec: Section, m: Mirror, pruned: set<Rel>, template: map<Rel, Content>)
    requires Sound(sec, m, template) && EntriesKept(sec.filter, m.entries) && forall r :: r in pruned ==> !sec.filter(r)
    ensures Sound(sec, Mirror(m.remote - pruned, m.entries), template)
  {
    forall r ensures SoundSlot(sec, Mirror(m.remote - pruned, m.entries).At(r), r, template) {
      assert SoundSlot(sec, m.At(r), r, template);
    }
  }

  lemma MediaFileKeepsTrue(id: Ids, s: State, op: Media.MediaOp)
    requires s.w.disk.Dir? && s.w.disk.media.Some? && True(id, s)
    requires Media.Honest(MediaOf(s.w), op) && Media.Faithful(id.Media(), MediaOf(s.w), op) && CanonicalTarget(op)
    ensures True(id, s.(w := WithMedia(s.w, Media.Apply(id.Media(), MediaOf(s.w), op))))
  {
    Media.OpKeepsSound(id.Media(), MediaOf(s.w), op);
    Media.OpKeepsStamps(id.Media(), MediaOf(s.w), op);
    MediaFileKeepsShape(id, s.w, op);
    hide Media.Apply, Media.Honest, Media.Faithful, Sound, StampsTell, Shaped, AllCanonical, CanonicalTarget;
    var after := Media.Apply(id.Media(), MediaOf(s.w), op);
    assert WithMedia(s.w, after).ConfigMirror() == s.w.ConfigMirror();
    assert WithMedia(s.w, after).MediaMirror() == after.m;
  }

  lemma ClearedStaysSound(id: Ids, s: State, run: PullRun)
    requires True(id, s) && Cleared(id, s.w, run).Some?
    ensures SoundManifest(id, s.(w := Cleared(id, s.w, run).value))
  {
    hide PushOnce, Sound, StampsTell, Shaped, AllCanonical;
  }

  lemma PrunedAlike(id: Ids, w: World, run: PullRun, madeMediaDir: bool)
    ensures OnlyPruned(w, ThrownOnto(id, w, run, false), run) ==> OnlyPruned(w, ThrownOnto(id, w, run, madeMediaDir), run)
  {
    hide ConfigOnto, MediaOnto, ConfigLayer, MediaLayer, IsSyncedConfigPath, IsSyncedMediaPath;
  }

  lemma StepKeepsTrue(id: Ids, s: State, op: Op)
    requires True(id, s) && Possible(id, s.w, op) && Granted(id, s, op)
    ensures True(id, Next(id, s, op))
  {
    hide PushOnce, Persist, PulledOnto, Reprofiled, ThrownOnto, Cleared, Fetched, WalkShaped, Profiles, Partial,
      OnlyPruned, AllCanonical, PushKeepsTrack, AttemptsKeepTrack, Sound, StampsTell, Media.Honest, Media.Faithful, Media.Apply;
    match op
    case Edit(_, _) =>
    case PushDir(deletes, pf) => PushKeepsTrue(id, s, deletes, pf);
    case FinalPush(tries, removed) => FinalPushKeepsTrue(id, s, tries, removed);
    case PullDone(template, run) =>
      ClearedKeepsShape(id, s.w, run, template);
      PullDoneIsTrue(id, Cleared(id, s.w, run).value, template, run);
    case PullLeft(template, run) =>
      PushKeepsTrue(id, s, true, run.push);
      ReprofiledIsTrue(id, s.(w := PushedDir(id, s.w, run.push)), template, run.template, run.wipe);
    case PullThrew(template, run, madeMediaDir) =>
      ClearedKeepsShape(id, s.w, run, template);
      ClearedStaysSound(id, s, run);
      PrunedAlike(id, Cleared(id, s.w, run).value, run, madeMediaDir);
      ThrownIsTrue(id, s.(w := Cleared(id, s.w, run).value), template, run, madeMediaDir);
    case MediaFile(mop) => MediaFileKeepsTrue(id, s, mop);
  }

  /** From an instance without a dir, over any history, the manifest is sound. */
  lemma {:induction false} HistoryKeepsTrue(id: Ids, s: State, ops: seq<Op>)
    requires True(id, s) && History(id, s, ops) && AllGranted(id, s, ops)
    ensures True(id, End(id, s, ops))
    decreases |ops|
  {
    hide True, Possible, Granted, Next;
    if ops != [] {
      StepKeepsTrue(id, s, ops[0]);
      HistoryKeepsTrue(id, Next(id, s, ops[0]), ops[1..]);
    }
  }

  lemma TrueWorld(id: Ids, s: State)
    requires True(id, s)
    ensures WorldTrue(id, s.w, s.base)
  {
  }

  /** An instance without a dir, whatever S3 holds for it. */
  ghost predicate Fresh(s: State) { s.w.disk.NoDir? && Shaped(s.w) && AllCanonical(WithoutPlugins(s.base)) }

  lemma {:induction false} FinalPushKeepsShape(id: Ids, w: World, tries: seq<PushFaults>, removed: bool)
    requires Shaped(w)
    ensures Shaped(Persist(id, w, tries, removed).world)
    decreases |tries|
  {
    hide PushOnce, AllCanonical, Kept;
    if tries != [] {
      PushKeepsShape(id, w, true, tries[0]);
      var p := PushOnce(id, w, true, tries[0]);
      if !p.ok { FinalPushKeepsShape(id, p.world, tries[1..], removed); }
    }
  }

  lemma ShapedIsWalked(id: Ids, s: State, w: World)
    requires True(id, s) && Shaped(w)
    ensures WalkShaped(w, s.base)
  {
  }

  /** No loss over whole histories: whenever the final push runs, and whatever
      fails in it, the local files are still there or the next completed pull with
      the same template restores every kept one that the push saw: all of them,
      when no look at the dirs failed. */
  lemma HistoryNeverLoses(id: Ids, start: State, ops: seq<Op>, tries: seq<PushFaults>, removed: bool, run: PullRun)
    requires Fresh(start) && History(id, start, ops) && AllGranted(id, start, ops)
    requires End(id, start, ops).w.disk.Dir?
    ensures var s := End(id, start, ops);
      var p := Persist(id, s.w, tries, removed);
      && (!p.ok ==> SameFiles(s.w, p.world))
      && (p.ok && Fetched(p.world, s.base, run) ==> BroughtBack(id, p.saw, Pulled(id, p.world.(disk := NoDir), run)))
      && (p.ok && AllSeen(tries) ==> p.saw.Configs() == s.w.disk.config && p.saw.Medias() == s.w.disk.media)
  {
    NoDirIsTrue(id, start);
    HistoryKeepsTrue(id, start, ops);
    TrueWorld(id, End(id, start, ops));
    FinalPushKeepsShape(id, End(id, start, ops).w, tries, removed);
    ShapedIsWalked(id, End(id, start, ops), Persist(id, End(id, start, ops).w, tries, removed).world);
    hide True, History, AllGranted, End, WorldTrue, Persist, Fetched, WalkShaped, Shaped, Pulled, BroughtBack, AllSeen, SameFiles;
    NoLoss(id, End(id, start, ops).w, tries, removed, End(id, start, ops).base, run);
  }

  // ── Every kept key stays tracked ──────────────────────────────────────────

  ghost predicate AllTracked(id: Ids, s: State) {
    s.w.disk.Dir? ==> Tracked(id.Config(), s.w.ConfigMirror()) && Tracked(id.Media(), s.w.MediaMirror())
  }

  /** The operations that can leave an untracked key in S3: a pull that threw, and
      a rename whose delete threw or was refused. */
  predicate LosesTrack(op: Op) {
    op.PullThrew? || (op.MediaFile? && op.op.Rename? && !op.op.reply.Deleted?)
  }

  lemma SideKeepsTracked(sec: Section, m: Mirror, tree: Option<Tree>, deletes: bool, f: Faults, template: map<Rel, Content>)
    requires Sound(sec, m, template) && Tracked(sec, m)
    ensures Tracked(sec, SyncSide(sec, m, tree, deletes, f))
  {
    if tree.Some? {
      var after := Sync(sec, m, tree.value, deletes, f);
      forall r | r in after.remote && sec.Keeps(r) ensures r in after.entries {
        EntryAfter(sec, m, tree.value, deletes, f, r);
        assert SoundSlot(sec, m.At(r), r, template);
        hide Sync;
        assert after.At(r).remote.Some? && after.At(r).entry == Get(after.entries, r);
      }
    }
  }

  lemma PushKeepsTracked(id: Ids, s: State, deletes: bool, pf: PushFaults)
    requires True(id, s) && AllTracked(id, s)
    ensures AllTracked(id, s.(w := PushOnce(id, s.w, deletes, pf).world))
  {
    hide Sync, Stats, Sound, StampsTell, Tracked;
    var seen := s.w.disk.Seen(pf.unseen);
    if seen.Dir? {
      SideKeepsTracked(id.Config(), s.w.ConfigMirror(), seen.config, deletes, pf.config, s.base);
      SideKeepsTracked(id.Media(), s.w.MediaMirror(), seen.media, deletes, pf.media, map[]);
    }
  }

  lemma {:induction false} FinalPushKeepsTracked(id: Ids, s: State, tries: seq<PushFaults>, removed: bool)
    requires True(id, s) && AttemptsKeepTrack(id, s.w, tries) && AllTracked(id, s)
    ensures AllTracked(id, s.(w := Persist(id, s.w, tries, removed).world))
    decreases |tries|
  {
    hide PushOnce, PushKeepsTrack, True, Tracked;
    if tries != [] {
      PushKeepsTrue(id, s, true, tries[0]);
      PushKeepsTracked(id, s, true, tries[0]);
      var p := PushOnce(id, s.w, true, tries[0]);
      if !p.ok { FinalPushKeepsTracked(id, s.(w := p.world), tries[1..], removed); }
    }
  }

  lemma MediaFileKeepsTracked(id: Ids, s: State, op: Media.MediaOp)
    requires s.w.disk.Dir? && s.w.disk.media.Some? && AllTracked(id, s) && (op.Rename? ==> op.reply.Deleted?)
    ensures AllTracked(id, s.(w := WithMedia(s.w, Media.Apply(id.Media(), MediaOf(s.w), op))))
  {
    var after := Media.Apply(id.Media(), MediaOf(s.w), op);
    assert WithMedia(s.w, after).ConfigMirror() == s.w.ConfigMirror();
    assert WithMedia(s.w, after).MediaMirror() == after.m;
  }

  lemma TrueIsShaped(id: Ids, s: State)
    requires True(id, s)
    ensures Shaped(s.w)
  {
  }

  lemma StepKeepsTracked(id: Ids, s: State, op: Op)
    requires True(id, s) && AllTracked(id, s) && Possible(id, s.w, op) && Granted(id, s, op) && !LosesTrack(op)
    ensures AllTracked(id, Next(id, s, op))
  {
    hide PushOnce, Persist, PulledOnto, Cleared, Fetched, WalkShaped, Profiles, Partial, OnlyPruned, AllCanonical, PushKeepsTrack,
      AttemptsKeepTrack, True, Tracked, Media.Honest, Media.Faithful, Media.Apply;
    match op
    case Edit(_, _) =>
    case PushDir(deletes, pf) => PushKeepsTracked(id, s, deletes, pf);
    case FinalPush(tries, removed) => FinalPushKeepsTracked(id, s, tries, removed);
    case PullDone(template, run) =>
      ClearedKeepsShape(id, s.w, run, template) by { assert Shaped(s.w) by { TrueIsShaped(id, s); } }
      PullDoneIsTrue(id, Cleared(id, s.w, run).value, template, run);
    case PullLeft(template, run) => PushKeepsTracked(id, s, true, run.push);
    case PullThrew(_, _, _) =>
    case MediaFile(mop) => MediaFileKeepsTracked(id, s, mop);
  }

  lemma {:induction false} HistoryKeepsTracked(id: Ids, s: State, ops: seq<Op>)
    requires True(id, s) && AllTracked(id, s) && History(id, s, ops) && AllGranted(id, s, ops)
    requires forall op :: op in ops ==> !LosesTrack(op)
    ensures True(id, End(id, s, ops)) && AllTracked(id, End(id, s, ops))
    decreases |ops|
  {
    hide True, AllTracked, Possible, Granted, Next, LosesTrack;
    if ops != [] {
      assert ops[0] in ops;
      StepKeepsTrue(id, s, ops[0]);
      StepKeepsTracked(id, s, ops[0]);
      HistoryKeepsTracked(id, Next(id, s, ops[0]), ops[1..]);
    }
  }

  function SeenMedia(w: World, pf: PushFaults): Option<Tree> { w.disk.Seen(pf.unseen).Medias() }

  /** Wherever such a history leads, a successful full push that sees the dirs makes
      S3 the exact image of them: the kept media objects are the kept media files, and the
      kept overlay objects are the kept config files that left the template. */
  lemma HistoryEndsInMirror(id: Ids, start: State, ops: seq<Op>, pf: PushFaults, r: Rel)
    requires Fresh(start) && History(id, start, ops) && AllGranted(id, start, ops)
    requires forall op :: op in ops ==> !LosesTrack(op)
    requires var s := End(id, start, ops);
      && s.w.disk.Dir? && SeenConfig(s.w, pf).Some? && SeenMedia(s.w, pf).Some? && PushOnce(id, s.w, true, pf).ok
    ensures var s := End(id, start, ops);
      var files, saved := SeenConfig(s.w, pf).value, PushOnce(id, s.w, true, pf).world;
      && (id.Media().Keeps(r) ==> Get(saved.media, r) == ContentAt(SeenMedia(s.w, pf).value, r))
      && (id.Config().Keeps(r) ==>
            Get(saved.overlay, r) ==
              if r !in files || FollowsTemplate(s.w.ConfigMirror().At(r), files[r].content) then None
              else Some(files[r].content))
  {
    NoDirIsTrue(id, start);
    assert AllTracked(id, start);
    HistoryKeepsTracked(id, start, ops);
    var s := End(id, start, ops);
    hide History, AllGranted, End, LosesTrack, FollowsTemplate, PushOnce;
    MirrorFromTracked(id, s, pf, r);
  }

  lemma MirrorFromTracked(id: Ids, s: State, pf: PushFaults, r: Rel)
    requires s.w.disk.Dir? && SeenConfig(s.w, pf).Some? && SeenMedia(s.w, pf).Some? && PushOnce(id, s.w, true, pf).ok
    requires True(id, s) && AllTracked(id, s)
    ensures var files, saved := SeenConfig(s.w, pf).value, PushOnce(id, s.w, true, pf).world;
      && (id.Media().Keeps(r) ==> Get(saved.media, r) == ContentAt(SeenMedia(s.w, pf).value, r))
      && (id.Config().Keeps(r) ==>
            Get(saved.overlay, r) ==
              if r !in files || FollowsTemplate(s.w.ConfigMirror().At(r), files[r].content) then None
              else Some(files[r].content))
  {
    hide Sync, Stats, FollowsTemplate, Sound, StampsTell, IsSyncedConfigPath, IsSyncedMediaPath;
    var m := MediaOf(s.w);
    assert Stats(id.Media(), m.m, m.tree, true, pf.media).failed == 0;
    Media.FullPushMirrors(id.Media(), m, pf.media);
    assert Accounted(id.Config(), s.w.ConfigMirror(), SeenConfig(s.w, pf).value);
    if id.Config().Keeps(r) { OverlayAfterPush(id, s.w, pf, s.base, r); }
  }

  /** And the next start layers it back: a kept path gets the user's content when
      the user made it their own, and the template of that moment otherwise. */
  lemma HistoryLayersBack(id: Ids, start: State, ops: seq<Op>, pf: PushFaults, next: map<Rel, Content>, run: PullRun, r: Rel)
    requires Fresh(start) && History(id, start, ops) && AllGranted(id, start, ops)
    requires forall op :: op in ops ==> !LosesTrack(op)
    requires var s := End(id, start, ops);
      && s.w.disk.Dir? && SeenConfig(s.w, pf).Some? && PushOnce(id, s.w, true, pf).ok
      && Fetched(PushOnce(id, s.w, true, pf).world, next, run)
    requires AllCanonical(WithoutPlugins(next)) && id.Config().Keeps(r)
    ensures var s := End(id, start, ops);
      var files, saved := SeenConfig(s.w, pf).value, PushOnce(id, s.w, true, pf).world;
      ContentAt(Pulled(id, saved, run).disk.config.value, r) ==
        if r in files && !FollowsTemplate(s.w.ConfigMirror().At(r), files[r].content) then Some(files[r].content)
        else Get(next, r)
  {
    NoDirIsTrue(id, start);
    assert AllTracked(id, start);
    HistoryKeepsTracked(id, start, ops);
    var s := End(id, start, ops);
    hide History, AllGranted, End, LosesTrack;
    LayersBackFromTracked(id, s, pf, next, run, r);
  }

  lemma LayersBackFromTracked(id: Ids, s: State, pf: PushFaults, next: map<Rel, Content>, run: PullRun, r: Rel)
    requires s.w.disk.Dir? && SeenConfig(s.w, pf).Some? && PushOnce(id, s.w, true, pf).ok
    requires True(id, s) && AllTracked(id, s)
    requires Fetched(PushOnce(id, s.w, true, pf).world, next, run) && AllCanonical(WithoutPlugins(next)) && id.Config().Keeps(r)
    ensures var files, saved := SeenConfig(s.w, pf).value, PushOnce(id, s.w, true, pf).world;
      ContentAt(Pulled(id, saved, run).disk.config.value, r) ==
        if r in files && !FollowsTemplate(s.w.ConfigMirror().At(r), files[r].content) then Some(files[r].content)
        else Get(next, r)
  {
    hide PushOnce, Pulled, FollowsTemplate, Sound, StampsTell, Fetched, AllCanonical, Kept, IsSyncedConfigPath;
    PushKeepsShape(id, s.w, true, pf);
    assert Accounted(id.Config(), s.w.ConfigMirror(), SeenConfig(s.w, pf).value);
    NextPullFollows(id, s.w, pf, s.base, next, run, r);
  }

  // ── What the plan owns, over whole histories ──────────────────────────────

  lemma {:induction false} FinalPushOnlyShrinks(id: Ids, w: World, tries: seq<PushFaults>, removed: bool, r: Rel)
    requires !IsSyncedConfigPath(r)
    ensures Get(Persist(id, w, tries, removed).world.overlay, r) in {Get(w.overlay, r), None}
    decreases |tries|
  {
    hide PushOnce, IsSyncedConfigPath;
    if tries != [] {
      var p := PushOnce(id, w, true, tries[0]);
      PushOnlyShrinks(id, w, true, tries[0], r);
      if !p.ok { FinalPushOnlyShrinks(id, p.world, tries[1..], removed, r); }
    }
  }

  lemma PushOnlyShrinks(id: Ids, w: World, deletes: bool, pf: PushFaults, r: Rel)
    requires !IsSyncedConfigPath(r)
    ensures Get(PushOnce(id, w, deletes, pf).world.overlay, r) in {Get(w.overlay, r), None}
  {
    if w.disk.Dir? { PushOnlyShrinksUnkept(id, w, deletes, pf, r); }
    hide IsSyncedConfigPath, Sync, Stats;
  }

  lemma StepOnlyShrinks(id: Ids, s: State, op: Op, r: Rel)
    requires Possible(id, s.w, op) && !IsSyncedConfigPath(r)
    ensures Get(Next(id, s, op).w.overlay, r) in {Get(s.w.overlay, r), None}
  {
    hide PushOnce, Persist, IsSyncedConfigPath, Fetched, Partial, OnlyPruned, WalkShaped, ConfigLayer, MediaLayer, DownloadAll;
    match op
    case Edit(_, _) =>
    case PushDir(deletes, pf) => PushOnlyShrinks(id, s.w, deletes, pf, r);
    case FinalPush(tries, removed) => FinalPushOnlyShrinks(id, s.w, tries, removed, r);
    case PullDone(_, run) => PushOnlyShrinks(id, s.w, true, run.push, r);
    case PullLeft(_, run) => PushOnlyShrinks(id, s.w, true, run.push, r);
    case PullThrew(_, run, _) => PushOnlyShrinks(id, s.w, true, run.push, r);
    case MediaFile(_) =>
  }

  /** Over any history at all, with any failures, no key the policy leaves to the
      plan is ever added to or changed in the overlay. */
  lemma {:induction false} UnkeptOnlyShrinks(id: Ids, s: State, ops: seq<Op>, r: Rel)
    requires History(id, s, ops) && !IsSyncedConfigPath(r)
    ensures Get(End(id, s, ops).w.overlay, r) in {Get(s.w.overlay, r), None}
    decreases |ops|
  {
    hide Possible, Next, IsSyncedConfigPath;
    if ops != [] {
      StepOnlyShrinks(id, s, ops[0], r);
      UnkeptOnlyShrinks(id, Next(id, s, ops[0]), ops[1..], r);
    }
  }

  /** In particular nothing the plan, the node or the running OBS owns. */
  lemma PlanOwnedOnlyShrinks(id: Ids, s: State, ops: seq<Op>, r: Rel)
    requires History(id, s, ops) && PlanOwned(r)
    ensures Get(End(id, s, ops).w.overlay, r) in {Get(s.w.overlay, r), None}
  {
    PlanOwnedNeverSynced(r);
    UnkeptOnlyShrinks(id, s, ops, r);
  }

  // ── Such histories exist ──────────────────────────────────────────────────

  const NO_FAULTS := Faults({}, {}, {}, false)
  const CLEAN := PushFaults(ALL_SEEN, false, NO_FAULTS, false, NO_FAULTS)
  const NOTHING_PULLED := PullRun(false, CLEAN, false, Wiped, [], [], [], {}, {})

  function EmptyWorld(disk: Disk): World { World(disk, map[], map[]) }

  function Pulled0(): Disk { Dir(Some(map[]), Some(map[]), Some(Manifest(map[], map[]))) }

  lemma FirstPull(id: Ids)
    ensures Possible(id, EmptyWorld(NoDir), PullDone(map[], NOTHING_PULLED))
    ensures Next(id, State(EmptyWorld(NoDir), map[]), PullDone(map[], NOTHING_PULLED)) == State(EmptyWorld(Pulled0()), map[])
  {
    assert Fetched(EmptyWorld(NoDir), map[], NOTHING_PULLED);
    assert Pulled(id, EmptyWorld(NoDir), NOTHING_PULLED) == EmptyWorld(Pulled0());
  }

  function FirstEdited(rel: Rel, file: LocalFile): World {
    EmptyWorld(Dir(Some(map[rel := file]), Some(map[]), Some(Manifest(map[], map[]))))
  }

  lemma ThreeOps(id: Ids, s: State, a: Op, b: Op, c: Op)
    requires Possible(id, s.w, a) && Granted(id, s, a)
    requires Possible(id, Next(id, s, a).w, b) && Granted(id, Next(id, s, a), b)
    requires Possible(id, Next(id, Next(id, s, a), b).w, c) && Granted(id, Next(id, Next(id, s, a), b), c)
    ensures History(id, s, [a, b, c]) && AllGranted(id, s, [a, b, c])
    ensures End(id, s, [a, b, c]) == Next(id, Next(id, Next(id, s, a), b), c)
  {
    hide Possible, Granted, Next;
    var t := Next(id, Next(id, s, a), b);
    assert [a, b, c][1..] == [b, c] && [b, c][1..] == [c] && [c][1..] == [];
    assert History(id, Next(id, t, c), []) && End(id, Next(id, t, c), []) == Next(id, t, c);
    assert History(id, t, [c]) && AllGranted(id, t, [c]);
    assert End(id, t, [c]) == End(id, Next(id, t, c), [c][1..]);
    assert History(id, Next(id, s, a), [b, c]) && AllGranted(id, Next(id, s, a), [b, c]);
  }

  lemma FirstEdit(id: Ids, rel: Rel, file: LocalFile)
    requires Canonical(rel)
    ensures var pulled, edit := State(EmptyWorld(Pulled0()), map[]), Edit(Some(map[rel := file]), Some(map[]));
      && Possible(id, pulled.w, edit) && Granted(id, pulled, edit)
      && Next(id, pulled, edit) == State(FirstEdited(rel, file), map[])
  {
    hide Canonical, IsSyncedConfigPath, IsSyncedMediaPath;
  }

  lemma FirstPush(id: Ids, rel: Rel, file: LocalFile)
    requires id.Config().Keeps(rel)
    ensures var after := PushOnce(id, FirstEdited(rel, file), true, CLEAN).world;
      after.disk.Dir? && Get(after.overlay, rel) == Some(file.content)
  {
    hide Sync, Stats, IsSyncedConfigPath, IsSyncedMediaPath, Utf8Length;
    FirstSync(id.Config(), FirstEdited(rel, file).ConfigMirror(), rel, file);
  }

  lemma FirstSync(sec: Section, m: Mirror, rel: Rel, file: LocalFile)
    requires sec.Keeps(rel) && m == Mirror(map[], map[])
    ensures Get(Sync(sec, m, map[rel := file], true, NO_FAULTS).remote, rel) == Some(file.content)
  {
    EntryAfter(sec, m, map[rel := file], true, NO_FAULTS, rel);
    hide Sync;
    var after := Sync(sec, m, map[rel := file], true, NO_FAULTS);
    assert after.At(rel).remote == Get(after.remote, rel);
  }

  lemma FirstPushGranted(id: Ids, rel: Rel, file: LocalFile)
    ensures PushKeepsTrack(id, FirstEdited(rel, file), true, CLEAN)
  {
    hide Sync, Stats, IsSyncedConfigPath, IsSyncedMediaPath, Utf8Length;
  }

  lemma FirstStepsGranted(id: Ids, rel: Rel, file: LocalFile)
    requires Canonical(rel)
    ensures var start, edited := State(EmptyWorld(NoDir), map[]), State(FirstEdited(rel, file), map[]);
      var pull, push := PullDone(map[], NOTHING_PULLED), PushDir(true, CLEAN);
      && Fresh(start) && Possible(id, start.w, pull) && Granted(id, start, pull)
      && Possible(id, edited.w, push) && Granted(id, edited, push)
      && Next(id, edited, push).w == PushOnce(id, edited.w, true, CLEAN).world
  {
    FirstPull(id);
    FirstPushGranted(id, rel, file);
    hide PushOnce, PushKeepsTrack, Cleared, Fetched, PulledOnto, Canonical, IsSyncedConfigPath, IsSyncedMediaPath;
  }

  /** A first start without a template, one edit and one push: a history in which
      everything is granted and the edited file reaches S3. */
  lemma OneHistory(id: Ids, rel: Rel, file: LocalFile)
    requires id.Config().Keeps(rel) && Canonical(rel)
    ensures
      var start := State(EmptyWorld(NoDir), map[]);
      var ops := [PullDone(map[], NOTHING_PULLED), Edit(Some(map[rel := file]), Some(map[])), PushDir(true, CLEAN)];
      && Fresh(start) && History(id, start, ops) && AllGranted(id, start, ops)
      && End(id, start, ops).w.disk.Dir?
      && Get(End(id, start, ops).w.overlay, rel) == Some(file.content)
  {
    var start, edited := State(EmptyWorld(NoDir), map[]), State(FirstEdited(rel, file), map[]);
    var pull, edit, push := PullDone(map[], NOTHING_PULLED), Edit(Some(map[rel := file]), Some(map[])), PushDir(true, CLEAN);
    hide Canonical, IsSyncedConfigPath, IsSyncedMediaPath, Utf8Length;
    FirstPull(id);
    FirstEdit(id, rel, file);
    FirstPush(id, rel, file);
    FirstStepsGranted(id, rel, file);
    hide Possible, Granted, Next, PushOnce, PushKeepsTrack, Fresh, History, AllGranted, End;
    ThreeOps(id, start, pull, edit, push);
  }
}
