// Restoring an instance's dir from S3: the plan template first, the user's own
// config over it, then the media, seeding the manifest as files arrive.
module Pull {
  import opened Text
  import opened SyncPolicy
  import opened ObjectStore
  import opened SyncSection
  import opened Push

  // ── Downloads ─────────────────────────────────────────────────────────────

  // An object as it was downloaded, with the mtime its file got.
  datatype Object = Object(rel: Rel, content: Content, mtimeMs: int) {
    function File(): LocalFile { LocalFile(mtimeMs, content) }
  }

  datatype Recording = Recording(filter: Rel -> bool, hashContent: bool, source: Source) {
    function Entry(o: Object): ManifestEntry {
      o.File().Entry(if hashContent then Digest(o.content) else NoHash, source)
    }
  }

  const FROM_TEMPLATE := Recording(IsSyncedConfigPath, true, Template)
  const FROM_OVERLAY := Recording(IsSyncedConfigPath, true, Overlay)
  const FROM_MEDIA := Recording(IsSyncedMediaPath, false, Overlay)
  const UNRECORDED := Recording(_ => false, false, Template)

  datatype Layer = Layer(tree: Tree, entries: Entries)

  function DownloadOne(l: Layer, base: seq<string>, o: Object, rec: Recording): Layer {
    match LocalTarget(base, o.rel)
    case None => l
    case Some(path) =>
      Layer(l.tree[path := o.File()], if rec.filter(o.rel) then l.entries[o.rel := rec.Entry(o)] else l.entries)
  }

  function DownloadAll(l: Layer, base: seq<string>, objs: seq<Object>, rec: Recording): Layer {
    if objs == [] then l
    else DownloadOne(DownloadAll(l, base, objs[..|objs| - 1], rec), base, objs[|objs| - 1], rec)
  }

  /** The last of the objects with that suffix. */
  function Latest(objs: seq<Object>, rel: Rel): (o: Option<Object>)
    ensures o.Some? ==> o.value in objs && o.value.rel == rel
  {
    if objs == [] then None
    else if objs[|objs| - 1].rel == rel then Some(objs[|objs| - 1])
    else Latest(objs[..|objs| - 1], rel)
  }

  /** Exactly the objects of `m`, each with its content. */
  ghost predicate Lists(objs: seq<Object>, m: map<Rel, Content>) {
    (forall o :: o in objs ==> o.rel in m && m[o.rel] == o.content) &&
    (forall r :: r in m ==> Latest(objs, r).Some?)
  }

  /** Some of the objects of `m`, each with its content. */
  ghost predicate Drawn(objs: seq<Object>, m: map<Rel, Content>) {
    forall o :: o in objs ==> o.rel in m && m[o.rel] == o.content
  }

  ghost predicate AllCanonical(m: map<Rel, Content>) { forall r :: r in m ==> Canonical(r) }

  /** Where every path stands after a download of walk-shaped keys. */
  lemma {:induction false} DownloadedAt(l: Layer, base: seq<string>, objs: seq<Object>, rec: Recording, r: Rel)
    requires forall o :: o in objs ==> Canonical(o.rel)
    ensures var after := DownloadAll(l, base, objs, rec);
      match Latest(objs, r)
      case None => Get(after.tree, r) == Get(l.tree, r) && Get(after.entries, r) == Get(l.entries, r)
      case Some(o) =>
        && Get(after.tree, r) == Some(o.File())
        && Get(after.entries, r) == if rec.filter(r) then Some(rec.Entry(o)) else Get(l.entries, r)
  {
    if objs != [] {
      DownloadedAt(l, base, objs[..|objs| - 1], rec, r);
      CanonicalTarget(base, objs[|objs| - 1].rel);
    }
  }

  // ── A completed pull ──────────────────────────────────────────────────────

  function Kept(filter: Rel -> bool, m: map<Rel, Content>): map<Rel, Content> { map r | r in m && filter(r) :: m[r] }

  function WithoutPlugins(template: map<Rel, Content>): map<Rel, Content> {
    map r | r in template && !IsPluginPath(r) :: template[r]
  }

  // How the rm of the local profiles went; when it throws, some files may be left.
  datatype Wipe = Wiped | Stuck(left: set<Rel>)

  /** What the environment did: a leftover dir overlooked, or its push and clean-up;
      the downloads, and the unsynced keys that were really pruned. */
  datatype PullRun = PullRun(overlooked: bool, push: PushFaults, removed: bool, wipe: Wipe, template: seq<Object>,
                             overlay: seq<Object>, media: seq<Object>, prunedConfig: set<Rel>, prunedMedia: set<Rel>)

  ghost predicate Fetched(w: World, template: map<Rel, Content>, run: PullRun) {
    && Lists(run.template, WithoutPlugins(template))
    && Lists(run.overlay, Kept(IsSyncedConfigPath, w.overlay))
    && Lists(run.media, Kept(IsSyncedMediaPath, w.media))
    && (forall r :: r in run.prunedConfig ==> !IsSyncedConfigPath(r))
    && (forall r :: r in run.prunedMedia ==> !IsSyncedMediaPath(r))
  }

  /** What a pull that did not get through may have downloaded. */
  ghost predicate Partial(w: World, template: map<Rel, Content>, run: PullRun) {
    && Drawn(run.template, WithoutPlugins(template))
    && Drawn(run.overlay, Kept(IsSyncedConfigPath, w.overlay))
    && Drawn(run.media, Kept(IsSyncedMediaPath, w.media))
  }

  const NOTHING := Layer(map[], map[])

  function ConfigLayer(id: Ids, run: PullRun): Layer {
    DownloadAll(DownloadAll(NOTHING, id.ConfigDir(), run.template, FROM_TEMPLATE), id.ConfigDir(), run.overlay, FROM_OVERLAY)
  }

  function MediaLayer(id: Ids, run: PullRun): Layer {
    DownloadAll(NOTHING, id.MediaDir(), run.media, FROM_MEDIA)
  }

  function Pulled(id: Ids, w: World, run: PullRun): World {
    var config, media := ConfigLayer(id, run), MediaLayer(id, run);
    World(Dir(Some(config.tree), Some(media.tree), Some(Manifest(config.entries, media.entries))),
          w.overlay - run.prunedConfig, w.media - run.prunedMedia)
  }

  /** What a pull that throws leaves: the files that had arrived, the media dir if
      it got that far, no manifest, and S3 without whatever was pruned by then. */
  function ThrownPull(id: Ids, w: World, run: PullRun, madeMediaDir: bool): World {
    World(Dir(Some(ConfigLayer(id, run).tree), if madeMediaDir then Some(MediaLayer(id, run).tree) else None, None),
          w.overlay - run.prunedConfig, w.media - run.prunedMedia)
  }

  // A pull that overlooks a leftover dir downloads over it.

  function Ground(tree: Option<Tree>): Layer { Layer(if tree.Some? then tree.value else map[], map[]) }

  function ConfigOnto(id: Ids, tree: Option<Tree>, run: PullRun): Layer {
    DownloadAll(DownloadAll(Ground(tree), id.ConfigDir(), run.template, FROM_TEMPLATE), id.ConfigDir(), run.overlay, FROM_OVERLAY)
  }

  function MediaOnto(id: Ids, tree: Option<Tree>, run: PullRun): Layer {
    DownloadAll(Ground(tree), id.MediaDir(), run.media, FROM_MEDIA)
  }

  function PulledOnto(id: Ids, w: World, run: PullRun): World {
    if w.disk.NoDir? then Pulled(id, w, run)
    else
      var config, media := ConfigOnto(id, w.disk.config, run), MediaOnto(id, w.disk.media, run);
      World(Dir(Some(config.tree), Some(media.tree), Some(Manifest(config.entries, media.entries))),
            w.overlay - run.prunedConfig, w.media - run.prunedMedia)
  }

  /** The old manifest stays until a new one is written. */
  function ThrownOnto(id: Ids, w: World, run: PullRun, madeMediaDir: bool): World {
    if w.disk.NoDir? then ThrownPull(id, w, run, madeMediaDir)
    else
      World(Dir(Some(ConfigOnto(id, w.disk.config, run).tree),
                if madeMediaDir || w.disk.media.Some? then Some(MediaOnto(id, w.disk.media, run).tree) else None, w.disk.saved),
            w.overlay - run.prunedConfig, w.media - run.prunedMedia)
  }

  /** Both, whether there is a dir or not. */
  lemma OntoForm(id: Ids, w: World, run: PullRun, madeMediaDir: bool)
    ensures var config, media := ConfigOnto(id, w.disk.Configs(), run), MediaOnto(id, w.disk.Medias(), run);
      var overlay, mediaLeft := w.overlay - run.prunedConfig, w.media - run.prunedMedia;
      && PulledOnto(id, w, run) ==
         World(Dir(Some(config.tree), Some(media.tree), Some(Manifest(config.entries, media.entries))), overlay, mediaLeft)
      && ThrownOnto(id, w, run, madeMediaDir) ==
         World(Dir(Some(config.tree), if madeMediaDir || w.disk.Medias().Some? then Some(media.tree) else None,
                   if w.disk.Dir? then w.disk.saved else None), overlay, mediaLeft)
  {
    assert Ground(None) == NOTHING;
  }

  // ── The leftover branch ───────────────────────────────────────────────────

  predicate InProfiles(path: Rel) { path == "basic/profiles" || "basic/profiles/" <= path }

  function WithoutProfiles(tree: Tree): Tree { map r | r in tree && !InProfiles(r) :: tree[r] }

  function OnlyLeft(tree: Tree, left: set<Rel>): Tree { map r | r in tree && (InProfiles(r) ==> r in left) :: tree[r] }

  /** The local profiles replaced by whatever of the template's could be fetched;
      a wipe that throws ends it there. */
  function Reprofiled(id: Ids, w: World, objs: seq<Object>, wipe: Wipe): World
    requires w.disk.Dir?
  {
    match wipe
    case Stuck(left) =>
      if w.disk.config.None? then w else w.(disk := w.disk.(config := Some(OnlyLeft(w.disk.config.value, left))))
    case Wiped =>
      var left := if w.disk.config.Some? then WithoutProfiles(w.disk.config.value) else map[];
      var tree := DownloadAll(Layer(left, map[]), id.ConfigDir(), objs, UNRECORDED).tree;
      if w.disk.config.None? && tree == map[] then w else w.(disk := w.disk.(config := Some(tree)))
  }

  function ProfilesOf(template: map<Rel, Content>): map<Rel, Content> {
    map r | r in template && "basic/profiles/" <= r :: template[r]
  }

  /** Some of the template's profile objects. */
  ghost predicate Profiles(objs: seq<Object>, template: map<Rel, Content>) {
    forall o :: o in objs ==> "basic/profiles/" <= o.rel && o.rel in template && template[o.rel] == o.content
  }

  // ── The whole pull ────────────────────────────────────────────────────────

  datatype Outcome = Completed | Leftover | Threw

  /** The dir is out of the way: there was none, or none was seen, or it was pushed
      and removed. */
  function Cleared(id: Ids, w: World, run: PullRun): Option<World> {
    if w.disk.NoDir? || run.overlooked then Some(w)
    else
      var p := PushOnce(id, w, true, run.push);
      if p.ok && run.removed then Some(p.world.(disk := NoDir)) else None
  }

  // ── What a pull meets ─────────────────────────────────────────────────────

  // What will go wrong in one download: the suffixes whose fetch throws, and those
  // that may not arrive once one has thrown; and the mtimes the files get.
  datatype FetchTrouble = FetchTrouble(fails: set<Rel>, dropped: set<Rel>, mtimes: Rel -> int)

  // In one layer: its listing, its downloads and the prune that follows them.
  datatype LayerTrouble = LayerTrouble(listThrows: bool, fetch: FetchTrouble, prune: Trouble) {
    /** The fetch of this suffix throws; a skipped one is never fetched. */
    predicate Fails(base: seq<string>, r: Rel) { r in fetch.fails && LocalTarget(base, r).Some? }

    ghost predicate Breaks(base: seq<string>, m: map<Rel, Content>) { listThrows || exists r :: r in m && Fails(base, r) }
  }

  // In a whole pull: its look at the dir, the leftover's push, rm and profiles, and
  // the three layers.
  datatype PullTrouble = PullTrouble(overlooked: bool, push: PushTrouble, rmFails: bool, wipe: Wipe, profiles: LayerTrouble,
                                     template: LayerTrouble, overlay: LayerTrouble, media: LayerTrouble)

  /** A layer fetched what it had to: all of it unless it breaks, and then all that
      neither fails nor is dropped. */
  ghost predicate LayerCaused(objs: seq<Object>, m: map<Rel, Content>, base: seq<string>, t: LayerTrouble) {
    && (forall o :: o in objs ==> o.rel in m && m[o.rel] == o.content && o.mtimeMs == t.fetch.mtimes(o.rel) && !t.Fails(base, o.rel))
    && (t.listThrows ==> objs == [])
    && (forall r :: r in m && !t.listThrows && !t.Fails(base, r) && (r in t.fetch.dropped ==> !t.Breaks(base, m)) ==>
          Latest(objs, r).Some?)
  }

  function Junk(filter: Rel -> bool, m: map<Rel, Content>): set<Rel> { set r | r in m && !filter(r) }

  /** A prune deleted what it had to. */
  ghost predicate PruneCaused(pruned: set<Rel>, t: Trouble, junk: set<Rel>) {
    DeletesCaused(Faults({}, {}, pruned, t.Throws(|junk|)), t, junk)
  }

  /** The layers of a pull past the leftover, each reached only when those before it
      got through. */
  ghost predicate RestoreCaused(id: Ids, w: World, template: map<Rel, Content>, run: PullRun, t: PullTrouble) {
    var base, overlay, media := WithoutPlugins(template), Kept(IsSyncedConfigPath, w.overlay), Kept(IsSyncedMediaPath, w.media);
    var first := t.template.Breaks(id.ConfigDir(), base);
    var second := first || t.overlay.Breaks(id.ConfigDir(), overlay);
    var third := second || t.media.Breaks(id.MediaDir(), media);
    && LayerCaused(run.template, base, id.ConfigDir(), t.template)
    && (if first then run.overlay == [] else LayerCaused(run.overlay, overlay, id.ConfigDir(), t.overlay))
    && (if second then run.media == [] && run.prunedConfig == {}
        else LayerCaused(run.media, media, id.MediaDir(), t.media)
             && PruneCaused(run.prunedConfig, t.overlay.prune, Junk(IsSyncedConfigPath, w.overlay)))
    && (if third then run.prunedMedia == {}
        else PruneCaused(run.prunedMedia, t.media.prune, Junk(IsSyncedMediaPath, w.media)))
  }

  /** The layers before the media got through. */
  ghost predicate ReachesMedia(id: Ids, w: World, template: map<Rel, Content>, t: PullTrouble) {
    && !t.template.Breaks(id.ConfigDir(), WithoutPlugins(template))
    && !t.overlay.Breaks(id.ConfigDir(), Kept(IsSyncedConfigPath, w.overlay))
  }

  /** What became of a leftover dir that was seen: its push met its own faults, its rm
      and the wipe of its profiles went as they had to. */
  ghost predicate LeftoverCaused(id: Ids, w: World, template: map<Rel, Content>, run: PullRun, t: PullTrouble) {
    && !run.overlooked && (run.removed <==> !t.rmFails) && PushCaused(id, w, true, run.push, t.push)
    && (!(PushOnce(id, w, true, run.push).ok && !t.rmFails) ==>
          && run.wipe == t.wipe
          && if t.wipe.Stuck? then run.template == []
             else LayerCaused(run.template, ProfilesOf(template), id.ConfigDir(), t.profiles))
  }

  ghost predicate RestoreBreaks(id: Ids, w: World, template: map<Rel, Content>, t: PullTrouble) {
    || t.template.Breaks(id.ConfigDir(), WithoutPlugins(template))
    || t.overlay.Breaks(id.ConfigDir(), Kept(IsSyncedConfigPath, w.overlay))
    || t.media.Breaks(id.MediaDir(), Kept(IsSyncedMediaPath, w.media))
  }

  /** S3 lost nothing but keys the policy does not keep. */
  ghost predicate OnlyPruned(before: World, after: World, run: PullRun) {
    && after.overlay == before.overlay - run.prunedConfig && after.media == before.media - run.prunedMedia
    && (forall r :: r in run.prunedConfig ==> !IsSyncedConfigPath(r))
    && (forall r :: r in run.prunedMedia ==> !IsSyncedMediaPath(r))
  }
}
