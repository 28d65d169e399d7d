// Pushing an instance's local dir to S3, and the final push that ends with the
// removal of the only local copy: what they do to the dir and the two prefixes.
// PushHost runs them.
module Push {
  import opened Text
  import opened SyncPolicy
  import opened ObjectStore
  import opened SyncSection

  const PUSH_ATTEMPTS := 3

  // ── Layout ────────────────────────────────────────────────────────────────

  datatype Ids = Ids(userId: string, instanceId: string) {
    function ConfigPrefix(): string { "obs-configs/" + userId + "/" + instanceId + "/" }
    function MediaPrefix(): string { "obs-media/" + userId + "/" + instanceId + "/" }
    function ConfigDir(): seq<string> { ["data", "obs-configs", instanceId, "obs-studio"] }
    function MediaDir(): seq<string> { ["data", "obs-configs", instanceId, "media"] }
    function Config(): Section { Section(ConfigPrefix(), IsSyncedConfigPath, true) }
    function Media(): Section { Section(MediaPrefix(), IsSyncedMediaPath, false) }
  }

  function TemplatePrefix(template: string): string { "obs-templates/" + template + "/" }

  lemma PrefixesApart(id: Ids, template: string)
    ensures Apart(id.ConfigPrefix(), id.MediaPrefix()) && Apart(id.MediaPrefix(), id.ConfigPrefix())
    ensures Apart(id.ConfigPrefix(), TemplatePrefix(template)) && Apart(id.MediaPrefix(), TemplatePrefix(template))
  {
    var c, m, t := id.ConfigPrefix(), id.MediaPrefix(), TemplatePrefix(template);
    assert c[4] == 'c' && m[4] == 'm' && t[4] == 't';
  }

  /** No key and no local path belongs to two instances, or to both sections of one. */
  lemma InstancesApart(a: Ids, b: Ids, rel: Rel, other: Rel)
    requires '/' !in a.userId && '/' !in a.instanceId && '/' !in b.userId && '/' !in b.instanceId
    ensures a.ConfigPrefix() + rel == b.ConfigPrefix() + other ==> a == b && rel == other
    ensures a.MediaPrefix() + rel == b.MediaPrefix() + other ==> a == b && rel == other
    ensures a.ConfigPrefix() + rel != b.MediaPrefix() + other
    ensures a.ConfigDir() == b.ConfigDir() || a.MediaDir() == b.MediaDir() ==> a.instanceId == b.instanceId
    ensures !(a.ConfigDir() <= b.MediaDir()) && !(b.MediaDir() <= a.ConfigDir())
  {
    var c, m := a.ConfigPrefix() + rel, b.MediaPrefix() + other;
    assert c[4] == 'c' && m[4] == 'm';
    assert "obs-configs" + "/" == "obs-configs/" && "obs-media" + "/" == "obs-media/";
    if a.ConfigPrefix() + rel == b.ConfigPrefix() + other { SameKey("obs-configs", a, b, rel, other); }
    if a.MediaPrefix() + rel == b.MediaPrefix() + other { SameKey("obs-media", a, b, rel, other); }
    assert a.ConfigDir()[3] != b.MediaDir()[3];
    assert a.ConfigDir()[2] == a.instanceId && b.ConfigDir()[2] == b.instanceId;
    assert a.MediaDir()[2] == a.instanceId && b.MediaDir()[2] == b.instanceId;
  }

  /** Nor does any to two templates. */
  lemma TemplatesApart(a: string, b: string, rel: Rel, other: Rel)
    requires '/' !in a && '/' !in b
    ensures TemplatePrefix(a) + rel == TemplatePrefix(b) + other ==> a == b && rel == other
  {
    hide Split, Join;
    TemplateParts(a, rel);
    TemplateParts(b, other);
    var p, q := ["obs-templates", a] + Split(rel, '/'), ["obs-templates", b] + Split(other, '/');
    assert p[1] == a && q[1] == b && p[2..] == Split(rel, '/') && q[2..] == Split(other, '/');
    JoinSplit(rel, '/');
    JoinSplit(other, '/');
  }

  lemma TemplateParts(name: string, rel: Rel)
    requires '/' !in name
    ensures Split(TemplatePrefix(name) + rel, '/') == ["obs-templates", name] + Split(rel, '/')
  {
    hide Split;
    SplitFirst(name, rel, '/');
    SplitFirst("obs-templates", name + ['/'] + rel, '/');
    assert TemplatePrefix(name) + rel == "obs-templates" + ['/'] + (name + ['/'] + rel);
  }

  lemma SameKey(top: string, a: Ids, b: Ids, rel: Rel, other: Rel)
    requires '/' !in top && '/' !in a.userId && '/' !in a.instanceId && '/' !in b.userId && '/' !in b.instanceId
    requires top + "/" + a.userId + "/" + a.instanceId + "/" + rel == top + "/" + b.userId + "/" + b.instanceId + "/" + other
    ensures a == b && rel == other
  {
    hide Split, Join;
    KeyParts(top, a, rel);
    KeyParts(top, b, other);
    var p, q := [top, a.userId, a.instanceId] + Split(rel, '/'), [top, b.userId, b.instanceId] + Split(other, '/');
    assert p == q && p[1] == a.userId && p[2] == a.instanceId && p[3..] == Split(rel, '/') && q[3..] == Split(other, '/');
    JoinSplit(rel, '/');
    JoinSplit(other, '/');
  }

  lemma KeyParts(top: string, id: Ids, rel: Rel)
    requires '/' !in top && '/' !in id.userId && '/' !in id.instanceId
    ensures Split(top + "/" + id.userId + "/" + id.instanceId + "/" + rel, '/') == [top, id.userId, id.instanceId] + Split(rel, '/')
  {
    hide Split;
    var below := id.instanceId + ['/'] + rel;
    var under := id.userId + ['/'] + below;
    SplitFirst(id.instanceId, rel, '/');
    SplitFirst(id.userId, below, '/');
    SplitFirst(top, under, '/');
    assert top + "/" + id.userId + "/" + id.instanceId + "/" + rel == top + ['/'] + under;
  }

  // ── The instance dir ──────────────────────────────────────────────────────

  datatype Manifest = Manifest(config: Entries, media: Entries)

  // A section's own dir may be missing, and so may the saved manifest.
  datatype Disk = NoDir | Dir(config: Option<Tree>, media: Option<Tree>, saved: Option<Manifest>) {
    function Loaded(): Manifest
      requires Dir?
    {
      if saved.Some? then saved.value else Manifest(map[], map[])
    }

    /** The dir as a push sees it when some of its looks fail. */
    function Seen(u: Unseen): Disk {
      if NoDir? || u.dir then NoDir else Dir(if u.config then None else config, if u.media then None else media, saved)
    }

    /** The part of the dir such a push overlooks. */
    function Overlooked(u: Unseen): Disk
      requires Dir?
    {
      Dir(if u.dir || u.config then config else None, if u.dir || u.media then media else None, saved)
    }

    function Configs(): Option<Tree> { if Dir? then config else None }
    function Medias(): Option<Tree> { if Dir? then media else None }
  }

  // The looks at the instance dir and at a section's own dir that fail: whatever
  // the error, the push takes that dir for a missing one.
  datatype Unseen = Unseen(dir: bool, config: bool, media: bool)

  const ALL_SEEN := Unseen(false, false, false)

  // The instance's dir and its two S3 prefixes, by key suffix.
  datatype World = World(disk: Disk, overlay: map<Rel, Content>, media: map<Rel, Content>) {
    function ConfigMirror(): Mirror requires disk.Dir? { Mirror(overlay, disk.Loaded().config) }
    function MediaMirror(): Mirror requires disk.Dir? { Mirror(media, disk.Loaded().media) }
  }

  // ── One push ──────────────────────────────────────────────────────────────

  /** What went wrong: dirs not seen, a section's walk that threw, and the faults
      of its run. */
  datatype PushFaults = PushFaults(unseen: Unseen, configWalk: bool, config: Faults, mediaWalk: bool, media: Faults)

  function SyncSide(sec: Section, m: Mirror, tree: Option<Tree>, deletes: bool, f: Faults): Mirror {
    if tree.Some? then Sync(sec, m, tree.value, deletes, f) else m
  }

  function SideFailed(sec: Section, m: Mirror, tree: Option<Tree>, deletes: bool, f: Faults): nat {
    if tree.Some? then Stats(sec, m, tree.value, deletes, f).failed else 0
  }

  datatype Pushed = Pushed(world: World, ok: bool)

  /** The manifest is saved even when a walk throws; a walk of the config dir
      that throws leaves the media section alone. */
  function PushOnce(id: Ids, w: World, deletes: bool, pf: PushFaults): Pushed {
    var seen := w.disk.Seen(pf.unseen);
    if seen.NoDir? then Pushed(w, true)
    else if pf.configWalk && seen.config.Some? then
      Pushed(w.(disk := w.disk.(saved := Some(w.disk.Loaded()))), false)
    else
      var config := SyncSide(id.Config(), w.ConfigMirror(), seen.config, deletes, pf.config);
      if pf.mediaWalk && seen.media.Some? then
        Pushed(World(w.disk.(saved := Some(Manifest(config.entries, w.disk.Loaded().media))), config.remote, w.media), false)
      else
        var media := SyncSide(id.Media(), w.MediaMirror(), seen.media, deletes, pf.media);
        Pushed(World(w.disk.(saved := Some(Manifest(config.entries, media.entries))), config.remote, media.remote),
               SideFailed(id.Config(), w.ConfigMirror(), seen.config, deletes, pf.config)
               + SideFailed(id.Media(), w.MediaMirror(), seen.media, deletes, pf.media) == 0)
  }

  // ── The final push ────────────────────────────────────────────────────────

  // `saw` is the dir as the attempt saw it that got through.
  datatype Persisted = Persisted(world: World, ok: bool, saw: Disk)

  /** Attempts until one succeeds; then the dir goes, if rm works. */
  function Persist(id: Ids, w: World, tries: seq<PushFaults>, removed: bool): Persisted
    decreases |tries|
  {
    if tries == [] then Persisted(w, false, NoDir)
    else
      var p := PushOnce(id, w, true, tries[0]);
      if p.ok then
        Persisted(if removed then p.world.(disk := NoDir) else p.world, true, w.disk.Seen(tries[0].unseen))
      else Persist(id, p.world, tries[1..], removed)
  }

  lemma {:induction false} PersistNext(id: Ids, w: World, tries: seq<PushFaults>, next: PushFaults, removed: bool)
    requires !Persist(id, w, tries, removed).ok
    ensures Persist(id, w, tries + [next], removed) == Persist(id, Persist(id, w, tries, removed).world, [next], removed)
    ensures forall b :: Persist(id, w, tries, b) == Persist(id, w, tries, removed)
    decreases |tries|
  {
    hide PushOnce;
    if tries == [] {
      assert tries + [next] == [next];
    } else {
      PersistNext(id, PushOnce(id, w, true, tries[0]).world, tries[1..], next, removed);
      assert (tries + [next])[1..] == tries[1..] + [next];
    }
  }

  // ── What a push meets ─────────────────────────────────────────────────────

  // What the host and S3 will do wrong during one push.
  datatype PushTrouble = PushTrouble(unseen: Unseen, configWalk: bool, config: Trouble, mediaWalk: bool, media: Trouble)

  const NO_PUSH_TROUBLE := PushTrouble(ALL_SEEN, false, NO_TROUBLE, false, NO_TROUBLE)

  ghost predicate SideCaused(f: Faults, t: Trouble, sec: Section, m: Mirror, tree: Option<Tree>, deletes: bool) {
    tree.Some? ==> CausedBy(f, t, Gone(sec, m, tree.value), deletes)
  }

  /** A push reports exactly the faults it met. */
  ghost predicate PushCaused(id: Ids, w: World, deletes: bool, pf: PushFaults, t: PushTrouble) {
    && pf.unseen == t.unseen && pf.configWalk == t.configWalk && pf.mediaWalk == t.mediaWalk
    && var seen := w.disk.Seen(t.unseen);
      (seen.Dir? && !(t.configWalk && seen.config.Some?) ==>
        && SideCaused(pf.config, t.config, id.Config(), w.ConfigMirror(), seen.config, deletes)
        && (!(t.mediaWalk && seen.media.Some?) ==>
              SideCaused(pf.media, t.media, id.Media(), w.MediaMirror(), seen.media, deletes)))
  }

  /** So do the attempts of a final push, each in the world the one before left. */
  ghost predicate AttemptsCaused(id: Ids, w: World, tries: seq<PushFaults>, troubles: nat -> PushTrouble, from: nat)
    decreases |tries|
  {
    tries == [] ||
    (PushCaused(id, w, true, tries[0], troubles(from))
     && AttemptsCaused(id, PushOnce(id, w, true, tries[0]).world, tries[1..], troubles, from + 1))
  }

  lemma {:induction false} OneMoreCaused(id: Ids, w: World, tries: seq<PushFaults>, next: PushFaults, troubles: nat -> PushTrouble,
                                         from: nat)
    requires AttemptsCaused(id, w, tries, troubles, from) && !Persist(id, w, tries, false).ok
    requires PushCaused(id, Persist(id, w, tries, false).world, true, next, troubles(from + |tries|))
    ensures AttemptsCaused(id, w, tries + [next], troubles, from)
    decreases |tries|
  {
    hide PushOnce, PushCaused;
    if tries == [] {
      assert tries + [next] == [next] && [next][1..] == [];
    } else {
      OneMoreCaused(id, PushOnce(id, w, true, tries[0]).world, tries[1..], next, troubles, from + 1);
      assert (tries + [next])[1..] == tries[1..] + [next];
    }
  }
}
