// The host running a pull, one request after another.
module PullHost {
  import opened Text
  import opened SyncPolicy
  import opened ObjectStore
  import opened SyncSection
  import opened SyncEngine
  import opened Push
  import opened Pull
  import opened SyncGuarantees
  import opened PushHost

  class Directory {
    var files: Tree
    constructor (files: Tree) ensures this.files == files { this.files := files; }
  }

  ghost function LayerNow(dir: Directory, table: EntryTable): Layer
    reads dir, table
  {
    Layer(dir.files, table.entries)
  }

  /** Once a download has thrown, those of `dropped` may still arrive or not;
      DownloadPool has the order in which they do. */
  method DownloadPrefix(bucket: Bucket, keys: seq<Key>, prefix: string, base: seq<string>, rec: Recording, t: LayerTrouble,
                        dir: Directory, table: EntryTable)
    returns (ok: bool, ghost objs: seq<Object>)
    requires forall k :: k in keys ==> prefix <= k && k in bucket.objects
    modifies dir, table
    ensures LayerNow(dir, table) == DownloadAll(old(LayerNow(dir, table)), base, objs, rec)
    ensures forall o :: o in objs ==>
      && prefix + o.rel in keys && bucket.objects[prefix + o.rel] == o.content
      && o.mtimeMs == t.fetch.mtimes(o.rel) && !t.Fails(base, o.rel)
    ensures ok <==> forall r :: prefix + r in keys ==> !t.Fails(base, r)
    ensures forall r :: prefix + r in keys && !t.Fails(base, r) && (ok || r !in t.fetch.dropped) ==> Latest(objs, r).Some?
  {
    ghost var l := LayerNow(dir, table);
    ok, objs := true, [];
    for i := 0 to |keys|
      invariant LayerNow(dir, table) == DownloadAll(l, base, objs, rec)
      invariant forall o :: o in objs ==>
        && prefix + o.rel in keys && bucket.objects[prefix + o.rel] == o.content
        && o.mtimeMs == t.fetch.mtimes(o.rel) && !t.Fails(base, o.rel)
      invariant ok <==> forall r :: prefix + r in keys[..i] ==> !t.Fails(base, r)
      invariant forall r :: prefix + r in keys[..i] && !t.Fails(base, r) && (ok || r !in t.fetch.dropped) ==> Latest(objs, r).Some?
    {
      var key := keys[i];
      assert key in keys && keys[..i + 1] == keys[..i] + [key];
      var rel := key[|prefix|..];
      assert prefix + rel == key;
      forall r | prefix + r == key ensures r == rel { KeyInjective(prefix, r, rel); }
      if !ok && rel in t.fetch.dropped { continue; }
      ghost var o := Object(rel, bucket.objects[key], t.fetch.mtimes(rel));
      var path := LocalTarget(base, rel);
      if path.Some? {
        var content := bucket.Fetch(key, rel in t.fetch.fails);
        if content.None? {
          assert t.Fails(base, rel);
          ok := false;
          continue;
        }
        var arrived := Object(rel, content.value, t.fetch.mtimes(rel));
        dir.files := dir.files[path.value := arrived.File()];
        if rec.filter(rel) { table.entries := table.entries[rel := rec.Entry(arrived)]; }
      }
      OneMoreDownload(l, base, objs, o, rec);
      objs := objs + [o];
    }
    assert keys[..|keys|] == keys;
  }

  lemma OneMoreDownload(l: Layer, base: seq<string>, objs: seq<Object>, o: Object, rec: Recording)
    ensures DownloadAll(l, base, objs + [o], rec) == DownloadOne(DownloadAll(l, base, objs, rec), base, o, rec)
    ensures forall r :: Latest(objs + [o], r) == if o.rel == r then Some(o) else Latest(objs, r)
  {
    assert (objs + [o])[..|objs|] == objs;
  }

  method SplitByPolicy(keys: seq<Key>, prefix: string, filter: Rel -> bool) returns (keep: seq<Key>, junk: seq<Key>)
    requires Distinct(keys) && forall k :: k in keys ==> prefix <= k
    ensures forall k :: k in keep <==> k in keys && filter(k[|prefix|..])
    ensures forall k :: k in junk <==> k in keys && !filter(k[|prefix|..])
    ensures Distinct(junk)
  {
    keep, junk := [], [];
    for i := 0 to |keys|
      invariant forall k :: k in keep ==> k in keys
      invariant forall k :: k in junk ==> k in keys
      invariant forall k :: k in keys[..i] ==> k in keys
      invariant forall k :: k in keep <==> k in keys[..i] && filter(k[|prefix|..])
      invariant forall k :: k in junk <==> k in keys[..i] && !filter(k[|prefix|..])
      invariant Distinct(junk)
    {
      assert keys[i] !in keys[..i] && keys[i] in keys;
      assert keys[..i + 1] == keys[..i] + [keys[i]];
      if filter(keys[i][|prefix|..]) { keep := keep + [keys[i]]; } else { junk := junk + [keys[i]]; }
    }
    assert keys[..|keys|] == keys;
  }

  /** Lists a user prefix, downloads what the policy keeps and prunes the rest.
      A prune that fails is only logged. */
  method PullSection(bucket: Bucket, sec: Section, base: seq<string>, rec: Recording, t: LayerTrouble,
                     dir: Directory, table: EntryTable)
    returns (ok: bool, ghost objs: seq<Object>, ghost pruned: set<Rel>)
    requires rec.filter == sec.filter
    modifies bucket, dir, table
    ensures OnlyUnder(sec.prefix, old(bucket.objects), bucket.objects)
    ensures View(bucket.objects, sec.prefix) == old(View(bucket.objects, sec.prefix)) - pruned
    ensures forall r :: r in pruned ==> !sec.filter(r)
    ensures ok <==> !t.Breaks(base, Kept(sec.filter, old(View(bucket.objects, sec.prefix))))
    ensures LayerCaused(objs, Kept(sec.filter, old(View(bucket.objects, sec.prefix))), base, t)
    ensures ok ==> Lists(objs, Kept(sec.filter, old(View(bucket.objects, sec.prefix))))
    ensures if ok then PruneCaused(pruned, t.prune, Junk(sec.filter, old(View(bucket.objects, sec.prefix)))) else pruned == {}
    ensures LayerNow(dir, table) == DownloadAll(old(LayerNow(dir, table)), base, objs, rec)
  {
    objs, pruned := [], {};
    ghost var m := View(bucket.objects, sec.prefix);
    SameUnder(sec.prefix, bucket.objects);
    assert m - {} == m;
    var listing := bucket.ListObjects(sec.prefix, t.listThrows);
    if listing.None? { return false, objs, pruned; }
    var keep, junk := SplitByPolicy(listing.value, sec.prefix, sec.filter);
    ok, objs := DownloadPrefix(bucket, keep, sec.prefix, base, rec, t, dir, table);
    KeptKeys(bucket.objects, sec, keep);
    LayerHasCause(Kept(sec.filter, m), sec.prefix, keep, objs, base, t, ok);
    if !ok { return; }
    pruned := PruneKeys(bucket, sec, junk, t.prune);
  }

  /** Deletes keys the policy does not keep. */
  method PruneKeys(bucket: Bucket, sec: Section, junk: seq<Key>, trouble: Trouble) returns (ghost pruned: set<Rel>)
    requires Distinct(junk)
    requires forall k :: k in junk <==> k in bucket.objects && sec.prefix <= k && !sec.filter(k[|sec.prefix|..])
    modifies bucket
    ensures OnlyUnder(sec.prefix, old(bucket.objects), bucket.objects)
    ensures View(bucket.objects, sec.prefix) == old(View(bucket.objects, sec.prefix)) - pruned
    ensures PruneCaused(pruned, trouble, Junk(sec.filter, old(View(bucket.objects, sec.prefix))))
    ensures forall r :: r in pruned ==> !sec.filter(r)
  {
    hide View, DeletesCaused;
    ghost var objects := bucket.objects;
    ghost var accepted, answered;
    var result;
    result, accepted, answered := bucket.DeleteKeys(junk, trouble.AtDelete(sec.prefix));
    forall k | k in accepted ensures k in junk { assert k in junk[..answered]; }
    ViewDelete(objects, sec.prefix, accepted);
    pruned := SuffixesOf(sec.prefix, accepted);
    JunkKeys(objects, sec, junk);
    SuffixCount(sec.prefix, junk);
    ghost var f := Faults({}, {}, pruned, result.None?);
    DeleteHasCause(sec.prefix, junk, accepted, answered, f, trouble, Junk(sec.filter, View(objects, sec.prefix)));
    forall r | r in pruned ensures !sec.filter(r) { SuffixIn(sec.prefix, accepted, r); assert (sec.prefix + r)[|sec.prefix|..] == r; }
  }

  lemma JunkKeys(objects: map<Key, Content>, sec: Section, junk: seq<Key>)
    requires forall k :: k in junk <==> k in objects && sec.prefix <= k && !sec.filter(k[|sec.prefix|..])
    ensures SuffixesOf(sec.prefix, junk) == Junk(sec.filter, View(objects, sec.prefix))
  {
    forall r ensures r in SuffixesOf(sec.prefix, junk) <==> r in View(objects, sec.prefix) && !sec.filter(r) {
      SuffixIn(sec.prefix, junk, r);
      assert (sec.prefix + r)[|sec.prefix|..] == r;
    }
  }

  lemma KeptKeys(objects: map<Key, Content>, sec: Section, keep: seq<Key>)
    requires forall k :: k in keep <==> k in objects && sec.prefix <= k && sec.filter(k[|sec.prefix|..])
    ensures forall r :: sec.prefix + r in keep <==> r in Kept(sec.filter, View(objects, sec.prefix))
    ensures forall r :: r in Kept(sec.filter, View(objects, sec.prefix)) ==>
      Kept(sec.filter, View(objects, sec.prefix))[r] == objects[sec.prefix + r]
  {
    forall r ensures (sec.prefix + r)[|sec.prefix|..] == r { }
  }

  lemma LayerHasCause(m: map<Rel, Content>, prefix: string, keys: seq<Key>, objs: seq<Object>, base: seq<string>, t: LayerTrouble,
                      ok: bool)
    requires !t.listThrows && forall r :: prefix + r in keys <==> r in m
    requires forall o :: o in objs ==>
      prefix + o.rel in keys && o.rel in m && m[o.rel] == o.content && o.mtimeMs == t.fetch.mtimes(o.rel) && !t.Fails(base, o.rel)
    requires ok <==> forall r :: prefix + r in keys ==> !t.Fails(base, r)
    requires forall r :: prefix + r in keys && !t.Fails(base, r) && (ok || r !in t.fetch.dropped) ==> Latest(objs, r).Some?
    ensures LayerCaused(objs, m, base, t) && (ok <==> !t.Breaks(base, m)) && (ok ==> Lists(objs, m))
  {
    if ok {
      forall r | r in m ensures !t.Fails(base, r) { assert prefix + r in keys; }
    } else {
      var r :| prefix + r in keys && t.Fails(base, r);
      assert r in m;
    }
    hide LocalTarget;
  }

  /** Replaces basic/profiles by the template's; what it fetched before a
      request threw stays. */
  method ApplyTemplateProfile(host: Host, template: string, wipe: Wipe, t: LayerTrouble) returns (ghost objs: seq<Object>)
    requires host.disk.Dir?
    modifies host`disk
    ensures host.disk == Reprofiled(host.id, old(host.Now()), objs, wipe).disk
    ensures Profiles(objs, host.Template(template))
    ensures if wipe.Stuck? then objs == [] else LayerCaused(objs, ProfilesOf(host.Template(template)), host.id.ConfigDir(), t)
  {
    hide View;
    objs := [];
    var prefix, base := TemplatePrefix(template), host.id.ConfigDir();
    if wipe.Stuck? {
      if host.disk.config.Some? { host.disk := host.disk.(config := Some(OnlyLeft(host.disk.config.value, wipe.left))); }
      return;
    }
    var left := if host.disk.config.Some? then WithoutProfiles(host.disk.config.value) else map[];
    if host.disk.config.Some? { host.disk := host.disk.(config := Some(left)); }
    var listing := host.bucket.ListObjects(prefix + "basic/profiles/", t.listThrows);
    if listing.None? { return; }
    var keys := listing.value;
    var dir := new Directory(left);
    var unused := new EntryTable(map[]);
    ProfileKeys(host.bucket.objects, prefix, keys);
    var ok;
    ok, objs := DownloadPrefix(host.bucket, keys, prefix, base, UNRECORDED, t, dir, unused);
    LayerHasCause(ProfilesOf(View(host.bucket.objects, prefix)), prefix, keys, objs, base, t, ok);
    if host.disk.config.Some? || dir.files != map[] { host.disk := host.disk.(config := Some(dir.files)); }
  }

  lemma ProfileKeys(objects: map<Key, Content>, prefix: string, keys: seq<Key>)
    requires forall k :: k in keys <==> k in objects && prefix + "basic/profiles/" <= k
    ensures forall k :: k in keys ==> prefix <= k
    ensures forall r :: prefix + r in keys <==> r in ProfilesOf(View(objects, prefix))
    ensures forall r :: r in ProfilesOf(View(objects, prefix)) ==> ProfilesOf(View(objects, prefix))[r] == objects[prefix + r]
  {
    var below := prefix + "basic/profiles/";
    forall r ensures prefix + r in keys <==> r in ProfilesOf(View(objects, prefix)) {
      assert (prefix + r)[|prefix|..] == r;
      if below <= prefix + r { assert (prefix + r)[..|below|] == below && r[..15] == below[|prefix|..]; }
      if "basic/profiles/" <= r { assert prefix + r == below + r[15..]; }
    }
    forall k | k in keys ensures prefix <= k { assert below[..|prefix|] == prefix; }
  }

  /** The pull past the leftover: template, overlay, media, manifest. A throw
      leaves whatever arrived so far and no new manifest. */
  method Restore(host: Host, template: string, t: PullTrouble) returns (ok: bool, ghost run: PullRun)
    modifies host`disk, host.bucket
    ensures ok <==> !RestoreBreaks(host.id, old(host.Now()), old(host.Template(template)), t)
    ensures RestoreCaused(host.id, old(host.Now()), old(host.Template(template)), run, t)
    ensures ok ==> Fetched(old(host.Now()), old(host.Template(template)), run)
    ensures ok ==> host.Now() == PulledOnto(host.id, old(host.Now()), run)
    ensures !ok ==> Partial(old(host.Now()), old(host.Template(template)), run) && run.prunedMedia == {}
    ensures !ok ==>
      host.Now() == ThrownOnto(host.id, old(host.Now()), run, ReachesMedia(host.id, old(host.Now()), old(host.Template(template)), t))
    ensures OnlyPruned(old(host.Now()), host.Now(), run)
    ensures forall name :: host.Template(name) == old(host.Template(name))
  {
    hide View, Apart, OnlyUnder, Lists, Drawn, DownloadAll, Kept, WithoutPlugins, PulledOnto, ThrownOnto, IsSyncedConfigPath,
      IsSyncedMediaPath, LayerCaused, PruneCaused, LayerTrouble.Breaks, Junk, Partial,
      RestoreBreaks, RestoreCaused;
    var id, bucket := host.id, host.bucket;
    ghost var w := host.Now();
    ghost var none := Faults({}, {}, {}, false);
    run := PullRun(false, PushFaults(ALL_SEEN, false, none, false, none), false, Wiped, [], [], [], {}, {});
    assert w.overlay - {} == w.overlay && w.media - {} == w.media;
    var had, hadMedia := host.disk.Configs(), host.disk.Medias();
    var saved := if host.disk.Dir? then host.disk.saved else None;
    var config := new Directory(if had.Some? then had.value else map[]);
    var configTable := new EntryTable(map[]);
    ghost var fetched;
    ok, fetched := PullTemplate(bucket, id, template, t.template, config, configTable);
    run := run.(template := fetched);
    NothingDownloaded(Ground(hadMedia), id.MediaDir(), FROM_MEDIA);
    host.disk := Dir(Some(config.files), hadMedia, saved);
    NothingDownloaded(LayerNow(config, configTable), id.ConfigDir(), FROM_OVERLAY);
    if !ok {
      OntoForm(id, w, run, false);
      TemplateBroke(id, w, old(host.Template(template)), run, t);
      return;
    }

    ghost var objects, pruned := bucket.objects, {};
    ok, fetched, pruned := PullSection(bucket, id.Config(), id.ConfigDir(), FROM_OVERLAY, t.overlay, config, configTable);
    run := run.(overlay := fetched, prunedConfig := pruned);
    SectionFrame(id, objects, bucket.objects, id.ConfigPrefix(), id.MediaPrefix());
    host.disk := Dir(Some(config.files), hadMedia, saved);
    if !ok {
      OntoForm(id, w, run, false);
      OverlayBroke(id, w, old(host.Template(template)), run, t);
      return;
    }

    var media := new Directory(if hadMedia.Some? then hadMedia.value else map[]);
    var mediaTable := new EntryTable(map[]);
    objects := bucket.objects;
    ok, fetched, pruned := PullSection(bucket, id.Media(), id.MediaDir(), FROM_MEDIA, t.media, media, mediaTable);
    run := run.(media := fetched, prunedMedia := pruned);
    SectionFrame(id, objects, bucket.objects, id.MediaPrefix(), id.ConfigPrefix());
    host.disk := Dir(Some(config.files), Some(media.files), saved);
    OntoForm(id, w, run, true);
    MediaEnded(id, w, old(host.Template(template)), run, t, ok);
    if !ok { return; }
    host.disk := Dir(Some(config.files), Some(media.files), Some(Manifest(configTable.entries, mediaTable.entries)));
  }

  lemma TemplateBroke(id: Ids, w: World, template: map<Rel, Content>, run: PullRun, t: PullTrouble)
    requires t.template.Breaks(id.ConfigDir(), WithoutPlugins(template))
    requires LayerCaused(run.template, WithoutPlugins(template), id.ConfigDir(), t.template)
    requires run.overlay == run.media == [] && run.prunedConfig == run.prunedMedia == {}
    ensures RestoreCaused(id, w, template, run, t) && Partial(w, template, run)
    ensures RestoreBreaks(id, w, template, t) && !ReachesMedia(id, w, template, t)
  {
    CausedIsPartial(id, w, template, run, t);
    hide Kept, WithoutPlugins, LayerCaused, PruneCaused;
  }

  lemma OverlayBroke(id: Ids, w: World, template: map<Rel, Content>, run: PullRun, t: PullTrouble)
    requires !t.template.Breaks(id.ConfigDir(), WithoutPlugins(template))
    requires t.overlay.Breaks(id.ConfigDir(), Kept(IsSyncedConfigPath, w.overlay))
    requires LayerCaused(run.template, WithoutPlugins(template), id.ConfigDir(), t.template)
    requires LayerCaused(run.overlay, Kept(IsSyncedConfigPath, w.overlay), id.ConfigDir(), t.overlay)
    requires run.media == [] && run.prunedConfig == run.prunedMedia == {}
    ensures RestoreCaused(id, w, template, run, t) && Partial(w, template, run)
    ensures RestoreBreaks(id, w, template, t) && !ReachesMedia(id, w, template, t)
  {
    CausedIsPartial(id, w, template, run, t);
    hide Kept, WithoutPlugins, LayerCaused, PruneCaused;
  }

  lemma MediaEnded(id: Ids, w: World, template: map<Rel, Content>, run: PullRun, t: PullTrouble, ok: bool)
    requires ReachesMedia(id, w, template, t)
    requires ok <==> !t.media.Breaks(id.MediaDir(), Kept(IsSyncedMediaPath, w.media))
    requires LayerCaused(run.template, WithoutPlugins(template), id.ConfigDir(), t.template)
    requires LayerCaused(run.overlay, Kept(IsSyncedConfigPath, w.overlay), id.ConfigDir(), t.overlay)
    requires LayerCaused(run.media, Kept(IsSyncedMediaPath, w.media), id.MediaDir(), t.media)
    requires PruneCaused(run.prunedConfig, t.overlay.prune, Junk(IsSyncedConfigPath, w.overlay))
    requires if ok then PruneCaused(run.prunedMedia, t.media.prune, Junk(IsSyncedMediaPath, w.media)) else run.prunedMedia == {}
    ensures RestoreCaused(id, w, template, run, t) && Partial(w, template, run)
    ensures RestoreBreaks(id, w, template, t) <==> !ok
  {
    hide PruneCaused;
    CausedIsPartial(id, w, template, run, t);
    hide Kept, WithoutPlugins, LayerCaused;
  }

  lemma CausedIsPartial(id: Ids, w: World, template: map<Rel, Content>, run: PullRun, t: PullTrouble)
    requires RestoreCaused(id, w, template, run, t)
    ensures Partial(w, template, run)
  {
    hide WithoutPlugins, Kept, IsSyncedConfigPath, IsSyncedMediaPath, PruneCaused, Junk;
  }

  lemma NothingDownloaded(l: Layer, base: seq<string>, rec: Recording)
    ensures DownloadAll(l, base, [], rec) == l
  {
  }

  /** The base layer: everything of the template but plugin binaries. */
  method PullTemplate(bucket: Bucket, id: Ids, template: string, t: LayerTrouble, dir: Directory, table: EntryTable)
    returns (ok: bool, ghost objs: seq<Object>)
    modifies dir, table
    ensures ok <==> !t.Breaks(id.ConfigDir(), WithoutPlugins(View(bucket.objects, TemplatePrefix(template))))
    ensures LayerCaused(objs, WithoutPlugins(View(bucket.objects, TemplatePrefix(template))), id.ConfigDir(), t)
    ensures Drawn(objs, WithoutPlugins(View(bucket.objects, TemplatePrefix(template))))
    ensures ok ==> Lists(objs, WithoutPlugins(View(bucket.objects, TemplatePrefix(template))))
    ensures LayerNow(dir, table) == DownloadAll(old(LayerNow(dir, table)), id.ConfigDir(), objs, FROM_TEMPLATE)
  {
    hide DownloadAll;
    objs := [];
    var prefix := TemplatePrefix(template);
    var listing := bucket.ListObjects(prefix, t.listThrows);
    NothingDownloaded(LayerNow(dir, table), id.ConfigDir(), FROM_TEMPLATE);
    if listing.None? { return false, objs; }
    var keep, junk := SplitByPolicy(listing.value, prefix, rel => !IsPluginPath(rel));
    ok, objs := DownloadPrefix(bucket, keep, prefix, id.ConfigDir(), FROM_TEMPLATE, t, dir, table);
    var notPlugins := Section(prefix, rel => !IsPluginPath(rel), true);
    KeptKeys(bucket.objects, notPlugins, keep);
    assert Kept(notPlugins.filter, View(bucket.objects, prefix)) == WithoutPlugins(View(bucket.objects, prefix));
    LayerHasCause(WithoutPlugins(View(bucket.objects, prefix)), prefix, keep, objs, id.ConfigDir(), t, ok);
  }

  /** Gets a leftover dir out of the way: pushed and removed, or kept with the
      template's profile. */
  method ClearLeftover(host: Host, template: string, t: PullTrouble) returns (cleared: bool, ghost run: PullRun)
    requires host.disk.Dir?
    modifies host`disk, host.bucket
    ensures LeftoverCaused(host.id, old(host.Now()), old(host.Template(template)), run, t)
    ensures cleared <==> PushOnce(host.id, old(host.Now()), true, run.push).ok && !t.rmFails
    ensures !PushMeets(host.id, old(host.Now()), true, t.push) && !t.rmFails ==> cleared
    ensures cleared ==> host.disk.NoDir? && Cleared(host.id, old(host.Now()), run) == Some(host.Now())
    ensures !cleared ==>
      && Cleared(host.id, old(host.Now()), run).None?
      && PushOnce(host.id, old(host.Now()), true, run.push).world.disk.Dir?
      && host.Now() == Reprofiled(host.id, PushOnce(host.id, old(host.Now()), true, run.push).world, run.template, run.wipe)
      && Profiles(run.template, old(host.Template(template)))
    ensures forall name :: host.Template(name) == old(host.Template(name))
  {
    hide View, PushOnce, Profiles, PushCaused, PushMeets, PushDone, WorldTrue, Saved, NoneLeftBehind, LayerCaused;
    ghost var push;
    var pushed;
    pushed, push := host.PushObsConfig(true, t.push);
    var gone := false;
    if pushed { gone := host.RemoveLocalConfig(t.rmFails); }
    run := PullRun(false, push, !t.rmFails, Wiped, [], [], [], {}, {});
    cleared := pushed && gone;
    if !cleared {
      ghost var profiles := ApplyTemplateProfile(host, template, t.wipe, t.profiles);
      run := run.(template := profiles, wipe := t.wipe);
    }
  }

  /** Past the leftover, the pull completes exactly when no listing and no download
      of a layer throws; then every path holds what the layers say, and the pruned
      keys are those the policy does not keep. */
  method PullObsConfig(host: Host, template: string, t: PullTrouble) returns (outcome: Outcome, ghost run: PullRun)
    modifies host`disk, host.bucket
    ensures old(host.disk.Dir?) && !t.overlooked ==> LeftoverCaused(host.id, old(host.Now()), old(host.Template(template)), run, t)
    ensures outcome.Leftover? <==>
      old(host.disk.Dir?) && !t.overlooked && !(PushOnce(host.id, old(host.Now()), true, run.push).ok && !t.rmFails)
    ensures outcome.Leftover? ==> PushMeets(host.id, old(host.Now()), true, t.push) || t.rmFails
    ensures outcome.Leftover? ==>
      && Cleared(host.id, old(host.Now()), run).None?
      && PushOnce(host.id, old(host.Now()), true, run.push).world.disk.Dir?
      && host.Now() == Reprofiled(host.id, PushOnce(host.id, old(host.Now()), true, run.push).world, run.template, run.wipe)
      && Profiles(run.template, old(host.Template(template)))
    ensures !outcome.Leftover? ==>
      && Cleared(host.id, old(host.Now()), run).Some?
      && var w := Cleared(host.id, old(host.Now()), run).value;
        && (w.disk.NoDir? <==> old(host.disk.NoDir?) || !t.overlooked)
        && (outcome.Completed? <==> !RestoreBreaks(host.id, w, old(host.Template(template)), t))
        && RestoreCaused(host.id, w, old(host.Template(template)), run, t)
    ensures outcome.Completed? ==>
      && Fetched(Cleared(host.id, old(host.Now()), run).value, old(host.Template(template)), run)
      && host.Now() == PulledOnto(host.id, Cleared(host.id, old(host.Now()), run).value, run)
    ensures outcome.Threw? ==>
      var w := Cleared(host.id, old(host.Now()), run).value;
      && host.Now() == ThrownOnto(host.id, w, run, ReachesMedia(host.id, w, old(host.Template(template)), t))
      && Partial(w, old(host.Template(template)), run) && run.prunedMedia == {}
      && OnlyPruned(w, host.Now(), run)
    ensures outcome.Completed? && old(host.disk.NoDir?) && WalkShaped(old(host.Now()), old(host.Template(template))) ==>
      PullDone(host.id, old(host.Now()), old(host.Template(template)), host.Now(), t)
    ensures outcome.Completed? && old(host.disk.Dir?) && !t.overlooked ==>
      (WorldTrue(host.id, old(host.Now()), old(host.Template(template)))
       && WalkShaped(Cleared(host.id, old(host.Now()), run).value, old(host.Template(template))) ==>
         BroughtBack(host.id, old(host.disk).Seen(t.push.unseen), host.Now()))
    ensures forall name :: host.Template(name) == old(host.Template(name))
  {
    hide View, PushOnce, Fetched, Partial, PulledOnto, ThrownOnto, Reprofiled, Profiles, PushCaused, PushMeets, RestoreBreaks,
      RestoreCaused, ReachesMedia, WalkShaped, PullDone, WorldTrue, BroughtBack, LayerCaused;
    ghost var none := Faults({}, {}, {}, false);
    ghost var left := PullRun(t.overlooked, PushFaults(ALL_SEEN, false, none, false, none), false, Wiped, [], [], [], {}, {});
    ghost var start, files := host.Now(), host.Template(template);
    if host.disk.Dir? && !t.overlooked {
      var cleared;
      cleared, left := ClearLeftover(host, template, t);
      CausedUnseen(host.id, start, true, left.push, t.push);
      if !cleared { return Leftover, left; }
    }
    ghost var before := host.Now();
    var ok;
    ok, run := Restore(host, template, t);
    RunOfRestore(host.id, before, files, run, left, t);
    run := run.(overlooked := left.overlooked, push := left.push, removed := left.removed, wipe := left.wipe);
    outcome := if ok then Completed else Threw;
    PullPromise(host.id, start, before, files, run, t, host.Now(), outcome);
  }

  lemma RunOfRestore(id: Ids, w: World, template: map<Rel, Content>, run: PullRun, left: PullRun, t: PullTrouble)
    ensures var whole := run.(overlooked := left.overlooked, push := left.push, removed := left.removed, wipe := left.wipe);
      && PulledOnto(id, w, whole) == PulledOnto(id, w, run)
      && (forall b :: ThrownOnto(id, w, whole, b) == ThrownOnto(id, w, run, b))
      && (Partial(w, template, run) ==> Partial(w, template, whole))
      && (Fetched(w, template, run) ==> Fetched(w, template, whole))
      && (RestoreCaused(id, w, template, run, t) ==> RestoreCaused(id, w, template, whole, t))
  {
  }

  /** Every path of a completed pull, and every key left in the two prefixes. */
  ghost predicate PullDone(id: Ids, w: World, template: map<Rel, Content>, after: World, t: PullTrouble) {
    && after.disk.Dir? && after.disk.config.Some? && after.disk.media.Some?
    && (forall r :: ContentAt(after.disk.config.value, r) == Layered(w, template, r))
    && (forall r :: ContentAt(after.disk.media.value, r) == if IsSyncedMediaPath(r) then Get(w.media, r) else None)
    && (forall r :: IsSyncedConfigPath(r) ==> Get(after.overlay, r) == Get(w.overlay, r))
    && (forall r :: IsSyncedMediaPath(r) ==> Get(after.media, r) == Get(w.media, r))
    && (t.overlay.prune == NO_TROUBLE ==> forall r :: r in after.overlay ==> IsSyncedConfigPath(r))
    && (t.media.prune == NO_TROUBLE ==> forall r :: r in after.media ==> IsSyncedMediaPath(r))
  }

  lemma CleanPrune(pruned: set<Rel>, junk: set<Rel>)
    requires PruneCaused(pruned, NO_TROUBLE, junk)
    ensures pruned == junk
  {
  }

  lemma PulledMeansIt(id: Ids, w: World, template: map<Rel, Content>, run: PullRun, t: PullTrouble)
    requires Fetched(w, template, run) && WalkShaped(w, template)
    requires RestoreCaused(id, w, template, run, t) && !RestoreBreaks(id, w, template, t)
    ensures PullDone(id, w, template, Pulled(id, w, run), t)
  {
    var after := Pulled(id, w, run);
    PrunedMeansIt(id, w, template, run, t);
    forall r
      ensures ContentAt(after.disk.config.value, r) == Layered(w, template, r)
      ensures ContentAt(after.disk.media.value, r) == if IsSyncedMediaPath(r) then Get(w.media, r) else None
    {
      ConfigPathPulled(id, w, template, run, r);
      MediaPathPulled(id, w, template, run, r);
      hide ConfigLayer, MediaLayer, IsSyncedConfigPath, IsSyncedMediaPath, Fetched, WalkShaped, Layered, RestoreCaused;
    }
    hide ConfigLayer, MediaLayer, IsSyncedConfigPath, IsSyncedMediaPath, WalkShaped, Layered, Fetched, RestoreCaused, RestoreBreaks;
  }

  lemma PrunedMeansIt(id: Ids, w: World, template: map<Rel, Content>, run: PullRun, t: PullTrouble)
    requires Fetched(w, template, run) && RestoreCaused(id, w, template, run, t) && !RestoreBreaks(id, w, template, t)
    ensures var overlay, media := w.overlay - run.prunedConfig, w.media - run.prunedMedia;
      && (forall r :: IsSyncedConfigPath(r) ==> Get(overlay, r) == Get(w.overlay, r))
      && (forall r :: IsSyncedMediaPath(r) ==> Get(media, r) == Get(w.media, r))
      && (t.overlay.prune == NO_TROUBLE ==> forall r :: r in overlay ==> IsSyncedConfigPath(r))
      && (t.media.prune == NO_TROUBLE ==> forall r :: r in media ==> IsSyncedMediaPath(r))
  {
    hide IsSyncedConfigPath, IsSyncedMediaPath, LayerCaused, Lists, Kept, PruneCaused, LayerTrouble.Breaks;
    assert PruneCaused(run.prunedConfig, t.overlay.prune, Junk(IsSyncedConfigPath, w.overlay));
    assert PruneCaused(run.prunedMedia, t.media.prune, Junk(IsSyncedMediaPath, w.media));
    if t.overlay.prune == NO_TROUBLE { CleanPrune(run.prunedConfig, Junk(IsSyncedConfigPath, w.overlay)); }
    if t.media.prune == NO_TROUBLE { CleanPrune(run.prunedMedia, Junk(IsSyncedMediaPath, w.media)); }
  }

  lemma PullPromise(id: Ids, start: World, before: World, template: map<Rel, Content>, run: PullRun, t: PullTrouble, after: World,
                    outcome: Outcome)
    requires Cleared(id, start, run) == Some(before) && (run.overlooked <==> t.overlooked)
    requires start.disk.Dir? && !t.overlooked ==> run.push.unseen == t.push.unseen
    requires outcome.Completed? ==>
      && Fetched(before, template, run) && after == PulledOnto(id, before, run)
      && RestoreCaused(id, before, template, run, t) && !RestoreBreaks(id, before, template, t)
    ensures outcome.Completed? && start.disk.NoDir? && WalkShaped(start, template) ==> PullDone(id, start, template, after, t)
    ensures outcome.Completed? && start.disk.Dir? && !t.overlooked && WorldTrue(id, start, template) && WalkShaped(before, template) ==>
      BroughtBack(id, start.disk.Seen(t.push.unseen), after)
  {
    if outcome.Completed? && start.disk.NoDir? && WalkShaped(start, template) { PulledMeansIt(id, start, template, run, t); }
    if outcome.Completed? && start.disk.Dir? && !t.overlooked && WorldTrue(id, start, template) && WalkShaped(before, template) {
      LeftoverComesBack(id, start, template, run);
    }
    hide PushOnce, Pulled, Fetched, RestoreCaused, RestoreBreaks, WalkShaped, WorldTrue, BroughtBack, PullDone;
  }
}
