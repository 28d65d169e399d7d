// The host running the pushes, one request after another.
module PushHost {
  import opened Text
  import opened SyncPolicy
  import opened ObjectStore
  import opened SyncSection
  import opened SyncEngine
  import opened Push
  import opened SyncGuarantees

  class Host {
    const id: Ids
    const bucket: Bucket
    var disk: Disk

    constructor (id: Ids, bucket: Bucket)
      ensures this.id == id && this.bucket == bucket && disk == NoDir
    {
      this.id, this.bucket, this.disk := id, bucket, NoDir;
    }

    ghost function Now(): World
      reads this, bucket
    {
      World(disk, View(bucket.objects, id.ConfigPrefix()), View(bucket.objects, id.MediaPrefix()))
    }

    ghost function Template(name: string): map<Rel, Content>
      reads bucket
    {
      View(bucket.objects, TemplatePrefix(name))
    }

    /** Whatever goes wrong, what it does not touch is done (PushDone), a failure has
        a cause, and success means that all it saw is saved. */
    method PushObsConfig(deletes: bool, trouble: PushTrouble) returns (ok: bool, ghost pf: PushFaults)
      modifies this`disk, bucket
      ensures Now() == PushOnce(id, old(Now()), deletes, pf).world
      ensures ok == PushOnce(id, old(Now()), deletes, pf).ok
      ensures PushCaused(id, old(Now()), deletes, pf, trouble)
      ensures disk.Dir? == old(disk.Dir?) && (disk.Dir? ==> SameFiles(old(Now()), Now()))
      ensures forall template :: old(disk.Dir?) && WorldTrue(id, old(Now()), template) ==>
        && PushDone(id, old(Now()), Now(), deletes, trouble, template)
        && (ok ==> Saved(id, old(disk).Seen(trouble.unseen), Now(), template))
      ensures !PushMeets(id, old(Now()), deletes, trouble) ==> ok
      ensures trouble == NO_PUSH_TROUBLE ==>
        && ok
        && (forall template :: old(disk.Dir?) && WorldTrue(id, old(Now()), template) ==>
              Saved(id, old(disk), Now(), template) && (deletes ==> NoneLeftBehind(id, old(Now()), Now())))
      ensures forall name :: Template(name) == old(Template(name))
    {
      pf := PushFaults(trouble.unseen, trouble.configWalk, trouble.config.AtUpload(), trouble.mediaWalk, trouble.media.AtUpload());
      var seen := disk.Seen(trouble.unseen);
      ok := true;
      ghost var w := Now();
      if seen.Dir? { ok, pf := SyncSections(seen, deletes, trouble); }
      hide PushOnce, PushCaused, PushDone, PushMeets, WorldTrue, Saved, NoneLeftBehind;
      PushPromise(id, w, deletes, pf, trouble);
    }

    /** Both sections; the manifest is saved even when a walk throws. */
    method SyncSections(seen: Disk, deletes: bool, trouble: PushTrouble) returns (ok: bool, ghost pf: PushFaults)
      requires seen.Dir? && seen == disk.Seen(trouble.unseen)
      modifies this`disk, bucket
      ensures Now() == PushOnce(id, old(Now()), deletes, pf).world
      ensures ok == PushOnce(id, old(Now()), deletes, pf).ok
      ensures PushCaused(id, old(Now()), deletes, pf, trouble)
      ensures disk.Dir?
      ensures forall name :: Template(name) == old(Template(name))
    {
      hide Sync, View, Stats, Apart, OnlyUnder, PushOnce, PushCaused, SideCaused, SyncSide, SideFailed;
      ghost var w := Now();
      pf := PushFaults(trouble.unseen, trouble.configWalk, trouble.config.AtUpload(), trouble.mediaWalk, trouble.media.AtUpload());
      var manifest := disk.Loaded();
      var config := new EntryTable(manifest.config);
      var media := new EntryTable(manifest.media);
      if trouble.configWalk && seen.config.Some? {
        disk := disk.(saved := Some(Manifest(config.entries, media.entries)));
        ConfigWalkThrew(id, w, deletes, pf, trouble);
        return false, pf;
      }
      var configStats, mediaStats;
      assert MirrorNow(bucket, config, id.ConfigPrefix()) == w.ConfigMirror();
      configStats, pf := SyncConfig(config, seen.config, deletes, trouble.config, pf);
      ghost var synced := MirrorNow(bucket, config, id.ConfigPrefix());
      assert synced == SyncSide(id.Config(), w.ConfigMirror(), seen.config, deletes, pf.config);
      assert View(bucket.objects, id.MediaPrefix()) == w.media && media.entries == w.disk.Loaded().media && disk == w.disk;
      if trouble.mediaWalk && seen.media.Some? {
        disk := disk.(saved := Some(Manifest(config.entries, media.entries)));
        MediaWalkThrew(id, w, deletes, pf, trouble, synced);
        return false, pf;
      }
      assert MirrorNow(bucket, media, id.MediaPrefix()) == w.MediaMirror();
      mediaStats, pf := SyncMedia(media, seen.media, deletes, trouble.media, pf);
      ghost var mediaSynced := MirrorNow(bucket, media, id.MediaPrefix());
      assert mediaSynced == SyncSide(id.Media(), w.MediaMirror(), seen.media, deletes, pf.media);
      assert config.entries == synced.entries && media.entries == mediaSynced.entries && disk == w.disk;
      assert View(bucket.objects, id.ConfigPrefix()) == synced.remote && View(bucket.objects, id.MediaPrefix()) == mediaSynced.remote;
      disk := disk.(saved := Some(Manifest(config.entries, media.entries)));
      BothSynced(id, w, deletes, pf, trouble, synced, mediaSynced, configStats.failed, mediaStats.failed);
      ok := configStats.failed + mediaStats.failed == 0;
    }

    method SyncConfig(table: EntryTable, tree: Option<Tree>, deletes: bool, trouble: Trouble, ghost pf0: PushFaults)
      returns (stats: SyncStats, ghost pf: PushFaults)
      modifies bucket, table
      ensures pf == pf0.(config := pf.config)
      ensures var m := old(MirrorNow(bucket, table, id.ConfigPrefix()));
        && MirrorNow(bucket, table, id.ConfigPrefix()) == SyncSide(id.Config(), m, tree, deletes, pf.config)
        && stats.failed == SideFailed(id.Config(), m, tree, deletes, pf.config)
        && SideCaused(pf.config, trouble, id.Config(), m, tree, deletes)
      ensures View(bucket.objects, id.MediaPrefix()) == old(View(bucket.objects, id.MediaPrefix()))
      ensures forall name :: Template(name) == old(Template(name))
    {
      hide Sync, View, Stats, OnlyUnder, Apart, CausedBy;
      ghost var f;
      ghost var before := bucket.objects;
      stats, f := SyncDirectory(bucket, table, id.Config(), tree, deletes, trouble);
      SectionFrame(id, before, bucket.objects, id.ConfigPrefix(), id.MediaPrefix());
      pf := pf0.(config := f);
    }

    method SyncMedia(table: EntryTable, tree: Option<Tree>, deletes: bool, trouble: Trouble, ghost pf0: PushFaults)
      returns (stats: SyncStats, ghost pf: PushFaults)
      modifies bucket, table
      ensures pf == pf0.(media := pf.media)
      ensures var m := old(MirrorNow(bucket, table, id.MediaPrefix()));
        && MirrorNow(bucket, table, id.MediaPrefix()) == SyncSide(id.Media(), m, tree, deletes, pf.media)
        && stats.failed == SideFailed(id.Media(), m, tree, deletes, pf.media)
        && SideCaused(pf.media, trouble, id.Media(), m, tree, deletes)
      ensures View(bucket.objects, id.ConfigPrefix()) == old(View(bucket.objects, id.ConfigPrefix()))
      ensures forall name :: Template(name) == old(Template(name))
    {
      hide Sync, View, Stats, OnlyUnder, Apart, CausedBy;
      ghost var f;
      ghost var before := bucket.objects;
      stats, f := SyncDirectory(bucket, table, id.Media(), tree, deletes, trouble);
      SectionFrame(id, before, bucket.objects, id.MediaPrefix(), id.ConfigPrefix());
      pf := pf0.(media := f);
    }

    /** `rm` of the whole dir: all or nothing. */
    method RemoveLocalConfig(fails: bool) returns (ok: bool)
      modifies this`disk
      ensures ok == !fails && disk == if ok then NoDir else old(disk)
    {
      ok := !fails;
      if ok { disk := NoDir; }
    }

    /** `troubles` says what goes wrong in each attempt. The first that nothing goes
        wrong for is the last, and the dir is then saved before it goes. */
    method PersistAndRemoveLocalConfig(troubles: nat -> PushTrouble, rmFails: bool) returns (ok: bool, ghost tries: seq<PushFaults>)
      modifies this`disk, bucket
      ensures 1 <= |tries| <= 3 && (!ok ==> |tries| == 3)
      ensures Now() == Persist(id, old(Now()), tries, !rmFails).world
      ensures ok == Persist(id, old(Now()), tries, !rmFails).ok
      ensures !Persist(id, old(Now()), tries[..|tries| - 1], !rmFails).ok
      ensures AttemptsCaused(id, old(Now()), tries, troubles, 0)
      ensures forall i :: 0 <= i < |tries| && troubles(i) == NO_PUSH_TROUBLE ==> ok && i == |tries| - 1
      ensures (exists i :: 0 <= i < 3 && troubles(i) == NO_PUSH_TROUBLE) ==>
        && ok && (disk.NoDir? <==> !rmFails || old(disk.NoDir?))
        && (forall template :: old(disk.Dir?) && WorldTrue(id, old(Now()), template) && troubles(|tries| - 1) == NO_PUSH_TROUBLE ==>
              Saved(id, old(disk), Now(), template))
      ensures forall name :: Template(name) == old(Template(name))
    {
      hide PushOnce, View, PushCaused, PushDone, PushMeets, WorldTrue, Saved, NoneLeftBehind, SameFiles, Persist;
      ghost var w := Now();
      NoAttempts(id, w);
      var attempt := 1;
      tries := [];
      while true
        invariant 1 <= attempt <= PUSH_ATTEMPTS && |tries| == attempt - 1
        invariant Now() == Persist(id, w, tries, false).world && !Persist(id, w, tries, false).ok
        invariant AttemptsCaused(id, w, tries, troubles, 0)
        invariant forall i :: 0 <= i < |tries| ==> troubles(i) != NO_PUSH_TROUBLE
        invariant disk.Dir? == old(disk.Dir?)
        invariant forall name :: Template(name) == old(Template(name))
        decreases PUSH_ATTEMPTS - attempt
      {
        ghost var now := Now();
        ghost var pf := PushFaults(ALL_SEEN, false, Faults({}, {}, {}, false), false, Faults({}, {}, {}, false));
        var pushed;
        pushed, pf := PushObsConfig(true, troubles(attempt - 1));
        PersistNext(id, w, tries, pf, false);
        PersistNext(id, w, tries, pf, true);
        LastAttempt(id, now, pf);
        OneMoreCaused(id, w, tries, pf, troubles, 0);
        assert (tries + [pf])[..|tries|] == tries;
        tries := tries + [pf];
        if pushed {
          ghost var done := Now();
          var gone := RemoveLocalConfig(rmFails);
          FinalPromise(id, w, tries, now, done, Now(), troubles(attempt - 1) == NO_PUSH_TROUBLE, !rmFails);
          return true, tries;
        }
        if attempt >= PUSH_ATTEMPTS { return false, tries; }
        attempt := attempt + 1;
      }
    }
  }

  lemma NoAttempts(id: Ids, w: World)
    ensures forall b :: Persist(id, w, [], b) == Persisted(w, false, NoDir)
  {
  }

  lemma LastAttempt(id: Ids, w: World, pf: PushFaults)
    ensures forall b :: var p := PushOnce(id, w, true, pf);
      Persist(id, w, [pf], b) ==
        if p.ok then Persisted(if b then p.world.(disk := NoDir) else p.world, true, w.disk.Seen(pf.unseen))
        else Persisted(p.world, false, NoDir)
  {
    hide PushOnce;
    assert [pf][1..] == [];
  }

  /** The last attempt of a final push: what it saved is still saved once the dir is
      gone, and it is the dir the first one found. */
  lemma FinalPromise(id: Ids, w: World, tries: seq<PushFaults>, now: World, done: World, after: World, clean: bool, removed: bool)
    requires |tries| > 0 && now == Persist(id, w, tries[..|tries| - 1], false).world && !Persist(id, w, tries[..|tries| - 1], false).ok
    requires done.overlay == after.overlay && done.media == after.media
    requires clean ==> forall template :: now.disk.Dir? && WorldTrue(id, now, template) ==> Saved(id, now.disk, done, template)
    ensures clean ==> forall template :: w.disk.Dir? && WorldTrue(id, w, template) ==> Saved(id, w.disk, after, template)
  {
    hide Persist, WorldTrue, Saved;
    if clean {
      forall template | w.disk.Dir? && WorldTrue(id, w, template) ensures Saved(id, w.disk, after, template) {
        PersistSavesOrKeeps(id, w, tries[..|tries| - 1], false, template);
        SavedElsewhere(id, now.disk, w.disk, done, after, template);
      }
    }
  }

  lemma ConfigWalkThrew(id: Ids, w: World, deletes: bool, pf: PushFaults, t: PushTrouble)
    requires pf.unseen == t.unseen && pf.configWalk == t.configWalk && pf.mediaWalk == t.mediaWalk
    requires w.disk.Seen(t.unseen).Dir? && w.disk.Seen(t.unseen).config.Some? && t.configWalk
    ensures PushCaused(id, w, deletes, pf, t)
    ensures PushOnce(id, w, deletes, pf) == Pushed(w.(disk := w.disk.(saved := Some(w.disk.Loaded()))), false)
  {
  }

  lemma MediaWalkThrew(id: Ids, w: World, deletes: bool, pf: PushFaults, t: PushTrouble, config: Mirror)
    requires pf.unseen == t.unseen && pf.configWalk == t.configWalk && pf.mediaWalk == t.mediaWalk
    requires var seen := w.disk.Seen(t.unseen);
      && seen.Dir? && !(seen.config.Some? && t.configWalk) && seen.media.Some? && t.mediaWalk
      && config == SyncSide(id.Config(), w.ConfigMirror(), seen.config, deletes, pf.config)
      && SideCaused(pf.config, t.config, id.Config(), w.ConfigMirror(), seen.config, deletes)
    ensures PushCaused(id, w, deletes, pf, t)
    ensures PushOnce(id, w, deletes, pf) ==
      Pushed(World(w.disk.(saved := Some(Manifest(config.entries, w.disk.Loaded().media))), config.remote, w.media), false)
  {
    hide SyncSide, SideFailed, SideCaused;
  }

  lemma BothSynced(id: Ids, w: World, deletes: bool, pf: PushFaults, t: PushTrouble, config: Mirror, media: Mirror,
                   configFailed: nat, mediaFailed: nat)
    requires pf.unseen == t.unseen && pf.configWalk == t.configWalk && pf.mediaWalk == t.mediaWalk
    requires var seen := w.disk.Seen(t.unseen);
      && seen.Dir? && !(seen.config.Some? && t.configWalk) && !(seen.media.Some? && t.mediaWalk)
      && config == SyncSide(id.Config(), w.ConfigMirror(), seen.config, deletes, pf.config)
      && media == SyncSide(id.Media(), w.MediaMirror(), seen.media, deletes, pf.media)
      && configFailed == SideFailed(id.Config(), w.ConfigMirror(), seen.config, deletes, pf.config)
      && mediaFailed == SideFailed(id.Media(), w.MediaMirror(), seen.media, deletes, pf.media)
      && SideCaused(pf.config, t.config, id.Config(), w.ConfigMirror(), seen.config, deletes)
      && SideCaused(pf.media, t.media, id.Media(), w.MediaMirror(), seen.media, deletes)
    ensures PushCaused(id, w, deletes, pf, t)
    ensures PushOnce(id, w, deletes, pf) ==
      Pushed(World(w.disk.(saved := Some(Manifest(config.entries, media.entries))), config.remote, media.remote),
             configFailed + mediaFailed == 0)
  {
    hide SyncSide, SideFailed, SideCaused;
  }

  lemma PushPromise(id: Ids, w: World, deletes: bool, pf: PushFaults, t: PushTrouble)
    requires PushCaused(id, w, deletes, pf, t)
    ensures var p := PushOnce(id, w, deletes, pf);
      && (w.disk.Dir? ==> SameFiles(w, p.world))
      && (forall template :: w.disk.Dir? && WorldTrue(id, w, template) ==>
            PushDone(id, w, p.world, deletes, t, template) && (p.ok ==> Saved(id, w.disk.Seen(t.unseen), p.world, template)))
      && (!PushMeets(id, w, deletes, t) ==> p.ok)
      && (t == NO_PUSH_TROUBLE ==>
            && p.ok
            && (forall template :: w.disk.Dir? && WorldTrue(id, w, template) ==>
                  Saved(id, w.disk, p.world, template) && (deletes ==> NoneLeftBehind(id, w, p.world))))
  {
    var p := PushOnce(id, w, deletes, pf);
    PushKeepsFiles(id, w, deletes, pf);
    PushMeansIt(id, w, deletes, pf, t, map[]);
    NothingMeets(id, w, deletes);
    hide PushOnce, PushCaused, PushDone, PushMeets, WorldTrue, Saved, NoneLeftBehind;
    forall template | w.disk.Dir? && WorldTrue(id, w, template)
      ensures PushDone(id, w, p.world, deletes, t, template) && (p.ok ==> Saved(id, w.disk.Seen(t.unseen), p.world, template))
      ensures t == NO_PUSH_TROUBLE ==> Saved(id, w.disk, p.world, template) && (deletes ==> NoneLeftBehind(id, w, p.world))
    {
      PushMeansIt(id, w, deletes, pf, t, template);
      if p.ok { PushSaves(id, w, deletes, pf, template) by { assert pf.unseen == t.unseen by { CausedUnseen(id, w, deletes, pf, t); } } }
      CausedUnseen(id, w, deletes, pf, t);
      if t == NO_PUSH_TROUBLE { CleanPush(id, w, p.world, deletes, template); }
    }
  }

  lemma CausedUnseen(id: Ids, w: World, deletes: bool, pf: PushFaults, t: PushTrouble)
    requires PushCaused(id, w, deletes, pf, t)
    ensures pf.unseen == t.unseen
  {
  }

  lemma SectionFrame(id: Ids, before: map<Key, Content>, after: map<Key, Content>, changed: string, other: string)
    requires OnlyUnder(changed, before, after)
    requires (changed == id.ConfigPrefix() && other == id.MediaPrefix()) || (changed == id.MediaPrefix() && other == id.ConfigPrefix())
    ensures View(before, other) == View(after, other)
    ensures forall name :: View(before, TemplatePrefix(name)) == View(after, TemplatePrefix(name))
  {
    hide View, Apart, OnlyUnder;
    PrefixesApart(id, "");
    ViewApart(before, after, changed, other);
    forall name ensures View(before, TemplatePrefix(name)) == View(after, TemplatePrefix(name)) {
      PrefixesApart(id, name);
      ViewApart(before, after, changed, TemplatePrefix(name));
    }
  }
}
