// The shared plugins dir, mirrored from the bucket's plugins/ prefix with a
// manifest of ETags.
module PluginMirror {
  import opened Text
  import opened SyncPolicy
  import opened ObjectStore

  const PLUGINS_PREFIX := "plugins/"
  const PLUGINS_DIR: seq<string> := ["data", "obs-plugins"]

  // An ETag, with "equal ETags mean equal contents" built in.
  datatype Stamp = Stamp(etag: Content, size: nat)

  function StampOf(content: Content): Stamp { Stamp(content, |content|) }

  type Files = map<Rel, Content>
  type Manifest = map<Rel, Stamp>

  // The dir and its saved manifest.
  datatype Plugins = Plugins(files: Files, manifest: Manifest)

  datatype Object = Object(rel: Rel, content: Content)

  predicate IsPlugin(rel: Rel) { rel != "" && !EndsWith(rel, "/") && '\0' !in rel }

  /** The file on disk is taken to be the object: same recorded ETag, same size. */
  predicate Unchanged(files: Files, manifest: Manifest, path: Rel, o: Object) {
    path in files && o.rel in manifest && manifest[o.rel].etag == o.content && |files[path]| == |o.content|
  }

  /** One object: kept or downloaded, and recorded in the next manifest. */
  function MirrorOne(p: Plugins, manifest: Manifest, o: Object): Plugins {
    match LocalTarget(PLUGINS_DIR, o.rel)
    case None => p
    case Some(path) =>
      if Unchanged(p.files, manifest, path, o) then p.(manifest := p.manifest[o.rel := manifest[o.rel]])
      else Plugins(p.files[path := o.content], p.manifest[o.rel := StampOf(o.content)])
  }

  function MirrorAll(files: Files, manifest: Manifest, objs: seq<Object>): Plugins {
    if objs == [] then Plugins(files, map[])
    else MirrorOne(MirrorAll(files, manifest, objs[..|objs| - 1]), manifest, objs[|objs| - 1])
  }

  /** Local files the bucket still has. */
  function Desired(files: Files, objs: seq<Object>): Files {
    map path | path in files && exists o :: o in objs && LocalTarget(PLUGINS_DIR, o.rel) == Some(path) :: files[path]
  }

  /** A sync that gets through, and one that throws when only the objects `done`
      were handled: then the old manifest stays. An empty prefix empties the dir,
      manifest and all. */
  function Completed(p: Plugins, objs: seq<Object>): Plugins {
    if objs == [] then Plugins(map[], map[]) else MirrorAll(Desired(p.files, objs), p.manifest, objs)
  }

  function Broken(p: Plugins, objs: seq<Object>, done: seq<Object>): Plugins {
    Plugins(MirrorAll(Desired(p.files, objs), p.manifest, done).files, p.manifest)
  }

  // ── Exactly the bucket's plugins ──────────────────────────────────────────

  ghost predicate Listing(objs: seq<Object>, remote: Files) {
    && (forall o :: o in objs <==> o.rel in remote && remote[o.rel] == o.content)
    && (forall i, j :: 0 <= i < j < |objs| ==> objs[i].rel != objs[j].rel)
    && (forall r :: r in remote ==> Canonical(r))
  }

  /** Where one path stands after some of the objects. */
  lemma {:induction false} MirroredAt(files: Files, manifest: Manifest, objs: seq<Object>, r: Rel)
    requires forall o :: o in objs ==> Canonical(o.rel)
    requires forall i, j :: 0 <= i < j < |objs| ==> objs[i].rel != objs[j].rel
    ensures var after := MirrorAll(files, manifest, objs);
      && (forall o :: o in objs && o.rel == r ==>
            && r in after.files && r in after.manifest
            && after.manifest[r] == (if Unchanged(files, manifest, r, o) then manifest[r] else StampOf(o.content))
            && after.files[r] == if Unchanged(files, manifest, r, o) then files[r] else o.content)
      && ((forall o :: o in objs ==> o.rel != r) ==>
            r !in after.manifest && (r in after.files <==> r in files) && (r in files ==> after.files[r] == files[r]))
  {
    if objs != [] {
      var rest, last := objs[..|objs| - 1], objs[|objs| - 1];
      assert objs == rest + [last];
      MirroredAt(files, manifest, rest, r);
      MirrorsOnlyItsOwn(MirrorAll(files, manifest, rest), manifest, last, r);
      hide Canonical, LocalTarget, MirrorOne;
      if last.rel == r { assert forall o :: o in rest ==> o.rel != r; }
    }
  }

  lemma MirrorsOnlyItsOwn(p: Plugins, manifest: Manifest, o: Object, r: Rel)
    requires Canonical(o.rel)
    ensures var after := MirrorOne(p, manifest, o);
      if o.rel != r then
        && (r in after.files <==> r in p.files) && (r in p.files ==> after.files[r] == p.files[r])
        && (r in after.manifest <==> r in p.manifest) && (r in p.manifest ==> after.manifest[r] == p.manifest[r])
      else
        && r in after.files && r in after.manifest
        && after.files[r] == (if Unchanged(p.files, manifest, r, o) then p.files[r] else o.content)
        && after.manifest[r] == (if Unchanged(p.files, manifest, r, o) then manifest[r] else StampOf(o.content))
  {
    CanonicalTarget(PLUGINS_DIR, o.rel);
    hide Canonical, LocalTarget;
  }

  /** Wherever the manifest would keep a file, the file is the object. */
  ghost predicate Faithful(p: Plugins, remote: Files) {
    forall r :: r in remote && Unchanged(p.files, p.manifest, r, Object(r, remote[r])) ==> p.files[r] == remote[r]
  }

  /** What a completed sync leaves under a path of the bucket. */
  function Mirrored(p: Plugins, remote: Files, r: Rel): Content
    requires r in remote
  {
    if Unchanged(p.files, p.manifest, r, Object(r, remote[r])) then p.files[r] else remote[r]
  }

  lemma CompletedAt(p: Plugins, objs: seq<Object>, remote: Files, r: Rel)
    requires Listing(objs, remote) && objs != []
    ensures var after := Completed(p, objs);
      && (r in after.files <==> r in remote)
      && (r in remote ==> after.files[r] == Mirrored(p, remote, r))
      && (r in after.manifest <==> r in remote)
      && (r in remote ==> after.manifest[r].etag == remote[r])
  {
    forall o | o in objs ensures Canonical(o.rel) && LocalTarget(PLUGINS_DIR, o.rel) == Some(o.rel) {
      CanonicalTarget(PLUGINS_DIR, o.rel);
    }
    var kept := Desired(p.files, objs);
    MirroredAt(kept, p.manifest, objs, r);
    hide Canonical, LocalTarget;
    if r in remote {
      assert Object(r, remote[r]) in objs;
      assert r in p.files ==> r in kept;
    }
  }

  /** One listing at a time: the sync is exact when wherever it keeps a file, that
      file is the object. */
  lemma MirrorIsExact(p: Plugins, objs: seq<Object>, remote: Files)
    requires Listing(objs, remote)
    ensures Completed(p, objs).files == remote <==> Faithful(p, remote)
  {
    hide Listing;
    if objs == [] {
      EmptyListing(objs, remote);
    } else {
      forall r
        ensures r in Completed(p, objs).files <==> r in remote
        ensures r in remote ==> Completed(p, objs).files[r] == Mirrored(p, remote, r)
      {
        CompletedAt(p, objs, remote, r);
      }
      hide Completed;
    }
  }

  lemma EmptyListing(objs: seq<Object>, remote: Files)
    requires Listing(objs, remote) && objs == []
    ensures remote == map[]
  {
    forall r ensures r !in remote {
      var o := Object(r, if r in remote then remote[r] else []);
      assert o !in objs;
    }
  }

  /** The manifest vouches only for what is on disk. */
  ghost predicate Sound(p: Plugins) { forall r :: SoundAt(p, r) }

  predicate SoundAt(p: Plugins, r: Rel) {
    r in p.manifest && r in p.files && |p.files[r]| == |p.manifest[r].etag| ==> p.files[r] == p.manifest[r].etag
  }

  lemma SoundIsFaithful(p: Plugins, remote: Files)
    requires Sound(p)
    ensures Faithful(p, remote)
  {
    forall r | r in remote && Unchanged(p.files, p.manifest, r, Object(r, remote[r])) ensures p.files[r] == remote[r] {
      assert SoundAt(p, r);
    }
  }

  /** From a sound manifest, and with nothing left of a sync that broke off, every
      completed sync is exact and leaves a sound one: so all later syncs are exact
      too, whatever the bucket holds by then. */
  lemma SoundSyncIsExact(p: Plugins, objs: seq<Object>, remote: Files)
    requires Sound(p) && Listing(objs, remote)
    ensures Completed(p, objs).files == remote && Sound(Completed(p, objs))
  {
    SoundIsFaithful(p, remote);
    MirrorIsExact(p, objs, remote);
    if objs != [] {
      forall r | r in Completed(p, objs).manifest ensures r in remote && Completed(p, objs).manifest[r].etag == remote[r] {
        CompletedAt(p, objs, remote, r);
      }
    }
    hide Completed;
  }

  ghost predicate AlwaysExact(p: Plugins) {
    forall objs, remote :: Listing(objs, remote) ==> Completed(p, objs).files == remote
  }

  /** What a completed sync leaves is the bucket's plugins, whatever those are, if
      and only if the dir and its manifest agree beforehand. That is a sync with no
      downloads of an earlier one still under way; PluginPool has those. */
  lemma AlwaysExactWhenSound(p: Plugins)
    requires forall r :: r in p.manifest ==> Canonical(r)
    ensures AlwaysExact(p) <==> Sound(p)
  {
    if Sound(p) {
      forall objs, remote | Listing(objs, remote) ensures Completed(p, objs).files == remote {
        SoundSyncIsExact(p, objs, remote);
      }
    } else {
      var r :| !SoundAt(p, r);
      var content := p.manifest[r].etag;
      SingleListing(r, content);
      MirrorIsExact(p, [Object(r, content)], map[r := content]);
      hide Listing, Completed, Canonical;
    }
  }

  lemma SingleListing(r: Rel, content: Content)
    requires Canonical(r)
    ensures Listing([Object(r, content)], map[r := content])
  {
    hide Canonical;
  }

  /** The object does not replace what an old entry vouches for by something else
      of the same size. */
  predicate KeepsWord(manifest: Manifest, o: Object) {
    o.rel in manifest && |o.content| == |manifest[o.rel].etag| ==> o.content == manifest[o.rel].etag
  }

  /** A sync that broke off leaves a sound manifest exactly when no object it had
      got to broke the word of an old entry. */
  lemma BreakIsHarmlessWhen(p: Plugins, objs: seq<Object>, done: seq<Object>)
    requires Sound(p) && SomeOf(done, objs) && forall o :: o in done ==> Canonical(o.rel)
    ensures Sound(Broken(p, objs, done)) <==> forall o :: o in done ==> KeepsWord(p.manifest, o)
  {
    var kept, after := Desired(p.files, objs), Broken(p, objs, done);
    forall r ensures var stays := r in after.files && r in p.files && after.files[r] == p.files[r];
      && ((forall o :: o in done ==> o.rel != r) ==> r !in after.files || stays)
      && (forall o :: o in done && o.rel == r ==> r in after.files && (after.files[r] == o.content || (stays && Unchanged(p.files, p.manifest, r, o))))
    {
      MirroredAt(kept, p.manifest, done, r);
      hide Canonical, LocalTarget;
    }
    forall o | o in done ensures KeepsWord(p.manifest, o) <==> SoundAt(after, o.rel) {
      assert SoundAt(p, o.rel);
    }
    forall r | forall o :: o in done ==> o.rel != r ensures SoundAt(after, r) { assert SoundAt(p, r); }
    hide Broken, KeepsWord, Canonical;
  }

  /** A sync that broke off after a download leaves the old manifest vouching for
      the new file; when the bucket goes back to the old object of the same size,
      the next sync completes and keeps the wrong file. */
  lemma BrokenSyncMisleads(r: Rel, other: Rel, before: Content, edited: Content)
    requires Canonical(r) && Canonical(other) && r != other && before != edited && |before| == |edited|
    ensures
      var start := Plugins(map[r := before], map[r := StampOf(before)]);
      var broken := Broken(start, [Object(r, edited), Object(other, edited)], [Object(r, edited)]);
      Sound(start) && Completed(broken, [Object(r, before)]).files == map[r := edited]
  {
    var start := Plugins(map[r := before], map[r := StampOf(before)]);
    var objs := [Object(r, edited), Object(other, edited)];
    CanonicalTarget(PLUGINS_DIR, r);
    CanonicalTarget(PLUGINS_DIR, other);
    hide Canonical, LocalTarget;
    assert objs[0] in objs && [objs[0]][..0] == [];
    var broken := Broken(start, objs, [objs[0]]);
    assert MirrorAll(Desired(start.files, objs), start.manifest, [objs[0]]) ==
      MirrorOne(Plugins(Desired(start.files, objs), map[]), start.manifest, objs[0]);
    assert Desired(start.files, objs) == start.files;
    assert broken == Plugins(map[r := edited], map[r := StampOf(before)]);
    BackToOld(r, before, edited);
  }

  lemma BackToOld(r: Rel, before: Content, edited: Content)
    requires Canonical(r) && |before| == |edited|
    ensures Completed(Plugins(map[r := edited], map[r := StampOf(before)]), [Object(r, before)]).files == map[r := edited]
  {
    var o := Object(r, before);
    CanonicalTarget(PLUGINS_DIR, r);
    hide Canonical, LocalTarget;
    assert o in [o] && [o][..0] == [];
    assert Desired(map[r := edited], [o]) == map[r := edited];
    assert MirrorAll(map[r := edited], map[r := StampOf(before)], [o]) ==
      MirrorOne(Plugins(map[r := edited], map[]), map[r := StampOf(before)], o);
  }

  // ── What a listing holds ──────────────────────────────────────────────────

  /** The bucket's plugins, by key suffix. */
  ghost function RemotePlugins(objects: map<Key, Content>): Files {
    map r | r in View(objects, PLUGINS_PREFIX) && IsPlugin(r) :: View(objects, PLUGINS_PREFIX)[r]
  }

  /** Every object below plugins/ but the placeholders of folders. */
  lemma RemotePluginsAre(objects: map<Key, Content>, r: Rel)
    ensures r in RemotePlugins(objects) <==> "plugins/" + r in objects && r != "" && !EndsWith(r, "/") && '\0' !in r
    ensures r in RemotePlugins(objects) ==> RemotePlugins(objects)[r] == objects["plugins/" + r]
  {
  }

  ghost predicate Reads(keys: seq<Key>, objs: seq<Object>, objects: map<Key, Content>) {
    && Distinct(keys) && |objs| == |keys|
    && (forall i :: 0 <= i < |keys| ==>
          && keys[i] in objects && PLUGINS_PREFIX <= keys[i] && IsPlugin(keys[i][|PLUGINS_PREFIX|..])
          && objs[i] == Object(keys[i][|PLUGINS_PREFIX|..], objects[keys[i]]))
    && (forall k :: k in objects && PLUGINS_PREFIX <= k && IsPlugin(k[|PLUGINS_PREFIX|..]) ==> k in keys)
  }

  lemma ReadsIsListing(keys: seq<Key>, objs: seq<Object>, objects: map<Key, Content>)
    requires Reads(keys, objs, objects) && forall r :: r in RemotePlugins(objects) ==> Canonical(r)
    ensures Listing(objs, RemotePlugins(objects))
  {
    hide IsPlugin, Canonical, Distinct;
    var remote := RemotePlugins(objects);
    KeysApart(keys, objs, objects);
    forall o ensures o in objs <==> o.rel in remote && remote[o.rel] == o.content {
      if o in objs {
        var i :| 0 <= i < |objs| && objs[i] == o;
        assert PLUGINS_PREFIX + o.rel == keys[i];
      }
      if o.rel in remote && remote[o.rel] == o.content {
        var key := PLUGINS_PREFIX + o.rel;
        assert key[|PLUGINS_PREFIX|..] == o.rel && key in keys;
        var i :| 0 <= i < |keys| && keys[i] == key;
        assert objs[i] == o;
      }
    }
  }

  lemma KeysApart(keys: seq<Key>, objs: seq<Object>, objects: map<Key, Content>)
    requires Reads(keys, objs, objects)
    ensures forall i, j :: 0 <= i < j < |objs| ==> objs[i].rel != objs[j].rel
  {
    hide IsPlugin;
    forall i, j | 0 <= i < j < |objs| ensures objs[i].rel != objs[j].rel {
      assert keys[i] == PLUGINS_PREFIX + objs[i].rel && keys[j] == PLUGINS_PREFIX + objs[j].rel;
    }
  }

  /** Some of the objects, each once. */
  ghost predicate SomeOf(done: seq<Object>, objs: seq<Object>) {
    (forall o :: o in done ==> o in objs) && (forall i, j :: 0 <= i < j < |done| ==> done[i].rel != done[j].rel)
  }

  lemma OneMoreDone(objs: seq<Object>, i: nat, done: seq<Object>)
    requires i < |objs| && SomeOf(done, objs[..i]) && forall i, j :: 0 <= i < j < |objs| ==> objs[i].rel != objs[j].rel
    ensures objs[..i + 1] == objs[..i] + [objs[i]]
    ensures SomeOf(done, objs[..i + 1]) && SomeOf(done + [objs[i]], objs[..i + 1])
  {
    assert objs[..i + 1] == objs[..i] + [objs[i]];
    forall o | o in done ensures o.rel != objs[i].rel {
      var j :| 0 <= j < i && objs[..i][j] == o;
    }
  }

  lemma MirrorOneMore(files: Files, manifest: Manifest, done: seq<Object>, o: Object)
    ensures MirrorAll(files, manifest, done + [o]) == MirrorOne(MirrorAll(files, manifest, done), manifest, o)
  {
    assert (done + [o])[..|done|] == done;
  }

  lemma NoneDone(files: Files, manifest: Manifest, objs: seq<Object>)
    ensures MirrorAll(files, manifest, []) == Plugins(files, map[]) && SomeOf([], objs)
  {
  }

  lemma IsPluginKey(k: Key)
    requires PLUGINS_PREFIX <= k
    ensures IsPlugin(k[|PLUGINS_PREFIX|..]) <==> !EndsWith(k, "/") && '\0' !in k
  {
    var rel := k[|PLUGINS_PREFIX|..];
    assert k == "plugins/" + rel;
    if rel != "" { assert k[|k| - 1..] == rel[|rel| - 1..]; } else { assert k[7..] == "/"; }
  }

  /** No object of a plain listing fails that is not kept from disk. */
  ghost predicate NoneBreaks(objs: seq<Object>, files: Files, manifest: Manifest, fails: set<Rel>) {
    forall o :: o in objs && o.rel in fails ==> Unchanged(files, manifest, o.rel, o)
  }

  lemma UnchangedSoFar(files: Files, manifest: Manifest, done: seq<Object>, o: Object)
    requires forall d :: d in done ==> Canonical(d.rel) && d.rel != o.rel
    requires forall i, j :: 0 <= i < j < |done| ==> done[i].rel != done[j].rel
    ensures Unchanged(MirrorAll(files, manifest, done).files, manifest, o.rel, o) <==> Unchanged(files, manifest, o.rel, o)
  {
    MirroredAt(files, manifest, done, o.rel);
    hide MirrorAll;
  }

  lemma NoneYet(objs: seq<Object>, files: Files, manifest: Manifest, fails: set<Rel>)
    ensures NoneBreaks(objs[..0], files, manifest, fails)
  {
  }

  lemma NoneBreaksNext(objs: seq<Object>, i: nat, files: Files, manifest: Manifest, fails: set<Rel>)
    requires i < |objs|
    ensures NoneBreaks(objs[..i + 1], files, manifest, fails) <==>
      NoneBreaks(objs[..i], files, manifest, fails) && (objs[i].rel in fails ==> Unchanged(files, manifest, objs[i].rel, objs[i]))
  {
    hide Unchanged;
    assert objs[..i + 1] == objs[..i] + [objs[i]];
    assert objs[i] in objs[..i + 1] && forall o :: o in objs[..i] ==> o in objs[..i + 1];
  }

  /** Every plugin whose download would throw is on disk as recorded. */
  ghost predicate NeedsNone(files: Files, manifest: Manifest, remote: Files, fails: set<Rel>) {
    forall r :: r in remote && r in fails ==>
      r in files && r in manifest && manifest[r].etag == remote[r] && |files[r]| == |remote[r]|
  }

  lemma ListedIsPlain(objs: seq<Object>, remote: Files)
    requires Listing(objs, remote)
    ensures forall o :: o in objs ==> Canonical(o.rel)
  {
    hide Canonical;
  }

  lemma NeedsNoneIs(objs: seq<Object>, files: Files, manifest: Manifest, remote: Files, fails: set<Rel>)
    requires Listing(objs, remote)
    ensures NoneBreaks(objs, Desired(files, objs), manifest, fails) <==> NeedsNone(files, manifest, remote, fails)
  {
    forall r | r in remote ensures r in Desired(files, objs) <==> r in files {
      var o := Object(r, remote[r]);
      assert o in objs && LocalTarget(PLUGINS_DIR, o.rel) == Some(r) by { CanonicalTarget(PLUGINS_DIR, r); }
    }
    hide Canonical, LocalTarget;
    forall r | r in remote
      ensures Unchanged(Desired(files, objs), manifest, r, Object(r, remote[r])) <==>
        r in files && r in manifest && manifest[r].etag == remote[r] && |files[r]| == |remote[r]|
    {
    }
    forall o | o in objs ensures o == Object(o.rel, remote[o.rel]) { }
    forall r | r in remote ensures Object(r, remote[r]) in objs { }
    hide Unchanged, Desired;
  }

  // What goes wrong in one sync: its listing, the downloads that throw, and those
  // that may not happen once one has thrown.
  datatype SyncTrouble = SyncTrouble(listThrows: bool, fails: set<Rel>, dropped: set<Rel>)

  function Keys(objs: seq<Object>): seq<Key> { seq(|objs|, i requires 0 <= i < |objs| => PLUGINS_PREFIX + objs[i].rel) }

  lemma KeysOf(keys: seq<Key>, objs: seq<Object>, objects: map<Key, Content>)
    requires Reads(keys, objs, objects)
    ensures Keys(objs) == keys
  {
    forall i | 0 <= i < |keys| ensures Keys(objs)[i] == keys[i] {
      assert PLUGINS_PREFIX + objs[i].rel == keys[i];
    }
  }

  lemma CompletedForms(p: Plugins, objs: seq<Object>, done: seq<Object>)
    ensures objs == [] ==> Completed(p, objs) == Plugins(map[], map[])
    ensures objs != [] ==> Completed(p, objs) == MirrorAll(Desired(p.files, objs), p.manifest, objs)
    ensures Broken(p, objs, done) == Plugins(MirrorAll(Desired(p.files, objs), p.manifest, done).files, p.manifest)
  {
  }

  // ── The sync as it runs ───────────────────────────────────────────────────

  class PluginDir {
    var files: Files
    var manifest: Manifest

    constructor ()
      ensures Now() == Plugins(map[], map[])
    {
      files, manifest := map[], map[];
    }

    ghost function Now(): Plugins
      reads this
    {
      Plugins(files, manifest)
    }

    /** The plugin objects under the prefix, with what they hold. */
    method ListPlugins(bucket: Bucket, fails: bool) returns (ok: bool, keys: seq<Key>, ghost objs: seq<Object>)
      ensures ok == !fails
      ensures ok ==> Reads(keys, objs, bucket.objects)
      ensures ok ==> Distinct(keys) && forall k :: k in keys <==>
        k in bucket.objects && "plugins/" <= k && !EndsWith(k, "/") && '\0' !in k
    {
      keys, objs := [], [];
      var listing := bucket.ListObjects(PLUGINS_PREFIX, fails);
      if listing.None? { return false, keys, objs; }
      for i := 0 to |listing.value|
        invariant |objs| == |keys| && forall j :: 0 <= j < |keys| ==>
          && keys[j] in listing.value[..i] && keys[j] in bucket.objects && PLUGINS_PREFIX <= keys[j]
          && IsPlugin(keys[j][|PLUGINS_PREFIX|..]) && objs[j] == Object(keys[j][|PLUGINS_PREFIX|..], bucket.objects[keys[j]])
        invariant Distinct(keys)
        invariant forall k :: k in listing.value[..i] && PLUGINS_PREFIX <= k && IsPlugin(k[|PLUGINS_PREFIX|..]) ==> k in keys
      {
        var key := listing.value[i];
        assert key in listing.value && key !in listing.value[..i];
        assert listing.value[..i + 1] == listing.value[..i] + [key];
        if IsPlugin(key[|PLUGINS_PREFIX|..]) {
          keys, objs := keys + [key], objs + [Object(key[|PLUGINS_PREFIX|..], bucket.objects[key])];
        }
      }
      assert listing.value[..|listing.value|] == listing.value;
      forall k | PLUGINS_PREFIX <= k ensures IsPlugin(k[|PLUGINS_PREFIX|..]) <==> !EndsWith(k, "/") && '\0' !in k { IsPluginKey(k); }
      ok := true;
    }

    /** From a sound manifest a sync that completes leaves exactly the bucket's plugins.
        It completes unless its listing throws or the download of a plugin does that is
        not on disk with the recorded ETag and size. */
    method SyncPlugins(bucket: Bucket, trouble: SyncTrouble) returns (ok: bool, ghost objs: seq<Object>, ghost done: seq<Object>)
      modifies this
      ensures !trouble.listThrows ==> Reads(Keys(objs), objs, bucket.objects)
      ensures ok ==> !trouble.listThrows && Now() == Completed(old(Now()), objs)
      ensures !ok ==> trouble.listThrows || exists o :: o in objs && o.rel in trouble.fails
      ensures ok && (forall r :: r in RemotePlugins(bucket.objects) ==> Canonical(r)) ==>
        && Listing(objs, RemotePlugins(bucket.objects))
        && (Sound(old(Now())) ==> files == RemotePlugins(bucket.objects) && Sound(Now()))
      ensures (forall r :: r in RemotePlugins(bucket.objects) ==> Canonical(r)) ==>
        (ok <==> !trouble.listThrows && NeedsNone(old(files), old(manifest), RemotePlugins(bucket.objects), trouble.fails))
      ensures !ok ==> Now() == if trouble.listThrows then old(Now()) else Broken(old(Now()), objs, done)
      ensures SomeOf(done, objs) && forall o :: o in objs && o.rel !in trouble.fails && o.rel !in trouble.dropped ==> ok || o in done
    {
      hide MirrorOne, MirrorAll, Desired, IsPlugin, RemotePlugins, Listing, Canonical, Sound, Completed, Broken, NeedsNone, NoneBreaks;
      done := [];
      ghost var before := Now();
      var keys;
      ok, keys, objs := ListPlugins(bucket, trouble.listThrows);
      if !ok {
        objs := [];
        return;
      }
      KeysOf(keys, objs, bucket.objects);
      ghost var plain := forall r :: r in RemotePlugins(bucket.objects) ==> Canonical(r);
      if plain { ReadsIsListing(keys, objs, bucket.objects); }
      if |keys| == 0 {
        files, manifest := map[], map[];
        assert objs[..0] == objs;
        NoneYet(objs, Desired(before.files, objs), before.manifest, trouble.fails);
      } else {
        RemoveStale(keys, objs, bucket);
        KeysApart(keys, objs, bucket.objects);
        if plain { assert forall o :: o in objs ==> Canonical(o.rel) by { ListedIsPlain(objs, RemotePlugins(bucket.objects)); } }
        var next;
        ok, next, done := FetchAll(bucket, keys, objs, trouble);
        if ok { manifest := next; }
      }
      CompletedForms(before, objs, done);
      if plain { NeedsNoneIs(objs, before.files, before.manifest, RemotePlugins(bucket.objects), trouble.fails); }
      if ok && plain && Sound(before) { SoundSyncIsExact(before, objs, RemotePlugins(bucket.objects)); }
    }

    /** In the order of the listing; once a download has thrown, those of `dropped` may
        still get their file in place or not. PluginPool has the interleavings. */
    method FetchAll(bucket: Bucket, keys: seq<Key>, ghost objs: seq<Object>, trouble: SyncTrouble)
      returns (ok: bool, next: Manifest, ghost done: seq<Object>)
      requires |objs| == |keys| && forall i, j :: 0 <= i < j < |objs| ==> objs[i].rel != objs[j].rel
      requires forall i :: 0 <= i < |keys| ==> PLUGINS_PREFIX <= keys[i] && keys[i] in bucket.objects
      requires forall i :: 0 <= i < |keys| ==> objs[i] == Object(keys[i][|PLUGINS_PREFIX|..], bucket.objects[keys[i]])
      modifies this`files
      ensures Plugins(files, next) == MirrorAll(old(files), manifest, done)
      ensures ok ==> done == objs
      ensures !ok ==> exists o :: o in objs && o.rel in trouble.fails
      ensures (forall o :: o in objs ==> Canonical(o.rel)) ==> (ok <==> NoneBreaks(objs, old(files), manifest, trouble.fails))
      ensures SomeOf(done, objs)
      ensures forall o :: o in objs && o.rel !in trouble.fails && (ok || o.rel !in trouble.dropped) ==> o in done
    {
      hide MirrorOne, MirrorAll, SomeOf, Canonical, Unchanged, NoneBreaks;
      ok, next, done := true, map[], [];
      ghost var plain := forall o :: o in objs ==> Canonical(o.rel);
      assert NoneBreaks(objs[..0], files, manifest, trouble.fails) by { NoneYet(objs, files, manifest, trouble.fails); }
      NoneDone(files, manifest, objs[..0]);
      for i := 0 to |keys|
        invariant Plugins(files, next) == MirrorAll(old(files), manifest, done)
        invariant ok ==> done == objs[..i]
        invariant !ok ==> exists o :: o in objs && o.rel in trouble.fails
        invariant plain ==> (ok <==> NoneBreaks(objs[..i], old(files), manifest, trouble.fails))
        invariant SomeOf(done, objs[..i])
        invariant forall o :: o in objs[..i] && o.rel !in trouble.fails && (ok || o.rel !in trouble.dropped) ==> o in done
      {
        OneMoreDone(objs, i, done);
        var rel := keys[i][|PLUGINS_PREFIX|..];
        assert objs[i] in objs && objs[i].rel == rel;
        NoneBreaksNext(objs, i, old(files), manifest, trouble.fails);
        if ok && plain { UnchangedSoFar(old(files), manifest, done, objs[i]); }
        if !ok && rel in trouble.dropped { continue; }
        var fetched;
        fetched, next := FetchPlugin(bucket, keys[i], next, objs[i], rel in trouble.fails);
        if !fetched { ok := false; continue; }
        MirrorOneMore(old(files), manifest, done, objs[i]);
        done := done + [objs[i]];
      }
      assert objs[..|objs|] == objs;
    }

    /** Deletes what the bucket no longer has. */
    method RemoveStale(keys: seq<Key>, ghost objs: seq<Object>, bucket: Bucket)
      requires |objs| == |keys| && forall i :: 0 <= i < |keys| ==> PLUGINS_PREFIX <= keys[i]
      requires forall i :: 0 <= i < |keys| ==> objs[i].rel == keys[i][|PLUGINS_PREFIX|..]
      modifies this`files
      ensures files == Desired(old(files), objs)
    {
      var desired := set i | 0 <= i < |keys| :: LocalTarget(PLUGINS_DIR, keys[i][|PLUGINS_PREFIX|..]);
      forall path ensures Some(path) in desired <==> exists o :: o in objs && LocalTarget(PLUGINS_DIR, o.rel) == Some(path) {
        if Some(path) in desired {
          var i :| 0 <= i < |keys| && LocalTarget(PLUGINS_DIR, keys[i][|PLUGINS_PREFIX|..]) == Some(path);
          assert objs[i] in objs && LocalTarget(PLUGINS_DIR, objs[i].rel) == Some(path);
        }
        if o :| o in objs && LocalTarget(PLUGINS_DIR, o.rel) == Some(path) {
          var i :| 0 <= i < |objs| && objs[i] == o;
          assert LocalTarget(PLUGINS_DIR, keys[i][|PLUGINS_PREFIX|..]) == Some(path);
        }
      }
      files := map path | path in files && Some(path) in desired :: files[path];
    }

    method FetchPlugin(bucket: Bucket, key: Key, next0: Manifest, ghost o: Object, fails: bool) returns (ok: bool, next: Manifest)
      requires PLUGINS_PREFIX <= key && key in bucket.objects
      requires o == Object(key[|PLUGINS_PREFIX|..], bucket.objects[key])
      modifies this`files
      ensures ok ==> Plugins(files, next) == MirrorOne(Plugins(old(files), next0), manifest, o)
      ensures !ok ==> fails && files == old(files) && next == next0
      ensures Canonical(o.rel) ==> (ok <==> fails ==> Unchanged(old(files), manifest, o.rel, o))
    {
      next := next0;
      var rel, etag, size := key[|PLUGINS_PREFIX|..], bucket.objects[key], |bucket.objects[key]|;
      var path := LocalTarget(PLUGINS_DIR, rel);
      if Canonical(o.rel) { CanonicalTarget(PLUGINS_DIR, rel); }
      hide LocalTarget, Canonical;
      if path.None? { return true, next; }
      if rel in manifest && path.value in files && manifest[rel].etag == etag && |files[path.value]| == size {
        return true, next[rel := manifest[rel]];
      }
      var content := bucket.Fetch(key, fails);
      if content.None? { return false, next; }
      files := files[path.value := content.value];
      return true, next[rel := Stamp(etag, size)];
    }
  }
}
