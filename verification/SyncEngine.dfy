// The sync engine as it runs: one pass over the kept files, then one batched
// delete, updating the bucket and the manifest section as it goes. Its result
// is the `Sync` of the path-by-path rules.
module SyncEngine {
  import opened Text
  import opened SyncPolicy
  import opened ObjectStore
  import opened SyncSection

  /** One section (config or media) of the manifest loaded from disk. */
  class EntryTable {
    var entries: Entries

    constructor (loaded: Entries)
      ensures entries == loaded
    {
      entries := loaded;
    }
  }

  ghost function MirrorNow(bucket: Bucket, table: EntryTable, prefix: string): Mirror
    reads bucket, table
  {
    Mirror(View(bucket.objects, prefix), table.entries)
  }

  /** The files of `done` have been handled, nothing else has. */
  ghost predicate Handled(sec: Section, before: Mirror, now: Mirror, tree: Tree, done: set<Rel>, f: Faults) {
    forall r :: now.At(r) == if r in done && r in tree then UploadSlot(sec, before.At(r), tree[r], r, f) else before.At(r)
  }

  method HashFile(file: LocalFile, fails: bool) returns (hash: Option<Hash>)
    ensures hash == if fails then None else Some(Digest(file.content))
  {
    return if fails then None else Some(Digest(file.content));
  }

  /** One upload task. */
  method SyncFile(bucket: Bucket, table: EntryTable, sec: Section, rel: Rel, file: LocalFile, trouble: Trouble)
    returns (verdict: Verdict)
    modifies bucket, table
    ensures verdict == Decide(sec, Get(old(table.entries), rel), file, rel, trouble.AtUpload())
    ensures MirrorNow(bucket, table, sec.prefix) ==
      Uploaded(sec, old(MirrorNow(bucket, table, sec.prefix)), rel, file, verdict)
    ensures OnlyUnder(sec.prefix, old(bucket.objects), bucket.objects)
  {
    hide View;
    var prev := Get(table.entries, rel);
    if SameStamp(prev, file) { return StampSkip; }
    var hash := NoHash;
    if sec.hashContent {
      var read := HashFile(file, rel in trouble.unreadable);
      if read.None? { return Unreadable; }
      hash := read.value;
    }
    if SameHash(prev, hash) {
      table.entries := table.entries[rel := prev.value.(size := file.Size(), mtimeMs := file.mtimeMs)];
      return HashSkip;
    }
    ViewPut(bucket.objects, sec.prefix, rel, file.content);
    var ok := bucket.Put(sec.prefix + rel, file.content, rel in trouble.rejected);
    if !ok { return Rejected; }
    table.entries := table.entries[rel := file.Entry(hash, Overlay)];
    return Upload;
  }

  /** What one task does to the mirror, given how it ended. */
  ghost function Uploaded(sec: Section, m: Mirror, rel: Rel, file: LocalFile, v: Verdict): Mirror {
    if v == Upload then
      Mirror(m.remote[rel := file.content], m.entries[rel := file.Entry(sec.HashOf(file.content), Overlay)])
    else if v == HashSkip && rel in m.entries then
      m.(entries := m.entries[rel := m.entries[rel].(size := file.Size(), mtimeMs := file.mtimeMs)])
    else m
  }

  lemma UploadedAt(sec: Section, m: Mirror, rel: Rel, file: LocalFile, f: Faults, r: Rel)
    ensures Uploaded(sec, m, rel, file, Decide(sec, Get(m.entries, rel), file, rel, f)).At(r) ==
      if r == rel then UploadSlot(sec, m.At(rel), file, rel, f) else m.At(r)
  {
  }

  lemma OneMore(sec: Section, m: Mirror, tree: Tree, done: set<Rel>, rel: Rel, f: Faults, v: Verdict)
    requires rel in tree && rel !in done
    ensures |Met(sec, m, tree, done + {rel}, f, v)| ==
      |Met(sec, m, tree, done, f, v)| + (if Decide(sec, Get(m.entries, rel), tree[rel], rel, f) == v then 1 else 0)
  {
    hide Decide;
    var met, more := Met(sec, m, tree, done, f, v), Met(sec, m, tree, done + {rel}, f, v);
    var meets := Decide(sec, Get(m.entries, rel), tree[rel], rel, f) == v;
    assert rel !in met;
    forall r ensures r in more <==> r in met || (r == rel && meets) { }
    hide Met;
    assert more == if meets then met + {rel} else met;
  }

  method SyncFiles(bucket: Bucket, table: EntryTable, sec: Section, tree: Tree, trouble: Trouble) returns (stats: SyncStats)
    modifies bucket, table
    ensures Handled(sec, old(MirrorNow(bucket, table, sec.prefix)), MirrorNow(bucket, table, sec.prefix),
                    tree, Wanted(sec, tree), trouble.AtUpload())
    ensures stats ==
      UploadStats(sec, old(MirrorNow(bucket, table, sec.prefix)), tree, Wanted(sec, tree), trouble.AtUpload())
    ensures OnlyUnder(sec.prefix, old(bucket.objects), bucket.objects)
  {
    hide View, Decide, UploadSlot, Uploaded, Met, UploadStats, OnlyUnder;
    ghost var m, f := MirrorNow(bucket, table, sec.prefix), trouble.AtUpload();
    stats := SyncStats(0, 0, 0, 0);
    NoneHandled(sec, m, tree, f, bucket.objects);
    var todo := Wanted(sec, tree);
    ghost var done: set<Rel> := {};
    while todo != {}
      invariant done + todo == Wanted(sec, tree) && done !! todo
      invariant Handled(sec, m, MirrorNow(bucket, table, sec.prefix), tree, done, f)
      invariant stats == UploadStats(sec, m, tree, done, f)
      invariant OnlyUnder(sec.prefix, old(bucket.objects), bucket.objects)
      decreases todo
    {
      var rel :| rel in todo;
      ghost var now, objects := MirrorNow(bucket, table, sec.prefix), bucket.objects;
      assert now.At(rel) == m.At(rel);
      var verdict := SyncFile(bucket, table, sec, rel, tree[rel], trouble);
      HandledOneMore(sec, m, now, tree, done, rel, f);
      StatsOneMore(sec, m, tree, done, rel, f);
      OnlyUnderTwice(sec.prefix, old(bucket.objects), objects, bucket.objects);
      stats := stats.Count(verdict);
      todo, done := todo - {rel}, done + {rel};
    }
    assert done == Wanted(sec, tree);
  }

  lemma NoneHandled(sec: Section, m: Mirror, tree: Tree, f: Faults, objects: map<Key, Content>)
    ensures Handled(sec, m, m, tree, {}, f)
    ensures UploadStats(sec, m, tree, {}, f) == SyncStats(0, 0, 0, 0)
    ensures OnlyUnder(sec.prefix, objects, objects)
  {
    hide Decide;
    assert forall v :: Met(sec, m, tree, {}, f, v) == {};
  }

  lemma HandledOneMore(sec: Section, m: Mirror, now: Mirror, tree: Tree, done: set<Rel>, rel: Rel, f: Faults)
    requires rel in tree && rel !in done && Handled(sec, m, now, tree, done, f)
    ensures Handled(sec, m, Uploaded(sec, now, rel, tree[rel], Decide(sec, Get(now.entries, rel), tree[rel], rel, f)),
                    tree, done + {rel}, f)
  {
    hide Uploaded;
    var after := Uploaded(sec, now, rel, tree[rel], Decide(sec, Get(now.entries, rel), tree[rel], rel, f));
    forall r
      ensures after.At(r) == if r in done + {rel} && r in tree then UploadSlot(sec, m.At(r), tree[r], r, f) else m.At(r)
    {
      UploadedAt(sec, now, rel, tree[rel], f, r);
      assert now.At(r) == if r in done && r in tree then UploadSlot(sec, m.At(r), tree[r], r, f) else m.At(r);
    }
  }

  lemma StatsOneMore(sec: Section, m: Mirror, tree: Tree, done: set<Rel>, rel: Rel, f: Faults)
    requires rel in tree && rel !in done
    ensures UploadStats(sec, m, tree, done + {rel}, f) ==
      UploadStats(sec, m, tree, done, f).Count(Decide(sec, Get(m.entries, rel), tree[rel], rel, f))
  {
    hide Decide, Met;
    OneMore(sec, m, tree, done, rel, f, Upload);
    OneMore(sec, m, tree, done, rel, f, StampSkip);
    OneMore(sec, m, tree, done, rel, f, HashSkip);
    OneMore(sec, m, tree, done, rel, f, Unreadable);
    OneMore(sec, m, tree, done, rel, f, Rejected);
  }

  // ── Deletes ───────────────────────────────────────────────────────────────

  /** The gone overlay keys, as listed for deletion. */
  method GoneKeys(prefix: string, gone: set<Rel>) returns (keys: seq<Key>)
    ensures Distinct(keys) && (forall k :: k in keys ==> prefix <= k)
    ensures SuffixesOf(prefix, keys) == gone
  {
    keys := [];
    var todo := gone;
    while todo != {}
      invariant todo <= gone && Distinct(keys) && forall k :: k in keys ==> prefix <= k
      invariant SuffixesOf(prefix, keys) == gone - todo
      decreases todo
    {
      var r :| r in todo;
      SuffixIn(prefix, keys, r);
      assert (prefix + r)[|prefix|..] == r;
      assert SuffixesOf(prefix, keys + [prefix + r]) == SuffixesOf(prefix, keys) + {r};
      todo, keys := todo - {r}, keys + [prefix + r];
    }
  }

  method DeleteGone(bucket: Bucket, table: EntryTable, sec: Section, gone: set<Rel>, trouble: Trouble)
    returns (deleted: nat, failed: nat, ghost f: Faults)
    requires gone != {}
    modifies bucket, table
    ensures f == trouble.AtUpload().(accepted := f.accepted, threw := f.threw) && DeletesCaused(f, trouble, gone)
    ensures MirrorNow(bucket, table, sec.prefix) ==
      var m := old(MirrorNow(bucket, table, sec.prefix));
      Mirror(m.remote - f.accepted, if f.threw then m.entries else m.entries - f.accepted)
    ensures OnlyUnder(sec.prefix, old(bucket.objects), bucket.objects)
    ensures deleted == (if f.threw then 0 else |f.accepted|) && deleted + failed == |gone|
  {
    hide View;
    var keys := GoneKeys(sec.prefix, gone);
    SuffixCount(sec.prefix, keys);
    ghost var objects := bucket.objects;
    ghost var accepted, answered;
    var result;
    result, accepted, answered := bucket.DeleteKeys(keys, trouble.AtDelete(sec.prefix));
    forall k | k in accepted ensures k in keys { assert k in keys[..answered]; }
    SuffixCount(sec.prefix, accepted);
    ViewDelete(objects, sec.prefix, accepted);
    f := trouble.AtUpload().(accepted := SuffixesOf(sec.prefix, accepted), threw := result.None?);
    DeleteHasCause(sec.prefix, keys, accepted, answered, f, trouble, gone);
    if result.Some? {
      assert |f.accepted| <= |gone| by { Fits(f.accepted, gone); }
      table.entries := table.entries - SuffixesOf(sec.prefix, result.value);
      deleted, failed := |result.value|, |keys| - |result.value|;
    } else {
      deleted, failed := 0, |keys|;
    }
  }

  lemma Fits(a: set<Rel>, b: set<Rel>)
    requires a <= b
    ensures |a| <= |b| && |b - a| == |b| - |a|
  {
    assert b == a + (b - a);
  }

  lemma DeleteHasCause(prefix: string, keys: seq<Key>, accepted: seq<Key>, answered: nat, f: Faults, t: Trouble, gone: set<Rel>)
    requires Distinct(keys) && answered <= |keys| && forall k :: k in keys ==> prefix <= k
    requires answered == if t.Throws(|keys|) then t.throwsAt.value * DELETE_BATCH else |keys|
    requires forall k :: k in accepted <==> k in keys[..answered] && k !in t.AtDelete(prefix).refused
    requires gone == SuffixesOf(prefix, keys)
    requires (forall k :: k in accepted ==> prefix <= k) && f.accepted == SuffixesOf(prefix, accepted)
    requires f.threw <==> t.Throws(|keys|)
    ensures f.accepted <= gone && DeletesCaused(f, t, gone)
  {
    var part := keys[..answered];
    assert forall k :: k in part ==> k in keys;
    SuffixCount(prefix, part);
    SuffixCount(prefix, keys);
    var reached := SuffixesOf(prefix, part);
    forall r ensures r in f.accepted <==> r in reached && r !in t.refused {
      SuffixIn(prefix, accepted, r);
      SuffixIn(prefix, part, r);
      SuffixIn(prefix, keys, r);
      assert (prefix + r)[|prefix|..] == r;
      if prefix + r in t.AtDelete(prefix).refused {
        var q :| q in t.refused && prefix + q == prefix + r;
        KeyInjective(prefix, q, r);
      }
    }
    assert f.accepted == reached - t.refused;
    assert answered == |keys| ==> part == keys;
  }

  // ── The whole run ─────────────────────────────────────────────────────────

  /** The second half: drop what is gone from the manifest and from S3. */
  method DropGone(bucket: Bucket, table: EntryTable, sec: Section, files: Tree, trouble: Trouble)
    returns (deleted: nat, failed: nat, ghost f: Faults)
    modifies bucket, table
    ensures f == trouble.AtUpload().(accepted := f.accepted, threw := f.threw)
    ensures var m := old(MirrorNow(bucket, table, sec.prefix));
      && DeletesCaused(f, trouble, Gone(sec, m, files))
      && MirrorNow(bucket, table, sec.prefix) == Dropped(sec, m, files, f)
      && deleted == (if f.threw then 0 else |f.accepted|) && deleted + failed == |Gone(sec, m, files)|
    ensures OnlyUnder(sec.prefix, old(bucket.objects), bucket.objects)
  {
    hide View, DeletesCaused, Wanted;
    ghost var m := MirrorNow(bucket, table, sec.prefix);
    f, deleted, failed := trouble.AtUpload(), 0, 0;
    NothingGone(trouble);
    SameUnder(sec.prefix, bucket.objects);
    var present := Wanted(sec, files);
    var gone := set r | r in table.entries && r !in present && table.entries[r].source.Overlay?;
    assert gone == Gone(sec, m, files);
    table.entries := table.entries - (set r | r in table.entries && r !in present && table.entries[r].source.Template?);
    if gone != {} {
      deleted, failed, f := DeleteGone(bucket, table, sec, gone, trouble);
    }
  }

  lemma NothingGone(t: Trouble)
    ensures DeletesCaused(t.AtUpload(), t, {})
  {
  }

  ghost function Dropped(sec: Section, m: Mirror, tree: Tree, f: Faults): Mirror {
    Mirror(m.remote - f.accepted,
           m.entries - (set r | r in m.entries && r !in Wanted(sec, tree) && m.entries[r].source.Template?)
                     - (if f.threw then {} else f.accepted))
  }

  /** A missing directory (None) changes nothing. */
  method SyncDirectory(bucket: Bucket, table: EntryTable, sec: Section, tree: Option<Tree>, deletes: bool, trouble: Trouble)
    returns (stats: SyncStats, ghost f: Faults)
    modifies bucket, table
    ensures tree.None? ==>
      stats == SyncStats(0, 0, 0, 0) && bucket.objects == old(bucket.objects) && table.entries == old(table.entries)
    ensures tree.Some? ==>
      var m := old(MirrorNow(bucket, table, sec.prefix));
      && MirrorNow(bucket, table, sec.prefix) == Sync(sec, m, tree.value, deletes, f)
      && stats == Stats(sec, m, tree.value, deletes, f)
      && CausedBy(f, trouble, Gone(sec, m, tree.value), deletes)
    ensures OnlyUnder(sec.prefix, old(bucket.objects), bucket.objects)
  {
    hide View, Decide, UploadSlot, Met, UploadStats, Sync, Dropped, DeletesCaused, Stats, Handled, OnlyUnder, Gone, Wanted;
    f := trouble.AtUpload();
    stats := SyncStats(0, 0, 0, 0);
    if tree.None? {
      SameUnder(sec.prefix, bucket.objects);
      return;
    }
    var files := tree.value;
    ghost var m := MirrorNow(bucket, table, sec.prefix);
    stats := SyncFiles(bucket, table, sec, files, trouble);
    ghost var m1, objects := MirrorNow(bucket, table, sec.prefix), bucket.objects;
    if !deletes {
      WithoutDeletes(sec, m, m1, files, f);
      return;
    }
    StillGone(sec, m, m1, files, f);
    var deleted, failed;
    ghost var f1 := f;
    deleted, failed, f := DropGone(bucket, table, sec, files, trouble);
    CausedIsFeasible(f, trouble, Gone(sec, m, files));
    FeasibleIsWithin(f, Gone(sec, m, files));
    WithDeletes(sec, m, m1, files, f1, f, deleted, failed);
    stats := stats.(deleted := deleted, failed := stats.failed + failed);
    OnlyUnderTwice(sec.prefix, old(bucket.objects), objects, bucket.objects);
  }

  lemma FeasibleIsWithin(f: Faults, gone: set<Rel>)
    requires Feasible(f, gone)
    ensures f.accepted <= gone
  {
  }

  lemma SameUnder(prefix: string, objects: map<Key, Content>)
    ensures OnlyUnder(prefix, objects, objects)
  {
  }

  lemma StillGone(sec: Section, m: Mirror, m1: Mirror, tree: Tree, f: Faults)
    requires Handled(sec, m, m1, tree, Wanted(sec, tree), f)
    ensures Gone(sec, m1, tree) == Gone(sec, m, tree)
  {
    hide UploadSlot;
    forall r | r !in Wanted(sec, tree) ensures Get(m1.entries, r) == Get(m.entries, r) {
      assert m1.At(r) == m.At(r);
    }
  }

  lemma WithoutDeletes(sec: Section, m: Mirror, m1: Mirror, tree: Tree, f: Faults)
    requires Handled(sec, m, m1, tree, Wanted(sec, tree), f) && f.accepted == {} && !f.threw
    ensures m1 == Sync(sec, m, tree, false, f)
    ensures UploadStats(sec, m, tree, Wanted(sec, tree), f) == Stats(sec, m, tree, false, f)
  {
    hide UploadSlot, Sync;
    SameMirror(m1, Sync(sec, m, tree, false, f));
  }

  lemma WithDeletes(sec: Section, m: Mirror, m1: Mirror, tree: Tree, f1: Faults, f: Faults, deleted: nat, failed: nat)
    requires Handled(sec, m, m1, tree, Wanted(sec, tree), f1)
    requires f == f1.(accepted := f.accepted, threw := f.threw) && f.accepted <= Gone(sec, m, tree)
    requires deleted == (if f.threw then 0 else |f.accepted|) && deleted + failed == |Gone(sec, m, tree)|
    ensures Dropped(sec, m1, tree, f) == Sync(sec, m, tree, true, f)
    ensures Stats(sec, m, tree, true, f) ==
      var s := UploadStats(sec, m, tree, Wanted(sec, tree), f1);
      s.(deleted := deleted, failed := s.failed + failed)
  {
    DroppedIsSync(sec, m, m1, tree, f1, f);
    hide Sync, Met, Handled;
    assert Confirmed(sec, m, tree, f) == if f.threw then {} else f.accepted;
    Fits(Confirmed(sec, m, tree, f), Gone(sec, m, tree));
    SameUploadStats(sec, m, tree, f1, f);
  }

  lemma DroppedIsSync(sec: Section, m: Mirror, m1: Mirror, tree: Tree, f1: Faults, f: Faults)
    requires Handled(sec, m, m1, tree, Wanted(sec, tree), f1)
    requires f == f1.(accepted := f.accepted, threw := f.threw) && f.accepted <= Gone(sec, m, tree)
    ensures Dropped(sec, m1, tree, f) == Sync(sec, m, tree, true, f)
  {
    hide Sync, UploadSlot;
    var after, done := Dropped(sec, m1, tree, f), Sync(sec, m, tree, true, f);
    forall r ensures after.At(r) == done.At(r) {
      assert m1.At(r) == if r in Wanted(sec, tree) && r in tree then UploadSlot(sec, m.At(r), tree[r], r, f1) else m.At(r);
      if r in Wanted(sec, tree) {
        SameUpload(sec, m.At(r), tree[r], r, f1, f);
        assert r !in f.accepted;
        assert after.At(r) == m1.At(r);
      } else {
        DroppedPath(sec, m1, tree, f, r);
      }
    }
    SameMirror(after, done);
  }

  lemma DroppedPath(sec: Section, m: Mirror, tree: Tree, f: Faults, r: Rel)
    requires r !in Wanted(sec, tree) && (r in f.accepted ==> r in Gone(sec, m, tree))
    ensures Dropped(sec, m, tree, f).At(r) == DeleteSlot(m.At(r), r, f)
  {
  }

  lemma SameUpload(sec: Section, slot: Slot, file: LocalFile, rel: Rel, f1: Faults, f: Faults)
    requires f == f1.(accepted := f.accepted, threw := f.threw)
    ensures UploadSlot(sec, slot, file, rel, f1) == UploadSlot(sec, slot, file, rel, f)
  {
  }

  lemma SameUploadStats(sec: Section, m: Mirror, tree: Tree, f1: Faults, f: Faults)
    requires f == f1.(accepted := f.accepted, threw := f.threw)
    ensures UploadStats(sec, m, tree, Wanted(sec, tree), f1) == UploadStats(sec, m, tree, Wanted(sec, tree), f)
  {
    forall v ensures Met(sec, m, tree, Wanted(sec, tree), f1, v) == Met(sec, m, tree, Wanted(sec, tree), f, v) {
      forall r | r in Wanted(sec, tree)
        ensures Decide(sec, Get(m.entries, r), tree[r], r, f1) == Decide(sec, Get(m.entries, r), tree[r], r, f) { }
      hide Decide;
    }
    hide Met;
  }
}
