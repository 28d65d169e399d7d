// One section from end to end: walk the local dir, then mirror what the walk
// listed. A walk that throws leaves S3 and the manifest alone.
module SectionRun {
  import opened Text
  import opened SyncPolicy
  import opened ObjectStore
  import opened SyncSection
  import opened SyncEngine
  import opened SyncProofs
  import opened DirectoryWalk

  /** What the walk found, as the engine wants it: None for a missing dir. */
  function TreeWalked(walk: Walk): Option<Tree>
    requires !walk.Threw?
  {
    if walk.Missing? then None else Some(TreeOf(walk.listings))
  }

  method CollectFiles(listings: seq<Listing>) returns (tree: Tree)
    ensures tree == TreeOf(listings)
  {
    tree := map[];
    for i := 0 to |listings|
      invariant tree == TreeOf(listings[..i])
    {
      assert listings[..i + 1][..i] == listings[..i];
      tree := tree[RelOf(listings[i]) := listings[i].file];
    }
    assert listings[..|listings|] == listings;
  }

  method RunSection(bucket: Bucket, table: EntryTable, sec: Section, base: Option<DirEntries>, deletes: bool,
                    wf: WalkFaults, trouble: Trouble)
    returns (threw: bool, stats: SyncStats, ghost f: Faults)
    modifies bucket, table
    ensures threw <==> Walked(base, wf).Threw?
    ensures threw || Walked(base, wf).Missing? ==> bucket.objects == old(bucket.objects) && table.entries == old(table.entries)
    ensures Walked(base, wf).Missing? ==> stats == SyncStats(0, 0, 0, 0)
    ensures Walked(base, wf).Files? ==>
      var m, tree := old(MirrorNow(bucket, table, sec.prefix)), TreeWalked(Walked(base, wf)).value;
      && MirrorNow(bucket, table, sec.prefix) == Sync(sec, m, tree, deletes, f)
      && stats == Stats(sec, m, tree, deletes, f)
      && CausedBy(f, trouble, Gone(sec, m, tree), deletes)
    ensures OnlyUnder(sec.prefix, old(bucket.objects), bucket.objects)
  {
    hide View, Sync, Stats, CausedBy, Gone, OnlyUnder, Walked, TreeOf;
    threw, stats, f := false, SyncStats(0, 0, 0, 0), Faults({}, {}, {}, false);
    MissingOnly(base, wf);
    SameUnder(sec.prefix, bucket.objects);
    var walk := WalkFiles(base, wf);
    if walk.Threw? { return true, stats, f; }
    var tree := None;
    if walk.Files? {
      var files := CollectFiles(walk.listings);
      tree := Some(files);
    }
    stats, f := SyncDirectory(bucket, table, sec, tree, deletes, trouble);
  }

  lemma MissingOnly(base: Option<DirEntries>, wf: WalkFaults)
    ensures Walked(base, wf).Missing? <==> base.None? || [] in wf.vanished
  {
  }

  /** So every key a run uploads has the canonical shape, and a file that is still
      there, with nothing gone on the way to it, is in the tree the run works on. */
  lemma WalkedTreeIs(base: DirEntries, wf: WalkFaults, rel: Rel)
    requires WellFormed(base) && Walked(Some(base), wf).Files?
    ensures var tree := TreeWalked(Walked(Some(base), wf)).value;
      && (rel in tree ==> Canonical(rel) && Lookup(base, Split(rel, '/')) == Some(tree[rel]))
      && (Canonical(rel) && Lookup(base, Split(rel, '/')).Some? && !Lost(Split(rel, '/'), 0, wf) ==> rel in tree)
  {
    var left, path := Surviving(Listed(base, []), 0, wf), Split(rel, '/');
    if rel in TreeOf(left) { SurvivingTreeCanonical(base, wf, rel); }
    if Canonical(rel) && Lookup(base, path).Some? && !Lost(path, 0, wf) {
      var l := Listing(path, Lookup(base, path).value);
      WalkIsExact(base, wf, path, l.file);
      JoinSplit(rel, '/');
      TreeHas(left, rel);
      assert l in left && RelOf(l) == rel;
    }
  }

  /** Of a dir that was seen, a kept file is saved by a successful run with deletes
      exactly when the walk did not lose it. A file whose stat fails counts as lost although it is still
      there: its object is deleted, and the run reports no failure. */
  lemma SavedUnlessLost(sec: Section, base: DirEntries, wf: WalkFaults, m: Mirror, f: Faults, template: map<Rel, Content>, rel: Rel)
    requires WellFormed(base) && Walked(Some(base), wf).Files?
    requires Canonical(rel) && Lookup(base, Split(rel, '/')).Some? && sec.Keeps(rel)
    requires var tree := TreeWalked(Walked(Some(base), wf)).value;
      && Sound(sec, m, template) && StampsTell(sec, m, tree) && Accounted(sec, m, tree)
      && Stats(sec, m, tree, true, f).failed == 0
    ensures var after := Sync(sec, m, TreeWalked(Walked(Some(base), wf)).value, true, f);
      var content, lost := Lookup(base, Split(rel, '/')).value.content, Lost(Split(rel, '/'), 0, wf);
      && (rel in after.entries && (Get(after.remote, rel) == Some(content) || Get(template, rel) == Some(content)) <==> !lost)
      && (lost ==> rel !in after.remote)
  {
    var tree := TreeWalked(Walked(Some(base), wf)).value;
    WalkedTreeIs(base, wf, rel);
    if Lost(Split(rel, '/'), 0, wf) { LostIsNotWalked(base, wf, rel); }
    ExactMirror(sec, m, tree, f, template);
    hide Sync, Stats, Sound, StampsTell, Accounted, Lost, Lookup, Canonical, Walked, TreeWalked, WellFormed;
  }

  /** A run as a whole, with the dir as the look at it reports it. */
  function Ran(sec: Section, base: DirEntries, wf: WalkFaults, m: Mirror, f: Faults): Mirror
    requires !Walked(Some(base), wf).Threw?
  {
    var tree := TreeWalked(Walked(Some(base), wf));
    if tree.None? then m else Sync(sec, m, tree.value, true, f)
  }

  /** The run reports no failure, from a manifest that speaks the truth. */
  ghost predicate Succeeds(sec: Section, base: DirEntries, wf: WalkFaults, m: Mirror, f: Faults, template: map<Rel, Content>)
    requires !Walked(Some(base), wf).Threw?
  {
    var tree := TreeWalked(Walked(Some(base), wf));
    && Sound(sec, m, template)
    && (tree.Some? ==>
          StampsTell(sec, m, tree.value) && Accounted(sec, m, tree.value) && Stats(sec, m, tree.value, true, f).failed == 0)
  }

  predicate IsSaved(m: Mirror, rel: Rel, content: Content, template: map<Rel, Content>) {
    rel in m.entries && (Get(m.remote, rel) == Some(content) || Get(template, rel) == Some(content))
  }

  /** Success means that a kept file is saved, whatever S3 and the manifest held,
      exactly when the look at the dir did not fail and the walk did not lose the
      file. */
  lemma SuccessMeansSavedExactlyWhen(sec: Section, base: DirEntries, wf: WalkFaults, template: map<Rel, Content>, rel: Rel)
    requires WellFormed(base) && !Walked(Some(base), wf).Threw?
    requires Canonical(rel) && Lookup(base, Split(rel, '/')).Some? && sec.Keeps(rel)
    ensures
      (forall m, f :: Succeeds(sec, base, wf, m, f, template) ==>
         IsSaved(Ran(sec, base, wf, m, f), rel, Lookup(base, Split(rel, '/')).value.content, template))
      <==> [] !in wf.vanished && !Lost(Split(rel, '/'), 0, wf)
  {
    var content, nothing := Lookup(base, Split(rel, '/')).value.content, Mirror(map[], map[]);
    if [] in wf.vanished {
      var f := Faults({}, {}, {}, false);
      assert Succeeds(sec, base, wf, nothing, f, template) && !IsSaved(Ran(sec, base, wf, nothing, f), rel, content, template);
    } else {
      var tree := TreeWalked(Walked(Some(base), wf)).value;
      forall m, f | Succeeds(sec, base, wf, m, f, template)
        ensures IsSaved(Ran(sec, base, wf, m, f), rel, content, template) <==> !Lost(Split(rel, '/'), 0, wf)
      {
        SavedUnlessLost(sec, base, wf, m, f, template, rel);
      }
      var f := NoFaults(sec, nothing, tree);
      CleanRunSucceeds(sec, nothing, tree, true);
      assert Succeeds(sec, base, wf, nothing, f, template) by { hide Walked, TreeWalked, Stats; }
      hide Succeeds, Ran, IsSaved, Lost, Lookup, Walked, TreeWalked, Canonical, WellFormed;
    }
  }

  /** The input that shows it: one file, saved and in sync; its stat fails once. */
  lemma FailedStatDropsObject(sec: Section, name: string, file: LocalFile)
    requires PlainSegment(name) && sec.Keeps(name)
    ensures
      var base, wf := Entry(name, FileNode(file), End), WalkFaults({[name]}, {});
      var m := Mirror(map[name := file.content], map[name := file.Entry(sec.HashOf(file.content), Overlay)]);
      && WellFormed(base) && Lookup(base, [name]) == Some(file) && Walked(Some(base), wf) == Files([])
      && Sound(sec, m, map[]) && Settled(sec, m, map[name := file])
      && Stats(sec, m, map[], true, NoFaults(sec, m, map[])).failed == 0
      && Sync(sec, m, map[], true, NoFaults(sec, m, map[])).remote == map[]
  {
    var m := Mirror(map[name := file.content], map[name := file.Entry(sec.HashOf(file.content), Overlay)]);
    OneFileSkipped(name, file);
    hide WellFormed, Lookup, Walked, Stats;
    CleanRunSucceeds(sec, m, map[], true);
    var f := NoFaults(sec, m, map[]);
    var after := Sync(sec, m, map[], true, f);
    assert Gone(sec, m, map[]) == {name} == f.accepted;
    forall r ensures r !in after.remote {
      EntryAfter(sec, m, map[], true, f, r);
      assert after.At(r).remote.Some? <==> r in after.remote;
    }
  }

  lemma OneFileSkipped(name: string, file: LocalFile)
    requires PlainSegment(name)
    ensures var base := Entry(name, FileNode(file), End);
      WellFormed(base) && Lookup(base, [name]) == Some(file) && Walked(Some(base), WalkFaults({[name]}, {})) == Files([])
  {
    var base, wf, at: Segments := Entry(name, FileNode(file), End), WalkFaults({[name]}, {}), [];
    OneFile(at, name, file, wf);
    assert at + [name] == [name];
    assert Listed(base, at) == [Listing(at + [name], file)] + Listed(End, at) == [Listing([name], file)];
    assert Find(base, [name][0]) == Some(FileNode(file));
    assert at + [name] in wf.vanished;
    assert Surviving(Listed(base, at), |at|, wf) == [];
    assert !Blocked(End, at, wf);
    assert !Blocked(base, at, wf);
  }

  lemma LostIsNotWalked(base: DirEntries, wf: WalkFaults, rel: Rel)
    requires WellFormed(base) && Walked(Some(base), wf).Files? && Lost(Split(rel, '/'), 0, wf)
    ensures rel !in TreeWalked(Walked(Some(base), wf)).value
  {
    var left := Surviving(Listed(base, []), 0, wf);
    TreeHas(left, rel);
    forall l | l in left ensures RelOf(l) != rel {
      SurvivingHas(Listed(base, []), 0, wf, l);
      BelowAt(base, [], l);
      ListedPlain(base, [], l);
      SplitJoin(l.path, '/');
    }
  }
}
