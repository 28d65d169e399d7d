// What one run of the sync engine guarantees: the manifest stays true, a
// successful run is an exact mirror, and failed runs only ever make progress.
module SyncProofs {
  import opened Text
  import opened SyncPolicy
  import opened ObjectStore
  import opened SyncSection

  // ── A manifest that tells the truth ───────────────────────────────────────

  /** An overlay entry means S3 holds the recorded content under the key; a
      template entry means S3 lacks the key and the template has that content. */
  ghost predicate SoundSlot(sec: Section, slot: Slot, rel: Rel, template: map<Rel, Content>) {
    slot.entry.Some? ==>
      var e := slot.entry.value;
      if !sec.hashContent then e.source.Overlay? && e.hash == NoHash && slot.remote.Some?
      else e.hash.Digest? &&
           if e.source.Overlay? then slot.remote == Some(e.hash.of)
           else slot.remote.None? && rel in template && template[rel] == e.hash.of
  }

  ghost predicate Sound(sec: Section, m: Mirror, template: map<Rel, Content>) {
    forall r :: SoundSlot(sec, m.At(r), r, template)
  }

  /** The content a path had when its entry was written. */
  function Recorded(slot: Slot): Option<Content> {
    if slot.entry.None? then None
    else if slot.entry.value.source.Overlay? then slot.remote
    else if slot.entry.value.hash.Digest? then Some(slot.entry.value.hash.of)
    else None
  }

  /** A file carrying the recorded size and mtime has the recorded content. */
  ghost predicate Tells(slot: Slot, file: Option<LocalFile>) {
    file.Some? && SameStamp(slot.entry, file.value) ==> Recorded(slot) == Some(file.value.content)
  }

  ghost predicate StampsTell(sec: Section, m: Mirror, tree: Tree) {
    forall r :: Tells(m.At(r), WantedFile(sec, tree, r))
  }

  // ── Soundness ─────────────────────────────────────────────────────────────

  /** Whatever fails, a path with a kept file stays sound and its stamp true. */
  lemma KeptPathStaysSound(sec: Section, slot: Slot, file: LocalFile, deletes: bool, rel: Rel, f: Faults,
                           template: map<Rel, Content>)
    requires SoundSlot(sec, slot, rel, template) && Tells(slot, Some(file))
    ensures var after := FinalSlot(sec, slot, Some(file), deletes, rel, f);
      SoundSlot(sec, after, rel, template) && Tells(after, Some(file))
  {
  }

  /** Deletes that went through although the call threw. */
  function LostTrack(sec: Section, m: Mirror, tree: Tree, deletes: bool, f: Faults): set<Rel> {
    if deletes && f.threw then Gone(sec, m, tree) * f.accepted else {}
  }

  lemma StampsStayTrue(sec: Section, m: Mirror, tree: Tree, deletes: bool, f: Faults, template: map<Rel, Content>)
    requires forall r :: r in Wanted(sec, tree) ==> SoundSlot(sec, m.At(r), r, template)
    requires StampsTell(sec, m, tree)
    ensures forall r :: r in Wanted(sec, tree) ==>
      SoundSlot(sec, Sync(sec, m, tree, deletes, f).At(r), r, template)
    ensures StampsTell(sec, Sync(sec, m, tree, deletes, f), tree)
  {
    var after := Sync(sec, m, tree, deletes, f);
    forall r ensures r in Wanted(sec, tree) ==> SoundSlot(sec, after.At(r), r, template)
             ensures Tells(after.At(r), WantedFile(sec, tree, r))
    {
      if r in Wanted(sec, tree) {
        assert Tells(m.At(r), WantedFile(sec, tree, r));
        KeptPathStaysSound(sec, m.At(r), tree[r], deletes, r, f, template);
      }
    }
  }

  /** A run keeps the manifest sound exactly when no delete went through in a
      call that threw. */
  lemma SoundAfterRun(sec: Section, m: Mirror, tree: Tree, deletes: bool, f: Faults, template: map<Rel, Content>)
    requires Sound(sec, m, template) && StampsTell(sec, m, tree)
    ensures Sound(sec, Sync(sec, m, tree, deletes, f), template) <==> LostTrack(sec, m, tree, deletes, f) == {}
  {
    var after := Sync(sec, m, tree, deletes, f);
    forall r ensures SoundSlot(sec, after.At(r), r, template) <==> r !in LostTrack(sec, m, tree, deletes, f) {
      assert SoundSlot(sec, m.At(r), r, template) && Tells(m.At(r), WantedFile(sec, tree, r));
      EntryAfter(sec, m, tree, deletes, f, r);
      hide Sync, Sound, StampsTell;
      SoundPath(sec, m, tree, deletes, f, template, r);
    }
    hide Sync, LostTrack, SoundSlot;
  }

  lemma SoundPath(sec: Section, m: Mirror, tree: Tree, deletes: bool, f: Faults, template: map<Rel, Content>, r: Rel)
    requires SoundSlot(sec, m.At(r), r, template) && Tells(m.At(r), WantedFile(sec, tree, r))
    ensures SoundSlot(sec, if r in Wanted(sec, tree) then UploadSlot(sec, m.At(r), tree[r], r, f)
                           else if deletes then DeleteSlot(m.At(r), r, f) else m.At(r), r, template)
            <==> r !in LostTrack(sec, m, tree, deletes, f)
  {
  }

  lemma {:induction false} SubsetOfSize(s: set<Rel>, n: nat) returns (part: set<Rel>)
    requires n <= |s|
    ensures part <= s && |part| == n
  {
    if n == 0 {
      part := {};
    } else {
      var x :| x in s;
      var rest := SubsetOfSize(s - {x}, n - 1);
      part := rest + {x};
    }
  }

  /** The caller-side condition: a run is sound whatever S3 does exactly when
      everything to delete fits one request. */
  lemma SoundWhateverFails(sec: Section, m: Mirror, tree: Tree, template: map<Rel, Content>)
    requires Sound(sec, m, template) && StampsTell(sec, m, tree)
    ensures (forall f :: Feasible(f, Gone(sec, m, tree)) ==> Sound(sec, Sync(sec, m, tree, true, f), template))
            <==> |Gone(sec, m, tree)| <= 1000
  {
    var gone := Gone(sec, m, tree);
    if |gone| <= DELETE_BATCH {
      forall f | Feasible(f, gone) ensures Sound(sec, Sync(sec, m, tree, true, f), template) {
        OneRequestIsAtomic(f, gone);
        SoundAfterRun(sec, m, tree, true, f, template);
      }
    } else {
      var first := SubsetOfSize(gone, DELETE_BATCH);
      var f := Faults({}, {}, first, true);
      assert Feasible(f, gone);
      assert LostTrack(sec, m, tree, true, f) == first;
      SoundAfterRun(sec, m, tree, true, f, template);
    }
  }

  lemma OneRequestIsAtomic(f: Faults, gone: set<Rel>)
    requires Feasible(f, gone) && |gone| <= DELETE_BATCH
    ensures f.threw ==> f.accepted == {}
  {
    if f.threw {
      var answered: set<Rel> :| f.accepted <= answered <= gone && |answered| % DELETE_BATCH == 0 && |answered| < |gone|;
      assert |answered| == 0;
      assert answered == {};
    }
  }

  /** What that costs: after such a run, a file recreated with its old content is
      skipped by the next run, which reports success while S3 lacks the file. */
  lemma LostTrackLosesFile(sec: Section, m: Mirror, tree: Tree, f: Faults, f2: Faults, template: map<Rel, Content>,
                           rel: Rel, mtime: int)
    requires sec.hashContent && Sound(sec, m, template)
    requires rel in LostTrack(sec, m, tree, true, f) && sec.Keeps(rel)
    requires f2 == Faults({}, {}, {}, false)
    ensures
      var broken := Sync(sec, m, tree, true, f);
      var again: Tree := map[rel := LocalFile(mtime, m.remote[rel])];
      var after := Sync(sec, broken, again, false, f2);
      Stats(sec, broken, again, false, f2).failed == 0 && rel !in after.remote
  {
    var broken := Sync(sec, m, tree, true, f);
    var again: Tree := map[rel := LocalFile(mtime, m.remote[rel])];
    assert SoundSlot(sec, m.At(rel), rel, template);
    assert broken.At(rel) == DeleteSlot(m.At(rel), rel, f) == Slot(None, m.At(rel).entry);
    assert Sync(sec, broken, again, false, f2).At(rel).remote.None?;
    assert Met(sec, broken, again, Wanted(sec, again), f2, Unreadable) == {};
    assert Met(sec, broken, again, Wanted(sec, again), f2, Rejected) == {};
  }

  /** A kept file whose size and mtime are the recorded ones is left alone. Any
      other goes out: afterwards its entry carries its stamp and S3 has its
      content, or still lacks it because it is the template's. */
  lemma ChangedFilesGoOut(sec: Section, m: Mirror, tree: Tree, deletes: bool, f: Faults, template: map<Rel, Content>, rel: Rel)
    requires rel in Wanted(sec, tree) && rel !in f.unreadable && rel !in f.rejected
    requires SoundSlot(sec, m.At(rel), rel, template)
    ensures var file, before, after := tree[rel], m.At(rel), Sync(sec, m, tree, deletes, f).At(rel);
      if before.entry.Some? && before.entry.value.size == |file.content| && before.entry.value.mtimeMs == file.mtimeMs
      then after == before
      else && after.entry.Some? && after.entry.value.size == |file.content| && after.entry.value.mtimeMs == file.mtimeMs
           && (if after.entry.value.source.Overlay? then after.remote == Some(file.content)
               else after.remote.None? && Get(template, rel) == Some(file.content))
  {
    EntryAfter(sec, m, tree, deletes, f, rel);
    hide Sync;
  }

  // ── Exact mirror ──────────────────────────────────────────────────────────

  /** Every policy-kept object S3 holds is either tracked or present locally. */
  ghost predicate Accounted(sec: Section, m: Mirror, tree: Tree) {
    forall r :: r in m.remote && sec.Keeps(r) ==> r in m.entries || r in tree
  }

  lemma NothingFailed(sec: Section, m: Mirror, tree: Tree, deletes: bool, f: Faults)
    requires Stats(sec, m, tree, deletes, f).failed == 0
    ensures forall r :: r in Wanted(sec, tree) ==>
      var v := Decide(sec, Get(m.entries, r), tree[r], r, f); v != Unreadable && v != Rejected
    ensures deletes ==> Gone(sec, m, tree) == Confirmed(sec, m, tree, f)
  {
    forall r | r in Wanted(sec, tree)
      ensures var v := Decide(sec, Get(m.entries, r), tree[r], r, f); v != Unreadable && v != Rejected
    {
      assert r !in Met(sec, m, tree, Wanted(sec, tree), f, Unreadable);
      assert r !in Met(sec, m, tree, Wanted(sec, tree), f, Rejected);
    }
    if deletes {
      assert Gone(sec, m, tree) - Confirmed(sec, m, tree, f) == {};
    }
  }

  /** No failing request: every gone key is deleted. */
  function NoFaults(sec: Section, m: Mirror, tree: Tree): Faults { Faults({}, {}, Gone(sec, m, tree), false) }

  lemma CleanRunSucceeds(sec: Section, m: Mirror, tree: Tree, deletes: bool)
    ensures Feasible(NoFaults(sec, m, tree), Gone(sec, m, tree))
    ensures Stats(sec, m, tree, deletes, NoFaults(sec, m, tree)).failed == 0
  {
    var f := NoFaults(sec, m, tree);
    assert Met(sec, m, tree, Wanted(sec, tree), f, Unreadable) == {};
    assert Met(sec, m, tree, Wanted(sec, tree), f, Rejected) == {};
    hide Met, Decide;
    assert Gone(sec, m, tree) - Confirmed(sec, m, tree, f) == {};
  }

  /** A run with deletes in which nothing failed leaves the manifest tracking
      exactly the kept local files, and the kept objects exactly the overlay
      ones among them, each with its local content. */
  lemma ExactMirror(sec: Section, m: Mirror, tree: Tree, f: Faults, template: map<Rel, Content>)
    requires Sound(sec, m, template) && StampsTell(sec, m, tree) && Accounted(sec, m, tree)
    requires Stats(sec, m, tree, true, f).failed == 0
    ensures var after := Sync(sec, m, tree, true, f);
      && after.entries.Keys == Wanted(sec, tree)
      && (forall r :: r in after.remote && sec.Keeps(r) <==> r in Wanted(sec, tree) && after.entries[r].source.Overlay?)
      && (forall r :: r in after.remote && sec.Keeps(r) ==> after.remote[r] == tree[r].content)
      && (forall r :: r in Wanted(sec, tree) && r !in after.remote ==> r in template && template[r] == tree[r].content)
  {
    NothingFailed(sec, m, tree, true, f);
    var after := Sync(sec, m, tree, true, f);
    forall r
      ensures r in after.entries <==> r in Wanted(sec, tree)
      ensures r in Wanted(sec, tree) ==> MirrorsFile(after.At(r), tree[r], r, template)
      ensures r !in Wanted(sec, tree) && sec.Keeps(r) ==> r !in after.remote
    {
      PathMirrored(sec, m, tree, f, template, r);
      assert after.At(r).entry.Some? <==> r in after.entries;
      assert after.At(r).remote.Some? <==> r in after.remote;
    }
    forall r | r in Wanted(sec, tree)
      ensures r in after.remote <==> after.entries[r].source.Overlay?
      ensures r in after.remote ==> after.remote[r] == tree[r].content
      ensures r !in after.remote ==> r in template && template[r] == tree[r].content
    {
      assert MirrorsFile(after.At(r), tree[r], r, template);
    }
  }

  ghost predicate MirrorsFile(slot: Slot, file: LocalFile, rel: Rel, template: map<Rel, Content>) {
    slot.entry.Some? && SameStamp(slot.entry, file) &&
    if slot.entry.value.source.Overlay? then slot.remote == Some(file.content)
    else slot.remote.None? && rel in template && template[rel] == file.content
  }

  lemma PathMirrored(sec: Section, m: Mirror, tree: Tree, f: Faults, template: map<Rel, Content>, r: Rel)
    requires SoundSlot(sec, m.At(r), r, template) && Tells(m.At(r), WantedFile(sec, tree, r))
    requires r in m.remote && sec.Keeps(r) ==> r in m.entries || r in tree
    requires r in Wanted(sec, tree) ==>
      var v := Decide(sec, Get(m.entries, r), tree[r], r, f); v != Unreadable && v != Rejected
    requires Gone(sec, m, tree) == Confirmed(sec, m, tree, f)
    ensures var slot := FinalSlot(sec, m.At(r), WantedFile(sec, tree, r), true, r, f);
      && (slot.entry.Some? <==> r in Wanted(sec, tree))
      && (r in Wanted(sec, tree) ==> MirrorsFile(slot, tree[r], r, template))
      && (r !in Wanted(sec, tree) && sec.Keeps(r) ==> slot.remote.None?)
  {
    if r !in Wanted(sec, tree) && r in m.entries && m.entries[r].source.Overlay? {
      assert r in Gone(sec, m, tree);
    }
  }

  // ── Progress ──────────────────────────────────────────────────────────────

  /** A run without failures would upload the file. */
  predicate Stale(sec: Section, entry: Option<ManifestEntry>, file: LocalFile) {
    !SameStamp(entry, file) && !SameHash(entry, sec.HashOf(file.content))
  }

  function OutOfSync(sec: Section, m: Mirror, tree: Tree): set<Rel> {
    set r | r in Wanted(sec, tree) && Stale(sec, m.At(r).entry, tree[r])
  }

  function Pending(sec: Section, m: Mirror, tree: Tree): nat {
    |OutOfSync(sec, m, tree)| + |Gone(sec, m, tree)|
  }

  lemma UploadClearsStale(sec: Section, slot: Slot, file: LocalFile, rel: Rel, f: Faults)
    ensures Stale(sec, UploadSlot(sec, slot, file, rel, f).entry, file)
            <==> Stale(sec, slot.entry, file) && Decide(sec, slot.entry, file, rel, f) != Upload
    ensures Decide(sec, slot.entry, file, rel, f) == Upload ==> Stale(sec, slot.entry, file)
  {
  }

  /** The entry a run leaves for one path. */
  lemma EntryAfter(sec: Section, m: Mirror, tree: Tree, deletes: bool, f: Faults, r: Rel)
    ensures Sync(sec, m, tree, deletes, f).At(r) ==
      if r in Wanted(sec, tree) then UploadSlot(sec, m.At(r), tree[r], r, f)
      else if deletes then DeleteSlot(m.At(r), r, f) else m.At(r)
  {
  }

  lemma OutOfSyncFalls(sec: Section, m: Mirror, tree: Tree, deletes: bool, f: Faults)
    ensures var uploaded := Met(sec, m, tree, Wanted(sec, tree), f, Upload);
      && uploaded <= OutOfSync(sec, m, tree)
      && OutOfSync(sec, Sync(sec, m, tree, deletes, f), tree) == OutOfSync(sec, m, tree) - uploaded
  {
    var w := Wanted(sec, tree);
    var after := Sync(sec, m, tree, deletes, f);
    var uploaded := Met(sec, m, tree, w, f, Upload);
    var left := OutOfSync(sec, after, tree);
    forall r ensures r in uploaded ==> r in OutOfSync(sec, m, tree)
             ensures r in left <==> r in OutOfSync(sec, m, tree) && r !in uploaded
    {
      if r in w {
        EntryAfter(sec, m, tree, deletes, f, r);
        UploadClearsStale(sec, m.At(r), tree[r], r, f);
      }
    }
  }

  lemma GoneFalls(sec: Section, m: Mirror, tree: Tree, f: Faults)
    ensures Gone(sec, Sync(sec, m, tree, true, f), tree) == Gone(sec, m, tree) - Confirmed(sec, m, tree, f)
  {
    var w := Wanted(sec, tree);
    var after := Sync(sec, m, tree, true, f);
    forall r ensures r in Gone(sec, after, tree) <==> r in Gone(sec, m, tree) && r !in Confirmed(sec, m, tree, f)
    {
      if r !in w {
        EntryAfter(sec, m, tree, true, f, r);
        assert after.At(r).entry == Get(after.entries, r);
      }
    }
  }

  /** What is left to do falls by exactly what the run did. */
  lemma ProgressIsExact(sec: Section, m: Mirror, tree: Tree, f: Faults)
    ensures Pending(sec, Sync(sec, m, tree, true, f), tree) ==
      Pending(sec, m, tree) - Stats(sec, m, tree, true, f).uploaded - Stats(sec, m, tree, true, f).deleted
  {
    OutOfSyncFalls(sec, m, tree, true, f);
    GoneFalls(sec, m, tree, f);
  }

  /** Everything kept carries its recorded stamp and nothing else is tracked. */
  predicate Settled(sec: Section, m: Mirror, tree: Tree) {
    m.entries.Keys == Wanted(sec, tree) && forall r :: r in Wanted(sec, tree) ==> SameStamp(m.At(r).entry, tree[r])
  }

  lemma UploadStamps(sec: Section, slot: Slot, file: LocalFile, rel: Rel, f: Faults)
    requires var v := Decide(sec, slot.entry, file, rel, f); v != Unreadable && v != Rejected
    ensures SameStamp(UploadSlot(sec, slot, file, rel, f).entry, file)
  {
  }

  lemma SuccessSettles(sec: Section, m: Mirror, tree: Tree, f: Faults)
    requires Stats(sec, m, tree, true, f).failed == 0
    ensures Settled(sec, Sync(sec, m, tree, true, f), tree)
  {
    hide Sync;
    NothingFailed(sec, m, tree, true, f);
    GoneFalls(sec, m, tree, f);
    var after := Sync(sec, m, tree, true, f);
    forall r | r in Wanted(sec, tree) ensures SameStamp(after.At(r).entry, tree[r]) {
      EntryAfter(sec, m, tree, true, f, r);
      UploadStamps(sec, m.At(r), tree[r], r, f);
    }
    forall r | r !in Wanted(sec, tree) ensures r !in after.entries {
      EntryAfter(sec, m, tree, true, f, r);
      assert r !in Gone(sec, after, tree);
      assert after.At(r).entry == Get(after.entries, r);
    }
    assert forall r | r in Wanted(sec, tree) :: after.At(r).entry.Some?;
  }

  lemma OnlyStampSkips(sec: Section, m: Mirror, tree: Tree, f: Faults, v: Verdict)
    requires forall r :: r in Wanted(sec, tree) ==> SameStamp(m.At(r).entry, tree[r])
    ensures Met(sec, m, tree, Wanted(sec, tree), f, v) == if v == StampSkip then Wanted(sec, tree) else {}
  {
    forall r | r in Wanted(sec, tree) ensures Decide(sec, Get(m.entries, r), tree[r], r, f) == StampSkip {
      assert SameStamp(m.At(r).entry, tree[r]);
    }
  }

  lemma SettledPaths(sec: Section, m: Mirror, tree: Tree, f: Faults)
    requires Settled(sec, m, tree)
    ensures forall r :: Sync(sec, m, tree, true, f).At(r) == m.At(r)
  {
    hide Sync;
    forall r ensures Sync(sec, m, tree, true, f).At(r) == m.At(r) {
      EntryAfter(sec, m, tree, true, f, r);
    }
  }

  /** A settled mirror is left alone, whatever the environment would have done. */
  lemma SettledIsIdle(sec: Section, m: Mirror, tree: Tree, f: Faults)
    requires Settled(sec, m, tree)
    ensures Sync(sec, m, tree, true, f) == m
    ensures Stats(sec, m, tree, true, f) == SyncStats(0, 0, |Wanted(sec, tree)|, 0)
  {
    hide Sync, SameStamp, Met;
    SettledPaths(sec, m, tree, f);
    SameMirror(Sync(sec, m, tree, true, f), m);
    assert Gone(sec, m, tree) == {};
    StampSkipsOnly(sec, m, tree, f);
    hide Settled;
  }

  lemma StampSkipsOnly(sec: Section, m: Mirror, tree: Tree, f: Faults)
    requires forall r :: r in Wanted(sec, tree) ==> SameStamp(m.At(r).entry, tree[r])
    ensures UploadStats(sec, m, tree, Wanted(sec, tree), f) == SyncStats(0, 0, |Wanted(sec, tree)|, 0)
  {
    hide SameStamp, Met;
    OnlyStampSkips(sec, m, tree, f, StampSkip);
    OnlyStampSkips(sec, m, tree, f, HashSkip);
    OnlyStampSkips(sec, m, tree, f, Upload);
    OnlyStampSkips(sec, m, tree, f, Unreadable);
    OnlyStampSkips(sec, m, tree, f, Rejected);
  }

  /** After a run in which nothing failed, the next one changes nothing. */
  lemma SecondRunIsIdle(sec: Section, m: Mirror, tree: Tree, f: Faults, again: Faults)
    requires Stats(sec, m, tree, true, f).failed == 0
    ensures var after := Sync(sec, m, tree, true, f);
      && Sync(sec, after, tree, true, again) == after
      && Stats(sec, after, tree, true, again) == SyncStats(0, 0, |Wanted(sec, tree)|, 0)
  {
    SuccessSettles(sec, m, tree, f);
    SettledIsIdle(sec, Sync(sec, m, tree, true, f), tree, again);
  }
}
