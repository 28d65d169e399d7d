// The engine that mirrors one local directory to one S3 prefix, driven by the
// manifest of what S3 holds.
//
// Every rule of the engine looks at one path only, so a run is specified path
// by path: `Slot` is what S3 and the manifest say about a path, `FinalSlot`
// what one run makes of it, and `Sync` applies that to all of them at once.
module SyncSection {
  import opened Text
  import opened SyncPolicy
  import opened ObjectStore

  const MAX_KEY_BYTES := 1024

  datatype Source = Overlay | Template

  // The content hash, with "equal hashes mean equal contents" built in. Media
  // files are never hashed.
  datatype Hash = NoHash | Digest(of: Content)

  datatype ManifestEntry = ManifestEntry(size: nat, mtimeMs: int, hash: Hash, source: Source)
  type Entries = map<Rel, ManifestEntry>

  datatype LocalFile = LocalFile(mtimeMs: int, content: Content) {
    function Size(): nat { |content| }
    function Entry(hash: Hash, source: Source): ManifestEntry { ManifestEntry(Size(), mtimeMs, hash, source) }
  }
  type Tree = map<Rel, LocalFile>

  datatype Section = Section(prefix: string, filter: Rel -> bool, hashContent: bool) {
    /** A file the policy keeps and S3 can name. */
    predicate Keeps(rel: Rel) { filter(rel) && Utf8Length(prefix + rel) <= MAX_KEY_BYTES }

    function HashOf(content: Content): Hash { if hashContent then Digest(content) else NoHash }
  }

  function Wanted(sec: Section, tree: Tree): set<Rel> { set r | r in tree && sec.Keeps(r) }

  function Get<V>(m: map<Rel, V>, rel: Rel): Option<V> { if rel in m then Some(m[rel]) else None }

  lemma SameMap<V>(a: map<Rel, V>, b: map<Rel, V>)
    requires forall r :: Get(a, r) == Get(b, r)
    ensures a == b
  {
    forall r ensures (r in a <==> r in b) && (r in a ==> a[r] == b[r]) { assert Get(a, r) == Get(b, r); }
  }

  function WantedFile(sec: Section, tree: Tree, rel: Rel): Option<LocalFile> {
    if sec.Keeps(rel) then Get(tree, rel) else None
  }

  // ── One path ──────────────────────────────────────────────────────────────

  datatype Slot = Slot(remote: Option<Content>, entry: Option<ManifestEntry>)

  datatype Mirror = Mirror(remote: map<Rel, Content>, entries: Entries) {
    function At(rel: Rel): Slot { Slot(Get(remote, rel), Get(entries, rel)) }
  }

  lemma SameMirror(a: Mirror, b: Mirror)
    requires forall r :: a.At(r) == b.At(r)
    ensures a == b
  {
    forall r ensures Get(a.remote, r) == Get(b.remote, r) && Get(a.entries, r) == Get(b.entries, r) { assert a.At(r) == b.At(r); }
    SameMap(a.remote, b.remote);
    SameMap(a.entries, b.entries);
  }

  /** What the environment did during one run: files that could not be read,
      uploads that threw, gone keys S3 deleted, and whether the delete threw. */
  datatype Faults = Faults(unreadable: set<Rel>, rejected: set<Rel>, accepted: set<Rel>, threw: bool)

  predicate SameStamp(entry: Option<ManifestEntry>, file: LocalFile) {
    entry.Some? && entry.value.size == file.Size() && entry.value.mtimeMs == file.mtimeMs
  }

  predicate SameHash(entry: Option<ManifestEntry>, hash: Hash) {
    entry.Some? && hash != NoHash && entry.value.hash == hash
  }

  datatype Verdict = StampSkip | HashSkip | Unreadable | Rejected | Upload

  function Decide(sec: Section, entry: Option<ManifestEntry>, file: LocalFile, rel: Rel, f: Faults): Verdict {
    if SameStamp(entry, file) then StampSkip
    else if sec.hashContent && rel in f.unreadable then Unreadable
    else if SameHash(entry, sec.HashOf(file.content)) then HashSkip
    else if rel in f.rejected then Rejected
    else Upload
  }

  function UploadSlot(sec: Section, slot: Slot, file: LocalFile, rel: Rel, f: Faults): Slot {
    match Decide(sec, slot.entry, file, rel, f)
    case HashSkip => slot.(entry := Some(slot.entry.value.(size := file.Size(), mtimeMs := file.mtimeMs)))
    case Upload => Slot(Some(file.content), Some(file.Entry(sec.HashOf(file.content), Overlay)))
    case _ => slot
  }

  function DeleteSlot(slot: Slot, rel: Rel, f: Faults): Slot {
    if slot.entry.None? then slot
    else if slot.entry.value.source.Template? then slot.(entry := None)
    else if rel !in f.accepted then slot
    else Slot(None, if f.threw then slot.entry else None)
  }

  function FinalSlot(sec: Section, slot: Slot, file: Option<LocalFile>, deletes: bool, rel: Rel, f: Faults): Slot {
    if file.Some? then UploadSlot(sec, slot, file.value, rel, f)
    else if deletes then DeleteSlot(slot, rel, f)
    else slot
  }

  // ── One run ───────────────────────────────────────────────────────────────

  function Sync(sec: Section, m: Mirror, tree: Tree, deletes: bool, f: Faults): (after: Mirror)
    ensures forall r :: after.At(r) == FinalSlot(sec, m.At(r), WantedFile(sec, tree, r), deletes, r, f)
  {
    var after := Mirror(
      map r | r in m.remote.Keys + tree.Keys &&
              FinalSlot(sec, m.At(r), WantedFile(sec, tree, r), deletes, r, f).remote.Some? ::
        FinalSlot(sec, m.At(r), WantedFile(sec, tree, r), deletes, r, f).remote.value,
      map r | r in m.entries.Keys + tree.Keys &&
              FinalSlot(sec, m.At(r), WantedFile(sec, tree, r), deletes, r, f).entry.Some? ::
        FinalSlot(sec, m.At(r), WantedFile(sec, tree, r), deletes, r, f).entry.value);
    after
  }

  /** Overlay keys tracked in the manifest whose file is gone or no longer kept. */
  function Gone(sec: Section, m: Mirror, tree: Tree): set<Rel> {
    set r | r in m.entries && r !in Wanted(sec, tree) && m.entries[r].source.Overlay?
  }

  /** The files among `done` that met the given verdict. */
  function Met(sec: Section, m: Mirror, tree: Tree, done: set<Rel>, f: Faults, v: Verdict): set<Rel> {
    set r | r in done && r in tree && Decide(sec, Get(m.entries, r), tree[r], r, f) == v
  }

  datatype SyncStats = SyncStats(uploaded: nat, deleted: nat, skipped: nat, failed: nat) {
    function Count(v: Verdict): SyncStats {
      match v
      case Upload => this.(uploaded := uploaded + 1)
      case StampSkip | HashSkip => this.(skipped := skipped + 1)
      case Unreadable | Rejected => this.(failed := failed + 1)
    }
  }

  function UploadStats(sec: Section, m: Mirror, tree: Tree, done: set<Rel>, f: Faults): SyncStats {
    SyncStats(|Met(sec, m, tree, done, f, Upload)|, 0,
              |Met(sec, m, tree, done, f, StampSkip)| + |Met(sec, m, tree, done, f, HashSkip)|,
              |Met(sec, m, tree, done, f, Unreadable)| + |Met(sec, m, tree, done, f, Rejected)|)
  }

  function Confirmed(sec: Section, m: Mirror, tree: Tree, f: Faults): set<Rel> {
    if f.threw then {} else Gone(sec, m, tree) * f.accepted
  }

  function Stats(sec: Section, m: Mirror, tree: Tree, deletes: bool, f: Faults): (s: SyncStats) {
    var s := UploadStats(sec, m, tree, Wanted(sec, tree), f);
    var deleted := Confirmed(sec, m, tree, f);
    if deletes then s.(deleted := |deleted|, failed := s.failed + |Gone(sec, m, tree) - deleted|) else s
  }

  /** Deletes go out in requests of DELETE_BATCH keys; a throw ends them after
      some full requests were answered, each of which may have refused keys. */
  ghost predicate Feasible(f: Faults, gone: set<Rel>) {
    f.accepted <= gone &&
    (f.threw ==> exists answered: set<Rel> ::
      f.accepted <= answered <= gone && |answered| % DELETE_BATCH == 0 && |answered| < |gone|)
  }

  // ── What a run meets ──────────────────────────────────────────────────────

  // What the host and S3 will do wrong during one run: files that cannot be read,
  // uploads that throw, keys whose delete is refused, and the number of the delete
  // request that throws.
  datatype Trouble = Trouble(unreadable: set<Rel>, rejected: set<Rel>, refused: set<Rel>, throwsAt: Option<nat>) {
    function AtDelete(prefix: string): DeleteTrouble { DeleteTrouble(set r | r in refused :: prefix + r, throwsAt) }
    function AtUpload(): Faults { Faults(unreadable, rejected, {}, false) }
    predicate Throws(gone: nat) { AtDelete("").Throws(gone) }
  }

  const NO_TROUBLE := Trouble({}, {}, {}, None)

  /** The delete went the way it had to: every key went that was not refused, or
      those of the requests before the one that threw. */
  ghost predicate DeletesCaused(f: Faults, t: Trouble, gone: set<Rel>) {
    && (f.threw <==> t.Throws(|gone|))
    && (!f.threw ==> f.accepted == gone - t.refused)
    && (f.threw ==> exists reached: set<Rel> ::
          reached <= gone && |reached| == t.throwsAt.value * DELETE_BATCH && f.accepted == reached - t.refused)
  }

  /** A run reports exactly the faults it met. */
  ghost predicate CausedBy(f: Faults, t: Trouble, gone: set<Rel>, deletes: bool) {
    f.unreadable == t.unreadable && f.rejected == t.rejected && (deletes ==> DeletesCaused(f, t, gone))
  }

  lemma CausedIsFeasible(f: Faults, t: Trouble, gone: set<Rel>)
    requires DeletesCaused(f, t, gone)
    ensures Feasible(f, gone)
  {
    if f.threw {
      var reached: set<Rel> :| reached <= gone && |reached| == t.throwsAt.value * DELETE_BATCH && f.accepted == reached - t.refused;
      assert |reached| % DELETE_BATCH == 0 && |reached| < |gone|;
    }
  }
}
