// The walk that lists a local dir before a push: real files below real
// directories, by their path with "/" between segments.
module DirectoryWalk {
  import opened Text
  import opened SyncPolicy
  import opened SyncSection

  // A directory's entries in the order readdir gives them. OtherNode is a
  // symlink, a socket, anything the walk must not follow.
  datatype Node = FileNode(file: LocalFile) | DirNode(entries: DirEntries) | OtherNode
  datatype DirEntries = End | Entry(name: string, node: Node, rest: DirEntries)

  type Segments = seq<string>

  function Find(entries: DirEntries, name: string): Option<Node> {
    match entries
    case End => None
    case Entry(n, node, rest) => if n == name then Some(node) else Find(rest, name)
  }

  /** What opening a path below the dir reaches, following no link. */
  function Lookup(entries: DirEntries, path: Segments): Option<LocalFile>
    decreases |path|
  {
    if path == [] then None
    else
      match Find(entries, path[0])
      case None => None
      case Some(FileNode(file)) => if |path| == 1 then Some(file) else None
      case Some(DirNode(below)) => Lookup(below, path[1..])
      case Some(OtherNode) => None
  }

  /** Names are single path segments, and no directory has a name twice. */
  predicate WellFormed(entries: DirEntries) {
    match entries
    case End => true
    case Entry(name, node, rest) =>
      && PlainSegment(name) && Find(rest, name).None? && WellFormed(rest)
      && (node.DirNode? ==> WellFormed(node.entries))
  }

  // ── What the walk lists ───────────────────────────────────────────────────

  datatype Listing = Listing(path: Segments, file: LocalFile)

  function Listed(entries: DirEntries, at: Segments): seq<Listing>
    decreases entries
  {
    match entries
    case End => []
    case Entry(name, node, rest) =>
      (match node
       case FileNode(file) => [Listing(at + [name], file)]
       case DirNode(below) => Listed(below, at + [name])
       case OtherNode => [])
      + Listed(rest, at)
  }

  lemma {:induction false} FindNone(entries: DirEntries, at: Segments, name: string, l: Listing)
    requires WellFormed(entries) && Find(entries, name).None? && l in Listed(entries, at)
    ensures |at| < |l.path| && l.path[..|at|] == at && l.path[|at|] != name
    decreases entries
  {
    var Entry(n, node, rest) := entries;
    hide Lookup, PlainSegment;
    if l in Listed(rest, at) {
      FindNone(rest, at, name, l);
    } else if node.DirNode? {
      BelowAt(node.entries, at + [n], l);
      assert l.path[..|at|] == l.path[..|at + [n]|][..|at|] && l.path[|at|] == l.path[..|at + [n]|][|at|];
    } else {
      assert l == Listing(at + [n], node.file);
    }
  }

  lemma {:induction false} BelowAt(entries: DirEntries, at: Segments, l: Listing)
    requires l in Listed(entries, at)
    ensures |at| < |l.path| && l.path[..|at|] == at
    decreases entries
  {
    var Entry(n, node, rest) := entries;
    if l in Listed(rest, at) {
      BelowAt(rest, at, l);
    } else if node.DirNode? {
      BelowAt(node.entries, at + [n], l);
      assert l.path[..|at|] == l.path[..|at + [n]|][..|at|];
    }
  }

  /** A listed path goes through the first entry or is the rest's. */
  lemma FirstOrRest(name: string, node: Node, rest: DirEntries, at: Segments, l: Listing)
    requires l in Listed(Entry(name, node, rest), at)
    ensures |at| < |l.path| && (l.path[|at|] == name || l in Listed(rest, at))
  {
    BelowAt(Entry(name, node, rest), at, l);
    if l !in Listed(rest, at) && node.DirNode? {
      BelowAt(node.entries, at + [name], l);
      assert l.path[|at|] == l.path[..|at + [name]|][|at|];
    }
  }

  /** The walk lists exactly the paths that open to a real file. */
  lemma {:induction false} ListedIs(entries: DirEntries, at: Segments, path: Segments, file: LocalFile)
    requires WellFormed(entries)
    ensures Listing(at + path, file) in Listed(entries, at) <==> Lookup(entries, path) == Some(file)
    decreases entries
  {
    if path == [] || entries.End? {
      if Listing(at + path, file) in Listed(entries, at) { BelowAt(entries, at, Listing(at + path, file)); }
    } else {
      var Entry(name, node, rest) := entries;
      if path[0] != name {
        ListedIs(rest, at, path, file);
        ListedElsewhere(name, node, rest, at, path, file);
      } else {
        if node.DirNode? { ListedIs(node.entries, at + [name], path[1..], file); }
        ListedBelow(name, node, rest, at, path, file);
      }
      hide Listed, Lookup, PlainSegment;
    }
  }

  lemma ListedElsewhere(name: string, node: Node, rest: DirEntries, at: Segments, path: Segments, file: LocalFile)
    requires path != [] && path[0] != name
    requires Listing(at + path, file) in Listed(rest, at) <==> Lookup(rest, path) == Some(file)
    ensures Listing(at + path, file) in Listed(Entry(name, node, rest), at) <==>
      Lookup(Entry(name, node, rest), path) == Some(file)
  {
    var l := Listing(at + path, file);
    assert l.path[|at|] == path[0];
    SkipEntry(name, node, rest, path);
    if l in Listed(Entry(name, node, rest), at) { FirstOrRest(name, node, rest, at, l); }
    hide Lookup;
  }

  lemma ListedBelow(name: string, node: Node, rest: DirEntries, at: Segments, path: Segments, file: LocalFile)
    requires WellFormed(Entry(name, node, rest)) && path != [] && path[0] == name
    requires node.DirNode? ==> (Listing(at + [name] + path[1..], file) in Listed(node.entries, at + [name]) <==>
                                Lookup(node.entries, path[1..]) == Some(file))
    ensures Listing(at + path, file) in Listed(Entry(name, node, rest), at) <==>
      Lookup(Entry(name, node, rest), path) == Some(file)
  {
    hide Lookup, Listed, PlainSegment, WellFormed;
    NotInRest(name, node, rest, at, path, file);
    ThroughEntry(name, node, rest, at, path, file);
    LookupThrough(name, node, rest, path, file);
    assert at + [name] + path[1..] == at + path;
  }

  lemma NotInRest(name: string, node: Node, rest: DirEntries, at: Segments, path: Segments, file: LocalFile)
    requires WellFormed(Entry(name, node, rest)) && path != [] && path[0] == name
    ensures Listing(at + path, file) !in Listed(rest, at)
  {
    var l := Listing(at + path, file);
    assert l.path[|at|] == path[0];
    assert WellFormed(rest) && Find(rest, name).None?;
    hide Lookup, Listed, PlainSegment, WellFormed;
    if l in Listed(rest, at) { FindNone(rest, at, name, l); }
  }

  lemma LookupThrough(name: string, node: Node, rest: DirEntries, path: Segments, file: LocalFile)
    requires path != [] && path[0] == name
    ensures Lookup(Entry(name, node, rest), path) == Some(file) <==>
      (node == FileNode(file) && |path| == 1) || (node.DirNode? && Lookup(node.entries, path[1..]) == Some(file))
  {
  }

  lemma ThroughEntry(name: string, node: Node, rest: DirEntries, at: Segments, path: Segments, file: LocalFile)
    requires path != [] && path[0] == name && Listing(at + path, file) !in Listed(rest, at)
    ensures var l := Listing(at + path, file);
      l in Listed(Entry(name, node, rest), at) <==>
        (node == FileNode(file) && |path| == 1) || (node.DirNode? && l in Listed(node.entries, at + [name]))
  {
    assert at + path == at + [name] <==> |path| == 1;
  }

  lemma SkipEntry(name: string, node: Node, rest: DirEntries, path: Segments)
    requires path != [] && path[0] != name
    ensures Lookup(Entry(name, node, rest), path) == Lookup(rest, path)
  {
  }

  /** No path is listed twice. */
  lemma {:induction false} ListedOnce(entries: DirEntries, at: Segments, i: nat, j: nat)
    requires WellFormed(entries) && i < j < |Listed(entries, at)|
    ensures Listed(entries, at)[i].path != Listed(entries, at)[j].path
    decreases entries
  {
    hide Lookup, PlainSegment;
    var Entry(name, node, rest) := entries;
    var first := if node.DirNode? then Listed(node.entries, at + [name])
                 else if node.FileNode? then [Listing(at + [name], node.file)] else [];
    var all := Listed(entries, at);
    assert all == first + Listed(rest, at);
    if j < |first| {
      ListedOnce(node.entries, at + [name], i, j);
    } else {
      assert all[j] == Listed(rest, at)[j - |first|] && all[j] in Listed(rest, at);
      if i >= |first| {
        ListedOnce(rest, at, i - |first|, j - |first|);
      } else {
        FindNone(rest, at, name, all[j]);
        assert all[i] in first;
        if node.DirNode? {
          BelowAt(node.entries, at + [name], all[i]);
          assert all[i].path[|at|] == all[i].path[..|at + [name]|][|at|];
        }
      }
    }
  }

  lemma {:induction false} ListedPlain(entries: DirEntries, at: Segments, l: Listing)
    requires WellFormed(entries) && l in Listed(entries, at) && forall s :: s in at ==> PlainSegment(s)
    ensures forall s :: s in l.path ==> PlainSegment(s)
    decreases entries
  {
    var Entry(name, node, rest) := entries;
    if l in Listed(rest, at) {
      ListedPlain(rest, at, l);
    } else if node.DirNode? {
      ListedPlain(node.entries, at + [name], l);
    }
  }

  // ── As relative paths ─────────────────────────────────────────────────────

  function RelOf(l: Listing): Rel { if l.path == [] then "" else Join(l.path, '/') }

  /** What a listing amounts to for the sync engine. */
  function TreeOf(listings: seq<Listing>): Tree {
    if listings == [] then map[]
    else
      var last := listings[|listings| - 1];
      TreeOf(listings[..|listings| - 1])[RelOf(last) := last.file]
  }

  lemma {:induction false} TreeHas(listings: seq<Listing>, rel: Rel)
    ensures rel in TreeOf(listings) <==> exists l :: l in listings && RelOf(l) == rel
    ensures rel in TreeOf(listings) ==> exists l :: l in listings && RelOf(l) == rel && l.file == TreeOf(listings)[rel]
  {
    if listings != [] {
      var rest, last := listings[..|listings| - 1], listings[|listings| - 1];
      TreeHas(rest, rel);
      assert listings == rest + [last];
    }
  }

  /** The walked tree: its paths are canonical, and a canonical path is in it
      exactly when it opens to a real file, with that file's stamp and content. */
  lemma WalkedTree(entries: DirEntries, rel: Rel)
    requires WellFormed(entries)
    ensures var tree := TreeOf(Listed(entries, []));
      && (rel in tree ==> Canonical(rel) && Lookup(entries, Split(rel, '/')) == Some(tree[rel]))
      && (Canonical(rel) && Lookup(entries, Split(rel, '/')).Some? ==> rel in tree)
  {
    var all := Listed(entries, []);
    TreeHas(all, rel);
    if rel in TreeOf(all) {
      var l :| l in all && RelOf(l) == rel && l.file == TreeOf(all)[rel];
      BelowAt(entries, [], l);
      ListedPlain(entries, [], l);
      SplitJoin(l.path, '/');
      assert [] + l.path == l.path;
      ListedIs(entries, [], l.path, l.file);
    }
    if Canonical(rel) && Lookup(entries, Split(rel, '/')).Some? {
      var path := Split(rel, '/');
      ListedIs(entries, [], path, Lookup(entries, path).value);
      JoinSplit(rel, '/');
      assert [] + path == path;
      assert RelOf(Listing(path, Lookup(entries, path).value)) == rel;
    }
  }

  // ── What may go wrong ─────────────────────────────────────────────────────

  // Paths the walk skips, namely dirs that are gone by the time it gets to them and
  // files whose stat fails for any reason, and dirs whose listing throws for any
  // other reason. The dir itself, [], is skipped when the look at it fails.
  datatype WalkFaults = WalkFaults(vanished: set<Segments>, unreadable: set<Segments>)

  const NO_WALK_FAULTS := WalkFaults({}, {})

  /** The path, or a dir above it but below the first `k` segments, is skipped. */
  predicate Lost(path: Segments, k: nat, f: WalkFaults) { exists i :: k < i <= |path| && path[..i] in f.vanished }

  function Surviving(listings: seq<Listing>, k: nat, f: WalkFaults): seq<Listing> {
    if listings == [] then []
    else
      var rest := Surviving(listings[1..], k, f);
      if Lost(listings[0].path, k, f) then rest else [listings[0]] + rest
  }

  lemma {:induction false} SurvivingHas(listings: seq<Listing>, k: nat, f: WalkFaults, l: Listing)
    ensures l in Surviving(listings, k, f) <==> l in listings && !Lost(l.path, k, f)
  {
    if listings != [] { SurvivingHas(listings[1..], k, f, l); }
  }

  lemma {:induction false} SurvivingConcat(a: seq<Listing>, b: seq<Listing>, k: nat, f: WalkFaults)
    ensures Surviving(a + b, k, f) == Surviving(a, k, f) + Surviving(b, k, f)
  {
    if a == [] {
      assert a + b == b;
    } else {
      SurvivingConcat(a[1..], b, k, f);
      assert (a + b)[1..] == a[1..] + b;
    }
  }

  /** What opening a path below the dir finds, when it is a directory. */
  function LookupDir(entries: DirEntries, path: Segments): Option<DirEntries>
    decreases |path|
  {
    if path == [] then Some(entries)
    else
      match Find(entries, path[0])
      case Some(DirNode(below)) => LookupDir(below, path[1..])
      case _ => None
  }

  /** The walk meets a dir it cannot read. */
  predicate Blocked(entries: DirEntries, at: Segments, f: WalkFaults) {
    match entries
    case End => false
    case Entry(name, node, rest) =>
      || (node.DirNode? && at + [name] !in f.vanished
          && (at + [name] in f.unreadable || Blocked(node.entries, at + [name], f)))
      || Blocked(rest, at, f)
  }

  /** A dir the walk reaches, and cannot read. */
  ghost predicate Blocks(entries: DirEntries, at: Segments, path: Segments, f: WalkFaults) {
    path != [] && LookupDir(entries, path).Some? && at + path in f.unreadable && !Lost(at + path, |at|, f)
  }

  /** Which is: exactly when some directory below, with nothing gone above it,
      cannot be read. */
  lemma {:induction false} BlockedIs(entries: DirEntries, at: Segments, f: WalkFaults)
    requires WellFormed(entries)
    ensures Blocked(entries, at, f) <==> exists path :: Blocks(entries, at, path, f)
    decreases entries
  {
    match entries {
      case End =>
        forall path ensures !Blocks(entries, at, path, f) {
          if path != [] { assert Find(entries, path[0]).None?; }
        }
      case Entry(name, node, rest) =>
        BlockedIs(rest, at, f);
        if node.DirNode? { BlockedIs(node.entries, at + [name], f); }
        if Blocked(entries, at, f) {
          var path := BlockingPath(name, node, rest, at, f);
        }
        forall path | Blocks(entries, at, path, f) ensures Blocked(entries, at, f) {
          BlocksBelow(name, node, rest, at, path, f);
        }
    }
  }

  /** Nothing gone down to a dir and nothing gone below it. */
  lemma LostBelow(at: Segments, name: string, path: Segments, f: WalkFaults)
    ensures Lost(at + [name] + path, |at|, f) <==>
      at + [name] in f.vanished || Lost(at + [name] + path, |at| + 1, f)
  {
    var all := at + [name] + path;
    assert all[..|at| + 1] == at + [name];
  }

  lemma BlockingPath(name: string, node: Node, rest: DirEntries, at: Segments, f: WalkFaults) returns (path: Segments)
    requires Blocked(Entry(name, node, rest), at, f) && WellFormed(Entry(name, node, rest))
    requires Blocked(rest, at, f) <==> exists p :: Blocks(rest, at, p, f)
    requires node.DirNode? ==> (Blocked(node.entries, at + [name], f) <==> exists p :: Blocks(node.entries, at + [name], p, f))
    ensures Blocks(Entry(name, node, rest), at, path, f)
  {
    var all := Entry(name, node, rest);
    if Blocked(rest, at, f) {
      path :| Blocks(rest, at, path, f);
      assert Find(rest, path[0]).Some?;
      assert LookupDir(all, path) == LookupDir(rest, path);
    } else if at + [name] in f.unreadable {
      path := [name];
      assert path[1..] == [] && at + [name] + [] == at + path;
      LostBelow(at, name, [], f);
      assert !Lost(at + path, |at| + 1, f);
    } else {
      var below: Segments :| Blocks(node.entries, at + [name], below, f);
      path := [name] + below;
      assert path[1..] == below && at + [name] + below == at + path;
      LostBelow(at, name, below, f);
    }
  }

  lemma BlocksBelow(name: string, node: Node, rest: DirEntries, at: Segments, path: Segments, f: WalkFaults)
    requires Blocks(Entry(name, node, rest), at, path, f) && WellFormed(Entry(name, node, rest))
    requires Blocked(rest, at, f) <==> exists p :: Blocks(rest, at, p, f)
    requires node.DirNode? ==> (Blocked(node.entries, at + [name], f) <==> exists p :: Blocks(node.entries, at + [name], p, f))
    ensures Blocked(Entry(name, node, rest), at, f)
  {
    if path[0] != name {
      assert LookupDir(rest, path) == LookupDir(Entry(name, node, rest), path);
      assert Blocks(rest, at, path, f);
    } else {
      var below := path[1..];
      assert at + [name] + below == at + path;
      LostBelow(at, name, below, f);
      if below == [] {
        assert at + [name] == at + path;
      } else {
        assert Blocks(node.entries, at + [name], below, f);
      }
    }
  }

  // ── The walk as it runs ───────────────────────────────────────────────────

  // A dir that is not there, one that could not be read, or its files.
  datatype Walk = Missing | Threw | Files(listings: seq<Listing>)

  /** The listing of one entry below a dir that is still there. */
  lemma OneSurviving(below: DirEntries, at: Segments, name: string, f: WalkFaults)
    ensures Surviving(Listed(below, at + [name]), |at|, f) ==
      if at + [name] in f.vanished then [] else Surviving(Listed(below, at + [name]), |at| + 1, f)
  {
    AllLostOrSame(Listed(below, at + [name]), below, at, name, f);
  }

  lemma {:induction false} AllLostOrSame(part: seq<Listing>, below: DirEntries, at: Segments, name: string, f: WalkFaults)
    requires forall l :: l in part ==> l in Listed(below, at + [name])
    ensures Surviving(part, |at|, f) == if at + [name] in f.vanished then [] else Surviving(part, |at| + 1, f)
  {
    if part != [] {
      assert part[0] in part && forall l :: l in part[1..] ==> l in part;
      AllLostOrSame(part[1..], below, at, name, f);
      BelowAt(below, at + [name], part[0]);
      var rest := part[0].path[|at| + 1..];
      assert at + [name] + rest == part[0].path;
      LostBelow(at, name, rest, f);
    }
  }

  /** Lists what is left of the dir, or gives up at a dir it cannot read. */
  method Visit(entries: DirEntries, at: Segments, f: WalkFaults) returns (ok: bool, files: seq<Listing>)
    ensures ok <==> !Blocked(entries, at, f)
    ensures ok ==> files == Surviving(Listed(entries, at), |at|, f)
    decreases entries
  {
    files := [];
    match entries {
      case End => return true, files;
      case Entry(name, node, rest) =>
        ghost var first: seq<Listing> := match node
          case FileNode(file) => [Listing(at + [name], file)]
          case DirNode(below) => Listed(below, at + [name])
          case OtherNode => [];
        match node {
          case FileNode(file) =>
            if at + [name] !in f.vanished { files := [Listing(at + [name], file)]; }
            OneFile(at, name, file, f);
          case DirNode(below) =>
            OneSurviving(below, at, name, f);
            if at + [name] !in f.vanished {
              if at + [name] in f.unreadable { return false, files; }
              var inner, deeper := Visit(below, at + [name], f);
              if !inner { return false, files; }
              files := deeper;
            }
          case OtherNode =>
        }
        assert files == Surviving(first, |at|, f);
        var others, more := Visit(rest, at, f);
        if !others { return false, files; }
        SurvivingConcat(first, Listed(rest, at), |at|, f);
        return true, files + more;
    }
  }

  lemma OneFile(at: Segments, name: string, file: LocalFile, f: WalkFaults)
    ensures Surviving([Listing(at + [name], file)], |at|, f) ==
      if at + [name] in f.vanished then [] else [Listing(at + [name], file)]
  {
    LostBelow(at, name, [], f);
    assert at + [name] + [] == at + [name];
    assert [Listing(at + [name], file)][1..] == [];
  }

  /** A dir that is not seen is taken for a missing one; once seen it must be
      readable: only below it may things vanish. */
  function Walked(base: Option<DirEntries>, f: WalkFaults): Walk {
    if base.None? || [] in f.vanished then Missing
    else if [] in f.unreadable || Blocked(base.value, [], f) then Threw
    else Files(Surviving(Listed(base.value, []), 0, f))
  }

  method WalkFiles(base: Option<DirEntries>, f: WalkFaults) returns (walk: Walk)
    ensures walk == Walked(base, f)
  {
    if base.None? || [] in f.vanished { return Missing; }
    if [] in f.unreadable { return Threw; }
    var ok, files := Visit(base.value, [], f);
    walk := if ok then Files(files) else Threw;
  }

  /** A walk that does not throw lists exactly the real files with nothing gone on
      the way to them. */
  lemma WalkIsExact(entries: DirEntries, f: WalkFaults, path: Segments, file: LocalFile)
    requires WellFormed(entries) && Walked(Some(entries), f).Files?
    ensures Listing(path, file) in Walked(Some(entries), f).listings <==>
      Lookup(entries, path) == Some(file) && !Lost(path, 0, f)
  {
    SurvivingHas(Listed(entries, []), 0, f, Listing(path, file));
    ListedIs(entries, [], path, file);
    assert [] + path == path;
    hide Lookup, Lost, Surviving, Listed;
  }

  /** A dir that is seen is given up exactly when it, or a dir the walk reaches below
      it, cannot be read; a dir that is not seen is taken for a missing one. */
  lemma WalkThrowsExactlyWhen(entries: DirEntries, f: WalkFaults)
    requires WellFormed(entries)
    ensures Walked(Some(entries), f).Threw? <==>
      [] !in f.vanished && ([] in f.unreadable || exists path :: Blocks(entries, [], path, f))
    ensures Walked(Some(entries), f).Missing? <==> [] in f.vanished
  {
    BlockedIs(entries, [], f);
  }

  /** With nothing wrong the walk lists the whole dir, and WalkedTree speaks of what
      it found. */
  lemma CleanWalkListsAll(entries: DirEntries)
    ensures Walked(Some(entries), NO_WALK_FAULTS) == Files(Listed(entries, []))
  {
    NeverBlocked(entries, []);
    NothingLost(Listed(entries, []), 0);
  }

  lemma {:induction false} NeverBlocked(entries: DirEntries, at: Segments)
    ensures !Blocked(entries, at, NO_WALK_FAULTS)
    decreases entries
  {
    if entries.Entry? {
      NeverBlocked(entries.rest, at);
      if entries.node.DirNode? { NeverBlocked(entries.node.entries, at + [entries.name]); }
    }
  }

  lemma {:induction false} NothingLost(listings: seq<Listing>, k: nat)
    ensures Surviving(listings, k, NO_WALK_FAULTS) == listings
  {
    if listings != [] {
      NothingLost(listings[1..], k);
      assert !Lost(listings[0].path, k, NO_WALK_FAULTS);
    }
  }

  /** The tree of a walk holds canonical paths only, whatever vanished. */
  lemma SurvivingTreeCanonical(entries: DirEntries, f: WalkFaults, rel: Rel)
    requires WellFormed(entries) && rel in TreeOf(Surviving(Listed(entries, []), 0, f))
    ensures Canonical(rel) && Lookup(entries, Split(rel, '/')) == Some(TreeOf(Surviving(Listed(entries, []), 0, f))[rel])
  {
    var left := Surviving(Listed(entries, []), 0, f);
    TreeHas(left, rel);
    var l :| l in left && RelOf(l) == rel && l.file == TreeOf(left)[rel];
    hide TreeOf;
    SurvivingHas(Listed(entries, []), 0, f, l);
    hide Surviving, Lost;
    BelowAt(entries, [], l);
    ListedPlain(entries, [], l);
    SplitJoin(l.path, '/');
    assert [] + l.path == l.path;
    ListedIs(entries, [], l.path, l.file);
  }
}
