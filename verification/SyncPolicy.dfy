// Which files below an instance's OBS config dir and media dir are kept in S3,
// and where a key suffix lands on disk.
module SyncPolicy {
  import opened Text

  type Rel = string

  predicate IsPluginPath(rel: Rel) { "plugins/" <= rel }

  const ROOT_FILES := {"global.ini", "user.ini"}
  const REGENERATED_PLUGIN_CONFIGS := {"obs-websocket", "rtmp-services"}
  const BROWSER_KEEP_FILES := {"Cookies"}
  const BROWSER_KEEP_DIRS := ["Local Storage/", "IndexedDB/"]
  const LEVELDB_TRANSIENT := {"LOCK", "LOG", "LOG.old"}

  function Basename(rel: Rel): string { rel[LastIndexOf(rel, '/') + 1..] }

  predicate IsBrowserPathSynced(rel: Rel) {
    if rel in BROWSER_KEEP_FILES then true
    else if !(exists i :: 0 <= i < |BROWSER_KEEP_DIRS| && StartsWith(rel, BROWSER_KEEP_DIRS[i])) then false
    else Basename(rel) !in LEVELDB_TRANSIENT
  }

  predicate IsSyncedConfigPath(rel: Rel) {
    if rel == "" || '\0' in rel || ".." in Split(rel, '/') then false
    else if EndsWith(rel, "-journal") then false
    else if rel in ROOT_FILES then true
    else if StartsWith(rel, "plugin_manager/") then true
    else if StartsWith(rel, "basic/scenes/") then !EndsWith(rel, ".bak") && !EndsWith(rel, ".tmp")
    else if StartsWith(rel, "plugin_config/") then
      var rest := rel[|"plugin_config/"|..];
      var slash := IndexOf(rest, '/');
      if slash <= 0 then false
      else
        var plugin := rest[..slash];
        var inner := rest[slash + 1..];
        if plugin in REGENERATED_PLUGIN_CONFIGS then false
        else if plugin == "obs-browser" then IsBrowserPathSynced(inner)
        else true
    else false
  }

  predicate IsSyncedMediaPath(rel: Rel) {
    if rel == "" || '\0' in rel then false
    else !(exists i :: 0 <= i < |Split(rel, '/')| && (Split(rel, '/')[i] == ".." || "." <= Split(rel, '/')[i]))
  }

  /** What the plan, the node or the running OBS owns: never a user's to keep. */
  predicate PlanOwned(rel: Rel) {
    "basic/profiles/" <= rel || IsPluginPath(rel) || "plugin_config/obs-websocket/" <= rel
  }

  lemma PlanOwnedNeverSynced(rel: Rel)
    requires "basic/profiles/" <= rel || "plugins/" <= rel || "plugin_config/obs-websocket/" <= rel
    ensures !IsSyncedConfigPath(rel)
  {
    if "plugin_config/obs-websocket/" <= rel {
      WebsocketConfigNeverSynced(rel);
    } else if "basic/profiles/" <= rel {
      NotBoth(rel, "basic/profiles/", "basic/scenes/", 6);
      NotBoth(rel, "basic/profiles/", "plugin_manager/", 6);
      NotBoth(rel, "basic/profiles/", "plugin_config/", 6);
      assert rel[0] == 'b';
    } else {
      NotBoth(rel, "plugins/", "basic/scenes/", 0);
      NotBoth(rel, "plugins/", "plugin_manager/", 6);
      NotBoth(rel, "plugins/", "plugin_config/", 6);
      assert rel[0] == 'p';
    }
  }

  lemma WebsocketConfigNeverSynced(rel: Rel)
    requires "plugin_config/obs-websocket/" <= rel
    ensures !IsSyncedConfigPath(rel)
  {
    var full := "plugin_config/obs-websocket/";
    var dir := "plugin_config/";
    var rest := rel[|dir|..];
    NotBoth(rel, full, "plugin_manager/", 7);
    NotBoth(rel, full, "basic/scenes/", 0);
    assert rel[0] == 'p';
    assert rest[..14] == "obs-websocket/" by {
      assert rel[|dir|..|dir| + 14] == full[|dir|..];
      assert full[|dir|..] == "obs-websocket/";
    }
    FirstSlash(rest, "obs-websocket");
  }

  /** Two prefixes that differ somewhere are not both prefixes of one path. */
  lemma NotBoth(rel: Rel, p: string, q: string, at: nat)
    requires p <= rel && at < |p| && at < |q| && p[at] != q[at]
    ensures !(q <= rel)
  {
    assert rel[at] == p[at];
  }

  lemma FirstSlash(s: string, head: string)
    requires '/' !in head && |s| > |head| && s[..|head| + 1] == head + "/"
    ensures IndexOf(s, '/') == |head|
    ensures s[..|head|] == head
  {
    var i := IndexOf(s, '/');
    assert s[|head|] == (s[..|head| + 1])[|head|] == '/';
    assert s[..|head|] == (s[..|head| + 1])[..|head|] == head;
  }

  // ── Where a key suffix lands on disk ──────────────────────────────────────

  /** node:path resolve: "" and "." vanish, ".." climbs (stopping at the root). */
  function ResolveFrom(at: seq<string>, segments: seq<string>): seq<string>
    decreases |segments|
  {
    if segments == [] then at else ResolveFrom(Enter(at, segments[0]), segments[1..])
  }

  function Enter(at: seq<string>, s: string): seq<string> {
    if s == "" || s == "." then at
    else if s == ".." then (if at == [] then [] else at[..|at| - 1])
    else at + [s]
  }

  /** The path below `base` that downloadPrefix writes the key suffix to, or
      None where it skips the key. */
  function LocalTarget(base: seq<string>, rel: Rel): Option<Rel> {
    if rel == "" || '\0' in rel then None
    else
      var resolved := ResolveFrom(if rel[0] == '/' then [] else base, Split(rel, '/'));
      if |base| < |resolved| && resolved[..|base|] == base then Some(Join(resolved[|base|..], '/')) else None
  }

  predicate PlainSegment(s: string) { s != "" && s != "." && s != ".." && '/' !in s && '\0' !in s }

  /** The shape of every path a directory walk yields. */
  predicate Canonical(rel: Rel) { forall s :: s in Split(rel, '/') ==> PlainSegment(s) }

  lemma {:induction false} ResolvePlain(at: seq<string>, segments: seq<string>)
    requires forall s :: s in segments ==> PlainSegment(s)
    ensures ResolveFrom(at, segments) == at + segments
    decreases |segments|
  {
    if segments != [] {
      assert PlainSegment(segments[0]);
      ResolvePlain(at + [segments[0]], segments[1..]);
      assert [segments[0]] + segments[1..] == segments;
      assert at + [segments[0]] + segments[1..] == at + segments;
    } else {
      assert at + segments == at;
    }
  }

  lemma {:induction false} JoinHasNoNul(parts: seq<string>)
    requires |parts| >= 1
    requires forall p :: p in parts ==> '\0' !in p
    ensures '\0' !in Join(parts, '/')
  {
    if |parts| > 1 { JoinHasNoNul(parts[1..]); }
  }

  /** Keys that came from a walk come back to the path they came from. */
  lemma CanonicalTarget(base: seq<string>, rel: Rel)
    requires Canonical(rel)
    ensures LocalTarget(base, rel) == Some(rel)
  {
    var segments := Split(rel, '/');
    JoinSplit(rel, '/');
    JoinHasNoNul(segments);
    assert PlainSegment(segments[0]);
    assert rel != "" && rel[0] != '/';
    ResolvePlain(base, segments);
    assert (base + segments)[|base|..] == segments;
  }

  lemma {:induction false} NeverClimbs(at: seq<string>, segments: seq<string>)
    requires ".." !in segments
    ensures at <= ResolveFrom(at, segments)
    decreases |segments|
  {
    if segments != [] {
      var s := segments[0];
      assert s in segments && forall x :: x in segments[1..] ==> x in segments;
      NeverClimbs(Enter(at, s), segments[1..]);
    }
  }

  lemma SplitHead(s: string, sep: char)
    requires s != "" && s[0] != sep
    ensures Split(s, sep)[0] != "" && Split(s, sep)[0][0] == s[0]
  {
  }

  /** A pull never refuses a key the config policy keeps: whatever its suffix, it
      lands below the config dir. */
  lemma SyncedStaysInside(base: seq<string>, rel: Rel)
    requires IsSyncedConfigPath(rel)
    ensures LocalTarget(base, rel).Some?
  {
    var segments := Split(rel, '/');
    assert rel[0] != '/' && rel[0] != '.' by { SyncedStart(rel); }
    SplitHead(rel, '/');
    hide IsSyncedConfigPath;
    var head := segments[0];
    assert ResolveFrom(base, segments) == ResolveFrom(base + [head], segments[1..]);
    assert forall x :: x in segments[1..] ==> x in segments;
    NeverClimbs(base + [head], segments[1..]);
  }

  lemma SyncedStart(rel: Rel)
    requires IsSyncedConfigPath(rel)
    ensures rel[0] in {'g', 'u', 'p', 'b'}
  {
  }

  /** What the resolver does with each kind of segment, wherever it stands: "" and
      "." change nothing, ".." undoes the plain segment before it, and there is
      nothing above the root. */
  lemma {:induction false} SegmentsResolve(at: seq<string>, before: seq<string>, s: string, after: seq<string>)
    ensures ResolveFrom(at, before + [""] + after) == ResolveFrom(at, before + ["."] + after) == ResolveFrom(at, before + after)
    ensures PlainSegment(s) ==> ResolveFrom(at, before + [s, ".."] + after) == ResolveFrom(at, before + after)
    ensures ResolveFrom([], [".."] + after) == ResolveFrom([], after)
    decreases |before|
  {
    if before == [] {
      assert before + [""] + after == [""] + after && before + ["."] + after == ["."] + after && before + after == after;
      assert before + [s, ".."] + after == [s] + ([".."] + after) && (at + [s])[..|at|] == at;
      assert ResolveFrom(at + [s], [".."] + after) == ResolveFrom(at, after);
    } else {
      forall piece: seq<string> ensures before + piece + after == [before[0]] + (before[1..] + piece + after) { }
      assert before + after == [before[0]] + (before[1..] + after);
      SegmentsResolve(Enter(at, before[0]), before[1..], s, after);
      ResolveEnters(at, before[0], before[1..] + [""] + after);
      ResolveEnters(at, before[0], before[1..] + ["."] + after);
      ResolveEnters(at, before[0], before[1..] + [s, ".."] + after);
      ResolveEnters(at, before[0], before[1..] + after);
      SegmentsResolve([], [], s, after);
      hide ResolveFrom;
    }
  }

  lemma ResolveEnters(at: seq<string>, s: string, after: seq<string>)
    ensures ResolveFrom(at, [s] + after) == ResolveFrom(Enter(at, s), after)
  {
  }

  lemma {:induction false} ResolvedIsPlain(at: seq<string>, segments: seq<string>)
    requires forall s :: s in at ==> PlainSegment(s)
    requires forall s :: s in segments ==> '/' !in s && '\0' !in s
    ensures forall s :: s in ResolveFrom(at, segments) ==> PlainSegment(s)
    decreases |segments|
  {
    if segments != [] {
      assert segments[0] in segments && forall s :: s in segments[1..] ==> s in segments;
      assert Enter(at, segments[0]) <= at + [segments[0]];
      ResolvedIsPlain(Enter(at, segments[0]), segments[1..]);
    }
  }

  lemma {:induction false} PiecesHave(s: string, sep: char, c: char)
    requires c !in s
    ensures forall p :: p in Split(s, sep) ==> c !in p
  {
    if s != "" { PiecesHave(s[1..], sep, c); }
  }

  /** The suffix as node:path resolves it from the base. */
  function Resolved(base: seq<string>, rel: Rel): seq<string>
    requires rel != ""
  {
    ResolveFrom(if rel[0] == '/' then [] else base, Split(rel, '/'))
  }

  /** A suffix is written exactly to where it resolves, and only strictly below the
      base: every other suffix is skipped. */
  lemma TargetExactlyWhen(base: seq<string>, rel: Rel, path: Rel)
    requires forall s :: s in base ==> PlainSegment(s)
    ensures LocalTarget(base, rel) == Some(path) <==>
      rel != "" && '\0' !in rel && Canonical(path) && Resolved(base, rel) == base + Split(path, '/')
  {
    if rel != "" && '\0' !in rel {
      var resolved := Resolved(base, rel);
      PiecesHave(rel, '/', '\0');
      ResolvedIsPlain(if rel[0] == '/' then [] else base, Split(rel, '/'));
      JoinSplit(path, '/');
      if Canonical(path) && resolved == base + Split(path, '/') {
        assert resolved[..|base|] == base && resolved[|base|..] == Split(path, '/');
      }
      if LocalTarget(base, rel) == Some(path) {
        assert resolved == base + resolved[|base|..];
        forall s | s in resolved[|base|..] ensures PlainSegment(s) { assert s in resolved; }
        SplitJoin(resolved[|base|..], '/');
      }
    }
  }
}
