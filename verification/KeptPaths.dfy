// Which paths the sync policy keeps, said segment by segment.
module KeptPaths {
  import opened Text
  import opened SyncPolicy
  import opened SyncSection

  // ── Paths and their segments ──────────────────────────────────────────────

  lemma SplitHead(rel: string)
    ensures var i := IndexOf(rel, '/');
      Split(rel, '/') == if i < 0 then [rel] else [rel[..i]] + Split(rel[i + 1..], '/')
  {
    var i := IndexOf(rel, '/');
    if i < 0 {
      SplitPlain(rel, '/');
    } else {
      assert rel == rel[..i] + ['/'] + rel[i + 1..];
      SplitFirst(rel[..i], rel[i + 1..], '/');
    }
  }

  /** A dir prefix is a first segment. */
  lemma Below(rel: string, dir: string, prefix: string)
    requires '/' !in dir && prefix == dir + "/"
    ensures var segments := Split(rel, '/');
      StartsWith(rel, prefix) <==> |segments| >= 2 && segments[0] == dir
    ensures StartsWith(rel, prefix) ==> Split(rel, '/') == [dir] + Split(rel[|prefix|..], '/')
  {
    SplitHead(rel);
    var i := IndexOf(rel, '/');
    if i >= 0 && rel[..i] == dir { assert rel[..i + 1] == dir + "/"; }
    if prefix <= rel {
      assert rel[..|dir| + 1] == dir + "/";
      FirstSlash(rel, dir);
    }
  }

  function Name(segments: seq<string>): string
    requires segments != []
  {
    segments[|segments| - 1]
  }

  lemma {:induction false} LastIs(rel: string)
    ensures Name(Split(rel, '/')) == Basename(rel)
    decreases |rel|
  {
    SplitHead(rel);
    var i := IndexOf(rel, '/');
    if i >= 0 {
      LastIs(rel[i + 1..]);
      SameName(rel, i);
      hide Split, Basename;
      assert Name([rel[..i]] + Split(rel[i + 1..], '/')) == Name(Split(rel[i + 1..], '/'));
    }
  }

  /** Nothing before a slash matters to the name. */
  lemma SameName(rel: string, i: nat)
    requires i < |rel| && rel[i] == '/'
    ensures Basename(rel) == Basename(rel[i + 1..])
  {
    var rest := rel[i + 1..];
    var inner := LastIndexOf(rest, '/');
    if inner >= 0 {
      assert rel[i + 1 + inner] == '/' && rest[inner + 1..] == rel[i + 1 + inner + 1..];
      LastUnique(rel, '/', i + 1 + inner);
    } else {
      LastUnique(rel, '/', i);
    }
  }

  /** A suffix without a slash is one of the file name. */
  lemma NameEnds(rel: string, suffix: string)
    requires '/' !in suffix
    ensures EndsWith(rel, suffix) <==> EndsWith(Basename(rel), suffix)
  {
    var name, last, cut := Basename(rel), LastIndexOf(rel, '/'), |rel| - |suffix|;
    assert name == rel[last + 1..] && |name| == |rel| - last - 1;
    hide Basename, LastIndexOf;
    if |suffix| <= |name| {
      assert name[|name| - |suffix|..] == rel[cut..];
    } else if |suffix| <= |rel| {
      assert rel[cut..][last - cut] == '/' && rel[cut..][last - cut] in rel[cut..];
    }
  }

  // ── The config paths that are kept ────────────────────────────────────────

  /** No climbing, no NUL, no SQLite journal. */
  predicate Clean(rel: Rel) {
    rel != "" && '\0' !in rel && ".." !in Split(rel, '/') && !EndsWith(Basename(rel), "-journal")
  }

  predicate RootFile(segments: seq<string>) { segments == ["global.ini"] || segments == ["user.ini"] }

  predicate ManagerFile(segments: seq<string>) { |segments| >= 2 && segments[0] == "plugin_manager" }

  predicate Scene(segments: seq<string>) {
    |segments| >= 3 && segments[0] == "basic" && segments[1] == "scenes"
    && !EndsWith(Name(segments), ".bak") && !EndsWith(Name(segments), ".tmp")
  }

  predicate PluginSetting(segments: seq<string>) {
    |segments| >= 3 && segments[0] == "plugin_config"
    && segments[1] !in {"", "obs-websocket", "rtmp-services", "obs-browser"}
  }

  predicate BrowserState(segments: seq<string>) {
    |segments| >= 3 && segments[0] == "plugin_config" && segments[1] == "obs-browser" && SiteState(segments[2..])
  }

  predicate SiteState(segments: seq<string>) {
    segments == ["Cookies"]
    || (|segments| >= 2 && segments[0] in {"Local Storage", "IndexedDB"} && Name(segments) !in {"LOCK", "LOG", "LOG.old"})
  }

  /** User state, by segments: the two root files, everything of the plugin manager,
      scenes but their backups, every plugin's settings but the regenerated ones, and
      of obs-browser the cookies and the two storage dirs without leveldb's locks and
      logs. */
  predicate UserState(segments: seq<string>) {
    RootFile(segments) || ManagerFile(segments) || Scene(segments) || PluginSetting(segments) || BrowserState(segments)
  }

  lemma Roots(rel: Rel)
    ensures rel in ROOT_FILES <==> RootFile(Split(rel, '/'))
  {
    if rel in ROOT_FILES { SplitPlain(rel, '/') by { NoSlashInRoots(); } }
    if RootFile(Split(rel, '/')) { JoinSplit(rel, '/'); }
    hide Split;
  }

  lemma NoSlashInRoots()
    ensures forall rel :: rel in ROOT_FILES ==> '/' !in rel
  {
  }

  lemma Scenes(rel: Rel)
    ensures StartsWith(rel, "basic/scenes/") && !EndsWith(rel, ".bak") && !EndsWith(rel, ".tmp") <==> Scene(Split(rel, '/'))
    ensures StartsWith(rel, "basic/scenes/") ==> Split(rel, '/')[0] == "basic"
  {
    BelowTwo(rel, "basic", "scenes", "basic/", "scenes/", "basic/scenes/");
    LastIs(rel);
    NameEnds(rel, ".bak");
    NameEnds(rel, ".tmp");
    hide Split, Basename, EndsWith, StartsWith;
  }

  lemma BelowTwo(rel: string, a: string, b: string, outer: string, inner: string, both: string)
    requires '/' !in a && '/' !in b && outer == a + "/" && inner == b + "/" && both == outer + inner
    ensures var segments := Split(rel, '/');
      StartsWith(rel, both) <==> |segments| >= 3 && segments[0] == a && segments[1] == b
  {
    Below(rel, a, outer);
    TwoDirs(rel, outer, inner, both);
    if StartsWith(rel, outer) { Below(rel[|outer|..], b, inner); }
    hide Split, StartsWith;
  }

  lemma TwoDirs(rel: string, outer: string, inner: string, both: string)
    requires both == outer + inner
    ensures StartsWith(rel, both) <==> StartsWith(rel, outer) && StartsWith(rel[|outer|..], inner)
  {
    if outer <= rel && inner <= rel[|outer|..] {
      assert rel == outer + rel[|outer|..];
      assert both == rel[..|both|];
    }
    if both <= rel {
      assert rel[..|outer|] == both[..|outer|] == outer;
      assert rel[|outer|..|both|] == both[|outer|..] == inner;
      assert rel[|outer|..][..|inner|] == inner;
    }
  }

  lemma Browser(inner: string)
    ensures IsBrowserPathSynced(inner) <==> SiteState(Split(inner, '/'))
  {
    LastIs(inner);
    StorageDirs(inner);
    CookiesAre(inner);
    hide Split, Basename, StartsWith, SiteState, IsBrowserPathSynced;
    BrowserBranches(inner, Split(inner, '/'));
  }

  lemma StorageDirs(inner: string)
    ensures var segments := Split(inner, '/');
      (exists i :: 0 <= i < |BROWSER_KEEP_DIRS| && StartsWith(inner, BROWSER_KEEP_DIRS[i])) <==>
        |segments| >= 2 && segments[0] in {"Local Storage", "IndexedDB"}
  {
    Below(inner, "Local Storage", "Local Storage/");
    Below(inner, "IndexedDB", "IndexedDB/");
    hide Split, StartsWith;
    KeepDirs(inner);
  }

  lemma BrowserBranches(inner: string, segments: seq<string>)
    requires segments != [] && Name(segments) == Basename(inner)
    requires (exists i :: 0 <= i < |BROWSER_KEEP_DIRS| && StartsWith(inner, BROWSER_KEEP_DIRS[i])) <==>
      |segments| >= 2 && segments[0] in {"Local Storage", "IndexedDB"}
    requires inner in BROWSER_KEEP_FILES <==> segments == ["Cookies"]
    ensures IsBrowserPathSynced(inner) <==> SiteState(segments)
  {
    hide Basename, StartsWith;
  }

  lemma KeepDirs(inner: string)
    ensures (exists i :: 0 <= i < |BROWSER_KEEP_DIRS| && StartsWith(inner, BROWSER_KEEP_DIRS[i])) <==>
      StartsWith(inner, "Local Storage/") || StartsWith(inner, "IndexedDB/")
  {
    hide StartsWith;
    assert BROWSER_KEEP_DIRS[0] == "Local Storage/" && BROWSER_KEEP_DIRS[1] == "IndexedDB/";
  }

  lemma CookiesAre(inner: string)
    ensures inner in BROWSER_KEEP_FILES <==> Split(inner, '/') == ["Cookies"]
  {
    if inner in BROWSER_KEEP_FILES { SplitPlain(inner, '/'); }
    if Split(inner, '/') == ["Cookies"] { JoinSplit(inner, '/'); }
    hide Split;
  }

  /** What the policy asks below plugin_config. */
  predicate SettingKept(rest: string) {
    var slash := IndexOf(rest, '/');
    slash > 0 && rest[..slash] !in REGENERATED_PLUGIN_CONFIGS
    && (rest[..slash] == "obs-browser" ==> IsBrowserPathSynced(rest[slash + 1..]))
  }

  lemma Settings(rel: Rel)
    ensures StartsWith(rel, "plugin_config/") && SettingKept(rel[|"plugin_config/"|..]) <==>
      PluginSetting(Split(rel, '/')) || BrowserState(Split(rel, '/'))
    ensures StartsWith(rel, "plugin_config/") ==> Split(rel, '/')[0] == "plugin_config"
  {
    var prefix := "plugin_config/";
    Below(rel, "plugin_config", prefix);
    if StartsWith(rel, prefix) {
      SettingSegments(rel[|prefix|..], "plugin_config", Split(rel, '/'));
    }
    hide Split, StartsWith, SettingKept, SiteState;
  }

  lemma SettingSegments(rest: string, dir: string, segments: seq<string>)
    requires dir == "plugin_config" && segments == [dir] + Split(rest, '/')
    ensures SettingKept(rest) <==> PluginSetting(segments) || BrowserState(segments)
  {
    SplitHead(rest);
    var slash := IndexOf(rest, '/');
    hide IsBrowserPathSynced, SiteState;
    if slash >= 0 {
      var inner := rest[slash + 1..];
      Browser(inner);
      hide Split;
      assert segments[0] == dir && segments[1] == rest[..slash] && |segments| >= 3;
      assert segments[2..] == Split(inner, '/');
    }
    hide Split;
  }

  lemma Managers(rel: Rel)
    ensures StartsWith(rel, "plugin_manager/") <==> ManagerFile(Split(rel, '/'))
  {
    Below(rel, "plugin_manager", "plugin_manager/");
  }

  /** The policy keeps exactly clean paths to user state. */
  lemma KeptExactlyWhen(rel: Rel)
    ensures IsSyncedConfigPath(rel) <==> Clean(rel) && UserState(Split(rel, '/'))
  {
    NameEnds(rel, "-journal");
    Roots(rel);
    Managers(rel);
    Scenes(rel);
    Settings(rel);
    hide Split, Basename, EndsWith, StartsWith, RootFile, Scene, PluginSetting, BrowserState, IsBrowserPathSynced;
    PolicyBranches(rel);
  }

  /** The branches, none of which hides another. */
  lemma PolicyBranches(rel: Rel)
    requires StartsWith(rel, "basic/scenes/") ==> Split(rel, '/')[0] == "basic"
    requires StartsWith(rel, "plugin_config/") ==> Split(rel, '/')[0] == "plugin_config"
    ensures IsSyncedConfigPath(rel) <==>
      && rel != "" && '\0' !in rel && ".." !in Split(rel, '/') && !EndsWith(rel, "-journal")
      && (rel in ROOT_FILES || StartsWith(rel, "plugin_manager/")
          || (StartsWith(rel, "basic/scenes/") && !EndsWith(rel, ".bak") && !EndsWith(rel, ".tmp"))
          || (StartsWith(rel, "plugin_config/") && SettingKept(rel[|"plugin_config/"|..])))
  {
    hide Split, EndsWith, StartsWith, IsBrowserPathSynced;
  }

  /** What a user works on is kept, path by path. */
  lemma UserStateIsKept(name: string, plugin: string)
    ensures IsSyncedConfigPath("global.ini") && IsSyncedConfigPath("user.ini")
    ensures Clean("plugin_manager/" + name) ==> IsSyncedConfigPath("plugin_manager/" + name)
    ensures Clean("basic/scenes/" + name) && !EndsWith(name, ".bak") && !EndsWith(name, ".tmp") ==>
      IsSyncedConfigPath("basic/scenes/" + name)
    ensures '/' !in plugin && plugin !in {"", "obs-websocket", "rtmp-services", "obs-browser"} ==>
      (Clean("plugin_config/" + (plugin + "/" + name)) ==> IsSyncedConfigPath("plugin_config/" + (plugin + "/" + name)))
    ensures Clean("plugin_config/" + ("obs-browser/" + name)) && SiteState(Split(name, '/')) ==>
      IsSyncedConfigPath("plugin_config/" + ("obs-browser/" + name))
  {
    hide Clean, IsSyncedConfigPath, SiteState, EndsWith;
    RootFilesKept();
    ManagerKept(name);
    SceneKept(name);
    if '/' !in plugin { PluginKept(name, plugin); }
    assert "obs-browser" + "/" + name == "obs-browser/" + name;
    PluginKept(name, "obs-browser");
  }

  lemma RootFilesKept()
    ensures IsSyncedConfigPath("global.ini") && IsSyncedConfigPath("user.ini")
  {
    forall rel | rel in ROOT_FILES ensures IsSyncedConfigPath(rel) {
      NoSlashInRoots();
      SplitPlain(rel, '/');
      RootNames(rel);
    }
    hide IsSyncedConfigPath;
  }

  lemma RootNames(rel: string)
    requires rel in ROOT_FILES && Split(rel, '/') == [rel]
    ensures IsSyncedConfigPath(rel)
  {
    hide Split;
  }

  lemma ManagerKept(name: string)
    ensures Clean("plugin_manager/" + name) ==> IsSyncedConfigPath("plugin_manager/" + name)
  {
    var rel := "plugin_manager/" + name;
    KeptExactlyWhen(rel);
    Managers(rel);
    assert StartsWith(rel, "plugin_manager/");
    hide IsSyncedConfigPath, Clean, Split;
  }

  lemma SceneKept(name: string)
    ensures Clean("basic/scenes/" + name) && !EndsWith(name, ".bak") && !EndsWith(name, ".tmp") ==>
      IsSyncedConfigPath("basic/scenes/" + name)
  {
    var dir := "basic/scenes/";
    var rel := dir + name;
    KeptExactlyWhen(rel);
    Scenes(rel);
    assert StartsWith(rel, dir);
    assert dir[|dir| - 1] == '/';
    SuffixOf(dir, name, ".bak");
    SuffixOf(dir, name, ".tmp");
    hide IsSyncedConfigPath, Clean, Split, EndsWith, StartsWith;
  }

  lemma SuffixOf(dir: string, name: string, suffix: string)
    requires |dir| >= 1 && dir[|dir| - 1] == '/' && '/' !in suffix
    ensures EndsWith(dir + name, suffix) <==> EndsWith(name, suffix)
  {
    var rel := dir + name;
    if |suffix| <= |name| {
      assert rel[|rel| - |suffix|..] == name[|name| - |suffix|..];
    } else if |suffix| <= |rel| {
      assert rel[|rel| - |suffix|..][|dir| - 1 - (|rel| - |suffix|)] == '/';
    }
  }

  lemma PluginKept(name: string, plugin: string)
    requires '/' !in plugin
    ensures Clean("plugin_config/" + (plugin + "/" + name)) && plugin !in {"", "obs-websocket", "rtmp-services", "obs-browser"} ==>
      IsSyncedConfigPath("plugin_config/" + (plugin + "/" + name))
    ensures Clean("plugin_config/" + (plugin + "/" + name)) && plugin == "obs-browser" && SiteState(Split(name, '/')) ==>
      IsSyncedConfigPath("plugin_config/" + (plugin + "/" + name))
  {
    var dir, rest := "plugin_config/", plugin + "/" + name;
    var rel := dir + rest;
    KeptExactlyWhen(rel);
    Below(rel, "plugin_config", dir);
    assert StartsWith(rel, dir) && rel[|dir|..] == rest;
    assert rest == plugin + ['/'] + name;
    SplitFirst(plugin, name, '/');
    var segments := Split(rel, '/');
    assert segments == ["plugin_config"] + ([plugin] + Split(name, '/'));
    assert segments[0] == "plugin_config" && segments[1] == plugin && segments[2..] == Split(name, '/');
    hide IsSyncedConfigPath, Clean, Split, SiteState, StartsWith, EndsWith;
  }

  // ── How long a kept path may be ───────────────────────────────────────────

  /** A kept file with an ASCII path is synced exactly when its key has at most 1024
      characters. With any other path it is synced up to 256, and never above 1024. */
  lemma ShortPathsAreWanted(sec: Section, tree: Tree, rel: Rel)
    requires rel in tree && sec.filter(rel)
    ensures (forall c :: c in sec.prefix + rel ==> c as int < 0x80) ==> (rel in Wanted(sec, tree) <==> |sec.prefix + rel| <= 1024)
    ensures |sec.prefix + rel| <= 256 ==> rel in Wanted(sec, tree)
    ensures |sec.prefix + rel| > 1024 ==> rel !in Wanted(sec, tree)
  {
    Utf8LengthIs(sec.prefix + rel);
  }

  // ── The media paths that are kept ─────────────────────────────────────────

  /** A dot begins the path or one of its later segments. */
  predicate DotAt(rel: Rel, i: nat) { i < |rel| && rel[i] == '.' && (i == 0 || rel[i - 1] == '/') }

  ghost predicate HasDot(rel: Rel) { exists i: nat :: DotAt(rel, i) }

  ghost predicate DotSegment(segments: seq<string>) { exists s :: s in segments && "." <= s }

  lemma {:induction false} DotSegments(rel: Rel)
    ensures DotSegment(Split(rel, '/')) <==> HasDot(rel)
    decreases |rel|
  {
    SplitHead(rel);
    var i := IndexOf(rel, '/');
    if i < 0 {
      OneSegment(rel);
    } else {
      DotSegments(rel[i + 1..]);
      DotsOfParts(rel, i);
      hide Split, HasDot;
      assert DotSegment([rel[..i]] + Split(rel[i + 1..], '/')) <==> "." <= rel[..i] || DotSegment(Split(rel[i + 1..], '/')) by {
        HeadOrRest(rel[..i], Split(rel[i + 1..], '/'));
      }
    }
  }

  lemma HeadOrRest(head: string, rest: seq<string>)
    ensures DotSegment([head] + rest) <==> "." <= head || DotSegment(rest)
  {
    if "." <= head { assert head in [head] + rest; }
    if s :| s in rest && "." <= s { assert s in [head] + rest; }
  }

  lemma OneSegment(rel: Rel)
    requires '/' !in rel
    ensures DotSegment([rel]) <==> HasDot(rel)
  {
    assert rel in [rel];
    if "." <= rel { assert DotAt(rel, 0); }
    forall j | 0 <= j < |rel| ensures rel[j] != '/' { assert rel[j] in rel; }
  }

  /** A dot begins the first segment, or one of the rest. */
  lemma DotsOfParts(rel: Rel, i: nat)
    requires i < |rel| && rel[i] == '/' && '/' !in rel[..i]
    ensures HasDot(rel) <==> "." <= rel[..i] || HasDot(rel[i + 1..])
  {
    var head, rest := rel[..i], rel[i + 1..];
    if "." <= head { assert head[0] == rel[0] && DotAt(rel, 0); }
    if k: nat :| DotAt(rest, k) { assert DotAt(rel, i + 1 + k); }
    forall j | 0 <= j < i ensures rel[j] != '/' { assert rel[j] == head[j] && head[j] in head; }
    if k: nat :| DotAt(rel, k) {
      if k < i {
        assert head[0] == '.';
      } else {
        assert k > i + 1 ==> rest[k - i - 2] == rel[k - 1];
        assert DotAt(rest, k - i - 1);
      }
    }
  }

  /** Media keeps exactly the paths no segment of which begins with a dot. */
  lemma MediaKeptExactlyWhen(rel: Rel)
    ensures IsSyncedMediaPath(rel) <==> rel != "" && '\0' !in rel && !HasDot(rel)
  {
    DotSegments(rel);
    var segments := Split(rel, '/');
    if i :| 0 <= i < |segments| && (segments[i] == ".." || "." <= segments[i]) {
      assert segments[i] in segments && "." <= segments[i] by { assert ".."[..1] == "."; }
      assert DotSegment(segments);
    }
    if DotSegment(segments) {
      var s :| s in segments && "." <= s;
      var i :| 0 <= i < |segments| && segments[i] == s;
    }
    hide Split, HasDot;
  }
}
