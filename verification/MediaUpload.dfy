// Streaming an upload to disk: size cap and quota as bytes arrive, a look at the
// first bytes, and a rename into place at the very end.
module MediaUpload {
  import opened Text
  import opened MediaTypes

  const OBS_MEDIA_MAX_FILE_BYTES: nat := 2 * 1024 * 1024 * 1024

  datatype File = File(path: string, content: Bytes)

  function Total(files: seq<File>): nat {
    if files == [] then 0 else Total(files[..|files| - 1]) + |files[|files| - 1].content|
  }

  function Without(files: seq<File>, path: string): seq<File> {
    if files == [] then []
    else
      var rest, last := Without(files[..|files| - 1], path), files[|files| - 1];
      if last.path == path then rest else rest + [last]
  }

  function QuotaBytes(quotaMb: nat): nat { quotaMb * 1024 * 1024 }

  function Concat(chunks: seq<Bytes>): Bytes {
    if chunks == [] then [] else Concat(chunks[..|chunks| - 1]) + chunks[|chunks| - 1]
  }

  lemma {:induction false} ConcatPrefix(chunks: seq<Bytes>, k: nat)
    requires k <= |chunks|
    ensures Concat(chunks[..k]) <= Concat(chunks)
    decreases |chunks|
  {
    if k < |chunks| {
      assert chunks[..|chunks| - 1][..k] == chunks[..k];
      ConcatPrefix(chunks[..|chunks| - 1], k);
    } else {
      assert chunks[..k] == chunks;
    }
  }

  // ── What an upload may do ─────────────────────────────────────────────────

  datatype Outcome = Committed | TooLarge | OverQuota | WrongType | Failed

  /** The bytes that may be stored under the extension, beside `used` others. */
  predicate Acceptable(ext: Option<string>, content: Bytes, used: nat, quota: nat) {
    && |content| <= OBS_MEDIA_MAX_FILE_BYTES
    && used + |content| <= quota
    && ContentMatchesExtension(ext, content)
  }

  /** What the declared size alone rules out. */
  function Declared(size: Option<nat>, used: nat, quota: nat): Option<Outcome> {
    if size.None? then None
    else if size.value > OBS_MEDIA_MAX_FILE_BYTES then Some(TooLarge)
    else if used + size.value > quota then Some(OverQuota)
    else None
  }

  // Where the read loop stands: bytes seen, bytes of the head kept, head checked.
  datatype Loop = Loop(written: nat, headLen: nat, headChunks: seq<Bytes>, sniffed: bool)

  /** One chunk: the new loop state, or the reason to stop. */
  function Chunk(l: Loop, chunk: Bytes, ext: Option<string>, used: nat, quota: nat): (Loop, Option<Outcome>) {
    var written := l.written + |chunk|;
    if written > OBS_MEDIA_MAX_FILE_BYTES then (l, Some(TooLarge))
    else if used + written > quota then (l, Some(OverQuota))
    else if l.sniffed then (l.(written := written), None)
    else
      var next := l.(written := written, headLen := l.headLen + |chunk|, headChunks := l.headChunks + [chunk]);
      if next.headLen < MEDIA_SNIFF_BYTES then (next, None)
      else if !ContentMatchesExtension(ext, Head(Concat(next.headChunks))) then (next, Some(WrongType))
      else (next.(sniffed := true), None)
  }

  const BEGIN := Loop(0, 0, [], false)

  /** The loop after all the chunks, or where it stopped. */
  function Read(chunks: seq<Bytes>, ext: Option<string>, used: nat, quota: nat): (Loop, Option<Outcome>) {
    if chunks == [] then (BEGIN, None)
    else
      var before := Read(chunks[..|chunks| - 1], ext, used, quota);
      if before.1.Some? then before else Chunk(before.0, chunks[|chunks| - 1], ext, used, quota)
  }

  function Ended(chunks: seq<Bytes>, ext: Option<string>, used: nat, quota: nat): Outcome {
    var end := Read(chunks, ext, used, quota);
    if end.1.Some? then end.1.value
    else if !end.0.sniffed && !ContentMatchesExtension(ext, Head(Concat(end.0.headChunks))) then WrongType
    else Committed
  }

  // ── Chunking does not matter ──────────────────────────────────────────────

  ghost predicate LoopTrue(l: Loop, content: Bytes, ext: Option<string>) {
    && l.written == |content| && l.headLen == |Concat(l.headChunks)|
    && Concat(l.headChunks) <= content && Head(Concat(l.headChunks)) == Head(content)
    && (l.sniffed ==> l.headLen >= MEDIA_SNIFF_BYTES && ContentMatchesExtension(ext, Head(content)))
    && (!l.sniffed ==> l.headLen < MEDIA_SNIFF_BYTES && Concat(l.headChunks) == content)
  }

  lemma HeadOfLonger(a: Bytes, b: Bytes)
    requires a <= b && |a| >= MEDIA_SNIFF_BYTES
    ensures Head(a) == Head(b)
  {
  }

  /** No further bytes can make the content acceptable. */
  predicate Hopeless(ext: Option<string>, content: Bytes, used: nat, quota: nat) {
    || |content| > OBS_MEDIA_MAX_FILE_BYTES
    || used + |content| > quota
    || (|content| >= MEDIA_SNIFF_BYTES && !ContentMatchesExtension(ext, Head(content)))
  }

  lemma HopelessGrows(ext: Option<string>, content: Bytes, longer: Bytes, used: nat, quota: nat)
    requires content <= longer && Hopeless(ext, content, used, quota)
    ensures Hopeless(ext, longer, used, quota) && !Acceptable(ext, longer, used, quota)
  {
    hide ContentMatchesExtension;
    HeadDecides(ext, longer);
    if |content| >= MEDIA_SNIFF_BYTES { HeadOfLonger(content, longer); }
  }

  lemma ChunkStep(l: Loop, content: Bytes, chunk: Bytes, ext: Option<string>, used: nat, quota: nat)
    requires LoopTrue(l, content, ext)
    ensures var (next, stop) := Chunk(l, chunk, ext, used, quota);
      && (stop.None? ==> LoopTrue(next, content + chunk, ext) && used + |content + chunk| <= quota
                         && |content + chunk| <= OBS_MEDIA_MAX_FILE_BYTES)
      && (stop.Some? ==> stop != Some(Committed) && Hopeless(ext, content + chunk, used, quota))
  {
    hide ContentMatchesExtension;
    assert (l.headChunks + [chunk])[..|l.headChunks|] == l.headChunks;
    if l.sniffed {
      HeadOfLonger(content, content + chunk);
      HeadOfLonger(Concat(l.headChunks), content + chunk);
    }
  }

  /** Where the loop stands after some chunks says exactly what they hold. */
  lemma {:induction false} ReadIs(chunks: seq<Bytes>, ext: Option<string>, used: nat, quota: nat)
    ensures var (l, stop) := Read(chunks, ext, used, quota);
      var content := Concat(chunks);
      && (stop.None? ==> LoopTrue(l, content, ext))
      && (stop.None? && chunks != [] ==> used + |content| <= quota && |content| <= OBS_MEDIA_MAX_FILE_BYTES)
      && (stop.Some? ==> stop != Some(Committed) && Hopeless(ext, content, used, quota))
  {
    hide Chunk, LoopTrue, Hopeless;
    if chunks == [] {
      EmptyLoop(ext);
    } else {
      var before := chunks[..|chunks| - 1];
      var chunk := chunks[|chunks| - 1];
      ReadIs(before, ext, used, quota);
      var (l, stop) := Read(before, ext, used, quota);
      if stop.None? {
        ChunkStep(l, Concat(before), chunk, ext, used, quota);
      } else {
        HopelessGrows(ext, Concat(before), Concat(chunks), used, quota);
      }
    }
  }

  lemma EmptyLoop(ext: Option<string>)
    ensures LoopTrue(BEGIN, [], ext)
  {
  }

  /** Whether an upload is committed depends on its bytes alone, however they
      arrive: exactly when they fit the cap and the quota and look like their
      extension. */
  lemma CommitIgnoresChunking(chunks: seq<Bytes>, ext: Option<string>, used: nat, quota: nat)
    ensures Ended(chunks, ext, used, quota) == Committed <==> Acceptable(ext, Concat(chunks), used, quota)
  {
    ReadIs(chunks, ext, used, quota);
    HeadDecides(ext, Concat(chunks));
    EmptyNeverMatches(ext);
    if Read(chunks, ext, used, quota).1.Some? { HopelessGrows(ext, Concat(chunks), Concat(chunks), used, quota); }
    hide ContentMatchesExtension, Read;
  }

  // ── When the reason given does not matter either ──────────────────────────

  /** What the content alone, and the room left, say of a reason to stop. */
  predicate Explains(reason: Outcome, ext: Option<string>, content: Bytes, used: nat, quota: nat) {
    match reason
    case TooLarge => |content| > OBS_MEDIA_MAX_FILE_BYTES
    case OverQuota => used + |content| > quota && quota - used < OBS_MEDIA_MAX_FILE_BYTES
    case WrongType =>
      && |content| >= MEDIA_SNIFF_BYTES && quota - used >= MEDIA_SNIFF_BYTES
      && !ContentMatchesExtension(ext, Head(content))
    case _ => false
  }

  lemma ExplainsGrows(reason: Outcome, ext: Option<string>, content: Bytes, longer: Bytes, used: nat, quota: nat)
    requires content <= longer && Explains(reason, ext, content, used, quota)
    ensures Explains(reason, ext, longer, used, quota)
  {
    hide ContentMatchesExtension;
    if |content| >= MEDIA_SNIFF_BYTES { HeadOfLonger(content, longer); }
  }

  lemma ChunkReason(l: Loop, content: Bytes, chunk: Bytes, ext: Option<string>, used: nat, quota: nat)
    requires LoopTrue(l, content, ext) && Chunk(l, chunk, ext, used, quota).1.Some?
    ensures Explains(Chunk(l, chunk, ext, used, quota).1.value, ext, content + chunk, used, quota)
  {
    hide ContentMatchesExtension;
    assert (l.headChunks + [chunk])[..|l.headChunks|] == l.headChunks;
  }

  lemma {:induction false} StopReason(chunks: seq<Bytes>, ext: Option<string>, used: nat, quota: nat)
    requires Read(chunks, ext, used, quota).1.Some?
    ensures Explains(Read(chunks, ext, used, quota).1.value, ext, Concat(chunks), used, quota)
  {
    hide Chunk, LoopTrue, Explains;
    var before, chunk := chunks[..|chunks| - 1], chunks[|chunks| - 1];
    var (l, stop) := Read(before, ext, used, quota);
    if stop.Some? {
      StopReason(before, ext, used, quota);
      ExplainsGrows(stop.value, ext, Concat(before), Concat(chunks), used, quota);
    } else {
      ReadIs(before, ext, used, quota);
      ChunkReason(l, Concat(before), chunk, ext, used, quota);
    }
  }

  /** However the content arrives, the route gives one answer. */
  ghost predicate OneOutcome(ext: Option<string>, content: Bytes, used: nat, quota: nat) {
    forall a, b :: Concat(a) == content && Concat(b) == content ==>
      Ended(a, ext, used, quota) == Ended(b, ext, used, quota)
  }

  /** Two reasons compete: the cap with the quota, the type with either, or, over
      an exhausted quota, an empty body with one that sends an empty chunk. */
  predicate ReasonsCompete(ext: Option<string>, content: Bytes, used: nat, quota: nat) {
    var n, room, cap := |content|, quota - used, 2147483648;
    || (n > cap && room < cap)
    || ((n > cap || n > room) && room >= 16 && !ContentMatchesExtension(ext, Head(content)))
    || (n == 0 && room < 0)
  }

  /** The answer when no reasons compete. */
  function SoleOutcome(ext: Option<string>, content: Bytes, used: nat, quota: nat): Outcome {
    if |content| > OBS_MEDIA_MAX_FILE_BYTES then TooLarge
    else if used + |content| > quota then OverQuota
    else if !ContentMatchesExtension(ext, Head(content)) then WrongType
    else Committed
  }

  lemma EndsAsSole(chunks: seq<Bytes>, ext: Option<string>, used: nat, quota: nat)
    requires !ReasonsCompete(ext, Concat(chunks), used, quota)
    ensures Ended(chunks, ext, used, quota) == SoleOutcome(ext, Concat(chunks), used, quota)
  {
    var content := Concat(chunks);
    CommitIgnoresChunking(chunks, ext, used, quota);
    HeadDecides(ext, content);
    ReadIs(chunks, ext, used, quota);
    if Read(chunks, ext, used, quota).1.Some? { StopReason(chunks, ext, used, quota); }
    hide ContentMatchesExtension, Read, Concat, Head;
  }

  /** The first piece decides when it stops the loop. */
  lemma FirstPiece(content: Bytes, k: nat, ext: Option<string>, used: nat, quota: nat)
    requires k <= |content|
    ensures var two := [content[..k], content[k..]];
      && Concat(two) == content
      && (Chunk(BEGIN, content[..k], ext, used, quota).1.Some? ==>
            Ended(two, ext, used, quota) == Chunk(BEGIN, content[..k], ext, used, quota).1.value)
  {
    hide Chunk, ContentMatchesExtension, Head;
    var one, two := [content[..k]], [content[..k], content[k..]];
    assert one[..0] == [] && two[..1] == one;
    assert Concat(one) == [] + content[..k] == content[..k];
    assert Concat(two) == Concat(one) + content[k..];
    assert Read(one, ext, used, quota) == Chunk(BEGIN, content[..k], ext, used, quota);
  }

  lemma AllAtOnce(content: Bytes, ext: Option<string>, used: nat, quota: nat)
    ensures Concat([content]) == content
    ensures Chunk(BEGIN, content, ext, used, quota).1.Some? ==>
      Ended([content], ext, used, quota) == Chunk(BEGIN, content, ext, used, quota).1.value
  {
    hide Chunk, ContentMatchesExtension, Head;
    assert [content][..0] == [];
    assert Concat([content]) == [] + content == content;
    assert Read([content], ext, used, quota) == Chunk(BEGIN, content, ext, used, quota);
  }

  /** The head alone is of the wrong type as soon as there is room for it. */
  lemma HeadAlone(content: Bytes, ext: Option<string>, used: nat, quota: nat)
    requires |content| >= MEDIA_SNIFF_BYTES && quota - used >= MEDIA_SNIFF_BYTES && !ContentMatchesExtension(ext, Head(content))
    ensures Chunk(BEGIN, content[..MEDIA_SNIFF_BYTES], ext, used, quota).1 == Some(WrongType)
  {
    hide ContentMatchesExtension;
    var head := content[..MEDIA_SNIFF_BYTES];
    assert BEGIN.headChunks + [head] == [head] && [head][..0] == [];
    assert Concat([head]) == [] + head == head;
    assert Head(head) == Head(content);
  }

  lemma CompetingReasons(ext: Option<string>, content: Bytes, used: nat, quota: nat) returns (a: seq<Bytes>, b: seq<Bytes>)
    requires ReasonsCompete(ext, content, used, quota)
    ensures Concat(a) == content && Concat(b) == content && Ended(a, ext, used, quota) != Ended(b, ext, used, quota)
  {
    var n, room := |content|, quota - used;
    a := [content];
    AllAtOnce(content, ext, used, quota);
    if n > OBS_MEDIA_MAX_FILE_BYTES && room < OBS_MEDIA_MAX_FILE_BYTES {
      b := [content[..OBS_MEDIA_MAX_FILE_BYTES], content[OBS_MEDIA_MAX_FILE_BYTES..]];
      FirstPiece(content, OBS_MEDIA_MAX_FILE_BYTES, ext, used, quota);
      hide Ended, Concat, ContentMatchesExtension, Head;
    } else if n == 0 && room < 0 {
      b := [];
      EmptyNeverMatches(ext);
      hide ContentMatchesExtension;
      assert content == [] && Head([]) == [];
      assert Ended(b, ext, used, quota) == WrongType;
    } else {
      b := [content[..MEDIA_SNIFF_BYTES], content[MEDIA_SNIFF_BYTES..]];
      FirstPiece(content, MEDIA_SNIFF_BYTES, ext, used, quota);
      HeadAlone(content, ext, used, quota);
      hide Ended, Concat, ContentMatchesExtension, Head;
    }
  }

  /** The reason of a rejection, too, depends on the bytes alone exactly when no
      two reasons compete; every term is known before the first chunk. */
  lemma OutcomeIgnoresChunkingWhen(ext: Option<string>, content: Bytes, used: nat, quota: nat)
    ensures OneOutcome(ext, content, used, quota) <==> !ReasonsCompete(ext, content, used, quota)
  {
    if ReasonsCompete(ext, content, used, quota) {
      var a, b := CompetingReasons(ext, content, used, quota);
      hide ReasonsCompete, Ended, Concat;
    } else {
      forall chunks: seq<Bytes> | Concat(chunks) == content
        ensures Ended(chunks, ext, used, quota) == SoleOutcome(ext, content, used, quota)
      {
        EndsAsSole(chunks, ext, used, quota);
      }
      hide ReasonsCompete, Ended, Concat, SoleOutcome;
    }
  }

  /** An input that shows it: 18 bytes below a 1 MiB quota, the same 20 bytes are
      over the quota in one chunk, but of the wrong type when 16 come first. */
  lemma ReasonDependsOnChunking(ext: Option<string>, bytes: Bytes)
    requires |bytes| == 20 && !ContentMatchesExtension(ext, bytes)
    ensures var used, quota := QuotaBytes(1) - 18, QuotaBytes(1);
      var one, two := [bytes], [bytes[..16], bytes[16..]];
      && Concat(one) == Concat(two)
      && Ended(one, ext, used, quota) == OverQuota && Ended(two, ext, used, quota) == WrongType
  {
    var used, quota := QuotaBytes(1) - 18, QuotaBytes(1);
    HeadDecides(ext, bytes);
    AllAtOnce(bytes, ext, used, quota);
    FirstPiece(bytes, 16, ext, used, quota);
    HeadAlone(bytes, ext, used, quota);
    hide Ended, Concat, ContentMatchesExtension, Head;
  }

  // ── The directory ─────────────────────────────────────────────────────────

  /** The files beside the one being replaced. */
  lemma {:induction false} WithoutIs(files: seq<File>, path: string, f: File)
    ensures f in Without(files, path) <==> f in files && f.path != path
  {
    if files != [] {
      WithoutIs(files[..|files| - 1], path, f);
      assert files == files[..|files| - 1] + [files[|files| - 1]];
    }
  }

  /** What a commit leaves: the new file under its path, and no other file touched. */
  lemma CommitReplacesOnly(files: seq<File>, path: string, content: Bytes, f: File)
    ensures f in Without(files, path) + [File(path, content)] <==> (f in files && f.path != path) || f == File(path, content)
  {
    WithoutIs(files, path, f);
  }

  function Cut(b: Bytes, n: nat): (c: Bytes)
    ensures |c| <= n && c <= b
  {
    if |b| < n then b else b[..n]
  }

  lemma CutStep(b: Bytes, c: Bytes, n: nat)
    ensures Cut(b, n) + Cut(c, n - |Cut(b, n)|) == Cut(b + c, n)
  {
  }

  // What the host does wrong during an upload: the chunk at which the stream or the
  // temp file breaks, and the rename at the end.
  datatype UploadTrouble = UploadTrouble(breaksAt: Option<nat>, renameFails: bool)

  const NO_UPLOAD_TROUBLE := UploadTrouble(None, false)

  /** The host breaks before any chunk has stopped the upload. */
  predicate BreaksFirst(body: seq<Bytes>, ext: Option<string>, used: nat, quota: nat, breaksAt: Option<nat>) {
    breaksAt.Some? && breaksAt.value < |body| && Read(body[..breaksAt.value], ext, used, quota).1.None?
  }

  /** The answer when the host breaks: only if the upload gets there. */
  function Met(body: seq<Bytes>, ext: Option<string>, used: nat, quota: nat, t: UploadTrouble): Outcome {
    if BreaksFirst(body, ext, used, quota, t.breaksAt) then Failed
    else if t.renameFails && Ended(body, ext, used, quota).Committed? then Failed
    else Ended(body, ext, used, quota)
  }

  lemma NothingRead(body: seq<Bytes>, ext: Option<string>, used: nat, quota: nat)
    ensures Concat(body[..0]) == [] && Read(body[..0], ext, used, quota) == (BEGIN, None)
  {
  }

  lemma ReadOneMore(body: seq<Bytes>, i: nat, ext: Option<string>, used: nat, quota: nat)
    requires i < |body| && Read(body[..i], ext, used, quota).1.None?
    ensures Read(body[..i + 1], ext, used, quota) == Chunk(Read(body[..i], ext, used, quota).0, body[i], ext, used, quota)
    ensures Concat(body[..i + 1]) == Concat(body[..i]) + body[i]
  {
    assert body[..i + 1][..i] == body[..i];
    hide Chunk;
  }

  /** A body that stopped the loop stops it before a later break. */
  lemma StopsBefore(body: seq<Bytes>, k: nat, ext: Option<string>, used: nat, quota: nat, breaksAt: Option<nat>)
    requires k <= |body| && Read(body[..k], ext, used, quota).1.Some? && (breaksAt.Some? ==> k <= breaksAt.value)
    ensures !BreaksFirst(body, ext, used, quota, breaksAt)
  {
    if breaksAt.Some? && breaksAt.value < |body| {
      var b := breaksAt.value;
      assert body[..b][..k] == body[..k];
      StopsForGood(body[..b], k, ext, used, quota);
    }
  }

  // The media dir's files, and the temp file of an upload under way.
  class MediaDir {
    var files: seq<File>
    var temp: Option<Bytes>

    constructor (files: seq<File>)
      ensures this.files == files && temp.None?
    {
      this.files, temp := files, None;
    }

    /** The first bytes, gathered from the kept chunks. */
    static method GatherHead(headChunks: seq<Bytes>, headLen: nat) returns (head: Bytes)
      requires headLen == |Concat(headChunks)|
      ensures head == Head(Concat(headChunks))
    {
      var size := if headLen < MEDIA_SNIFF_BYTES then headLen else MEDIA_SNIFF_BYTES;
      head := [];
      var i := 0;
      while i < |headChunks| && |head| < size
        invariant i <= |headChunks| && head == Cut(Concat(headChunks[..i]), size)
      {
        assert headChunks[..i + 1][..i] == headChunks[..i];
        CutStep(Concat(headChunks[..i]), headChunks[i], size);
        head := head + Cut(headChunks[i], size - |head|);
        i := i + 1;
      }
      ConcatPrefix(headChunks, i);
      assert headChunks[..|headChunks|] == headChunks;
    }

    /** Commits exactly the bodies that fit and match, unless the host breaks; then
        and whenever it refuses, the dir is as it was. */
    method UploadFile(path: string, body: seq<Bytes>, declaredSize: Option<nat>, quotaMb: nat, trouble: UploadTrouble)
      returns (outcome: Outcome)
      requires temp.None?
      modifies this
      ensures temp.None?
      ensures var ext, used, quota, cap := ExtensionOf(path), Total(Without(old(files), path)), quotaMb * 1024 * 1024, 2147483648;
        var size, content := if declaredSize.Some? then declaredSize.value else 0, Concat(body);
        var fits := |content| <= cap && used + |content| <= quota && ContentMatchesExtension(ext, content);
        && (!IsAllowedExtension(ext) ==> outcome == WrongType)
        && (IsAllowedExtension(ext) && size > cap ==> outcome == TooLarge)
        && (IsAllowedExtension(ext) && size <= cap && declaredSize.Some? && used + size > quota ==> outcome == OverQuota)
        && (IsAllowedExtension(ext) && size <= cap && (declaredSize.Some? ==> used + size <= quota) ==>
              && outcome == Met(body, ext, used, quota, trouble)
              && (trouble == NO_UPLOAD_TROUBLE ==> (outcome.Committed? <==> fits)))
        && (outcome.Committed? ==>
              && fits && size <= cap && (declaredSize.Some? ==> used + size <= quota)
              && files == Without(old(files), path) + [File(path, Concat(body))]
              && Total(files) <= quota)
        && (!outcome.Committed? ==> files == old(files))
    {
      var ext := ExtensionOf(path);
      if !IsAllowedExtension(ext) { return WrongType; }
      var used, quota := Total(Without(files, path)), QuotaBytes(quotaMb);
      var refused := Declared(declaredSize, used, quota);
      if refused.Some? { return refused.value; }
      hide ContentMatchesExtension, Head, QuotaBytes, Without, Total, IsAllowedExtension, Chunk, Acceptable, Read, Concat;
      CommitIgnoresChunking(body, ext, used, quota);
      var l, stop := Receive(body, ext, used, quota, trouble.breaksAt);
      if stop.Some? { temp := None; return stop.value; }
      ReadIs(body, ext, used, quota);
      if !l.sniffed {
        var head := GatherHead(l.headChunks, l.headLen);
        if !ContentMatchesExtension(ext, head) { temp := None; return WrongType; }
      }
      if trouble.renameFails { temp := None; return Failed; }
      files, temp := Without(files, path) + [File(path, Concat(body))], None;
      TotalAppend(Without(old(files), path), File(path, Concat(body)));
      return Committed;
    }

    /** The read loop, into the temp file: until a chunk stops it, the host breaks, or
        the stream ends. */
    method Receive(body: seq<Bytes>, ext: Option<string>, used: nat, quota: nat, breaksAt: Option<nat>)
      returns (l: Loop, stop: Option<Outcome>)
      modifies this`temp
      ensures BreaksFirst(body, ext, used, quota, breaksAt) ==> stop == Some(Failed)
      ensures !BreaksFirst(body, ext, used, quota, breaksAt) ==> stop == Read(body, ext, used, quota).1
      ensures stop.None? ==> l == Read(body, ext, used, quota).0 && temp == Some(Concat(body))
      ensures stop != Some(Committed)
    {
      hide Chunk, Read, Concat;
      temp := Some([]);
      l, stop := BEGIN, None;
      var i := 0;
      NothingRead(body, ext, used, quota);
      while i < |body|
        invariant i <= |body| && temp == Some(Concat(body[..i]))
        invariant Read(body[..i], ext, used, quota) == (l, None)
        invariant breaksAt.Some? ==> i <= breaksAt.value
      {
        if breaksAt == Some(i) { return l, Some(Failed); }
        var step := Chunk(l, body[i], ext, used, quota);
        ReadOneMore(body, i, ext, used, quota);
        if step.1.Some? {
          StopsForGood(body, i + 1, ext, used, quota);
          StopsBefore(body, i + 1, ext, used, quota, breaksAt);
          return l, step.1;
        }
        temp := Some(temp.value + body[i]);
        l, i := step.0, i + 1;
      }
      assert body[..|body|] == body;
    }
  }

  lemma TotalAppend(files: seq<File>, f: File)
    ensures Total(files + [f]) == Total(files) + |f.content|
  {
    assert (files + [f])[..|files|] == files;
  }

  /** A stop after some chunks is the outcome of the whole body. */
  lemma {:induction false} StopsForGood(body: seq<Bytes>, k: nat, ext: Option<string>, used: nat, quota: nat)
    requires k <= |body| && Read(body[..k], ext, used, quota).1.Some?
    ensures Read(body, ext, used, quota).1 == Read(body[..k], ext, used, quota).1 != Some(Committed)
    decreases |body|
  {
    hide Chunk, Acceptable, LoopTrue;
    if k < |body| {
      var rest := body[..|body| - 1];
      assert rest[..k] == body[..k];
      StopsForGood(rest, k, ext, used, quota);
    } else {
      assert body[..k] == body;
      ReadIs(body, ext, used, quota);
    }
  }
}
