// What the leading bytes of an upload say about its format.
module MediaTypes {
  import opened Text

  type Bytes = seq<bv8>

  const MEDIA_SNIFF_BYTES := 16

  predicate HasAt(head: Bytes, offset: nat, sig: Bytes) {
    offset + |sig| <= |head| && head[offset..offset + |sig|] == sig
  }

  function Code(c: char): bv8 { (c as int % 256) as bv8 }

  function Codes(text: string): Bytes { seq(|text|, i requires 0 <= i < |text| => Code(text[i])) }

  predicate HasText(head: Bytes, offset: nat, text: string) { HasAt(head, offset, Codes(text)) }

  method ScanText(head: Bytes, offset: nat, text: string) returns (found: bool)
    ensures found == HasText(head, offset, text)
  {
    if |head| < offset + |text| { return false; }
    for i := 0 to |text|
      invariant head[offset..offset + i] == Codes(text)[..i]
    {
      if head[offset + i] != Code(text[i]) {
        assert head[offset..offset + |text|][i] != Codes(text)[i];
        return false;
      }
      assert head[offset..offset + i + 1] == head[offset..offset + i] + [head[offset + i]];
    }
    assert Codes(text)[..|text|] == Codes(text);
    return true;
  }

  method ScanBytes(head: Bytes, offset: nat, sig: Bytes) returns (found: bool)
    ensures found == HasAt(head, offset, sig)
  {
    if |head| < offset + |sig| { return false; }
    for i := 0 to |sig|
      invariant head[offset..offset + i] == sig[..i]
    {
      if head[offset + i] != sig[i] {
        assert head[offset..offset + |sig|][i] != sig[i];
        return false;
      }
      assert sig[..i + 1] == sig[..i] + [sig[i]];
      assert head[offset..offset + i + 1] == head[offset..offset + i] + [head[offset + i]];
    }
    assert sig[..|sig|] == sig;
    return true;
  }

  // ── The formats ───────────────────────────────────────────────────────────

  // A format is told by signatures at fixed places, all of which must be there,
  // or by the masked bits of its first two bytes.
  datatype Format =
    | Png | Jpg | Gif | Webp | Bmp | IsoBmff | Matroska | Wav | Ogg | Flac | Mp3 | Aac | Ttf | Otf | Woff | Woff2

  predicate Masked(b: bv8, mask: bv8, bits: bv8) { b & mask == bits }

  predicate Second(head: Bytes, mask: bv8, bits: bv8) {
    |head| > 0 && head[0] == 0xff && Masked(if |head| > 1 then head[1] else 0, mask, bits)
  }

  predicate Looks(f: Format, h: Bytes) {
    match f
    case Png => HasAt(h, 0, [0x89, 0x50, 0x4e, 0x47, 0x0d, 0x0a, 0x1a, 0x0a])
    case Jpg => HasAt(h, 0, [0xff, 0xd8, 0xff])
    case Gif => HasText(h, 0, "GIF8")
    case Webp => HasText(h, 0, "RIFF") && HasText(h, 8, "WEBP")
    case Bmp => HasText(h, 0, "BM")
    case IsoBmff => HasText(h, 4, "ftyp")
    case Matroska => HasAt(h, 0, [0x1a, 0x45, 0xdf, 0xa3])
    case Wav => HasText(h, 0, "RIFF") && HasText(h, 8, "WAVE")
    case Ogg => HasText(h, 0, "OggS")
    case Flac => HasText(h, 0, "fLaC")
    case Mp3 => HasText(h, 0, "ID3") || Second(h, 0xe0, 0xe0)
    case Aac => Second(h, 0xf6, 0xf0)
    case Ttf => HasAt(h, 0, [0x00, 0x01, 0x00, 0x00])
    case Otf => HasText(h, 0, "OTTO")
    case Woff => HasText(h, 0, "wOFF")
    case Woff2 => HasText(h, 0, "wOF2")
  }

  const FORMATS: map<string, Format> := map[
    "png" := Png, "jpg" := Jpg, "jpeg" := Jpg, "gif" := Gif, "webp" := Webp, "bmp" := Bmp,
    "mp4" := IsoBmff, "m4v" := IsoBmff, "mov" := IsoBmff, "webm" := Matroska, "mkv" := Matroska,
    "m4a" := IsoBmff, "mp3" := Mp3, "aac" := Aac, "wav" := Wav, "ogg" := Ogg, "oga" := Ogg, "ogv" := Ogg, "flac" := Flac,
    "ttf" := Ttf, "otf" := Otf, "woff" := Woff, "woff2" := Woff2]

  function Lower(c: char): char { if 'A' <= c <= 'Z' then (c as int + 32) as char else c }

  function LowerAll(s: string): (r: string)
    ensures |r| == |s| && forall i :: 0 <= i < |s| ==> r[i] == Lower(s[i])
  {
    seq(|s|, i requires 0 <= i < |s| => Lower(s[i]))
  }

  function ExtensionOf(name: string): Option<string> {
    var dot := LastIndexOf(name, '.');
    if dot <= 0 || dot == |name| - 1 then None
    else Some(LowerAll(name[dot + 1..]))
  }

  predicate IsAllowedExtension(ext: Option<string>) { ext.Some? && ext.value in FORMATS }

  predicate ContentMatchesExtension(ext: Option<string>, head: Bytes) { IsAllowedExtension(ext) && Looks(FORMATS[ext.value], head) }

  function Head(content: Bytes): Bytes { if |content| < MEDIA_SNIFF_BYTES then content else content[..MEDIA_SNIFF_BYTES] }

  lemma HeadHasAt(content: Bytes, offset: nat, sig: Bytes)
    requires offset + |sig| <= MEDIA_SNIFF_BYTES
    ensures HasAt(Head(content), offset, sig) <==> HasAt(content, offset, sig)
  {
    if offset + |sig| <= |content| {
      assert Head(content)[offset..offset + |sig|] == content[offset..offset + |sig|];
    }
  }

  /** The sniffed head decides what the whole file would: it covers every signature. */
  lemma HeadDecides(ext: Option<string>, content: Bytes)
    ensures ContentMatchesExtension(ext, Head(content)) <==> ContentMatchesExtension(ext, content)
  {
    hide HasAt, Codes, Head;
    if IsAllowedExtension(ext) {
      LooksAtHead(FORMATS[ext.value], content);
      hide FORMATS;
    }
  }

  lemma LooksAtHead(f: Format, content: Bytes)
    ensures Looks(f, Head(content)) <==> Looks(f, content)
  {
    match f {
      case Png => HeadHasAt(content, 0, [0x89, 0x50, 0x4e, 0x47, 0x0d, 0x0a, 0x1a, 0x0a]);
      case Jpg => HeadHasAt(content, 0, [0xff, 0xd8, 0xff]);
      case Gif => HeadHasAt(content, 0, Codes("GIF8"));
      case Webp => HeadHasAt(content, 0, Codes("RIFF")); HeadHasAt(content, 8, Codes("WEBP"));
      case Bmp => HeadHasAt(content, 0, Codes("BM"));
      case IsoBmff => HeadHasAt(content, 4, Codes("ftyp"));
      case Matroska => HeadHasAt(content, 0, [0x1a, 0x45, 0xdf, 0xa3]);
      case Wav => HeadHasAt(content, 0, Codes("RIFF")); HeadHasAt(content, 8, Codes("WAVE"));
      case Ogg => HeadHasAt(content, 0, Codes("OggS"));
      case Flac => HeadHasAt(content, 0, Codes("fLaC"));
      case Mp3 => HeadHasAt(content, 0, Codes("ID3")); HeadSecond(content, 0xe0, 0xe0);
      case Aac => HeadSecond(content, 0xf6, 0xf0);
      case Ttf => HeadHasAt(content, 0, [0x00, 0x01, 0x00, 0x00]);
      case Otf => HeadHasAt(content, 0, Codes("OTTO"));
      case Woff => HeadHasAt(content, 0, Codes("wOFF"));
      case Woff2 => HeadHasAt(content, 0, Codes("wOF2"));
    }
  }

  lemma HeadSecond(content: Bytes, mask: bv8, bits: bv8)
    ensures Second(Head(content), mask, bits) <==> Second(content, mask, bits)
  {
    hide Masked;
    if |content| > 1 { assert Head(content)[1] == content[1]; }
  }

  // ── Which bytes each extension accepts ────────────────────────────────────

  predicate Begins(h: Bytes, sig: Bytes) { sig <= h }

  /** `sig` at the fifth byte, or at the ninth. */
  predicate At4(h: Bytes, sig: Bytes) { |h| >= 4 + |sig| && h[4..4 + |sig|] == sig }
  predicate At8(h: Bytes, sig: Bytes) { |h| >= 8 + |sig| && h[8..8 + |sig|] == sig }

  /** The extensions an upload may have. */
  lemma AllowedAre(ext: Option<string>)
    ensures IsAllowedExtension(ext) <==>
      ext.Some? && ext.value in {"png", "jpg", "jpeg", "gif", "webp", "bmp", "mp4", "m4v", "mov", "webm", "mkv", "m4a", "mp3", "aac",
                                 "wav", "ogg", "oga", "ogv", "flac", "ttf", "otf", "woff", "woff2"}
  {
  }

  /** A signature's characters are its bytes. */
  lemma CodeIs(c: char)
    requires c as int < 256
    ensures Code(c) as int == c as int
  {
  }

  /** Format by format. */
  lemma LooksAre(f: Format, h: Bytes)
    ensures Looks(f, h) <==>
      match f
      case Png => Begins(h, [0x89, 0x50, 0x4e, 0x47, 0x0d, 0x0a, 0x1a, 0x0a])
      case Jpg => Begins(h, [0xff, 0xd8, 0xff])
      case Gif => Begins(h, Codes("GIF8"))
      case Webp => Begins(h, Codes("RIFF")) && At8(h, Codes("WEBP"))
      case Bmp => Begins(h, Codes("BM"))
      case IsoBmff => At4(h, Codes("ftyp"))
      case Matroska => Begins(h, [0x1a, 0x45, 0xdf, 0xa3])
      case Wav => Begins(h, Codes("RIFF")) && At8(h, Codes("WAVE"))
      case Ogg => Begins(h, Codes("OggS"))
      case Flac => Begins(h, Codes("fLaC"))
      case Mp3 => Begins(h, Codes("ID3")) || (|h| >= 2 && h[0] == 0xff && h[1] >= 0xe0)
      case Aac => |h| >= 2 && h[0] == 0xff && h[1] in {0xf0, 0xf1, 0xf8, 0xf9}
      case Ttf => Begins(h, [0x00, 0x01, 0x00, 0x00])
      case Otf => Begins(h, Codes("OTTO"))
      case Woff => Begins(h, Codes("wOFF"))
      case Woff2 => Begins(h, Codes("wOF2"))
  {
    TwoBytes(h);
    hide Codes, Masked;
  }

  /** The masks, spelled out. */
  lemma TwoBytes(h: Bytes)
    ensures Second(h, 0xe0, 0xe0) <==> |h| >= 2 && h[0] == 0xff && h[1] >= 0xe0
    ensures Second(h, 0xf6, 0xf0) <==> |h| >= 2 && h[0] == 0xff && h[1] in {0xf0, 0xf1, 0xf8, 0xf9}
  {
  }

  /** And which format each extension stands for. */
  lemma ImagesAre()
    ensures FORMATS["png"] == Png && FORMATS["jpg"] == Jpg && FORMATS["jpeg"] == Jpg && FORMATS["gif"] == Gif
    ensures FORMATS["webp"] == Webp && FORMATS["bmp"] == Bmp
  {
  }

  lemma VideosAre()
    ensures FORMATS["mp4"] == IsoBmff && FORMATS["m4v"] == IsoBmff && FORMATS["mov"] == IsoBmff
    ensures FORMATS["webm"] == Matroska && FORMATS["mkv"] == Matroska
  {
  }

  lemma SoundsAre()
    ensures FORMATS["m4a"] == IsoBmff && FORMATS["mp3"] == Mp3 && FORMATS["aac"] == Aac && FORMATS["wav"] == Wav
    ensures FORMATS["ogg"] == Ogg && FORMATS["oga"] == Ogg && FORMATS["ogv"] == Ogg && FORMATS["flac"] == Flac
  {
  }

  lemma FontsAre()
    ensures FORMATS["ttf"] == Ttf && FORMATS["otf"] == Otf && FORMATS["woff"] == Woff && FORMATS["woff2"] == Woff2
  {
  }

  /** The extension is what follows the last dot, in lower case; a name that begins
      or ends with its only dot has none. */
  lemma ExtensionIs(stem: string, ext: string)
    requires '.' !in ext
    ensures ExtensionOf(stem + "." + ext) ==
      if stem == "" || ext == "" then None else Some(LowerAll(ext))
    ensures ExtensionOf(ext) == None
  {
    var name := stem + "." + ext;
    assert name[|stem|] == '.' && name[|stem| + 1..] == ext;
    LastUnique(name, '.', |stem|);
  }

  /** No format is an empty file. */
  lemma EmptyNeverMatches(ext: Option<string>)
    ensures !ContentMatchesExtension(ext, [])
  {
  }
}
