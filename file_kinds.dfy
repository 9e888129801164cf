/** Classification of attached files by extension, shared by the chat and the
    landing pages (both carry the same table), and the helpers that extract an
    extension and decide whether a file can be shown in the preview overlay. */
module FileKinds {
  import opened Text

  datatype Category = Image | Video | Audio | Model | Document | Code | Archive | Other

  const ImageExts: seq<string> := ["png", "jpg", "jpeg", "gif", "webp", "bmp", "svg", "ico", "tif", "tiff"]
  const VideoExts: seq<string> := ["mp4", "webm", "mov", "avi", "mkv", "m4v"]
  const AudioExts: seq<string> := ["mp3", "wav", "ogg", "m4a", "flac", "aac"]
  const ModelExts: seq<string> := ["obj", "fbx", "glb", "gltf", "stl", "3ds", "blend"]
  const DocumentExts: seq<string> := ["pdf", "doc", "docx", "ppt", "pptx", "xls", "xlsx", "txt", "md"]
  const CodeExts: seq<string> := ["js", "ts", "tsx", "jsx", "java", "py", "cs", "cpp", "c", "html", "css", "json", "yml", "yaml"]
  const ArchiveExts: seq<string> := ["zip", "rar", "7z", "tar", "gz"]

  /** Position of a category in the table; `Other` comes after every list. */
  function Rank(c: Category): nat {
    match c
    case Image => 0
    case Video => 1
    case Audio => 2
    case Model => 3
    case Document => 4
    case Code => 5
    case Archive => 6
    case Other => 7
  }

  /** The extension list of a category (`Other` has none). */
  function ExtsOf(c: Category): seq<string> {
    match c
    case Image => ImageExts
    case Video => VideoExts
    case Audio => AudioExts
    case Model => ModelExts
    case Document => DocumentExts
    case Code => CodeExts
    case Archive => ArchiveExts
    case Other => []
  }

  /** The category at a position of the table. */
  function CategoryAt(rank: nat): (c: Category)
    requires rank < 7
    ensures Rank(c) == rank
  {
    [Image, Video, Audio, Model, Document, Code, Archive][rank]
  }

  /** The table walked from position `rank` on: the first category whose list holds `e`. */
  function CategoryFrom(e: string, rank: nat): Category
    decreases 7 - rank
  {
    if rank >= 7 then Other
    else if e in ExtsOf(CategoryAt(rank)) then CategoryAt(rank)
    else CategoryFrom(e, rank + 1)
  }

  /** `getFileCategory`: the category whose list holds the lower-cased extension, the
      lists tested in table order, and `Other` when none does. */
  function GetFileCategory(ext: string): Category {
    CategoryFrom(Lower(ext), 0)
  }

  lemma {:induction false} CategoryFromFinds(e: string, rank: nat)
    requires rank <= 7
    ensures CategoryFrom(e, rank) == Other <==> forall c :: rank <= Rank(c) ==> e !in ExtsOf(c)
    ensures CategoryFrom(e, rank) != Other ==> e in ExtsOf(CategoryFrom(e, rank)) && rank <= Rank(CategoryFrom(e, rank))
    ensures forall c :: rank <= Rank(c) < Rank(CategoryFrom(e, rank)) ==> e !in ExtsOf(c)
    decreases 7 - rank
  {
    if rank < 7 {
      CategoryFromFinds(e, rank + 1);
      var here := CategoryAt(rank);
      forall c | Rank(c) == rank ensures c == here {
      }
    }
  }

  /** The category is `Other` exactly when no list holds the extension; otherwise its
      own list holds it and no list of an earlier category does. */
  lemma {:induction false} CategoryOfExtension(ext: string)
    ensures GetFileCategory(ext) == Other <==> forall c :: Lower(ext) !in ExtsOf(c)
    ensures GetFileCategory(ext) != Other ==> Lower(ext) in ExtsOf(GetFileCategory(ext))
    ensures forall c :: Rank(c) < Rank(GetFileCategory(ext)) ==> Lower(ext) !in ExtsOf(c)
  {
    CategoryFromFinds(Lower(ext), 0);
  }

  /** The classification ignores ASCII case. */
  lemma {:induction false} CategoryIgnoresCase(ext: string)
    ensures GetFileCategory(ext) == GetFileCategory(Lower(ext))
  {
    LowerNormalises(ext);
  }

  /** `txt` is a document: no list tested earlier holds it. */
  lemma {:induction false} TxtIsDocument()
    ensures GetFileCategory("txt") == Document && GetFileCategory("TXT") == Document
  {
    TxtLowerCase();
    CategoryOfExtension("txt");
    assert "txt" in DocumentExts && Rank(Document) == 4;
    assert "txt" !in ImageExts && "txt" !in VideoExts && "txt" !in AudioExts && "txt" !in ModelExts;
    assert GetFileCategory("TXT") == CategoryFrom("txt", 0) == GetFileCategory("txt");
  }

  lemma TxtLowerCase()
    ensures Lower("txt") == "txt" && Lower("TXT") == "txt"
  {
    assert Lower("TXT")[0] == 't' && Lower("TXT")[1] == 'x' && Lower("TXT")[2] == 't';
  }

  /** `md` is a document like `txt`, yet only `txt` is previewable: a Markdown file is
      downloaded instead of shown. */
  lemma {:induction false} MdIsDocumentNotPreviewable()
    ensures GetFileCategory("md") == Document && !IsPreviewableExt("md")
  {
    assert Lower("md") == "md";
    CategoryOfExtension("md");
    assert "md" in DocumentExts && Rank(Document) == 4;
    assert "md" !in ImageExts && "md" !in VideoExts && "md" !in AudioExts && "md" !in ModelExts;
  }

  /** `ogg` is audio and not video: the video list, tested earlier, does not hold it. */
  lemma {:induction false} OggIsAudio()
    ensures GetFileCategory("ogg") == Audio && GetFileCategory("OGG") == Audio
  {
    assert Lower("ogg") == "ogg" && Lower("OGG") == "ogg";
    CategoryOfExtension("ogg");
    CategoryOfExtension("OGG");
    assert "ogg" in AudioExts && Rank(Audio) == 2;
    assert "ogg" !in ImageExts && "ogg" !in VideoExts;
  }

  /** The lower-cased text after the last `.` of a name (the whole name lower-cased when
      it has no `.`), collected from the end: `(name.split('.').pop() || '').toLowerCase()`,
      the extension `handleFileChange` and the paste handler compute. */
  function PopExtension(name: string): string
    decreases |name|
  {
    if name == [] || name[|name| - 1] == '.' then []
    else PopExtension(name[..|name| - 1]) + [LowerChar(name[|name| - 1])]
  }

  /** Two strings that agree up to `n` have their last `.` before `n` at the same place. */
  lemma {:induction false} LastDotOfPrefix(s: string, t: string, n: nat)
    requires n <= |s| && n <= |t| && s[..n] == t[..n]
    ensures LastDotBefore(s, n) == LastDotBefore(t, n)
    decreases n
  {
    if n > 0 {
      assert s[n - 1] == s[..n][n - 1] == t[..n][n - 1] == t[n - 1];
      assert s[..n - 1] == s[..n][..n - 1] && t[..n - 1] == t[..n][..n - 1];
      LastDotOfPrefix(s, t, n - 1);
    }
  }

  lemma LowerAppend(s: string, c: char)
    ensures Lower(s + [c]) == Lower(s) + [LowerChar(c)]
  {
    var l := Lower(s + [c]);
    assert forall i :: 0 <= i < |s| ==> l[i] == LowerChar((s + [c])[i]) && (s + [c])[i] == s[i];
  }

  lemma {:induction false} PopExtensionIsLowerAfterLastDot(name: string)
    ensures PopExtension(name) == Lower(AfterLastDot(name))
    decreases |name|
  {
    if name == [] {
      return;
    }
    var last := name[|name| - 1];
    var init := name[..|name| - 1];
    if last == '.' {
      assert LastDotBefore(name, |name|) == |name| - 1;
      assert AfterLastDot(name) == [];
    } else {
      PopExtensionIsLowerAfterLastDot(init);
      var k := LastDotBefore(init, |init|);
      assert name[..|init|] == init[..|init|];
      LastDotOfPrefix(name, init, |init|);
      assert LastDotBefore(name, |name|) == k;
      assert AfterLastDot(name) == AfterLastDot(init) + [last] by {
        assert name[k + 1..] == init[k + 1..] + [last];
      }
      LowerAppend(AfterLastDot(init), last);
    }
  }

  /** `PopExtension` lower-cases the segment after the last `.`: it is the whole name
      lower-cased when there is no `.`, and it never contains a `.`. */
  lemma {:induction false} PopExtensionIsLastSegment(name: string)
    ensures PopExtension(name) == Lower(AfterLastDot(name))
    ensures '.' !in name ==> PopExtension(name) == Lower(name)
    ensures '.' !in PopExtension(name)
  {
    PopExtensionIsLowerAfterLastDot(name);
    var seg := AfterLastDot(name);
    var l := Lower(seg);
    forall i | 0 <= i < |l|
      ensures l[i] != '.'
    {
      assert seg[i] != '.';
    }
    if '.' !in name {
      assert seg == name;
    }
  }

  /** `getFileExtension`, the extension the preview overlay uses: empty for a name
      without a `.`, otherwise the lower-cased segment after the last `.`. */
  function GetFileExtension(name: string): string {
    if '.' !in name then "" else PopExtension(name)
  }

  /** `getFileExtension` gives no extension to a name without a `.`, and otherwise the
      lower-cased text after some `.` that is the last one. */
  lemma {:induction false} GetFileExtensionSegments(name: string)
    ensures '.' !in name ==> GetFileExtension(name) == ""
    ensures '.' in name ==> exists i :: 0 <= i < |name| && name[i] == '.' && '.' !in name[i + 1..] && GetFileExtension(name) == Lower(name[i + 1..])
  {
    if '.' in name {
      PopExtensionIsLastSegment(name);
      var seg := AfterLastDot(name);
      var i := |name| - |seg| - 1;
      assert name[i] == '.' && name[i + 1..] == seg;
    }
  }

  /** On a name without a `.` they differ: a file named `png` is classified as an image when
      attached, while `getFileExtension` gives it no extension, so it is downloaded, not previewed. */
  lemma {:induction false} UndottedName()
    ensures PopExtension("png") == "png" && GetFileExtension("png") == ""
  {
    var png := "png";
    assert png[0] != '.' && png[1] != '.' && png[2] != '.';
    assert '.' !in png;
    PopExtensionIsLastSegment(png);
    assert IsLower(png);
    LowerNormalises(png);
  }


  /** `isPreviewableExt`: the image, video and audio categories, and exactly `txt`. */
  function IsPreviewableExt(ext: string): bool {
    var cat := GetFileCategory(ext);
    cat == Image || cat == Video || cat == Audio || ext == "txt"
  }

  /** The previewable extensions are those of the image, video and audio lists, in any
      case, and `txt` written in lower case. */
  lemma {:induction false} PreviewableExtensions(ext: string)
    ensures IsPreviewableExt(ext) <==> Lower(ext) in ImageExts + VideoExts + AudioExts || ext == "txt"
  {
    CategoryOfExtension(ext);
    assert Rank(Image) == 0 && Rank(Video) == 1 && Rank(Audio) == 2;
    assert Lower(ext) in ImageExts + VideoExts + AudioExts <==> Lower(ext) in ImageExts || Lower(ext) in VideoExts || Lower(ext) in AudioExts;
  }
}
