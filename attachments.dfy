/** The attachment manager and the preview overlay that the landing page and the
    chat page each keep in their state (`attachedItems`, `preview`).

    Object URLs (`URL.createObjectURL`) are modelled as numeric handles handed out by
    a counter; the handles that have been created and not yet revoked form the ghost
    set `live`, so that the release discipline can be stated: every live handle is
    held by exactly one attached item's thumbnail, by the preview, or by a message of
    the transcript the items were sent into. */
module Attachments {
  import opened Common
  import opened Text
  import opened FileKinds

  type Url = nat

  /** What the model keeps of a browser `File`. */
  datatype BrowserFile = BrowserFile(name: string, mimeType: string)

  /** `AttachedItem.kind`: the chat page stores the file's category, the landing page
      the plain kind `file`; both use `text` for pasted text. */
  datatype ItemKind = Categorized(category: Category) | PlainFile | PastedText

  datatype Item = Item(
    id: string,
    kind: ItemKind,
    file: Option<BrowserFile>,
    name: string,
    mimeType: Option<string>,
    textContent: Option<string>,
    thumbUrl: Option<Url>)

  datatype PreviewType = ImageView | VideoView | AudioView | TextView

  datatype PreviewState = PreviewState(itemId: string, view: PreviewType, url: Option<Url>, textPreview: Option<string>)

  /** Which copy of the component: they differ in item kinds, thumbnails and the clipboard test. */
  datatype Page = ChatPage | LandingPage

  /** `DataTransferItem.kind`, whose JavaScript value is `'string'` or `'file'`. */
  datatype ClipKind = StringData | FileData

  /** One entry of `clipboardData.items`; `file` is what `getAsFile()` returns. */
  datatype ClipItem = ClipItem(kind: ClipKind, mimeType: string, file: Option<BrowserFile>)

  datatype PasteOutcome =
    | ImageAttached    // an image entry was found and read: one file item appended
    | ImageSwallowed   // an image entry was found but gave no file: nothing appended, default paste prevented
    | TextAttached     // raw text of 50 or more characters, 50 or more after trimming: one text item appended
    | TextSwallowed    // raw text of 50 or more characters that trims below 50: nothing appended, default paste prevented
    | DefaultPaste     // nothing intercepted: the browser pastes into the input

  datatype PreviewOutcome = Shown | Downloaded | Closed | Ignored

  const PastedTextName: string := "복사된 텍스트"
  const PastedImageName: string := "붙여넣은 이미지"
  const MinPastedText: nat := 50
  const TextSnippetLength: nat := 50

  function KindName(k: ClipKind): string {
    match k
    case StringData => "string"
    case FileData => "file"
  }

  // ---------------------------------------------------------------------------
  // Classification of new items, per page

  /** The kind an attached file gets. */
  function FileKindFor(page: Page, name: string): ItemKind {
    match page
    case ChatPage => Categorized(GetFileCategory(PopExtension(name)))
    case LandingPage => PlainFile
  }

  /** Whether attaching the file allocates a thumbnail URL: on the chat page every image
      category extension, on the landing page only `png`, `jpg` and `jpeg`. */
  predicate WantsThumb(page: Page, name: string) {
    match page
    case ChatPage => GetFileCategory(PopExtension(name)) == Image
    case LandingPage => PopExtension(name) in ["png", "jpg", "jpeg"]
  }

  /** The landing page allocates thumbnails for a subset of the files the chat page does. */
  lemma {:induction false} LandingThumbsAreChatThumbs(name: string)
    ensures WantsThumb(LandingPage, name) ==> WantsThumb(ChatPage, name)
  {
    var e := PopExtension(name);
    if e in ["png", "jpg", "jpeg"] {
      LowerNormalises(AfterLastDot(name));
      assert Lower(e) == e;
      assert e in ImageExts;
      CategoryOfExtension(e);
      assert Rank(Image) == 0;
    }
  }

  /** The item `handleFileChange` and the paste handler build for a file, under the
      given display name and thumbnail. */
  function FileItem(page: Page, file: BrowserFile, id: string, name: string, thumb: Option<Url>): Item {
    Item(id, FileKindFor(page, file.name), Some(file), name, Some(file.mimeType), None, thumb)
  }

  /** A pasted image keeps its file name, or is called `붙여넣은 이미지` when it has none. */
  function PastedName(file: BrowserFile): (r: string)
    ensures r != ""
    ensures file.name != "" ==> r == file.name
  {
    if file.name == "" then PastedImageName else file.name
  }

  /** `it` is the item built for `file`, with a thumbnail exactly when the page wants one. */
  predicate IsFileItemFor(page: Page, file: BrowserFile, id: string, name: string, it: Item) {
    it == FileItem(page, file, id, name, it.thumbUrl) && (it.thumbUrl.Some? <==> WantsThumb(page, file.name))
  }

  /** `addTextAttachment`: a `text` item holding the trimmed text, when it has at least 50 characters. */
  function TextItem(text: string, id: string): (r: Option<Item>)
    ensures r.Some? <==> |Trim(text)| >= MinPastedText
    ensures r.Some? ==> r.value == Item(id, PastedText, None, PastedTextName, Some("text/plain"), Some(Trim(text)), None)
  {
    var trimmed := Trim(text);
    if trimmed == "" || |trimmed| < MinPastedText then None
    else Some(Item(id, PastedText, None, PastedTextName, Some("text/plain"), Some(trimmed), None))
  }

  // ---------------------------------------------------------------------------
  // Clipboard

  /** The clipboard entry the paste handler treats as an image. The chat page tests
      `kind !== 'text'`, which no entry fails, the landing page `kind === 'file'`. */
  predicate IsClipboardImage(page: Page, c: ClipItem) {
    match page
    case ChatPage => KindName(c.kind) != "text" && StartsWith(c.mimeType, "image/")
    case LandingPage => c.kind == FileData && StartsWith(c.mimeType, "image/")
  }

  /** `items.find(...)`: the first entry that counts as an image. */
  function FindImageItem(page: Page, clip: seq<ClipItem>): (r: Option<nat>)
    ensures r.Some? ==> r.value < |clip| && IsClipboardImage(page, clip[r.value])
    ensures r.Some? ==> forall j :: 0 <= j < r.value ==> !IsClipboardImage(page, clip[j])
    ensures r.None? ==> forall j :: 0 <= j < |clip| ==> !IsClipboardImage(page, clip[j])
  {
    if clip == [] then None
    else if IsClipboardImage(page, clip[0]) then Some(0)
    else
      match FindImageItem(page, clip[1..])
      case None => None
      case Some(k) => Some(k + 1)
  }

  /** The chat page's image test ignores the entry kind; the landing page's implies it. */
  lemma {:induction false} ClipboardImageTests(c: ClipItem)
    ensures IsClipboardImage(ChatPage, c) <==> StartsWith(c.mimeType, "image/")
    ensures IsClipboardImage(LandingPage, c) ==> IsClipboardImage(ChatPage, c)
  {
    assert KindName(c.kind) != "text" by {
      assert "string"[0] != "text"[0] && |"file"| == |"text"| && "file"[0] != "text"[0];
    }
  }

  /** What `handlePasteToAttachment` does with a paste event. */
  function PasteDecision(page: Page, clip: seq<ClipItem>, text: string): PasteOutcome {
    match FindImageItem(page, clip)
    case Some(k) => if clip[k].file.Some? then ImageAttached else ImageSwallowed
    case None =>
      if text != "" && |text| >= MinPastedText then
        (if TextItem(text, "").Some? then TextAttached else TextSwallowed)
      else DefaultPaste
  }

  /** An image on the clipboard wins over text; text is attached exactly when there is
      no image and it has at least 50 characters after trimming (the raw-length test
      is implied by the trimmed one). */
  lemma {:induction false} PasteRules(page: Page, clip: seq<ClipItem>, text: string)
    ensures FindImageItem(page, clip).Some? ==> PasteDecision(page, clip, text) in {ImageAttached, ImageSwallowed}
    ensures PasteDecision(page, clip, text) == TextAttached <==> FindImageItem(page, clip).None? && |Trim(text)| >= MinPastedText
    ensures FindImageItem(page, clip).None? && |text| < MinPastedText ==> PasteDecision(page, clip, text) == DefaultPaste
  {
    if FindImageItem(page, clip).None? && |Trim(text)| >= MinPastedText {
      assert |text| >= |Trim(text)|;
    }
  }

  // ---------------------------------------------------------------------------
  // Item lists

  predicate UniqueIds(items: seq<Item>) {
    forall i, j :: 0 <= i < j < |items| ==> items[i].id != items[j].id
  }

  predicate HasId(items: seq<Item>, id: string) {
    exists i :: 0 <= i < |items| && items[i].id == id
  }

  /** `findIndex(it => it.id === id)`: the first index holding `id`, or -1. */
  function IndexOfId(items: seq<Item>, id: string): (k: int)
    ensures -1 <= k < |items|
    ensures k == -1 <==> !HasId(items, id)
    ensures k >= 0 ==> items[k].id == id && forall j :: 0 <= j < k ==> items[j].id != id
  {
    if items == [] then -1
    else if items[0].id == id then 0
    else
      var k := IndexOfId(items[1..], id);
      if k == -1 then -1 else k + 1
  }

  function CountId(items: seq<Item>, id: string): nat {
    if items == [] then 0 else (if items[0].id == id then 1 else 0) + CountId(items[1..], id)
  }

  /** `filter(it => it.id !== id)`: every item with that id is dropped and nothing else. */
  function RemoveById(items: seq<Item>, id: string): (r: seq<Item>)
    ensures |r| == |items| - CountId(items, id)
    ensures forall i :: 0 <= i < |r| ==> r[i].id != id
    ensures forall x :: x in r ==> x in items
    ensures forall x :: x in items && x.id != id ==> x in r
  {
    if items == [] then []
    else
      var rest := RemoveById(items[1..], id);
      if items[0].id == id then rest else [items[0]] + rest
  }

  /** `filter` works item by item: removing from a concatenation is removing from each
      part. With `RemoveByIdOne`, the result is the items without the id, in their
      original order. */
  lemma {:induction false} RemoveByIdKeepsOrder(a: seq<Item>, b: seq<Item>, id: string)
    ensures RemoveById(a + b, id) == RemoveById(a, id) + RemoveById(b, id)
  {
    if a == [] {
      assert a + b == b && RemoveById(a, id) == [];
    } else {
      var x, t := a[0], a[1..];
      RemoveByIdKeepsOrder(t, b, id);
      SplitHead(a, b);
      RemoveByIdCons(x, t, id);
      RemoveByIdCons(x, t + b, id);
      ConsCombine(x.id == id, x, RemoveById(t, id), RemoveById(b, id), RemoveById(a + b, id), RemoveById(a, id));
    }
  }

  lemma SplitHead(a: seq<Item>, b: seq<Item>)
    requires a != []
    ensures a == [a[0]] + a[1..] && a + b == [a[0]] + (a[1..] + b)
  {
  }

  lemma RemoveByIdCons(x: Item, u: seq<Item>, id: string)
    ensures RemoveById([x] + u, id) == if x.id == id then RemoveById(u, id) else [x] + RemoveById(u, id)
  {
    assert ([x] + u)[0] == x && ([x] + u)[1..] == u;
  }

  lemma ConsCombine(drop: bool, x: Item, ra: seq<Item>, rb: seq<Item>, rab: seq<Item>, r: seq<Item>)
    requires rab == (if drop then ra + rb else [x] + (ra + rb))
    requires r == (if drop then ra else [x] + ra)
    ensures rab == r + rb
  {
    if !drop {
      assert [x] + (ra + rb) == ([x] + ra) + rb;
    }
  }

  /** A single item is kept exactly when its id differs. */
  lemma RemoveByIdOne(x: Item, id: string)
    ensures RemoveById([x], id) == if x.id == id then [] else [x]
  {
    assert [x][1..] == [];
  }

  /** `filter((_, i) => i !== index)`: the item at `index` is dropped, the others keep
      their order; an index outside the list drops nothing. */
  function RemoveAt(items: seq<Item>, index: int): (r: seq<Item>)
    ensures 0 <= index < |items| ==> |r| == |items| - 1
    ensures 0 <= index < |items| ==> forall i :: 0 <= i < |r| ==> r[i] == items[if i < index then i else i + 1]
    ensures !(0 <= index < |items|) ==> r == items
  {
    if 0 <= index < |items| then items[..index] + items[index + 1..] else items
  }

  lemma UniqueTail(items: seq<Item>)
    requires items != [] && UniqueIds(items)
    ensures UniqueIds(items[1..])
    ensures !HasId(items[1..], items[0].id)
  {
    var t := items[1..];
    forall i, j | 0 <= i < j < |t| ensures t[i].id != t[j].id {
      assert t[i] == items[i + 1] && t[j] == items[j + 1];
    }
    forall i | 0 <= i < |t| ensures t[i].id != items[0].id {
      assert t[i] == items[i + 1];
    }
  }

  lemma RemoveAtCons(x: Item, t: seq<Item>, k: int)
    ensures [x] + RemoveAt(t, k) == RemoveAt([x] + t, if 0 <= k < |t| then k + 1 else -1)
  {
    var s := [x] + t;
    if 0 <= k < |t| {
      assert s[..k + 1] == [x] + t[..k];
      assert s[k + 2..] == t[k + 1..];
    }
  }

  /** With distinct ids, removing by id is removing at the id's index, so it keeps the
      order of the rest; an absent id removes nothing. */
  lemma {:induction false} RemoveByIdIsRemoveAt(items: seq<Item>, id: string)
    requires UniqueIds(items)
    ensures RemoveById(items, id) == RemoveAt(items, IndexOfId(items, id))
  {
    if items == [] {
      return;
    }
    UniqueTail(items);
    var t := items[1..];
    assert items == [items[0]] + t;
    RemoveByIdIsRemoveAt(t, id);
    var k := IndexOfId(t, id);
    if items[0].id == id {
      assert k == -1;
      assert RemoveById(items, id) == RemoveById(t, id) == t;
      assert IndexOfId(items, id) == 0 && RemoveAt(items, 0) == t;
    } else {
      assert RemoveById(items, id) == [items[0]] + RemoveById(t, id);
      assert IndexOfId(items, id) == if k == -1 then -1 else k + 1;
      RemoveAtCons(items[0], t, k);
    }
  }

  lemma UniqueAppend(items: seq<Item>, it: Item)
    requires UniqueIds(items) && !HasId(items, it.id)
    ensures UniqueIds(items + [it])
  {
    var r := items + [it];
    forall i, j | 0 <= i < j < |r| ensures r[i].id != r[j].id {
      assert r[i] == items[i];
      if j < |items| { assert r[j] == items[j]; }
    }
  }

  /** An id new to `a` and different from the ids of `b` is new to `a + b`. */
  lemma FreshIdAfterAppend(a: seq<Item>, b: seq<Item>, ids: seq<string>, k: nat)
    requires k < |ids| && |b| == k && !HasId(a, ids[k])
    requires forall i, j :: 0 <= i < j < |ids| ==> ids[i] != ids[j]
    requires forall i :: 0 <= i < k ==> b[i].id == ids[i]
    ensures !HasId(a + b, ids[k])
  {
    var ab := a + b;
    forall i | 0 <= i < |ab| ensures ab[i].id != ids[k] {
      if i < |a| {
        assert ab[i] == a[i];
      } else {
        assert ab[i] == b[i - |a|];
      }
    }
  }

  lemma UniqueRemoveAt(items: seq<Item>, k: nat)
    requires k < |items| && UniqueIds(items)
    ensures UniqueIds(RemoveAt(items, k))
  {
    var r := RemoveAt(items, k);
    forall i, j | 0 <= i < j < |r| ensures r[i].id != r[j].id {
      assert r[i] == items[if i < k then i else i + 1] && r[j] == items[if j < k then j else j + 1];
    }
  }

  // ---------------------------------------------------------------------------
  // Object-URL bookkeeping

  /** The URL of a preview, if it holds one. */
  function UrlOf(p: Option<PreviewState>): set<Url> {
    if p.Some? && p.value.url.Some? then {p.value.url.value} else {}
  }

  ghost function Thumbs(items: seq<Item>): set<Url> {
    set i | 0 <= i < |items| && items[i].thumbUrl.Some? :: items[i].thumbUrl.value
  }

  ghost predicate DistinctThumbs(items: seq<Item>) {
    forall i, j :: 0 <= i < j < |items| && items[i].thumbUrl.Some? ==> items[i].thumbUrl != items[j].thumbUrl
  }

  lemma ThumbsAppend(a: seq<Item>, b: seq<Item>)
    ensures Thumbs(a + b) == Thumbs(a) + Thumbs(b)
  {
    var ab := a + b;
    forall u | u in Thumbs(ab) ensures u in Thumbs(a) + Thumbs(b) {
      var i :| 0 <= i < |ab| && ab[i].thumbUrl == Some(u);
      if i < |a| { assert a[i] == ab[i]; } else { assert b[i - |a|] == ab[i]; }
    }
    forall u | u in Thumbs(a) ensures u in Thumbs(ab) {
      var i :| 0 <= i < |a| && a[i].thumbUrl == Some(u);
      assert ab[i] == a[i];
    }
    forall u | u in Thumbs(b) ensures u in Thumbs(ab) {
      var i :| 0 <= i < |b| && b[i].thumbUrl == Some(u);
      assert ab[|a| + i] == b[i];
    }
  }

  lemma ThumbsSingleton(it: Item)
    ensures Thumbs([it]) == if it.thumbUrl.Some? then {it.thumbUrl.value} else {}
  {
    if it.thumbUrl.Some? {
      assert [it][0] == it;
    }
  }

  lemma ThumbOfItem(items: seq<Item>, i: nat)
    requires i < |items| && items[i].thumbUrl.Some?
    ensures items[i].thumbUrl.value in Thumbs(items)
  {
  }

  /** Removing one item of a list with distinct thumbnails releases exactly its thumbnail. */
  lemma ThumbsRemoveAt(items: seq<Item>, k: nat)
    requires k < |items| && DistinctThumbs(items)
    ensures Thumbs(RemoveAt(items, k)) == Thumbs(items) - Thumbs([items[k]])
    ensures Thumbs([items[k]]) <= Thumbs(items)
    ensures DistinctThumbs(RemoveAt(items, k))
  {
    var r := RemoveAt(items, k);
    assert items == items[..k] + [items[k]] + items[k + 1..];
    assert r == items[..k] + items[k + 1..];
    ThumbsAppend(items[..k] + [items[k]], items[k + 1..]);
    ThumbsAppend(items[..k], [items[k]]);
    ThumbsAppend(items[..k], items[k + 1..]);
    forall i | 0 <= i < |r| && r[i].thumbUrl.Some? ensures r[i].thumbUrl != items[k].thumbUrl {
      var j := if i < k then i else i + 1;
      assert items[j] == r[i];
    }
    forall i, j | 0 <= i < j < |r| && r[i].thumbUrl.Some? ensures r[i].thumbUrl != r[j].thumbUrl {
      var i' := if i < k then i else i + 1;
      var j' := if j < k then j else j + 1;
      assert items[i'] == r[i] && items[j'] == r[j] && i' < j';
    }
  }

  /** The release discipline: live handles are exactly the thumbnails of the attached
      items, the preview's URL and the handles moved into the transcript, none shared. */
  ghost predicate Disciplined(items: seq<Item>, preview: Option<PreviewState>, live: set<Url>, retained: set<Url>) {
    && DistinctThumbs(items)
    && Thumbs(items) !! UrlOf(preview)
    && Thumbs(items) !! retained
    && UrlOf(preview) !! retained
    && live == Thumbs(items) + UrlOf(preview) + retained
  }

  /** Appending an item whose thumbnail, if any, is a new handle keeps the discipline. */
  lemma AppendKeepsDiscipline(items: seq<Item>, preview: Option<PreviewState>, live: set<Url>, retained: set<Url>, it: Item)
    requires Disciplined(items, preview, live, retained)
    requires it.thumbUrl.Some? ==> it.thumbUrl.value !in live
    ensures Disciplined(items + [it], preview, live + Thumbs([it]), retained)
  {
    ThumbsAppend(items, [it]);
    var r := items + [it];
    forall i, j | 0 <= i < j < |r| && r[i].thumbUrl.Some? ensures r[i].thumbUrl != r[j].thumbUrl {
      assert r[i] == items[i];
      if j < |items| {
        assert r[j] == items[j];
      } else if it.thumbUrl.Some? {
        ThumbOfItem(items, i);
      }
    }
  }

  /** Removing the item at `k` and revoking its thumbnail keeps the discipline. */
  lemma RemoveKeepsDiscipline(items: seq<Item>, preview: Option<PreviewState>, live: set<Url>, retained: set<Url>, k: nat)
    requires k < |items| && Disciplined(items, preview, live, retained)
    ensures Disciplined(RemoveAt(items, k), preview, live - Thumbs([items[k]]), retained)
  {
    ThumbsRemoveAt(items, k);
  }

  // ---------------------------------------------------------------------------
  // The preview overlay

  function ViewOf(c: Category): PreviewType {
    if c == Image then ImageView else if c == Video then VideoView else AudioView
  }

  /** The preview after `openPreviewForItem(item)`: `readResult` is the outcome of
      `file.text()` and `newUrl` the URL a media preview is given. */
  function PreviewAfterOpen(prev: Option<PreviewState>, item: Item, readResult: Option<string>, newUrl: Url): Option<PreviewState> {
    if item.kind.PastedText? then Some(PreviewState(item.id, TextView, None, Some(item.textContent.GetOr(""))))
    else if item.file.None? then prev
    else
      var ext := GetFileExtension(item.name);
      if !IsPreviewableExt(ext) then prev
      else
        var cat := GetFileCategory(ext);
        if cat == Image || cat == Video || cat == Audio then Some(PreviewState(item.id, ViewOf(cat), Some(newUrl), None))
        else match readResult
          case Some(content) => Some(PreviewState(item.id, TextView, None, Some(Take(content, TextSnippetLength))))
          case None => None
  }

  function OpenOutcome(item: Item, readResult: Option<string>): PreviewOutcome {
    if item.kind.PastedText? then Shown
    else if item.file.None? then Ignored
    else
      var ext := GetFileExtension(item.name);
      if !IsPreviewableExt(ext) then Downloaded
      else if GetFileCategory(ext) in {Image, Video, Audio} || readResult.Some? then Shown
      else Closed
  }

  /** Whether `openPreviewForItem` allocates a URL for the item. */
  predicate OpensMedia(item: Item) {
    && !item.kind.PastedText? && item.file.Some?
    && GetFileCategory(GetFileExtension(item.name)) in {Image, Video, Audio}
  }

  /** The rules of the overlay: a text item shows its whole text; a file without a
      previewable extension leaves the preview as it was (it is downloaded); a media
      file is shown in the view of its category with a new URL; a `txt` file shows its
      first 50 characters, or closes the preview when it cannot be read. */
  lemma {:induction false} PreviewRules(prev: Option<PreviewState>, item: Item, readResult: Option<string>, newUrl: Url)
    ensures item.kind.PastedText? ==>
      PreviewAfterOpen(prev, item, readResult, newUrl) == Some(PreviewState(item.id, TextView, None, Some(item.textContent.GetOr(""))))
    ensures !item.kind.PastedText? && item.file.Some? && !IsPreviewableExt(GetFileExtension(item.name)) ==>
      PreviewAfterOpen(prev, item, readResult, newUrl) == prev && OpenOutcome(item, readResult) == Downloaded
    ensures OpensMedia(item) ==>
      var cat := GetFileCategory(GetFileExtension(item.name));
      PreviewAfterOpen(prev, item, readResult, newUrl) == Some(PreviewState(item.id, ViewOf(cat), Some(newUrl), None))
      && (cat == Image ==> ViewOf(cat) == ImageView) && (cat == Video ==> ViewOf(cat) == VideoView) && (cat == Audio ==> ViewOf(cat) == AudioView)
    ensures !item.kind.PastedText? && item.file.Some? && GetFileExtension(item.name) == "txt" ==>
      PreviewAfterOpen(prev, item, readResult, newUrl) ==
        (if readResult.Some? then Some(PreviewState(item.id, TextView, None, Some(Take(readResult.value, TextSnippetLength)))) else None)
  {
    if !item.kind.PastedText? && item.file.Some? {
      var ext := GetFileExtension(item.name);
      if ext == "txt" {
        TxtIsDocument();
        TxtIsShown(prev, item, readResult, newUrl);
      } else if !IsPreviewableExt(ext) {
        NotPreviewableIsDownloaded(prev, item, readResult, newUrl);
      } else if OpensMedia(item) {
        MediaIsShown(prev, item, readResult, newUrl);
      }
    }
  }

  lemma NotPreviewableIsDownloaded(prev: Option<PreviewState>, item: Item, readResult: Option<string>, newUrl: Url)
    requires !item.kind.PastedText? && item.file.Some? && !IsPreviewableExt(GetFileExtension(item.name))
    ensures PreviewAfterOpen(prev, item, readResult, newUrl) == prev && OpenOutcome(item, readResult) == Downloaded
  {
  }

  lemma MediaIsShown(prev: Option<PreviewState>, item: Item, readResult: Option<string>, newUrl: Url)
    requires OpensMedia(item)
    ensures PreviewAfterOpen(prev, item, readResult, newUrl)
      == Some(PreviewState(item.id, ViewOf(GetFileCategory(GetFileExtension(item.name))), Some(newUrl), None))
  {
  }

  lemma TxtIsShown(prev: Option<PreviewState>, item: Item, readResult: Option<string>, newUrl: Url)
    requires !item.kind.PastedText? && item.file.Some? && GetFileExtension(item.name) == "txt"
    ensures PreviewAfterOpen(prev, item, readResult, newUrl) ==
      (if readResult.Some? then Some(PreviewState(item.id, TextView, None, Some(Take(readResult.value, TextSnippetLength)))) else None)
  {
    TxtIsDocument();
  }

  /** Whether `openPreviewForItem(item)` replaces the current preview: for a text item
      and for a file with a previewable extension; any other file is downloaded or ignored. */
  predicate ReplacesPreview(item: Item) {
    item.kind.PastedText? || (item.file.Some? && IsPreviewableExt(GetFileExtension(item.name)))
  }

  /** The URLs opening `item` revokes first: the previous preview's URL whenever the
      preview is replaced. */
  function ReleasedOnOpen(prev: Option<PreviewState>, item: Item): set<Url> {
    if ReplacesPreview(item) then UrlOf(prev) else {}
  }

  /** The same, as `openPreviewForItem` is written: the text-item branch sets the new
      preview without revoking the previous preview's URL. */
  function ReleasedOnOpenAsWritten(prev: Option<PreviewState>, item: Item): set<Url> {
    if ReplacesPreview(item) && !item.kind.PastedText? then UrlOf(prev) else {}
  }

  /** Opening a preview never loses a URL: each one the old preview held is revoked or still held. */
  lemma {:induction false} OpenReleasesReplacedUrl(prev: Option<PreviewState>, item: Item, readResult: Option<string>, newUrl: Url)
    ensures UrlOf(prev) <= ReleasedOnOpen(prev, item) + UrlOf(PreviewAfterOpen(prev, item, readResult, newUrl))
    ensures ReleasedOnOpen(prev, item) <= UrlOf(prev)
  {
  }

  /** As written, opening a text item over an image preview leaves the image's URL live
      and held by nothing. */
  lemma {:induction false} TextPreviewLeaksUrlAsWritten()
    ensures
      var prev := Some(PreviewState("file_1_0", ImageView, Some(7), None));
      var item := Item("text_2", PastedText, None, PastedTextName, Some("text/plain"), Some("pasted"), None);
      7 in UrlOf(prev)
      && 7 !in ReleasedOnOpenAsWritten(prev, item)
      && 7 !in UrlOf(PreviewAfterOpen(prev, item, None, 8))
  {
  }

  /** `added` holds the items built for the first `|added|` files, under their ids. */
  predicate AddedFor(page: Page, files: seq<BrowserFile>, ids: seq<string>, added: seq<Item>) {
    && |added| <= |files| && |added| <= |ids|
    && (forall i :: 0 <= i < |added| ==> IsFileItemFor(page, files[i], ids[i], files[i].name, added[i]))
    && (forall i :: 0 <= i < |added| ==> added[i].id == ids[i])
  }

  /** One step of `handleFileChange`'s loop: the item attached for the next file extends
      the items built so far. */
  lemma AddedStep(page: Page, files: seq<BrowserFile>, ids: seq<string>, added: seq<Item>, it: Item)
    requires AddedFor(page, files, ids, added) && |added| < |files| && |added| < |ids|
    requires IsFileItemFor(page, files[|added|], ids[|added|], files[|added|].name, it) && it.id == ids[|added|]
    ensures AddedFor(page, files, ids, added + [it])
  {
    var next := added + [it];
    forall i | 0 <= i < |next|
      ensures IsFileItemFor(page, files[i], ids[i], files[i].name, next[i]) && next[i].id == ids[i]
    {
      if i < |added| {
        assert next[i] == added[i];
      } else {
        assert next[i] == it;
      }
    }
  }

  /** The tray's invariant: distinct ids, the release discipline, and every live handle
      below the next one to be handed out. */
  ghost predicate TrayInv(items: seq<Item>, preview: Option<PreviewState>, live: set<Url>, retained: set<Url>, nextUrl: nat) {
    && UniqueIds(items)
    && Disciplined(items, preview, live, retained)
    && (forall u :: u in live ==> u < nextUrl)
  }

  /** Appending an item with a new id, whose thumbnail, if any, is the next handle, keeps
      the invariant. */
  lemma AttachKeepsInv(items: seq<Item>, preview: Option<PreviewState>, live: set<Url>, retained: set<Url>, nextUrl: nat, it: Item)
    requires TrayInv(items, preview, live, retained, nextUrl) && !HasId(items, it.id)
    requires it.thumbUrl.Some? ==> it.thumbUrl.value == nextUrl
    ensures Thumbs([it]) !! live
    ensures TrayInv(items + [it], preview, live + Thumbs([it]), retained, if it.thumbUrl.Some? then nextUrl + 1 else nextUrl)
  {
    ThumbsSingleton(it);
    AppendKeepsDiscipline(items, preview, live, retained, it);
    UniqueAppend(items, it);
  }

  // ---------------------------------------------------------------------------
  // The stateful manager

  /** `attachedItems` and `preview` of one page, with the browser's object-URL allocator. */
  class AttachmentTray {
    var items: seq<Item>
    var preview: Option<PreviewState>
    var nextUrl: nat
    ghost var live: set<Url>
    ghost var retained: set<Url>

    ghost predicate Valid()
      reads this
    {
      TrayInv(items, preview, live, retained, nextUrl)
    }

    constructor ()
      ensures Valid()
      ensures items == [] && preview == None && live == {} && retained == {}
    {
      items := [];
      preview := None;
      nextUrl := 0;
      live := {};
      retained := {};
    }

    /** `URL.createObjectURL`: a handle never handed out before. */
    method CreateUrl() returns (u: Url)
      requires forall v :: v in live ==> v < nextUrl
      modifies this`nextUrl, this`live
      ensures u == old(nextUrl) && nextUrl == u + 1
      ensures u !in old(live) && live == old(live) + {u}
      ensures forall v :: v in live ==> v < nextUrl
    {
      u := nextUrl;
      nextUrl := nextUrl + 1;
      live := live + {u};
    }

    /** `URL.revokeObjectURL`. */
    method RevokeUrl(u: Url)
      modifies this`live
      ensures live == old(live) - {u}
    {
      live := live - {u};
    }

    /** One file of `handleFileChange`, or the file of a pasted image: appended under
        `name`, with a new thumbnail URL when the page wants one. */
    method AttachFile(page: Page, file: BrowserFile, id: string, name: string) returns (it: Item)
      requires Valid() && !HasId(items, id)
      modifies this
      ensures Valid()
      ensures IsFileItemFor(page, file, id, name, it) && it.id == id
      ensures items == old(items) + [it]
      ensures Thumbs([it]) !! old(live) && live == old(live) + Thumbs([it])
      ensures preview == old(preview) && retained == old(retained)
    {
      ghost var live0 := live;
      var next := nextUrl;
      var wants := WantsThumb(page, file.name);
      var thumb := NewThumb(wants);
      it := FileItem(page, file, id, name, thumb);
      ThumbsSingleton(it);
      AttachKeepsInv(items, preview, live0, retained, next, it);
      items := items + [it];
    }

    /** A thumbnail URL when one is wanted, nothing otherwise. */
    method NewThumb(wanted: bool) returns (thumb: Option<Url>)
      requires forall v :: v in live ==> v < nextUrl
      modifies this`nextUrl, this`live
      ensures thumb.Some? <==> wanted
      ensures wanted ==> thumb.value == old(nextUrl) && nextUrl == old(nextUrl) + 1 && live == old(live) + {old(nextUrl)}
      ensures !wanted ==> nextUrl == old(nextUrl) && live == old(live)
    {
      thumb := None;
      if wanted {
        var u := CreateUrl();
        thumb := Some(u);
      }
    }

    /** `handleFileChange`: one new item per file, in input order after the existing ones,
        each with a new thumbnail URL exactly when the page wants one for that file. */
    method AddFiles(page: Page, files: seq<BrowserFile>, ids: seq<string>) returns (added: seq<Item>)
      requires Valid()
      requires |ids| == |files|
      requires forall i, j :: 0 <= i < j < |ids| ==> ids[i] != ids[j]
      requires forall i :: 0 <= i < |ids| ==> !HasId(items, ids[i])
      modifies this
      ensures Valid()
      ensures items == old(items) + added && |added| == |files|
      ensures forall i :: 0 <= i < |files| ==> IsFileItemFor(page, files[i], ids[i], files[i].name, added[i])
      ensures Thumbs(added) !! old(live) && live == old(live) + Thumbs(added)
      ensures preview == old(preview) && retained == old(retained)
    {
      added := [];
      var k := 0;
      while k < |files|
        invariant 0 <= k <= |files| && |added| == k
        invariant items == old(items) + added
        invariant AddedFor(page, files, ids, added)
        invariant Thumbs(added) !! old(live) && live == old(live) + Thumbs(added)
        invariant preview == old(preview) && retained == old(retained)
        invariant Valid()
      {
        FreshIdAfterAppend(old(items), added, ids, k);
        var it := AttachFile(page, files[k], ids[k], files[k].name);
        AddedStep(page, files, ids, added, it);
        ThumbsAppend(added, [it]);
        assert old(items) + added + [it] == old(items) + (added + [it]);
        added := added + [it];
        k := k + 1;
      }
    }

    /** `addTextAttachment`: appends the trimmed text as one `text` item when it has at
        least 50 characters; otherwise nothing changes. */
    method AddText(text: string, id: string) returns (added: bool)
      requires Valid()
      requires !HasId(items, id)
      modifies this
      ensures Valid()
      ensures added <==> TextItem(text, id).Some?
      ensures items == if added then old(items) + [TextItem(text, id).value] else old(items)
      ensures preview == old(preview) && live == old(live) && retained == old(retained) && nextUrl == old(nextUrl)
    {
      var t := TextItem(text, id);
      added := t.Some?;
      if added {
        AppendKeepsDiscipline(items, preview, live, retained, t.value);
        UniqueAppend(items, t.value);
        items := items + [t.value];
      }
    }

    /** `handlePasteToAttachment`: an image entry of the clipboard wins; otherwise text of
        50 or more characters goes through `addTextAttachment`. */
    method Paste(page: Page, clip: seq<ClipItem>, text: string, imageId: string, textId: string) returns (outcome: PasteOutcome, added: seq<Item>)
      requires Valid()
      requires !HasId(items, imageId) && !HasId(items, textId)
      modifies this
      ensures Valid()
      ensures outcome == PasteDecision(page, clip, text)
      ensures items == old(items) + added
      ensures outcome == ImageAttached ==>
        var file := clip[FindImageItem(page, clip).value].file.value;
        |added| == 1 && IsFileItemFor(page, file, imageId, PastedName(file), added[0])
      ensures outcome == TextAttached ==> added == [TextItem(text, textId).value]
      ensures outcome !in {ImageAttached, TextAttached} ==> added == []
      ensures Thumbs(added) !! old(live) && live == old(live) + Thumbs(added)
      ensures preview == old(preview) && retained == old(retained)
    {
      added := [];
      var img := FindImageItem(page, clip);
      if img.Some? {
        var file := clip[img.value].file;
        if file.Some? {
          var it := AttachFile(page, file.value, imageId, PastedName(file.value));
          added := [it];
          outcome := ImageAttached;
        } else {
          outcome := ImageSwallowed;
        }
        return;
      }
      if text != "" && |text| >= MinPastedText {
        var ok := AddText(text, textId);
        if ok {
          added := [TextItem(text, textId).value];
          outcome := TextAttached;
        } else {
          outcome := TextSwallowed;
        }
      } else {
        outcome := DefaultPaste;
      }
    }

    /** Closes the preview, revoking its URL, when it shows the item `id`. */
    method ClosePreviewOf(id: string)
      requires Valid()
      modifies this
      ensures Valid()
      ensures preview == if old(preview).Some? && old(preview).value.itemId == id then None else old(preview)
      ensures live == old(live) - (if preview != old(preview) then UrlOf(old(preview)) else {})
      ensures items == old(items) && retained == old(retained)
    {
      if preview.Some? && preview.value.itemId == id {
        ClosePreview();
      }
    }

    /** `removeAttachment(id)`: drops the item with that id and revokes its thumbnail;
        closes the preview, revoking its URL, exactly when the preview shows that id. */
    method RemoveAttachment(id: string)
      requires Valid()
      modifies this
      ensures Valid()
      ensures items == RemoveById(old(items), id)
      ensures items == RemoveAt(old(items), IndexOfId(old(items), id))
      ensures preview == if old(preview).Some? && old(preview).value.itemId == id then None else old(preview)
      ensures live == old(live) - (if HasId(old(items), id) then Thumbs([old(items)[IndexOfId(old(items), id)]]) else {})
                                - (if preview != old(preview) then UrlOf(old(preview)) else {})
      ensures retained == old(retained)
    {
      var k := IndexOfId(items, id);
      RemoveByIdIsRemoveAt(items, id);
      if k >= 0 {
        DropItem(k);
      }
      ClosePreviewOf(id);
    }

    /** Drops the item at `k` and revokes its thumbnail. */
    method DropItem(k: nat)
      requires Valid() && k < |items|
      modifies this
      ensures Valid()
      ensures items == RemoveAt(old(items), k)
      ensures live == old(live) - Thumbs([old(items)[k]])
      ensures preview == old(preview) && retained == old(retained)
    {
      var target := items[k];
      RemoveKeepsDiscipline(items, preview, live, retained, k);
      UniqueRemoveAt(items, k);
      ThumbsSingleton(target);
      if target.thumbUrl.Some? {
        RevokeUrl(target.thumbUrl.value);
      }
      items := RemoveAt(items, k);
    }

    /** `removeFile(index)`: drops the item at `index` and revokes its thumbnail; closes
        the preview, revoking its URL, exactly when the preview shows the removed item. */
    method RemoveFile(index: int)
      requires Valid()
      modifies this
      ensures Valid()
      ensures items == RemoveAt(old(items), index)
      ensures preview == if 0 <= index < |old(items)| && old(preview).Some? && old(preview).value.itemId == old(items)[index].id
                          then None else old(preview)
      ensures live == old(live) - (if 0 <= index < |old(items)| then Thumbs([old(items)[index]]) else {})
                                - (if preview != old(preview) then UrlOf(old(preview)) else {})
      ensures retained == old(retained)
    {
      if 0 <= index < |items| {
        var target := items[index];
        DropItem(index);
        ClosePreviewOf(target.id);
      }
    }

    /** `openPreviewForItem(item)`, revoking the replaced preview's URL in every branch
        that replaces the preview (the text-item branch as written does not). */
    method OpenPreview(item: Item, readResult: Option<string>) returns (outcome: PreviewOutcome)
      requires Valid()
      modifies this
      ensures Valid()
      ensures outcome == OpenOutcome(item, readResult)
      ensures preview == PreviewAfterOpen(old(preview), item, readResult, old(nextUrl))
      ensures live == old(live) - ReleasedOnOpen(old(preview), item) + UrlOf(preview)
      ensures ReleasedOnOpen(old(preview), item) !! live
      ensures items == old(items) && retained == old(retained)
    {
      outcome := OpenOutcome(item, readResult);
      if item.kind.PastedText? {
        ClosePreview();
        preview := Some(PreviewState(item.id, TextView, None, Some(item.textContent.GetOr(""))));
        return;
      }
      if item.file.None? {
        return;
      }
      var ext := GetFileExtension(item.name);
      if !IsPreviewableExt(ext) {
        return;
      }
      ClosePreview();
      ShowFile(item.id, GetFileCategory(ext), readResult);
    }

    /** The previewable-file branch of `openPreviewForItem`, once the old preview is
        closed: media get a new URL, a `txt` file shows its first 50 characters or
        leaves the preview closed when it cannot be read. */
    method ShowFile(id: string, cat: Category, readResult: Option<string>)
      requires Valid() && preview == None
      modifies this
      ensures Valid()
      ensures preview ==
        if cat == Image || cat == Video || cat == Audio then Some(PreviewState(id, ViewOf(cat), Some(old(nextUrl)), None))
        else if readResult.Some? then Some(PreviewState(id, TextView, None, Some(Take(readResult.value, TextSnippetLength))))
        else None
      ensures UrlOf(preview) !! old(live) && live == old(live) + UrlOf(preview)
      ensures items == old(items) && retained == old(retained)
    {
      if cat == Image || cat == Video || cat == Audio {
        var u := CreateUrl();
        preview := Some(PreviewState(id, ViewOf(cat), Some(u), None));
      } else if readResult.Some? {
        preview := Some(PreviewState(id, TextView, None, Some(Take(readResult.value, TextSnippetLength))));
      }
    }

    /** The overlay's close button: revokes the preview's URL and clears the preview. */
    method ClosePreview()
      requires Valid()
      modifies this
      ensures Valid()
      ensures preview == None && live == old(live) - UrlOf(old(preview))
      ensures items == old(items) && retained == old(retained) && nextUrl == old(nextUrl)
    {
      if preview.Some? && preview.value.url.Some? {
        RevokeUrl(preview.value.url.value);
      }
      preview := None;
    }

    /** The chat page's `handleSend`: the items move into the new message, their
        thumbnails with them, and the list becomes empty. */
    method TakeAll() returns (taken: seq<Item>)
      requires Valid()
      modifies this
      ensures Valid()
      ensures taken == old(items) && items == []
      ensures retained == old(retained) + Thumbs(old(items))
      ensures live == old(live) && preview == old(preview) && nextUrl == old(nextUrl)
    {
      taken := items;
      retained := retained + Thumbs(items);
      items := [];
    }
  }
}
