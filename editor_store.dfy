/** The editor's overlay list: the records the add buttons create, the by-id merge and
    delete the inspector performs, the clamped inspector edits, and the projection the
    export step sends to the backend. Every operation here builds a new list from the
    old one, as the screen's state setters do. */
module EditorStore {
  import opened Wrappers
  import Wire

  datatype Kind = Text | Image | Video

  /** The value of the record's `type` key. */
  function KindName(k: Kind): (s: string)
    ensures Wire.IsAssetKind(s) <==> !k.Text?
  {
    match k
    case Text => "text"
    case Image => "image"
    case Video => "video"
  }

  /** One overlay record. `x`, `y`, `start` and `end` are set by every add operation;
      `color` and `fontSize` only text overlays get; `width` and `height` appear with
      the first size edit; `uri` is the local preview of a picked asset. */
  datatype Overlay = Overlay(
    id: string,
    kind: Kind,
    content: string,
    uri: Option<string>,
    x: real,
    y: real,
    start: real,
    end: real,
    color: Option<string>,
    fontSize: Option<real>,
    width: Option<real>,
    height: Option<real>)

  // ---------------------------------------------------------------------------
  // Adding overlays

  /** The record the text button adds: the default text in white at size 24, with no
      preview uri and no size set yet. */
  function NewTextOverlay(id: string): (o: Overlay)
    ensures o.id == id && o.kind == Text && o.x == 50.0 && o.y == 50.0 && o.start == 0.0 && o.end == 5.0
    ensures o.content == "Hello World" && o.color == Some("#FFFFFF") && o.fontSize == Some(24.0)
    ensures o.uri.None? && o.width.None? && o.height.None?
  {
    Overlay(id, Text, "Hello World", None, 50.0, 50.0, 0.0, 5.0, Some("#FFFFFF"), Some(24.0), None, None)
  }

  /** The record for a picked image or video: its content is the picked file's name, or
      a fixed name when the picker reports none (an empty name counts as none). */
  function NewAssetOverlay(id: string, kind: Kind, fileName: Option<string>, uri: string): (o: Overlay)
    requires !kind.Text?
    ensures o.id == id && o.kind == kind && o.x == 50.0 && o.y == 50.0 && o.start == 0.0 && o.end == 5.0
    ensures o.uri == Some(uri) && o.content != ""
    ensures fileName.Some? && fileName.value != "" ==> o.content == fileName.value
    ensures !(fileName.Some? && fileName.value != "") ==> o.content == (if kind.Image? then "image.png" else "video.mp4")
    ensures o.color.None? && o.fontSize.None? && o.width.None? && o.height.None?
  {
    var content :=
      if fileName.Some? && fileName.value != "" then fileName.value
      else if kind.Image? then "image.png" else "video.mp4";
    Overlay(id, kind, content, Some(uri), 50.0, 50.0, 0.0, 5.0, None, None, None, None)
  }

  // ---------------------------------------------------------------------------
  // Merging updates by id

  /** The fields an update object can carry; `None` is a key the object does not have. */
  datatype Patch = Patch(
    content: Option<string>,
    x: Option<real>,
    y: Option<real>,
    start: Option<real>,
    end: Option<real>,
    color: Option<string>,
    fontSize: Option<real>,
    width: Option<real>,
    height: Option<real>)

  const NoChange := Patch(None, None, None, None, None, None, None, None, None)

  function Pick<T>(update: Option<T>, current: Option<T>): Option<T> {
    if update.Some? then update else current
  }

  /** `{...item, ...updates}`: every key the update carries replaces the record's. */
  function Merge(o: Overlay, p: Patch): (r: Overlay)
    ensures r.id == o.id && r.kind == o.kind && r.uri == o.uri
  {
    Overlay(o.id, o.kind, p.content.GetOr(o.content), o.uri,
            p.x.GetOr(o.x), p.y.GetOr(o.y), p.start.GetOr(o.start), p.end.GetOr(o.end),
            Pick(p.color, o.color), Pick(p.fontSize, o.fontSize),
            Pick(p.width, o.width), Pick(p.height, o.height))
  }

  /** Merging the same update twice is merging it once. */
  lemma MergeIdempotent(o: Overlay, p: Patch)
    ensures Merge(Merge(o, p), p) == Merge(o, p)
  {
  }

  /** An update with no keys leaves the record as it is. */
  lemma MergeNothing(o: Overlay)
    ensures Merge(o, NoChange) == o
  {
  }

  /** updateOverlay: the list with the update merged into the records whose id matches. */
  function UpdateOverlay(overlays: seq<Overlay>, id: string, p: Patch): (r: seq<Overlay>)
    ensures |r| == |overlays|
    ensures forall k :: 0 <= k < |r| ==> r[k].id == overlays[k].id && r[k].kind == overlays[k].kind
  {
    seq(|overlays|, k requires 0 <= k < |overlays| =>
      if overlays[k].id == id then Merge(overlays[k], p) else overlays[k])
  }

  /** Only the records carrying the id change, and they change by the merge. */
  lemma UpdateOverlayAt(overlays: seq<Overlay>, id: string, p: Patch, k: nat)
    requires k < |overlays|
    ensures overlays[k].id != id ==> UpdateOverlay(overlays, id, p)[k] == overlays[k]
    ensures overlays[k].id == id ==> UpdateOverlay(overlays, id, p)[k] == Merge(overlays[k], p)
  {
  }

  /** An update for an id no record carries changes nothing. */
  lemma UpdateOverlayNoMatch(overlays: seq<Overlay>, id: string, p: Patch)
    requires forall k :: 0 <= k < |overlays| ==> overlays[k].id != id
    ensures UpdateOverlay(overlays, id, p) == overlays
  {
  }

  // ---------------------------------------------------------------------------
  // Finding and deleting by id

  /** `overlays.find(o => o.id === id)`: the first record with the id. */
  function Find(overlays: seq<Overlay>, id: string): (r: Option<Overlay>)
    ensures r.Some? ==> r.value in overlays && r.value.id == id
    ensures r.None? <==> forall k :: 0 <= k < |overlays| ==> overlays[k].id != id
  {
    if overlays == [] then None
    else if overlays[0].id == id then Some(overlays[0])
    else Find(overlays[1..], id)
  }

  /** Find returns the record at the first index carrying the id. */
  lemma {:induction false} FindFirst(overlays: seq<Overlay>, id: string, k: nat)
    requires k < |overlays| && overlays[k].id == id
    requires forall j :: 0 <= j < k ==> overlays[j].id != id
    ensures Find(overlays, id) == Some(overlays[k])
  {
    if k > 0 {
      FindFirst(overlays[1..], id, k - 1);
    }
  }

  /** Merging into the records with an id and then finding it gives the merged record. */
  lemma {:induction false} FindAfterUpdate(overlays: seq<Overlay>, id: string, p: Patch)
    ensures Find(UpdateOverlay(overlays, id, p), id) ==
      match Find(overlays, id) case None => None case Some(o) => Some(Merge(o, p))
  {
    if overlays != [] {
      var r := UpdateOverlay(overlays, id, p);
      assert r[1..] == UpdateOverlay(overlays[1..], id, p);
      FindAfterUpdate(overlays[1..], id, p);
    }
  }

  /** `overlays.filter(o => o.id !== id)`. */
  function DeleteById(overlays: seq<Overlay>, id: string): (r: seq<Overlay>)
    ensures |r| <= |overlays|
    ensures forall k :: 0 <= k < |r| ==> r[k].id != id
  {
    if overlays == [] then []
    else
      var last := overlays[|overlays| - 1];
      DeleteById(overlays[..|overlays| - 1], id) + (if last.id == id then [] else [last])
  }

  /** Deleting from two lists joined is deleting from each: the kept records stay in
      their relative order. */
  lemma {:induction false} DeleteByIdAppend(a: seq<Overlay>, b: seq<Overlay>, id: string)
    ensures DeleteById(a + b, id) == DeleteById(a, id) + DeleteById(b, id)
    decreases |b|
  {
    if b == [] {
      assert a + b == a;
    } else {
      assert (a + b)[..|a + b| - 1] == a + b[..|b| - 1];
      DeleteByIdAppend(a, b[..|b| - 1], id);
    }
  }

  /** A record survives the delete exactly when it is in the list with another id. */
  lemma {:induction false} DeleteByIdMembers(overlays: seq<Overlay>, id: string, o: Overlay)
    ensures o in DeleteById(overlays, id) <==> o in overlays && o.id != id
    decreases |overlays|
  {
    if overlays != [] {
      var n := |overlays| - 1;
      DeleteByIdMembers(overlays[..n], id, o);
      assert overlays == overlays[..n] + [overlays[n]];
    }
  }

  /** Deleting an id no record carries changes nothing. */
  lemma {:induction false} DeleteByIdNoMatch(overlays: seq<Overlay>, id: string)
    requires forall k :: 0 <= k < |overlays| ==> overlays[k].id != id
    ensures DeleteById(overlays, id) == overlays
    decreases |overlays|
  {
    if overlays != [] {
      var n := |overlays| - 1;
      DeleteByIdNoMatch(overlays[..n], id);
      assert overlays == overlays[..n] + [overlays[n]];
    }
  }

  // ---------------------------------------------------------------------------
  // The inspector's edits

  /** `fontSize || 24`: the shown font size, 24 when unset or zero. */
  function FontSizeOf(o: Overlay): real {
    if o.fontSize.Some? && o.fontSize.value != 0.0 then o.fontSize.value else 24.0
  }

  /** The size an image or video is shown at before any size edit. */
  function DefaultSide(k: Kind): real {
    if k.Image? then 100.0 else 150.0
  }

  function WidthOf(o: Overlay): real {
    if o.width.Some? && o.width.value != 0.0 then o.width.value else DefaultSide(o.kind)
  }

  function HeightOf(o: Overlay): real {
    if o.height.Some? && o.height.value != 0.0 then o.height.value else DefaultSide(o.kind)
  }

  function Max(a: real, b: real): real { if a >= b then a else b }
  function Min(a: real, b: real): real { if a <= b then a else b }

  /** The inspector's controls. Content, font size and colour are shown for text
      overlays, the size buttons for images and videos, the timing buttons for all. */
  datatype Edit =
    | SetContent(text: string)
    | FontSmaller | FontLarger
    | SetColor(color: string)
    | SizeSmaller | SizeLarger
    | StartEarlier | StartLater
    | EndEarlier | EndLater

  /** The palette the colour control offers. */
  const Palette: seq<string> := ["#FFFFFF", "#FF0000", "#00FF00", "#0000FF", "#FFFF00", "#FF00FF"]

  /** Whether the inspector shows the control for this overlay. */
  predicate Offers(o: Overlay, e: Edit) {
    match e
    case SetContent(_) => o.kind.Text?
    case FontSmaller => o.kind.Text?
    case FontLarger => o.kind.Text?
    case SetColor(c) => o.kind.Text? && c in Palette
    case SizeSmaller => !o.kind.Text?
    case SizeLarger => !o.kind.Text?
    case _ => true
  }

  /** The update object a control passes to updateOverlay, computed from the selected
      record as the inspector shows it. */
  function EditPatch(o: Overlay, e: Edit): (p: Patch)
  {
    match e
    case SetContent(text) => NoChange.(content := Some(text))
    case FontSmaller => NoChange.(fontSize := Some(Max(12.0, FontSizeOf(o) - 2.0)))
    case FontLarger => NoChange.(fontSize := Some(Min(72.0, FontSizeOf(o) + 2.0)))
    case SetColor(c) => NoChange.(color := Some(c))
    case SizeSmaller =>
      NoChange.(width := Some(Max(50.0, WidthOf(o) - 10.0)), height := Some(Max(50.0, HeightOf(o) - 10.0)))
    case SizeLarger =>
      NoChange.(width := Some(Min(400.0, WidthOf(o) + 10.0)), height := Some(Min(400.0, HeightOf(o) + 10.0)))
    case StartEarlier => NoChange.(start := Some(Max(0.0, o.start - 0.5)))
    case StartLater => NoChange.(start := Some(o.start + 0.5))
    case EndEarlier => NoChange.(end := Some(Max(o.start + 0.5, o.end - 0.5)))
    case EndLater => NoChange.(end := Some(o.end + 0.5))
  }

  /** The record after the edit. */
  function ApplyEdit(o: Overlay, e: Edit): Overlay
  {
    Merge(o, EditPatch(o, e))
  }

  /** The font buttons always leave a size in [12, 72] once the size is in that range,
      and "smaller" never goes under 12, "larger" never over 72. */
  lemma FontEditsClamp(o: Overlay)
    ensures ApplyEdit(o, FontSmaller).fontSize.value >= 12.0
    ensures ApplyEdit(o, FontLarger).fontSize.value <= 72.0
    ensures 12.0 <= FontSizeOf(o) <= 72.0 ==>
      && 12.0 <= ApplyEdit(o, FontSmaller).fontSize.value <= 72.0
      && 12.0 <= ApplyEdit(o, FontLarger).fontSize.value <= 72.0
    ensures FontSizeOf(o) == 24.0 ==> ApplyEdit(o, FontLarger).fontSize == Some(26.0)
  {
  }

  /** The size buttons set width and height together, never under 50 or over 400
      respectively, and keep both in [50, 400] once they are there. */
  lemma SizeEditsClamp(o: Overlay)
    ensures var s := ApplyEdit(o, SizeSmaller); s.width.Some? && s.height.Some? && s.width.value >= 50.0 && s.height.value >= 50.0
    ensures var l := ApplyEdit(o, SizeLarger); l.width.Some? && l.height.Some? && l.width.value <= 400.0 && l.height.value <= 400.0
    ensures 50.0 <= WidthOf(o) <= 400.0 && 50.0 <= HeightOf(o) <= 400.0 ==>
      forall e :: e in {SizeSmaller, SizeLarger} ==>
        var r := ApplyEdit(o, e); 50.0 <= r.width.value <= 400.0 && 50.0 <= r.height.value <= 400.0
  {
  }

  /** A fresh image is shown at 100 and a fresh video at 150, so their first "larger"
      gives 110 and 160. */
  lemma SizeDefaults(id: string, kind: Kind, fileName: Option<string>, uri: string)
    requires !kind.Text?
    ensures var o := ApplyEdit(NewAssetOverlay(id, kind, fileName, uri), SizeLarger);
      o.width == o.height == Some(if kind.Image? then 110.0 else 160.0)
  {
  }

  /** A time window the editor starts from and keeps: it never starts before 0 and it
      ends after it starts. */
  predicate WellTimed(o: Overlay) {
    0.0 <= o.start < o.end
  }

  /** The start never goes under 0 and the end never comes closer than half a second
      to the start; every timing button except "start later" keeps the window. */
  lemma TimingEdits(o: Overlay)
    ensures ApplyEdit(o, StartEarlier).start >= 0.0
    ensures ApplyEdit(o, EndEarlier).end >= o.start + 0.5
    ensures WellTimed(o) ==>
      WellTimed(ApplyEdit(o, StartEarlier)) && WellTimed(ApplyEdit(o, EndEarlier)) && WellTimed(ApplyEdit(o, EndLater))
  {
  }

  /** "Start later" has no bound: pressed on a half-second window it makes the start
      equal the end, and pressed again it passes it. */
  lemma StartLaterCanPassEnd()
    ensures var o := NewTextOverlay("1").(end := 0.5);
      WellTimed(o) && !WellTimed(ApplyEdit(o, StartLater))
      && ApplyEdit(ApplyEdit(o, StartLater), StartLater).start > o.end
  {
  }

  /** Every edit other than delete keeps the id, the kind and the preview uri. */
  lemma EditKeepsIdentity(o: Overlay, e: Edit)
    ensures var r := ApplyEdit(o, e); r.id == o.id && r.kind == o.kind && r.uri == o.uri
  {
  }

  // ---------------------------------------------------------------------------
  // What the export step sends

  /** One metadata entry: exactly id, type, content, x, y, start, end, color, fontSize,
      width and height; fields the record lacks are left out of the JSON. */
  function Project(o: Overlay): (m: Wire.Meta)
    ensures m.id == Some(o.id) && m.kind == Some(KindName(o.kind)) && m.content == Some(o.content)
    ensures m.x == Some(o.x) && m.y == Some(o.y) && m.start == Some(o.start) && m.end == Some(o.end)
    ensures m.color == o.color && m.fontSize == o.fontSize && m.width == o.width && m.height == o.height
  {
    Wire.Meta(Some(o.id), Some(KindName(o.kind)), Some(o.content), Some(o.x), Some(o.y),
              Some(o.start), Some(o.end), o.color, o.fontSize, o.width, o.height)
  }

  /** Two records that differ only in their preview uri send the same entry. */
  lemma ProjectDropsUri(o: Overlay, uri: Option<string>)
    ensures Project(o.(uri := uri)) == Project(o)
  {
  }

  /** The metadata array: one entry per overlay, in list order. */
  function Metadata(overlays: seq<Overlay>): (ms: seq<Wire.Meta>)
    ensures |ms| == |overlays| && forall k :: 0 <= k < |ms| ==> ms[k] == Project(overlays[k])
  {
    seq(|overlays|, k requires 0 <= k < |overlays| => Project(overlays[k]))
  }

  /** The overlays whose files are uploaded: the images and videos, in list order. */
  function AssetOverlays(overlays: seq<Overlay>): (r: seq<Overlay>)
    ensures |r| <= |overlays|
    ensures forall k :: 0 <= k < |r| ==> !r[k].kind.Text?
  {
    if overlays == [] then []
    else
      var last := overlays[|overlays| - 1];
      AssetOverlays(overlays[..|overlays| - 1]) + (if last.kind.Text? then [] else [last])
  }

  lemma {:induction false} AssetOverlaysAppend(a: seq<Overlay>, b: seq<Overlay>)
    ensures AssetOverlays(a + b) == AssetOverlays(a) + AssetOverlays(b)
    decreases |b|
  {
    if b == [] {
      assert a + b == a;
    } else {
      assert (a + b)[..|a + b| - 1] == a + b[..|b| - 1];
      AssetOverlaysAppend(a, b[..|b| - 1]);
    }
  }

  /** A record is uploaded exactly when it is in the list and is not text. */
  lemma {:induction false} AssetOverlaysMembers(overlays: seq<Overlay>, o: Overlay)
    ensures o in AssetOverlays(overlays) <==> o in overlays && !o.kind.Text?
    decreases |overlays|
  {
    if overlays != [] {
      var n := |overlays| - 1;
      AssetOverlaysMembers(overlays[..n], o);
      assert overlays == overlays[..n] + [overlays[n]];
    }
  }

  /** The names of the uploaded files, in upload order: each asset overlay's content. */
  function AssetNames(overlays: seq<Overlay>): (names: seq<string>)
    ensures |names| == |AssetOverlays(overlays)|
  {
    var assets := AssetOverlays(overlays);
    seq(|assets|, k requires 0 <= k < |assets| => assets[k].content)
  }

  /** The contents of the metadata entries whose type is image or video, in order. */
  function AssetContents(ms: seq<Wire.Meta>): seq<string> {
    if ms == [] then []
    else
      var m := ms[|ms| - 1];
      AssetContents(ms[..|ms| - 1]) +
        (if m.kind.Some? && Wire.IsAssetKind(m.kind.value) && m.content.Some? then [m.content.value] else [])
  }

  /** The uploaded files are named, one for one and in order, after the contents of the
      image and video entries of the metadata the backend receives. */
  lemma {:induction false} AssetNamesMatchMetadata(overlays: seq<Overlay>)
    ensures AssetNames(overlays) == AssetContents(Metadata(overlays))
    decreases |overlays|
  {
    if overlays != [] {
      var n := |overlays| - 1;
      var prefix := overlays[..n];
      AssetNamesMatchMetadata(prefix);
      assert Metadata(overlays)[..n] == Metadata(prefix);
      AssetOverlaysAppend(prefix, [overlays[n]]);
      assert overlays == prefix + [overlays[n]];
      var kind := KindName(overlays[n].kind);
      assert Wire.IsAssetKind(kind) <==> !overlays[n].kind.Text?;
    }
  }
}
