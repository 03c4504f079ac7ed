/** One overlay drawn over the preview: its size rules, its touch handling, and the
    drag gesture that moves it. The item's on-screen position is the translation of an
    animated pair, `offset + value` on each axis. */
module OverlayItem {
  import opened Wrappers
  import opened EditorStore
  import EditorScreen

  datatype Dimension = Pixels(px: real) | Auto

  /** getWidth: the record's width when it is set and non-zero, otherwise 100 for an
      image, 150 for a video and automatic for text. */
  function GetWidth(item: Overlay): (d: Dimension)
    ensures item.width.Some? && item.width.value != 0.0 ==> d == Pixels(item.width.value)
    ensures (item.width.None? || item.width.value == 0.0) ==>
      d == match item.kind case Image => Pixels(100.0) case Video => Pixels(150.0) case Text => Auto
  {
    if item.width.Some? && item.width.value != 0.0 then Pixels(item.width.value)
    else if item.kind.Image? then Pixels(100.0)
    else if item.kind.Video? then Pixels(150.0)
    else Auto
  }

  /** getHeight: as getWidth, for the height. */
  function GetHeight(item: Overlay): (d: Dimension)
    ensures item.height.Some? && item.height.value != 0.0 ==> d == Pixels(item.height.value)
    ensures (item.height.None? || item.height.value == 0.0) ==>
      d == match item.kind case Image => Pixels(100.0) case Video => Pixels(150.0) case Text => Auto
  {
    if item.height.Some? && item.height.value != 0.0 then Pixels(item.height.value)
    else if item.kind.Image? then Pixels(100.0)
    else if item.kind.Video? then Pixels(150.0)
    else Auto
  }

  /** The preview draws an image or video at the size the inspector shows and edits. */
  lemma PreviewSizeMatchesInspector(item: Overlay)
    requires !item.kind.Text?
    ensures GetWidth(item) == Pixels(WidthOf(item)) && GetHeight(item) == Pixels(HeightOf(item))
  {
  }

  /** The update the release handler reports: the new position and nothing else. */
  function MovePatch(x: real, y: real): Patch {
    Patch(None, Some(x), Some(y), None, None, None, None, None, None)
  }

  /** The gesture handlers of one overlay as the component creates them: once, on its
      first render, so they keep the record of that render (`itemX`, `itemY` are its
      `x || 0` and `y || 0`) for as long as the overlay is on screen. */
  class Gesture {
    const id: string
    const itemX: real
    const itemY: real
    var offsetX: real
    var offsetY: real
    var valueX: real
    var valueY: real

    function ShownX(): real
      reads this
    {
      offsetX + valueX
    }

    function ShownY(): real
      reads this
    {
      offsetY + valueY
    }

    /** The animated pair starts at the record's position, with no offset. */
    constructor(item: Overlay)
      ensures id == item.id && itemX == item.x && itemY == item.y
      ensures offsetX == 0.0 && offsetY == 0.0 && valueX == item.x && valueY == item.y
    {
      id, itemX, itemY := item.id, item.x, item.y;
      offsetX, offsetY, valueX, valueY := 0.0, 0.0, item.x, item.y;
    }

    /** A touch on the overlay selects it and claims the gesture. */
    method TouchStart(screen: EditorScreen.Screen) returns (claim: bool)
      modifies screen`selected
      ensures claim && screen.selected == Some(id)
    {
      screen.Select(id);
      claim := true;
    }

    /** While the finger moves, the pair's value follows the gesture's displacement. */
    method Move(dx: real, dy: real)
      modifies this`valueX, this`valueY
      ensures valueX == dx && valueY == dy
      ensures ShownX() == offsetX + dx && ShownY() == offsetY + dy
    {
      valueX, valueY := dx, dy;
    }

    /** On release the record moves to the first-render position plus the gesture's
        displacement, and the pair is re-based there with a zero value. */
    method Release(dx: real, dy: real, screen: EditorScreen.Screen) returns (patch: Patch)
      modifies this`offsetX, this`offsetY, this`valueX, this`valueY, screen`overlays
      ensures patch == MovePatch(itemX + dx, itemY + dy)
      ensures screen.overlays == EditorStore.UpdateOverlay(old(screen.overlays), id, patch)
      ensures offsetX == itemX + dx && offsetY == itemY + dy && valueX == 0.0 && valueY == 0.0
      ensures ShownX() == itemX + dx && ShownY() == itemY + dy
    {
      var newX := itemX + dx;
      var newY := itemY + dy;
      patch := MovePatch(newX, newY);
      screen.UpdateOverlay(id, patch);
      offsetX, offsetY := newX, newY;
      valueX, valueY := 0.0, 0.0;
    }
  }

  // ---------------------------------------------------------------------------
  // Several drags of one overlay, on one axis

  function Sum(ds: seq<real>): real {
    if ds == [] then 0.0 else Sum(ds[..|ds| - 1]) + ds[|ds| - 1]
  }

  /** Where the user drops the overlay after each drag: where it started, moved by
      every displacement so far. */
  function DropPositions(x0: real, ds: seq<real>): (ps: seq<real>)
    ensures |ps| == |ds|
  {
    seq(|ds|, k requires 0 <= k < |ds| => x0 + Sum(ds[..k + 1]))
  }

  /** What the release handler reports after each drag: since it keeps the first
      render's record, always the starting position plus that drag's displacement. */
  function ReportedAsWritten(x0: real, ds: seq<real>): (ps: seq<real>)
    ensures |ps| == |ds|
  {
    seq(|ds|, k requires 0 <= k < |ds| => x0 + ds[k])
  }

  /** Two drags of 10 from 50: the overlay is dropped at 60 and then at 70, but the
      second release stores 60 again, and the overlay jumps back there. */
  lemma StaleReleaseForgetsEarlierDrags()
    ensures DropPositions(50.0, [10.0, 10.0]) == [60.0, 70.0]
    ensures ReportedAsWritten(50.0, [10.0, 10.0]) == [60.0, 60.0]
  {
    var ds := [10.0, 10.0];
    assert ds[..1] == [10.0] && ds[..2] == ds;
    assert Sum([10.0]) == 10.0;
  }

  /** The release handler reading the pair's own offset, with the pair started at the
      record's position: each drag reports the last reported position plus its
      displacement. */
  function ReportedTracking(x0: real, ds: seq<real>): (ps: seq<real>)
    ensures |ps| == |ds|
  {
    if ds == [] then []
    else
      var before := ReportedTracking(x0, ds[..|ds| - 1]);
      var base := if before == [] then x0 else before[|before| - 1];
      before + [base + ds[|ds| - 1]]
  }

  /** Reading the pair's offset instead of the first render's record, every release
      stores the position the overlay was dropped at. */
  lemma {:induction false} TrackingReportsDropPositions(x0: real, ds: seq<real>)
    ensures ReportedTracking(x0, ds) == DropPositions(x0, ds)
    decreases |ds|
  {
    if ds != [] {
      var n := |ds| - 1;
      TrackingReportsDropPositions(x0, ds[..n]);
      var before := ReportedTracking(x0, ds[..n]);
      forall k | 0 <= k < |ds|
        ensures ReportedTracking(x0, ds)[k] == x0 + Sum(ds[..k + 1])
      {
        if k < n {
          assert ds[..n][..k + 1] == ds[..k + 1];
        } else {
          assert ds[..k + 1][..k] == ds[..n];
          if n > 0 {
            assert ds[..n][..n - 1 + 1] == ds[..n];
          }
        }
      }
    }
  }

  /** The same handlers with the release reading the pair's offset: the pair starts
      with the record's position as its offset, and a release reports where the
      overlay is shown. */
  class TrackingGesture {
    const id: string
    var offsetX: real
    var offsetY: real
    var valueX: real
    var valueY: real

    function ShownX(): real
      reads this
    {
      offsetX + valueX
    }

    function ShownY(): real
      reads this
    {
      offsetY + valueY
    }

    constructor(item: Overlay)
      ensures id == item.id && offsetX == item.x && offsetY == item.y && valueX == 0.0 && valueY == 0.0
    {
      id := item.id;
      offsetX, offsetY, valueX, valueY := item.x, item.y, 0.0, 0.0;
    }

    method Move(dx: real, dy: real)
      modifies this`valueX, this`valueY
      ensures valueX == dx && valueY == dy && ShownX() == offsetX + dx && ShownY() == offsetY + dy
    {
      valueX, valueY := dx, dy;
    }

    /** The stored position is the one shown at the end of the drag, and the overlay
        stays shown there. */
    method Release(dx: real, dy: real, screen: EditorScreen.Screen) returns (patch: Patch)
      modifies this`offsetX, this`offsetY, this`valueX, this`valueY, screen`overlays
      ensures patch == MovePatch(old(offsetX) + dx, old(offsetY) + dy)
      ensures screen.overlays == EditorStore.UpdateOverlay(old(screen.overlays), id, patch)
      ensures ShownX() == old(offsetX) + dx && ShownY() == old(offsetY) + dy && valueX == 0.0 && valueY == 0.0
    {
      var newX := offsetX + dx;
      var newY := offsetY + dy;
      patch := MovePatch(newX, newY);
      screen.UpdateOverlay(id, patch);
      offsetX, offsetY := newX, newY;
      valueX, valueY := 0.0, 0.0;
    }
  }

  // ---------------------------------------------------------------------------
  // Driving the handlers over a sequence of horizontal drags

  /** The as-written handlers over several drags: the x each release stores is the one
      ReportedAsWritten lists. */
  method DragsAsWritten(item: Overlay, ds: seq<real>, screen: EditorScreen.Screen) returns (stored: seq<real>)
    modifies screen`overlays
    ensures stored == ReportedAsWritten(item.x, ds)
  {
    var gesture := new Gesture(item);
    stored := [];
    for i := 0 to |ds|
      invariant stored == ReportedAsWritten(item.x, ds[..i])
    {
      gesture.Move(ds[i], 0.0);
      var patch := gesture.Release(ds[i], 0.0, screen);
      stored := stored + [patch.x.value];
    }
    assert ds[..|ds|] == ds;
  }

  /** The tracking handlers over several drags: each release stores where the overlay
      was dropped. */
  method DragsTracking(item: Overlay, ds: seq<real>, screen: EditorScreen.Screen) returns (stored: seq<real>)
    modifies screen`overlays
    ensures stored == ReportedTracking(item.x, ds)
    ensures stored == DropPositions(item.x, ds)
  {
    var gesture := new TrackingGesture(item);
    stored := [];
    for i := 0 to |ds|
      invariant stored == ReportedTracking(item.x, ds[..i])
      invariant gesture.offsetX == (if i == 0 then item.x else stored[i - 1])
    {
      gesture.Move(ds[i], 0.0);
      var patch := gesture.Release(ds[i], 0.0, screen);
      assert ds[..i + 1][..i] == ds[..i];
      stored := stored + [patch.x.value];
    }
    assert ds[..|ds|] == ds;
    TrackingReportsDropPositions(item.x, ds);
  }
}
